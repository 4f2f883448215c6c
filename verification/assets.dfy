/**
 * Assets and asset sources. The asset's value type T is open-ended in the source;
 * here it is a type tag (typeof(T)) beside a value of an uninterpreted payload type.
 */
module Assets {

  /** One entry of the dynamic configuration blob. */
  datatype ConfigValue = IntValue(i: int) | StringValue(s: string) | BoolValue(b: bool)

  /** The dynamic configuration blob: a mapping from names to tagged values, passed through unchanged. */
  type Configuration = map<string, ConfigValue>

  /** The runtime type token typeof(T) of an asset's value type. */
  type TypeTag = string

  /** A materialized value of some asset type. */
  type Payload(==, !new)

  /** A pipeline input: a path and its configuration. */
  datatype AssetSource = AssetSource(path: string, configuration: Configuration)

  /**
   * ProxyAsset<T> of the asset memory manager: it holds no value, only the content hash
   * under which the value was stored; `assetType` is T.
   */
  datatype ProxyAsset = ProxyAsset(identifier: string, configuration: Configuration, assetType: TypeTag, contentSha: string)

  /**
   * IAsset: either an Asset<T> holding its value, or a proxy. Asset<T>'s identifier,
   * configuration and value are those given at construction, and its AssetType is T,
   * fixed at construction and independent of the value.
   */
  datatype Asset =
    | Materialized(identifier: string, configuration: Configuration, assetType: TypeTag, value: Payload)
    | Proxied(proxy: ProxyAsset)
  {
    function Identifier(): string {
      if Materialized? then identifier else proxy.identifier
    }

    function Configuration(): Configuration {
      if Materialized? then configuration else proxy.configuration
    }

    function AssetType(): TypeTag {
      if Materialized? then assetType else proxy.assetType
    }
  }
}
