/**
 * AssetMemoryManager: turns assets into proxies whose values sit, ProtoBuf-encoded, in a
 * content-addressed data cache; loads those values back through a dictionary of weakly
 * held decoded values; and writes proxies as UTF-16LE JSON metadata and reads them back.
 *
 * ProtoBuf and Newtonsoft JSON are not modelled: the manager is given them as functions
 * (Serializers). The garbage collector and the other threads that load concurrently are
 * not modelled either: a load takes what they did meanwhile as a parameter (Interference),
 * so every contract holds whatever they did.
 */
module MemoryManager {

  import opened Wrappers
  import opened Errors
  import opened Hashing
  import opened Assets
  import opened DataCache

  /** ProxyMeta<T>: identifier, content hash and configuration; T travels as the JSON type name. */
  datatype ProxyMeta = ProxyMeta(assetType: TypeTag, identifier: string, contentSha: string, configuration: Configuration)

  /** ProxyAsset<T>.GetMeta. */
  function GetMeta(p: ProxyAsset): (m: ProxyMeta)
    ensures ConstructProxy(m) == p
  {
    ProxyMeta(p.assetType, p.identifier, p.contentSha, p.configuration)
  }

  /** ProxyMeta<T>.ConstructProxy: a ProxyAsset<T> carrying the meta's fields. */
  function ConstructProxy(m: ProxyMeta): (p: ProxyAsset)
    ensures p.assetType == m.assetType && p.contentSha == m.contentSha
    ensures p.identifier == m.identifier && p.configuration == m.configuration
  {
    ProxyAsset(m.identifier, m.configuration, m.assetType, m.contentSha)
  }

  /** A proxy and its meta carry the same information. */
  lemma MetaRoundTrip(p: ProxyAsset, m: ProxyMeta)
    ensures ConstructProxy(GetMeta(p)) == p
    ensures GetMeta(ConstructProxy(m)) == m
  {
  }

  /** What JsonConvert.DeserializeObject gives with type names on: null, a ProxyMeta<T>, or another object. */
  datatype TypedJson = JsonNull | MetaObject(meta: ProxyMeta) | OtherObject

  /** The ProtoBuf serializer for each type T and the JSON serializer with type names on. */
  datatype Serializers = Serializers(
    protoSerialize: (TypeTag, Payload) -> seq<byte>,
    protoDeserialize: (TypeTag, seq<byte>) -> Result<Payload, Error>,
    writeJson: ProxyMeta -> string,
    readJson: string -> Result<TypedJson, Error>)

  /** A decoded value as the runtime holds it: the type it was decoded as, and the value. */
  datatype Boxed = Boxed(runtimeType: TypeTag, payload: Payload)

  /** WeakReference: its target is gone once the garbage collector has cleared it. */
  datatype WeakReference = WeakReference(target: Option<Boxed>)

  /** `_cache`: content hash to weakly held decoded value. */
  type DecodeCache = map<string, WeakReference>

  /** TryGetCached's outcome: nothing live, a live value of the asked type, or a failing cast. */
  datatype Lookup = Miss | Hit(payload: Payload) | WrongType

  /** TryGetCached<T>: a live target is returned cast to T; an absent or cleared entry is a miss. */
  function TryGetCached(cache: DecodeCache, t: TypeTag, hash: string): (r: Lookup)
    ensures r.Miss? <==> hash !in cache || cache[hash].target.None?
    ensures r.Hit? ==> cache[hash].target == Some(Boxed(t, r.payload))
    ensures r.WrongType? ==> cache[hash].target.Some? && cache[hash].target.value.runtimeType != t
  {
    if hash !in cache then Miss
    else match cache[hash].target
      case None => Miss
      case Some(b) => if b.runtimeType == t then Hit(b.payload) else WrongType
  }

  /**
   * What happens around one load without its involvement: the collector clears the targets
   * of `clearedBefore` before the first look-up and those of `clearedMeanwhile` while the
   * content is decoded outside the lock, during which other loads file `insertedMeanwhile`
   * (each where it found no live entry, as LoadContent itself does).
   */
  datatype Interference = Interference(clearedBefore: set<string>, clearedMeanwhile: set<string>, insertedMeanwhile: map<string, Boxed>)

  /** The dictionary after the collector cleared the targets of `cleared`; no key is removed. */
  function Collect(cache: DecodeCache, cleared: set<string>): (c: DecodeCache)
    ensures c.Keys == cache.Keys
    ensures forall h :: h in c && h !in cleared ==> c[h] == cache[h]
    ensures forall h :: h in c && h in cleared ==> c[h].target.None?
  {
    map h | h in cache :: if h in cleared then WeakReference(None) else cache[h]
  }

  /** The dictionary after other loads filed `inserted`, each only where no target was live. */
  function FileWhereDead(cache: DecodeCache, inserted: map<string, Boxed>): (c: DecodeCache)
    ensures c.Keys == cache.Keys + inserted.Keys
    ensures forall h :: h in cache && cache[h].target.Some? ==> c[h] == cache[h]
  {
    map h | h in cache.Keys + inserted.Keys ::
      if h in inserted && (h !in cache || cache[h].target.None?) then WeakReference(Some(inserted[h])) else cache[h]
  }

  /** The result of a load and the dictionary it leaves. */
  datatype Loaded = Loaded(result: Result<Payload, Error>, cache: DecodeCache)

  /**
   * LoadContent<T>(hash): look up under the lock; on a miss read the content, decode it
   * outside the lock, look up again, and file the decoded value only if still nothing
   * live is there. A successful load always leaves a live entry for the hash holding the
   * returned value as a T.
   */
  function LoadOutcome(s: Serializers, files: map<string, seq<byte>>, cache: DecodeCache,
                       t: TypeTag, hash: string, env: Interference): (o: Loaded)
    ensures cache.Keys <= o.cache.Keys
    ensures o.result.Success? ==> hash in o.cache && o.cache[hash].target == Some(Boxed(t, o.result.value))
  {
    var first := Collect(cache, env.clearedBefore);
    match TryGetCached(first, t, hash)
    case Hit(v) => Loaded(Success(v), first)
    case WrongType => Loaded(Failure(InvalidCast), first)
    case Miss =>
      if hash !in files then Loaded(Failure(FileNotFound(hash)), first)
      else
        match s.protoDeserialize(t, files[hash])
        case Failure(e) => Loaded(Failure(e), first)
        case Success(content) =>
          var second := FileWhereDead(Collect(first, env.clearedMeanwhile), env.insertedMeanwhile);
          match TryGetCached(second, t, hash)
          case Hit(v) => Loaded(Success(v), second)
          case WrongType => Loaded(Failure(InvalidCast), second)
          case Miss => Loaded(Success(content), second[hash := WeakReference(Some(Boxed(t, content)))])
  }

  /** What decoding the stored content as a T gives, with no cache in between. */
  function Decoded(s: Serializers, files: map<string, seq<byte>>, t: TypeTag, hash: string): Result<Payload, Error> {
    if hash !in files then Failure(FileNotFound(hash)) else s.protoDeserialize(t, files[hash])
  }

  /** Every live target is what decoding the stored content as its runtime type gives. */
  ghost predicate Coherent(s: Serializers, files: map<string, seq<byte>>, cache: DecodeCache) {
    forall h :: h in cache && cache[h].target.Some? ==>
      Decoded(s, files, cache[h].target.value.runtimeType, h) == Success(cache[h].target.value.payload)
  }

  /** The values other loads file are decoded from the same store. */
  ghost predicate CoherentInserts(s: Serializers, files: map<string, seq<byte>>, inserted: map<string, Boxed>) {
    forall h :: h in inserted ==> Decoded(s, files, inserted[h].runtimeType, h) == Success(inserted[h].payload)
  }

  /** A live entry of the asked type answers the load: the data cache is not consulted and nothing is filed. */
  lemma LiveEntryAnswersLoad(s: Serializers, files1: map<string, seq<byte>>, files2: map<string, seq<byte>>,
                             cache: DecodeCache, t: TypeTag, hash: string, env: Interference)
    requires hash in cache && hash !in env.clearedBefore && cache[hash].target.Some?
    requires cache[hash].target.value.runtimeType == t
    ensures LoadOutcome(s, files1, cache, t, hash, env) == LoadOutcome(s, files2, cache, t, hash, env)
    ensures LoadOutcome(s, files1, cache, t, hash, env).result == Success(cache[hash].target.value.payload)
    ensures LoadOutcome(s, files1, cache, t, hash, env).cache == Collect(cache, env.clearedBefore)
  {
  }

  /**
   * The second look-up: when another load filed a value of the asked type while this one
   * decoded, this load returns that value and files nothing of its own.
   */
  lemma LoadReturnsValueFiledMeanwhile(s: Serializers, files: map<string, seq<byte>>, cache: DecodeCache,
                                       t: TypeTag, hash: string, env: Interference, v: Payload)
    requires TryGetCached(Collect(cache, env.clearedBefore), t, hash).Miss?
    requires hash in files && s.protoDeserialize(t, files[hash]).Success?
    requires hash in env.insertedMeanwhile && env.insertedMeanwhile[hash] == Boxed(t, v)
    ensures LoadOutcome(s, files, cache, t, hash, env).result == Success(v)
    ensures LoadOutcome(s, files, cache, t, hash, env).cache ==
      FileWhereDead(Collect(Collect(cache, env.clearedBefore), env.clearedMeanwhile), env.insertedMeanwhile)
  {
  }

  /**
   * The second look-up: when another load filed a value of another type while this one
   * decoded, the cast fails and this load files nothing of its own.
   */
  lemma LoadFailsOnOtherTypeFiledMeanwhile(s: Serializers, files: map<string, seq<byte>>, cache: DecodeCache,
                                           t: TypeTag, hash: string, env: Interference)
    requires TryGetCached(Collect(cache, env.clearedBefore), t, hash).Miss?
    requires hash in files && s.protoDeserialize(t, files[hash]).Success?
    requires hash in env.insertedMeanwhile && env.insertedMeanwhile[hash].runtimeType != t
    ensures LoadOutcome(s, files, cache, t, hash, env).result == Failure(InvalidCast)
    ensures LoadOutcome(s, files, cache, t, hash, env).cache ==
      FileWhereDead(Collect(Collect(cache, env.clearedBefore), env.clearedMeanwhile), env.insertedMeanwhile)
  {
  }

  /**
   * The second look-up: when nothing was filed under the hash meanwhile, this load files
   * the value it decoded, as a T, and returns it.
   */
  lemma LoadFilesDecodedValue(s: Serializers, files: map<string, seq<byte>>, cache: DecodeCache,
                              t: TypeTag, hash: string, env: Interference)
    requires TryGetCached(Collect(cache, env.clearedBefore), t, hash).Miss?
    requires hash in files && s.protoDeserialize(t, files[hash]).Success?
    requires hash !in env.insertedMeanwhile
    ensures LoadOutcome(s, files, cache, t, hash, env).result == s.protoDeserialize(t, files[hash])
    ensures LoadOutcome(s, files, cache, t, hash, env).cache ==
      FileWhereDead(Collect(Collect(cache, env.clearedBefore), env.clearedMeanwhile), env.insertedMeanwhile)
        [hash := WeakReference(Some(Boxed(t, s.protoDeserialize(t, files[hash]).value)))]
  {
  }

  /** A live entry that the collector left alone is still there, unchanged, after any load. */
  lemma LiveEntrySurvivesLoad(s: Serializers, files: map<string, seq<byte>>, cache: DecodeCache,
                              t: TypeTag, hash: string, env: Interference, h: string)
    requires h in cache && cache[h].target.Some?
    requires h !in env.clearedBefore && h !in env.clearedMeanwhile
    ensures h in LoadOutcome(s, files, cache, t, hash, env).cache
    ensures LoadOutcome(s, files, cache, t, hash, env).cache[h] == cache[h]
  {
  }

  /**
   * With a coherent dictionary, a load gives exactly what decoding the stored content gives,
   * unless a live value of another type sits under the hash (the cast to T fails), and the
   * dictionary stays coherent.
   */
  lemma CoherentLoad(s: Serializers, files: map<string, seq<byte>>, cache: DecodeCache,
                     t: TypeTag, hash: string, env: Interference)
    requires Coherent(s, files, cache)
    requires CoherentInserts(s, files, env.insertedMeanwhile)
    ensures Coherent(s, files, LoadOutcome(s, files, cache, t, hash, env).cache)
    ensures var r := LoadOutcome(s, files, cache, t, hash, env).result;
      r == Decoded(s, files, t, hash) || (r == Failure(InvalidCast) && hash in files)
  {
    var first := Collect(cache, env.clearedBefore);
    assert Coherent(s, files, first);
    if TryGetCached(first, t, hash).Miss? && hash in files && s.protoDeserialize(t, files[hash]).Success? {
      var second := FileWhereDead(Collect(first, env.clearedMeanwhile), env.insertedMeanwhile);
      assert Coherent(s, files, Collect(first, env.clearedMeanwhile));
      assert Coherent(s, files, second);
    }
  }

  /** Asset<T>.Load gives the value it holds; ProxyAsset<T>.Load is LoadContent<T> of its own hash. */
  function LoadAssetOutcome(s: Serializers, files: map<string, seq<byte>>, cache: DecodeCache,
                            a: Asset, env: Interference): (o: Loaded)
    ensures a.Materialized? ==> o == Loaded(Success(a.value), cache)
  {
    if a.Materialized? then Loaded(Success(a.value), cache)
    else LoadOutcome(s, files, cache, a.proxy.assetType, a.proxy.contentSha, env)
  }

  /** The result of creating a proxy, the data cache's dictionary and the decode dictionary it leaves. */
  datatype Created = Created(result: Result<ProxyAsset, Error>, files: map<string, seq<byte>>, cache: DecodeCache)

  /**
   * CreateProxy<T>(asset): load the value, store its ProtoBuf encoding, and return a proxy
   * with the asset's identifier, configuration and type and the hash the store returned.
   * A failed load stores nothing.
   */
  function CreateOutcome(s: Serializers, sha: Sha256, files: map<string, seq<byte>>, cache: DecodeCache,
                         a: Asset, env: Interference): (c: Created)
    ensures c.result.Success? ==>
      c.result.value.identifier == a.Identifier() &&
      c.result.value.configuration == a.Configuration() &&
      c.result.value.assetType == a.AssetType() &&
      c.result.value.contentSha in c.files
    ensures c.result.Failure? ==> c.files == files
  {
    var loaded := LoadAssetOutcome(s, files, cache, a, env);
    match loaded.result
    case Failure(e) => Created(Failure(e), files, loaded.cache)
    case Success(v) =>
      var bytes := s.protoSerialize(a.AssetType(), v);
      Created(Success(ProxyAsset(a.Identifier(), a.Configuration(), a.AssetType(), ContentName(sha, bytes))),
              Stored(sha, files, bytes), loaded.cache)
  }

  /** The stored bytes do not collide with different bytes already filed under the same name. */
  ghost predicate NoCollisionWith(sha: Sha256, files: map<string, seq<byte>>, bytes: seq<byte>) {
    ContentName(sha, bytes) in files ==> files[ContentName(sha, bytes)] == bytes
  }

  /** The value a proxy is created from, as the asset loads it. */
  function SourceValue(s: Serializers, files: map<string, seq<byte>>, cache: DecodeCache, a: Asset, env: Interference): Result<Payload, Error> {
    LoadAssetOutcome(s, files, cache, a, env).result
  }

  /**
   * Creating a proxy keeps the decode dictionary coherent with the data cache, provided the
   * new content does not collide with different content of the same digest.
   */
  lemma CreateKeepsCoherent(s: Serializers, sha: Sha256, files: map<string, seq<byte>>, cache: DecodeCache,
                            a: Asset, env: Interference)
    requires Coherent(s, files, cache) && CoherentInserts(s, files, env.insertedMeanwhile)
    requires SourceValue(s, files, cache, a, env).Success? ==>
      NoCollisionWith(sha, files, s.protoSerialize(a.AssetType(), SourceValue(s, files, cache, a, env).value))
    ensures var c := CreateOutcome(s, sha, files, cache, a, env); Coherent(s, c.files, c.cache)
  {
    var loaded := LoadAssetOutcome(s, files, cache, a, env);
    if a.Proxied? {
      CoherentLoad(s, files, cache, a.proxy.assetType, a.proxy.contentSha, env);
    }
    assert Coherent(s, files, loaded.cache);
    if loaded.result.Success? {
      var bytes := s.protoSerialize(a.AssetType(), loaded.result.value);
      var after := Stored(sha, files, bytes);
      forall h | h in loaded.cache && loaded.cache[h].target.Some?
        ensures Decoded(s, after, loaded.cache[h].target.value.runtimeType, h) == Success(loaded.cache[h].target.value.payload)
      {
        assert h in files;
      }
    }
  }

  /**
   * Loading the proxy CreateProxy returned gives back the value it was created from, when
   * ProtoBuf decodes what it encoded for that type and the dictionary is coherent; the
   * only other outcome is the failing cast of a live value of another type with the same
   * encoding.
   */
  lemma CreatedProxyLoadsBack(s: Serializers, sha: Sha256, files: map<string, seq<byte>>, cache: DecodeCache,
                              a: Asset, env: Interference, later: Interference)
    requires Coherent(s, files, cache) && CoherentInserts(s, files, env.insertedMeanwhile)
    requires SourceValue(s, files, cache, a, env).Success?
    requires var bytes := s.protoSerialize(a.AssetType(), SourceValue(s, files, cache, a, env).value);
      NoCollisionWith(sha, files, bytes) &&
      s.protoDeserialize(a.AssetType(), bytes) == SourceValue(s, files, cache, a, env)
    requires CoherentInserts(s, CreateOutcome(s, sha, files, cache, a, env).files, later.insertedMeanwhile)
    ensures var c := CreateOutcome(s, sha, files, cache, a, env);
      var back := LoadOutcome(s, c.files, c.cache, c.result.value.assetType, c.result.value.contentSha, later).result;
      back == SourceValue(s, files, cache, a, env) || back == Failure(InvalidCast)
  {
    var c := CreateOutcome(s, sha, files, cache, a, env);
    CreateKeepsCoherent(s, sha, files, cache, a, env);
    CoherentLoad(s, c.files, c.cache, c.result.value.assetType, c.result.value.contentSha, later);
  }

  /** SerializeProxy: the proxy's meta as JSON with type names, in UTF-16LE. */
  function SerializeProxy(s: Serializers, p: ProxyAsset): (bytes: seq<byte>)
    ensures |bytes| % 2 == 0
  {
    Utf16LE(s.writeJson(GetMeta(p)))
  }

  /**
   * DeserializeProxy: decode the UTF-16LE text and read it as JSON with type names; the
   * cast to IProxyMeta fails for another object and `meta.ContentSha` for null. A proxy
   * is built only when the data cache has its content; otherwise the answer is null.
   */
  function DeserializeProxy(s: Serializers, files: map<string, seq<byte>>, encoded: seq<byte>): (r: Result<Option<ProxyAsset>, Error>)
    ensures r.Success? ==> s.readJson(Utf16LEDecode(encoded)).Success? && s.readJson(Utf16LEDecode(encoded)).value.MetaObject?
    ensures r.Success? && r.value.Some? ==> r.value.value.contentSha in files
    ensures r.Success? ==> (r.value.None? <==> s.readJson(Utf16LEDecode(encoded)).value.meta.contentSha !in files)
    ensures r.Success? && r.value.Some? ==> r.value.value == ConstructProxy(s.readJson(Utf16LEDecode(encoded)).value.meta)
  {
    match s.readJson(Utf16LEDecode(encoded))
    case Failure(e) => Failure(e)
    case Success(JsonNull) => Failure(NullReference)
    case Success(OtherObject) => Failure(InvalidCast)
    case Success(MetaObject(meta)) =>
      if meta.contentSha !in files then Success(None) else Success(Some(ConstructProxy(meta)))
  }

  /**
   * A serialized proxy reads back as the same proxy when its content is in the data cache,
   * and as null when it is not, provided the JSON serializer reads back what it wrote.
   */
  lemma ProxyRoundTrip(s: Serializers, files: map<string, seq<byte>>, p: ProxyAsset)
    requires s.readJson(s.writeJson(GetMeta(p))) == Success(MetaObject(GetMeta(p)))
    ensures p.contentSha in files ==> DeserializeProxy(s, files, SerializeProxy(s, p)) == Success(Some(p))
    ensures p.contentSha !in files ==> DeserializeProxy(s, files, SerializeProxy(s, p)) == Success(None)
  {
    Utf16RoundTrip(s.writeJson(GetMeta(p)));
  }

  /** What the untyped JsonConvert.DeserializeObject gives: null, or a JObject, JArray or JValue. */
  datatype UntypedJson = UntypedNull | UntypedObject | UntypedArray | UntypedValue

  /** The legacy SerializeProxy: the meta as JSON without type names, in UTF-16LE. */
  function LegacySerializeProxy(writeUntyped: ProxyMeta -> string, p: ProxyAsset): (bytes: seq<byte>)
    ensures |bytes| % 2 == 0
  {
    Utf16LE(writeUntyped(GetMeta(p)))
  }

  /**
   * The legacy DeserializeProxy: without type names the JSON reads back as a JObject (or
   * another JToken, or null), and the cast to IProxyMeta or the read of `ContentSha` throws,
   * so it never yields a proxy and never gets as far as asking the data cache.
   */
  function LegacyDeserializeProxy(readUntyped: string -> Result<UntypedJson, Error>, encoded: seq<byte>): (r: Result<Option<ProxyAsset>, Error>)
    ensures r.Failure?
    ensures readUntyped(Utf16LEDecode(encoded)).Success? ==> r.error == NullReference || r.error == InvalidCast
  {
    match readUntyped(Utf16LEDecode(encoded))
    case Failure(e) => Failure(e)
    case Success(UntypedNull) => Failure(NullReference)
    case Success(_) => Failure(InvalidCast)
  }

  /** The legacy proxy round trip fails for every proxy, whatever the data cache holds. */
  lemma LegacyProxyNeverReadsBack(writeUntyped: ProxyMeta -> string, readUntyped: string -> Result<UntypedJson, Error>, p: ProxyAsset)
    requires readUntyped(writeUntyped(GetMeta(p))) == Success(UntypedObject)
    ensures LegacyDeserializeProxy(readUntyped, LegacySerializeProxy(writeUntyped, p)) == Failure(InvalidCast)
  {
    Utf16RoundTrip(writeUntyped(GetMeta(p)));
  }

  /** An entry of `_invokerCache`: CreateProxy<T> bound to one T. */
  datatype Invoker = CreateProxyAs(assetType: TypeTag)

  class AssetMemoryManager {

    /** `_storage`, shared with whoever else holds the data cache. */
    const storage: MemoryDataCache
    const serializers: Serializers
    /** `_cache`. */
    var cache: DecodeCache
    /** `_invokerCache`: runtime type to the CreateProxy<T> bound to it. */
    var invokers: map<TypeTag, Invoker>

    ghost predicate Valid()
      reads this, storage
    {
      storage.Valid() && forall t :: t in invokers ==> invokers[t] == CreateProxyAs(t)
    }

    constructor (storage: MemoryDataCache, serializers: Serializers)
      requires storage.Valid()
      ensures this.storage == storage && this.serializers == serializers
      ensures cache == map[] && invokers == map[]
      ensures Valid()
    {
      this.storage := storage;
      this.serializers := serializers;
      cache := map[];
      invokers := map[];
    }

    /** LoadContent<T>(hash), with `env` saying what the collector and other loads did meanwhile. */
    method LoadContent(t: TypeTag, hash: string, env: Interference) returns (r: Result<Payload, Error>)
      modifies this
      ensures invokers == old(invokers)
      ensures Loaded(r, cache) == LoadOutcome(serializers, storage.files, old(cache), t, hash, env)
    {
      cache := Collect(cache, env.clearedBefore);
      var first := TryGetCached(cache, t, hash);
      if first.Hit? {
        return Success(first.payload);
      } else if first.WrongType? {
        return Failure(InvalidCast);
      }
      var stream := storage.Open(hash);
      if stream.Failure? {
        return Failure(stream.error);
      }
      var content := serializers.protoDeserialize(t, stream.value);
      if content.Failure? {
        return Failure(content.error);
      }
      cache := FileWhereDead(Collect(cache, env.clearedMeanwhile), env.insertedMeanwhile);
      var second := TryGetCached(cache, t, hash);
      if second.Hit? {
        return Success(second.payload);
      } else if second.WrongType? {
        return Failure(InvalidCast);
      }
      cache := cache[hash := WeakReference(Some(Boxed(t, content.value)))];
      r := Success(content.value);
    }

    /** IAsset<T>.Load of a materialized asset or of one of this manager's proxies. */
    method Load(a: Asset, env: Interference) returns (r: Result<Payload, Error>)
      modifies this
      ensures invokers == old(invokers)
      ensures Loaded(r, cache) == LoadAssetOutcome(serializers, storage.files, old(cache), a, env)
    {
      if a.Materialized? {
        return Success(a.value);
      }
      r := LoadContent(a.proxy.assetType, a.proxy.contentSha, env);
    }

    /** CreateProxy<T>(asset): T is the asset's own type. */
    method CreateProxyOf(t: TypeTag, a: Asset, env: Interference) returns (r: Result<ProxyAsset, Error>)
      requires Valid() && a.AssetType() == t
      modifies this, storage
      ensures Valid()
      ensures invokers == old(invokers)
      ensures Created(r, storage.files, cache) == CreateOutcome(serializers, storage.sha, old(storage.files), old(cache), a, env)
    {
      var content := Load(a, env);
      if content.Failure? {
        return Failure(content.error);
      }
      var hash := storage.Store(serializers.protoSerialize(t, content.value));
      r := Success(ProxyAsset(a.Identifier(), a.Configuration(), t, hash));
    }

    /**
     * CreateProxy(IAsset): find the CreateProxy<T> bound to the asset's runtime type,
     * binding and remembering it the first time that type is seen, and call it.
     */
    method CreateProxy(a: Asset, env: Interference) returns (r: Result<ProxyAsset, Error>)
      requires Valid()
      modifies this, storage
      ensures Valid()
      ensures invokers == old(invokers)[a.AssetType() := CreateProxyAs(a.AssetType())]
      ensures Created(r, storage.files, cache) == CreateOutcome(serializers, storage.sha, old(storage.files), old(cache), a, env)
    {
      var t := a.AssetType();
      if t !in invokers {
        invokers := invokers[t := CreateProxyAs(t)];
      }
      var invoker := invokers[t];
      r := CreateProxyOf(invoker.assetType, a, env);
    }
  }
}
