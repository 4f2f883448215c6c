/**
 * The build pipeline: a PipelineBuilder collects importers, processors and a packager;
 * the BuildPipeline it builds walks a build configuration package by package and bundle
 * by bundle, imports each asset source with the first importer whose filter matches its
 * path, runs the processor registered for each imported asset's type, and hands each
 * package's bundles to the packager.
 *
 * Importers, processors and the packager are host code: they are functions here. Regex
 * filters are predicates on paths. The asset sources of a bundle are built in batches of
 * Environment.ProcessorCount concurrently; the model builds them one after another, which
 * gives the same results in the same order, and takes the batch size as a parameter.
 */
module Pipeline {

  import opened Wrappers
  import opened Errors
  import opened Assets
  import opened Processors

  datatype BundleConfiguration = BundleConfiguration(name: string, assets: seq<AssetSource>)

  datatype PackageConfiguration = PackageConfiguration(name: string, bundles: seq<BundleConfiguration>)

  datatype BuildConfiguration = BuildConfiguration(packages: seq<PackageConfiguration>)

  /** AssetBundle: a name and the bundle's assets. */
  datatype AssetBundle = AssetBundle(name: string, assets: seq<Asset>)

  /** IAssetImporter: its Filter's IsMatch on paths, and Import. */
  datatype Importer = Importer(filter: string -> bool, importSource: AssetSource -> Result<seq<Asset>, Error>)

  /** IAssetPackager.Package: None when it completes, the exception when it throws. */
  datatype Packager = Packager(package: (string, seq<AssetBundle>) -> Option<Error>)

  /** One call to the packager: the package name and the bundles it was handed. */
  datatype Delivery = Delivery(name: string, bundles: seq<AssetBundle>)

  /** The calls a build made to the packager, in order, and the exception it ended with, if any. */
  datatype Trace = Trace(calls: seq<Delivery>, failure: Option<Error>)

  /** `_importers.FirstOrDefault(i => i.Filter.IsMatch(path))`, as a position in the list. */
  function FirstMatch(importers: seq<Importer>, path: string): (r: Option<nat>)
    ensures r.Some? ==> (r.value < |importers| && importers[r.value].filter(path) &&
      forall j :: 0 <= j < r.value ==> !importers[j].filter(path))
    ensures r.None? ==> forall j :: 0 <= j < |importers| ==> !importers[j].filter(path)
    decreases |importers|
  {
    if |importers| == 0 then None
    else if importers[0].filter(path) then Some(0)
    else
      match FirstMatch(importers[1..], path)
      case None => None
      case Some(j) => Some(j + 1)
  }

  /** ImportAsset: the first matching importer's assets; no matching importer gives no assets, not an error. */
  function ImportAsset(importers: seq<Importer>, source: AssetSource): (r: Result<seq<Asset>, Error>)
    ensures (forall j :: 0 <= j < |importers| ==> !importers[j].filter(source.path)) ==> r == Success([])
    ensures forall j ::
      (0 <= j < |importers| && importers[j].filter(source.path) &&
       (forall j' :: 0 <= j' < j ==> !importers[j'].filter(source.path))) ==> r == importers[j].importSource(source)
  {
    match FirstMatch(importers, source.path)
    case None => Success([])
    case Some(j) => importers[j].importSource(source)
  }

  /** Every processor of the table is registered under its own input type. */
  ghost predicate KeyedByInput(table: map<TypeTag, Processor>) {
    forall t :: t in table ==> table[t].inType == t
  }

  /**
   * ProcessAsset: the processor registered for the asset's runtime type, which in a table
   * keyed by input type is a processor for exactly that type; an asset of an unregistered
   * type comes back unchanged.
   */
  function ProcessAsset(table: map<TypeTag, Processor>, asset: Asset): (r: Result<Asset, Error>)
    ensures asset.AssetType() !in table ==> r == Success(asset)
    ensures asset.AssetType() in table ==> r == table[asset.AssetType()].process(asset)
    ensures KeyedByInput(table) && asset.AssetType() in table ==> table[asset.AssetType()].inType == asset.AssetType()
  {
    if asset.AssetType() in table then table[asset.AssetType()].process(asset) else Success(asset)
  }

  /** With well-typed processors, a processed asset has its processor's output type, or keeps its own. */
  lemma ProcessAssetType(table: map<TypeTag, Processor>, asset: Asset)
    requires KeyedByInput(table)
    requires forall t :: t in table ==> WellTyped(table[t])
    requires ProcessAsset(table, asset).Success?
    ensures asset.AssetType() in table ==> ProcessAsset(table, asset).value.AssetType() == table[asset.AssetType()].outType
    ensures asset.AssetType() !in table ==> ProcessAsset(table, asset).value == asset
  {
    if asset.AssetType() in table {
      assert WellTyped(table[asset.AssetType()]);
    }
  }

  /**
   * `Task.WhenAll(imported.Select(a => ProcessAsset(a)))`: one processed asset per
   * imported asset, in order; the exception of the first failing one otherwise.
   */
  function ProcessAll(table: map<TypeTag, Processor>, assets: seq<Asset>): (r: Result<seq<Asset>, Error>)
    ensures r.Success? <==> forall i :: 0 <= i < |assets| ==> ProcessAsset(table, assets[i]).Success?
    ensures r.Success? ==> (|r.value| == |assets| &&
      forall i :: 0 <= i < |assets| ==> ProcessAsset(table, assets[i]) == Success(r.value[i]))
    ensures r.Failure? ==> exists i ::
      (0 <= i < |assets| && ProcessAsset(table, assets[i]) == Failure(r.error) &&
       forall j :: 0 <= j < i ==> ProcessAsset(table, assets[j]).Success?)
    decreases |assets|
  {
    if |assets| == 0 then Success([])
    else
      match ProcessAsset(table, assets[0])
      case Failure(e) => Failure(e)
      case Success(first) =>
        match ProcessAll(table, assets[1..])
        case Failure(e) =>
          assert exists i ::
            (0 <= i < |assets| - 1 && ProcessAsset(table, assets[1..][i]) == Failure(e) &&
             forall j :: 0 <= j < i ==> ProcessAsset(table, assets[1..][j]).Success?);
          Failure(e)
        case Success(rest) => Success([first] + rest)
  }

  /**
   * BuildAsset: import the source, then process every imported asset: one processed asset
   * per imported asset, in order; the import's exception, or else that of the first asset
   * whose processing failed.
   */
  function BuildAsset(importers: seq<Importer>, table: map<TypeTag, Processor>, source: AssetSource): (r: Result<seq<Asset>, Error>)
    ensures ImportAsset(importers, source).Failure? ==> r == Failure(ImportAsset(importers, source).error)
    ensures ImportAsset(importers, source).Success? ==>
      var imported := ImportAsset(importers, source).value;
      (r.Success? <==> forall i :: 0 <= i < |imported| ==> ProcessAsset(table, imported[i]).Success?) &&
      (r.Success? ==> (|r.value| == |imported| &&
        forall i :: 0 <= i < |imported| ==> ProcessAsset(table, imported[i]) == Success(r.value[i]))) &&
      (r.Failure? ==> exists i ::
        (0 <= i < |imported| && ProcessAsset(table, imported[i]) == Failure(r.error) &&
         forall j :: 0 <= j < i ==> ProcessAsset(table, imported[j]).Success?))
  {
    match ImportAsset(importers, source)
    case Failure(e) => Failure(e)
    case Success(imported) => ProcessAll(table, imported)
  }

  /** Two builds' assets one after the other, or the exception of the first that failed. */
  function Join(a: Result<seq<Asset>, Error>, b: Result<seq<Asset>, Error>): Result<seq<Asset>, Error> {
    if a.Failure? then a else if b.Failure? then b else Success(a.value + b.value)
  }

  lemma JoinAssociative(a: Result<seq<Asset>, Error>, b: Result<seq<Asset>, Error>, c: Result<seq<Asset>, Error>)
    ensures Join(a, Join(b, c)) == Join(Join(a, b), c)
  {
    if a.Success? && b.Success? && c.Success? {
      assert a.value + (b.value + c.value) == (a.value + b.value) + c.value;
    }
  }

  /** BuildAsset with the pipeline's importers and processors fixed. */
  function AssetBuilder(importers: seq<Importer>, table: map<TypeTag, Processor>): AssetSource -> Result<seq<Asset>, Error> {
    (source: AssetSource) => BuildAsset(importers, table, source)
  }

  /** The assets built from `sources`, concatenated in order, or the first source's exception. */
  function BuildSources(build: AssetSource -> Result<seq<Asset>, Error>, sources: seq<AssetSource>): Result<seq<Asset>, Error>
    decreases |sources|
  {
    if |sources| == 0 then Success([])
    else Join(build(sources[0]), BuildSources(build, sources[1..]))
  }

  /** A bundle's sources build exactly when each of them builds on its own. */
  lemma {:induction false} BuildSourcesSucceedIffEach(build: AssetSource -> Result<seq<Asset>, Error>, sources: seq<AssetSource>)
    ensures BuildSources(build, sources).Success? <==>
      forall i :: 0 <= i < |sources| ==> build(sources[i]).Success?
    decreases |sources|
  {
    if |sources| > 0 {
      BuildSourcesSucceedIffEach(build, sources[1..]);
      assert forall i :: 0 < i < |sources| ==> sources[1..][i - 1] == sources[i];
    }
  }

  /** The assets each source builds, in configured order. */
  function EachBuilt(build: AssetSource -> Result<seq<Asset>, Error>, sources: seq<AssetSource>): seq<seq<Asset>>
    requires forall i :: 0 <= i < |sources| ==> build(sources[i]).Success?
  {
    seq(|sources|, i requires 0 <= i < |sources| => build(sources[i]).value)
  }

  /** When every source builds, the bundle's assets are each source's assets, concatenated in configured order. */
  lemma {:induction false} BuildSourcesIsConcatenation(build: AssetSource -> Result<seq<Asset>, Error>, sources: seq<AssetSource>)
    requires forall i :: 0 <= i < |sources| ==> build(sources[i]).Success?
    ensures BuildSources(build, sources) == Success(Flatten(EachBuilt(build, sources)))
    decreases |sources|
  {
    if |sources| > 0 {
      var rest := sources[1..];
      assert forall i :: 0 <= i < |rest| ==> rest[i] == sources[i + 1];
      BuildSourcesIsConcatenation(build, rest);
      assert EachBuilt(build, sources)[1..] == EachBuilt(build, rest);
    }
  }

  /** Building two runs of sources one after the other is building their concatenation. */
  lemma {:induction false} BuildSourcesAppend(build: AssetSource -> Result<seq<Asset>, Error>, x: seq<AssetSource>, y: seq<AssetSource>)
    ensures BuildSources(build, x + y) == Join(BuildSources(build, x), BuildSources(build, y))
    decreases |x|
  {
    if |x| == 0 {
      assert x + y == y;
      if BuildSources(build, y).Success? {
        assert [] + BuildSources(build, y).value == BuildSources(build, y).value;
      }
    } else {
      assert (x + y)[0] == x[0];
      assert (x + y)[1..] == x[1..] + y;
      BuildSourcesAppend(build, x[1..], y);
      JoinAssociative(build(x[0]), BuildSources(build, x[1..]), BuildSources(build, y));
    }
  }

  /** The sequences of `xss`, concatenated in order. */
  function Flatten<T>(xss: seq<seq<T>>): seq<T>
    decreases |xss|
  {
    if |xss| == 0 then [] else xss[0] + Flatten(xss[1..])
  }

  lemma {:induction false} FlattenAppend<T>(x: seq<seq<T>>, y: seq<seq<T>>)
    ensures Flatten(x + y) == Flatten(x) + Flatten(y)
    decreases |x|
  {
    if |x| == 0 {
      assert x + y == y;
    } else {
      assert (x + y)[0] == x[0];
      assert (x + y)[1..] == x[1..] + y;
      FlattenAppend(x[1..], y);
    }
  }

  lemma FlattenSingleton<T>(x: seq<T>)
    ensures Flatten([x]) == x
  {
    assert [x][1..] == [];
    assert x + [] == x;
  }

  /**
   * MoreLinq's Batch: consecutive runs of `size` elements, the last one possibly shorter;
   * put back together they are the original sequence.
   */
  function Batch<T>(xs: seq<T>, size: nat): (batches: seq<seq<T>>)
    requires size > 0
    ensures forall b :: 0 <= b < |batches| ==> 0 < |batches[b]| <= size
    ensures Flatten(batches) == xs
    decreases |xs|
  {
    if |xs| == 0 then []
    else if |xs| <= size then
      assert Flatten([xs]) == xs + Flatten([xs][1..]);
      [xs]
    else
      var rest := Batch(xs[size..], size);
      assert Flatten([xs[..size]] + rest) == xs[..size] + Flatten(rest) by {
        assert ([xs[..size]] + rest)[1..] == rest;
      }
      assert xs[..size] + xs[size..] == xs;
      [xs[..size]] + rest
  }

  /** A bundle: its name and the assets built from its sources, in order. */
  function BuildBundleResult(build: AssetSource -> Result<seq<Asset>, Error>, bundle: BundleConfiguration): Result<AssetBundle, Error> {
    match BuildSources(build, bundle.assets)
    case Failure(e) => Failure(e)
    case Success(assets) => Success(AssetBundle(bundle.name, assets))
  }

  /** The bundles of a package, built in configured order, or the first exception. */
  function BuildBundles(build: AssetSource -> Result<seq<Asset>, Error>, bundles: seq<BundleConfiguration>): Result<seq<AssetBundle>, Error>
    decreases |bundles|
  {
    if |bundles| == 0 then Success([])
    else
      match BuildBundles(build, bundles[..|bundles| - 1])
      case Failure(e) => Failure(e)
      case Success(prev) =>
        match BuildBundleResult(build, bundles[|bundles| - 1])
        case Failure(e) => Failure(e)
        case Success(b) => Success(prev + [b])
  }

  /** A package's bundles, when they all build, are one per configured bundle, in configured order. */
  lemma {:induction false} BuildBundlesInOrder(build: AssetSource -> Result<seq<Asset>, Error>, bundles: seq<BundleConfiguration>)
    requires BuildBundles(build, bundles).Success?
    ensures var built := BuildBundles(build, bundles).value;
      |built| == |bundles| &&
      forall i :: 0 <= i < |bundles| ==> BuildBundleResult(build, bundles[i]) == Success(built[i])
    decreases |bundles|
  {
    if |bundles| > 0 {
      var n := |bundles| - 1;
      var prefix := bundles[..n];
      BuildBundlesInOrder(build, prefix);
      var prev := BuildBundles(build, prefix).value;
      var last := BuildBundleResult(build, bundles[n]).value;
      assert BuildBundles(build, bundles).value == prev + [last];
      forall i | 0 <= i < |bundles|
        ensures BuildBundleResult(build, bundles[i]) == Success((prev + [last])[i])
      {
        if i < n {
          assert prefix[i] == bundles[i];
        }
      }
    }
  }

  lemma {:induction false} BundlesFirstFailure(build: AssetSource -> Result<seq<Asset>, Error>, bundles: seq<BundleConfiguration>, i: int)
    requires 0 <= i <= |bundles|
    requires BuildBundles(build, bundles[..i]).Failure?
    ensures BuildBundles(build, bundles) == BuildBundles(build, bundles[..i])
    decreases |bundles| - i
  {
    if i < |bundles| {
      assert bundles[..i + 1][..i] == bundles[..i];
      BundlesFirstFailure(build, bundles, i + 1);
    } else {
      assert bundles[..i] == bundles;
    }
  }

  /**
   * BuildPackage: all bundles first; then exactly one call to the packager with the package
   * name and every bundle in configured order. A null packager throws NullReferenceException
   * only after the bundles are built.
   */
  function PackageTrace(packager: Option<Packager>, build: AssetSource -> Result<seq<Asset>, Error>,
                        package: PackageConfiguration): (t: Trace)
    ensures |t.calls| <= 1
    ensures |t.calls| == 1 <==> BuildBundles(build, package.bundles).Success? && packager.Some?
    ensures |t.calls| == 1 ==> t.calls[0] == Delivery(package.name, BuildBundles(build, package.bundles).value)
    ensures t.calls == [] ==> t.failure.Some?
  {
    match BuildBundles(build, package.bundles)
    case Failure(e) => Trace([], Some(e))
    case Success(bundles) =>
      if packager.None? then Trace([], Some(NullReference))
      else Trace([Delivery(package.name, bundles)], packager.value.package(package.name, bundles))
  }

  /** Build: the packages one after another, in configured order, stopping at the first exception. */
  function BuildTrace(packager: Option<Packager>, build: AssetSource -> Result<seq<Asset>, Error>,
                      packages: seq<PackageConfiguration>): Trace
    decreases |packages|
  {
    if |packages| == 0 then Trace([], None)
    else
      var prev := BuildTrace(packager, build, packages[..|packages| - 1]);
      if prev.failure.Some? then prev
      else
        var last := PackageTrace(packager, build, packages[|packages| - 1]);
        Trace(prev.calls + last.calls, last.failure)
  }

  /** Once a prefix of the packages has failed, the later packages add no packager call. */
  lemma {:induction false} BuildStopsAtFirstFailure(packager: Option<Packager>, build: AssetSource -> Result<seq<Asset>, Error>,
                                                    packages: seq<PackageConfiguration>, i: int)
    requires 0 <= i <= |packages|
    requires BuildTrace(packager, build, packages[..i]).failure.Some?
    ensures BuildTrace(packager, build, packages) == BuildTrace(packager, build, packages[..i])
    decreases |packages| - i
  {
    if i < |packages| {
      assert packages[..i + 1][..i] == packages[..i];
      BuildStopsAtFirstFailure(packager, build, packages, i + 1);
    } else {
      assert packages[..i] == packages;
    }
  }

  /** A build without exception calls the packager once per package, in configured order. */
  lemma {:induction false} BuildDeliversInOrder(packager: Option<Packager>, build: AssetSource -> Result<seq<Asset>, Error>,
                                                packages: seq<PackageConfiguration>)
    requires BuildTrace(packager, build, packages).failure.None?
    ensures var t := BuildTrace(packager, build, packages);
      |t.calls| == |packages| &&
      forall i :: 0 <= i < |packages| ==>
        PackageTrace(packager, build, packages[i]) == Trace([t.calls[i]], None) &&
        t.calls[i].name == packages[i].name
    decreases |packages|
  {
    if |packages| > 0 {
      var n := |packages| - 1;
      var prev := BuildTrace(packager, build, packages[..n]);
      var last := PackageTrace(packager, build, packages[n]);
      BuildDeliversInOrder(packager, build, packages[..n]);
      assert |last.calls| == 1;
      forall i | 0 <= i < |packages|
        ensures PackageTrace(packager, build, packages[i]) ==
          Trace([BuildTrace(packager, build, packages).calls[i]], None)
      {
        if i < n {
          assert packages[..n][i] == packages[i];
        }
      }
    }
  }

  /**
   * The loop of BuildBundle: the sources in batches of `batchSize`, each batch's assets
   * appended in order. The result is the same for every batch size.
   */
  method BuildInBatches(build: AssetSource -> Result<seq<Asset>, Error>, sources: seq<AssetSource>, batchSize: nat)
    returns (r: Result<seq<Asset>, Error>)
    requires batchSize > 0
    ensures r == BuildSources(build, sources)
  {
    var bundleAssets: seq<Asset> := [];
    var batches := Batch(sources, batchSize);
    for b := 0 to |batches|
      invariant BuildSources(build, Flatten(batches[..b])) == Success(bundleAssets)
    {
      var assets := BuildSources(build, batches[b]);
      assert batches[..b + 1] == batches[..b] + [batches[b]];
      FlattenAppend(batches[..b], [batches[b]]);
      FlattenSingleton(batches[b]);
      BuildSourcesAppend(build, Flatten(batches[..b]), batches[b]);
      if assets.Failure? {
        assert batches == batches[..b + 1] + batches[b + 1..];
        FlattenAppend(batches[..b + 1], batches[b + 1..]);
        BuildSourcesAppend(build, Flatten(batches[..b + 1]), Flatten(batches[b + 1..]));
        return Failure(assets.error);
      }
      bundleAssets := bundleAssets + assets.value;
    }
    assert batches[..|batches|] == batches;
    r := Success(bundleAssets);
  }

  /** `_importers`: the list a builder and every pipeline it built share. */
  class ImporterList {
    var items: seq<Importer>

    constructor ()
      ensures items == []
    {
      items := [];
    }
  }

  /** `_processors`: input type to processor, shared like the importer list. */
  class ProcessorTable {
    var entries: map<TypeTag, Processor>

    constructor ()
      ensures entries == map[]
    {
      entries := map[];
    }
  }

  class PipelineBuilder {

    /** `_packager`: null until a packager is used. */
    var packager: Option<Packager>
    const importers: ImporterList
    const processors: ProcessorTable

    ghost predicate Valid()
      reads this, processors
    {
      KeyedByInput(processors.entries)
    }

    /** PipelineBuilder.Start: no packager, no importers, no processors; the name is not kept. */
    constructor Start(name: string)
      ensures packager.None? && importers.items == [] && processors.entries == map[]
      ensures fresh(importers) && fresh(processors)
      ensures Valid()
    {
      packager := None;
      importers := new ImporterList();
      processors := new ProcessorTable();
    }

    /** Use(importer): appended, so importers are tried in registration order. */
    method UseImporter(importer: Importer)
      modifies importers
      ensures importers.items == old(importers.items) + [importer]
    {
      importers.items := importers.items + [importer];
    }

    /** Use(packager): the last packager used is the one kept. */
    method UsePackager(p: Packager)
      modifies this
      ensures packager == Some(p)
    {
      packager := Some(p);
    }

    /** Use<TIn, TOut>(processor): registered under TIn, replacing any earlier processor for TIn. */
    method UseProcessor(p: Processor)
      requires Valid()
      modifies processors
      ensures Valid()
      ensures processors.entries == old(processors.entries)[p.inType := p]
    {
      processors.entries := processors.entries[p.inType := p];
    }

    /**
     * Build: the pipeline gets the current packager, but the very same importer list and
     * processor table, so later Use calls on the builder reach pipelines already built.
     */
    method Build() returns (pipeline: BuildPipeline)
      ensures fresh(pipeline)
      ensures pipeline.packager == packager
      ensures pipeline.importers == importers && pipeline.processors == processors
    {
      pipeline := new BuildPipeline(packager, importers, processors);
    }
  }

  class BuildPipeline {

    const packager: Option<Packager>
    const importers: ImporterList
    const processors: ProcessorTable

    constructor (packager: Option<Packager>, importers: ImporterList, processors: ProcessorTable)
      ensures this.packager == packager && this.importers == importers && this.processors == processors
    {
      this.packager := packager;
      this.importers := importers;
      this.processors := processors;
    }

    /** BuildBundle: the bundle's name and the assets of its sources, built in batches. */
    method BuildBundle(bundle: BundleConfiguration, batchSize: nat) returns (r: Result<AssetBundle, Error>)
      requires batchSize > 0
      ensures r == BuildBundleResult(AssetBuilder(importers.items, processors.entries), bundle)
    {
      var assets := BuildInBatches(AssetBuilder(importers.items, processors.entries), bundle.assets, batchSize);
      if assets.Failure? {
        return Failure(assets.error);
      }
      r := Success(AssetBundle(bundle.name, assets.value));
    }

    /** BuildPackage: the bundles in configured order, then one call to the packager. */
    method BuildPackage(package: PackageConfiguration, batchSize: nat) returns (t: Trace)
      requires batchSize > 0
      ensures t == PackageTrace(packager, AssetBuilder(importers.items, processors.entries), package)
    {
      var bundles: seq<AssetBundle> := [];
      for i := 0 to |package.bundles|
        invariant BuildBundles(AssetBuilder(importers.items, processors.entries), package.bundles[..i]) == Success(bundles)
      {
        assert package.bundles[..i + 1][..i] == package.bundles[..i];
        var bundle := BuildBundle(package.bundles[i], batchSize);
        if bundle.Failure? {
          BundlesFirstFailure(AssetBuilder(importers.items, processors.entries), package.bundles, i + 1);
          return Trace([], Some(bundle.error));
        }
        bundles := bundles + [bundle.value];
      }
      assert package.bundles[..|package.bundles|] == package.bundles;
      if packager.None? {
        return Trace([], Some(NullReference));
      }
      var failure := packager.value.package(package.name, bundles);
      t := Trace([Delivery(package.name, bundles)], failure);
    }

    /** Build: the packages one after another; an exception stops the later ones. */
    method Build(config: BuildConfiguration, batchSize: nat) returns (t: Trace)
      requires batchSize > 0
      ensures t == BuildTrace(packager, AssetBuilder(importers.items, processors.entries), config.packages)
    {
      var calls: seq<Delivery> := [];
      for i := 0 to |config.packages|
        invariant BuildTrace(packager, AssetBuilder(importers.items, processors.entries), config.packages[..i]) == Trace(calls, None)
      {
        assert config.packages[..i + 1][..i] == config.packages[..i];
        var built := BuildPackage(config.packages[i], batchSize);
        calls := calls + built.calls;
        if built.failure.Some? {
          BuildStopsAtFirstFailure(packager, AssetBuilder(importers.items, processors.entries), config.packages, i + 1);
          return Trace(calls, built.failure);
        }
      }
      assert config.packages[..|config.packages|] == config.packages;
      t := Trace(calls, None);
    }
  }
}
