# GoldenHammer caching and build pipeline, in Dafny

GoldenHammer is an asset build pipeline for .NET. A `PipelineBuilder` collects three kinds of host code:

- importers, each selected by a regular expression on the source path;
- processors, keyed by their input asset type;
- a packager.

The `BuildPipeline` it builds takes a build configuration and works through it package by package and bundle by bundle. For each asset source it imports the source and processes every imported asset. It then hands each package's bundles to the packager.

Beside the pipeline sits a caching layer:

- hex SHA-256 helpers;
- a content-addressed in-memory data cache;
- build-cache records and the null build cache;
- the build-cache key: the SHA-256 of a line-per-field text made of the pipeline, the source path, the source file's hash, the configuration JSON and the hashes of extra input files;
- the asset memory manager, which:
  - turns assets into proxies whose values sit ProtoBuf-encoded in the data cache;
  - loads those values back through a dictionary of weakly held decoded values;
  - writes proxies as UTF-16LE JSON with type names;
- FetchOrCreate, which returns the proxies a build left in the build cache, or builds and records them.

The model has one module per source unit:

| module | file |
|---|---|
| `Hashing` | `hashing.dfy` |
| `DataCache` | `data_cache.dfy` |
| `CacheRecords` | `cache_record.dfy` |
| `BuildCache` | `build_cache.dfy` |
| `MemoryManager` | `memory_manager.dfy` |
| `FetchOrCreate` | `fetch_or_create.dfy` |
| `Assets` | `assets.dfy` |
| `Processors` | `processor.dfy` |
| `Pipeline` | `pipeline.dfy` |

`Wrappers` and `Errors` hold the `Option`/`Result` types and the exceptions that the model raises.

Where the source updates objects in place, the model uses classes:

- `MemoryDataCache` (its `_files` dictionary);
- `AssetMemoryManager` (its decode dictionary and its invoker cache);
- `PipelineBuilder`, whose importer list and processor table are objects shared with every `BuildPipeline` it builds.

The loops of the source are methods with loop invariants, each proved equal to a specification function:

- `ComputeCacheKey`;
- the fetch loop of `FetchOrCreate`;
- `BuildBundle`, `BuildPackage` and `Build`.

Foreign code is passed in as parameters:

- SHA-256;
- JSON serialization;
- ProtoBuf;
- the regex filters;
- importers, processors, the packager and the build function.

Time-dependent behaviour is also a parameter. Garbage collection and concurrent loads are an `Interference` value that states what the collector cleared, and what other loads filed, around one load. Every contract holds whatever that value is.

Some behaviour follows the code rather than the documentation:

- **HashFile's uncaught exceptions.** `HashFile` catches only `FileNotFoundException` and `DirectoryNotFoundException`. Every other exception of `File.OpenRead` escapes from `ComputeCacheKey` and `FetchOrCreate`. These are: `ArgumentException` for an illegal path (`InvalidPath`); `UnauthorizedAccessException` for a directory or a file the process may not read (`AccessDenied`); `IOException` for a file another process holds open without sharing reads (`SharingViolation`).
- **The legacy data cache.** `MemoryCas` in the legacy `Caching.cs` (lines 39-85) has the same dictionary, the same `HasContent`, `Open` and `Store` as `MemoryDataCache`, so `DataCache.MemoryDataCache` models both.
- **The key loop.** `ComputeCacheKey`'s loop goes through the whole `params` array. A null array throws `NullReference`.
- **The pipeline and the build cache.** The pipeline calls importers and processors directly. It does not go through `FetchOrCreate`.

## Model

| member | source | states |
|---|---|---|
| Hashing.ToHexString | src/GoldenHammer/Caching/HashingExtensions.cs:9-13 | exactly two upper-case hex digits per byte, and no dash survives |
| Hashing.BitConverterToString | src/GoldenHammer/Caching/HashingExtensions.cs:11 | BitConverter.ToString: empty for no bytes, otherwise two digits per byte with one dash between pairs; ToHexStringIsPairs relates it to the plain pairs |
| Hashing.RemoveDashes | src/GoldenHammer/Caching/HashingExtensions.cs:11 | Replace("-", ""): no dash is left, nothing is added, and a text without dashes is unchanged |
| Hashing.ToHexStringIsPairs | src/GoldenHammer/Caching/HashingExtensions.cs:9-13 | removing the dashes from BitConverter's dash-separated output leaves exactly the byte pairs, in order |
| Hashing.ToHexStringNibbles | src/GoldenHammer/Caching/HashingExtensions.cs:9-13 | character 2i is the high nibble of byte i and character 2i+1 its low nibble |
| Hashing.HexRoundTrip | src/GoldenHammer/Caching/HashingExtensions.cs:9-13 | an upper-case hex decoder reads every encoding back to the original bytes |
| Hashing.ToHexStringInjective | src/GoldenHammer/Caching/HashingExtensions.cs:9-13 | different byte arrays never share a hex string |
| Hashing.Utf16LE | src/GoldenHammer/Caching/HashingExtensions.cs:17 | Encoding.Unicode.GetBytes: an even number of bytes, two or four per character |
| Hashing.Utf16RoundTrip | src/GoldenHammer/Caching/AssetMemoryManager.cs:167-177 | Encoding.Unicode.GetString of GetBytes gives the text back, surrogate pairs included |
| Hashing.Utf16LEDecode | src/GoldenHammer/Caching/AssetMemoryManager.cs:177 | Encoding.Unicode.GetString: code units read little-endian, surrogate pairs joined, ill-formed input replaced by U+FFFD, so at most one character per two bytes (rounded up) and an odd last byte ends the text with U+FFFD; Utf16RoundTrip makes it the inverse of Utf16LE |
| Hashing.ToShaString | src/GoldenHammer/Caching/HashingExtensions.cs:15-23 | the hex SHA-256 of the text's UTF-16LE bytes is always 64 upper-case hex digits |
| DataCache.ContentName | src/GoldenHammer/Caching/MemoryDataCache.cs:38-54 | a content name is 64 upper-case hex digits |
| DataCache.StoreKeepsContentAddressed | src/GoldenHammer/Caching/MemoryDataCache.cs:38-54 | Store keeps every entry filed under the digest of its own bytes |
| DataCache.ReadAfterWrite | src/GoldenHammer/Caching/MemoryDataCache.cs:38-54 | the stored bytes are found under the returned name, and every other entry is unchanged |
| DataCache.StoreIdempotent | src/GoldenHammer/Caching/MemoryDataCache.cs:38-54 | storing the same bytes again changes nothing |
| DataCache.ManyStoresReadable | src/GoldenHammer/Caching/MemoryDataCache.cs:38-54 | after a series of collision-free stores, every stored content is readable under its own name |
| DataCache.StoresKeepUntouched | src/GoldenHammer/Caching/MemoryDataCache.cs:38-54 | an entry survives later stores of other names, or of the same bytes |
| DataCache.MemoryDataCache.constructor | src/GoldenHammer/Caching/MemoryDataCache.cs:13-16 | the cache starts empty |
| DataCache.MemoryDataCache.HasContent | src/GoldenHammer/Caching/MemoryDataCache.cs:18-23 | true exactly when content is filed under the hash |
| DataCache.MemoryDataCache.Open | src/GoldenHammer/Caching/MemoryDataCache.cs:25-36 | the filed bytes, or FileNotFound naming the hash when there are none |
| DataCache.MemoryDataCache.Store | src/GoldenHammer/Caching/MemoryDataCache.cs:38-54 | files the written bytes under the hex digest of exactly those bytes, returns that name, and keeps the cache content-addressed |
| CacheRecords.Found | src/GoldenHammer/Caching/CacheRecord.cs:28-31 | a well-formed Cached record carrying the given assets |
| CacheRecords.NotFound | src/GoldenHammer/Caching/CacheRecord.cs:33-36 | a well-formed NotCached record |
| CacheRecords.Incomplete | src/GoldenHammer/Caching/CacheRecord.cs:38-41 | a well-formed IncompleteKey record carrying the missing inputs |
| CacheRecords.WellFormedIffFactoryBuilt | src/GoldenHammer/Caching/CacheRecord.cs:20-41 | a record has the payload matching its tag exactly when one of the three factories builds it |
| CacheRecords.Fetch | src/GoldenHammer/Caching/NullBuildCache.cs:7-10 | the null cache always answers NotFound, and a record store answers NotFound for an unknown key |
| CacheRecords.Store | src/GoldenHammer/Caching/NullBuildCache.cs:12-15 | storing into the null cache leaves it the null cache |
| CacheRecords.NullCacheAlwaysMisses | src/GoldenHammer/Caching/NullBuildCache.cs:7-15 | even right after a Store, the null cache answers NotCached for every key |
| CacheRecords.RecordStoreReadAfterWrite | src/GoldenHammer/Caching/IBuildCache.cs:7-8 | a record store returns the record last stored under a key, and leaves other keys alone |
| BuildCache.HashFile | src/GoldenHammer/Caching/BuildCache.cs:28-39 | succeeds exactly on a legal path naming a regular file or nothing, with 64 hex digits; an illegal path, a directory or unreadable file, and a file held open elsewhere each give their own exception |
| BuildCache.MissingFileHashesLikeEmptyFile | src/GoldenHammer/Caching/BuildCache.cs:28-39 | a missing file hashes like an existing empty file |
| BuildCache.InputLines | src/GoldenHammer/Caching/BuildCache.cs:21-23 | one 65-character line per extra input file |
| BuildCache.PreImage | src/GoldenHammer/Caching/BuildCache.cs:14-23 | the key text: pipeline, path, source hash and configuration JSON lines, then the extra files' lines; PreImageLayout and SourceEditChangesPreImage state its layout |
| BuildCache.InputLinesFirstFailure | src/GoldenHammer/Caching/BuildCache.cs:21-23 | the first file that cannot be hashed decides the loop's exception |
| BuildCache.InputLinesBlock | src/GoldenHammer/Caching/BuildCache.cs:21-23 | line k of the loop's output is the hash line of the k-th input file |
| BuildCache.InputLinesSucceedIffReadable | src/GoldenHammer/Caching/BuildCache.cs:21-39 | the loop succeeds exactly when every input file has a legal path and is a readable regular file or missing |
| BuildCache.PreImageLayout | src/GoldenHammer/Caching/BuildCache.cs:14-25 | the key text with extra files is the key text without them, followed by the files' lines |
| BuildCache.CacheKey | src/GoldenHammer/Caching/BuildCache.cs:12-26 | the key is 64 upper-case hex digits and exists exactly when the key text does |
| BuildCache.ComputeCacheKey | src/GoldenHammer/Caching/BuildCache.cs:12-26 | the builder computes CacheKey, with the same exception on failure |
| BuildCache.AppendInputLines | src/GoldenHammer/Caching/BuildCache.cs:20-23 | the foreach appends one line per extra file to the head lines, or throws the first file's exception |
| BuildCache.CacheKeyDependsOnlyOnReadFiles | src/GoldenHammer/Caching/BuildCache.cs:12-39 | the key depends on the file system only through the source path and the extra input files |
| BuildCache.SourceEditChangesPreImage | src/GoldenHammer/Caching/BuildCache.cs:16-18 | a source edit that changes its digest changes the key text |
| BuildCache.LegacyCacheKey | src/GoldenHammer/Caching.cs:367-380 | the legacy key is 64 characters |
| BuildCache.LegacyKeyIgnoresSourceEdit | src/GoldenHammer/Caching.cs:367-380 | the legacy key is the same whatever the source file holds |
| MemoryManager.MetaRoundTrip | src/GoldenHammer/Caching/AssetMemoryManager.cs:49-65 | GetMeta and ConstructProxy are inverse: a proxy and its meta carry the same fields |
| MemoryManager.GetMeta | src/GoldenHammer/Caching/AssetMemoryManager.cs:49-56 | the meta ConstructProxy turns back into the same proxy |
| MemoryManager.ConstructProxy | src/GoldenHammer/Caching/AssetMemoryManager.cs:65 | a proxy of the meta's type under the meta's hash, with its identifier and configuration |
| MemoryManager.TryGetCached | src/GoldenHammer/Caching/AssetMemoryManager.cs:146-159 | a miss exactly when the entry is absent or its target was collected; a hit returns the live value of the asked type; a live value of another type tag is a failing cast |
| MemoryManager.LoadOutcome | src/GoldenHammer/Caching/AssetMemoryManager.cs:122-144 | a load removes no key, and a successful load leaves a live entry under the hash holding the returned value as a T |
| MemoryManager.LiveEntryAnswersLoad | src/GoldenHammer/Caching/AssetMemoryManager.cs:124-129 | a live entry of the asked type answers without touching the data cache or filing anything |
| MemoryManager.LiveEntrySurvivesLoad | src/GoldenHammer/Caching/AssetMemoryManager.cs:134-142 | a live entry the collector leaves alone is never overwritten by a load |
| MemoryManager.LoadReturnsValueFiledMeanwhile | src/GoldenHammer/Caching/AssetMemoryManager.cs:134-138 | when another load filed a value of the asked type during the decode, the second look-up returns it and this load files nothing |
| MemoryManager.LoadFailsOnOtherTypeFiledMeanwhile | src/GoldenHammer/Caching/AssetMemoryManager.cs:134-138 | when another load filed a value of another type during the decode, the cast fails and this load files nothing |
| MemoryManager.LoadFilesDecodedValue | src/GoldenHammer/Caching/AssetMemoryManager.cs:131-142 | when nothing was filed meanwhile, the decoded value is filed under the hash and returned |
| MemoryManager.CoherentLoad | src/GoldenHammer/Caching/AssetMemoryManager.cs:122-144 | with a coherent dictionary, a load returns exactly the decoded content (or a failing cast), and the dictionary stays coherent |
| MemoryManager.LoadAssetOutcome | src/GoldenHammer/Caching/AssetMemoryManager.cs:47 | a materialized asset loads its own value and leaves the dictionary as it was |
| MemoryManager.CreateOutcome | src/GoldenHammer/Caching/AssetMemoryManager.cs:110-120 | the proxy keeps the asset's identifier, configuration and type, and its hash is in the data cache; a failed load stores nothing |
| MemoryManager.CreateKeepsCoherent | src/GoldenHammer/Caching/AssetMemoryManager.cs:110-144 | creating a proxy keeps the decode dictionary coherent with the data cache, barring a digest collision |
| MemoryManager.CreatedProxyLoadsBack | src/GoldenHammer/Caching/AssetMemoryManager.cs:110-144 | loading the created proxy gives back the value it was created from, or a failing cast |
| MemoryManager.SerializeProxy | src/GoldenHammer/Caching/AssetMemoryManager.cs:161-168 | the encoding is UTF-16LE, an even number of bytes |
| MemoryManager.DeserializeProxy | src/GoldenHammer/Caching/AssetMemoryManager.cs:175-190 | a proxy only from a typed ProxyMeta whose content is in the data cache, and then the proxy that meta constructs; null exactly when the content is missing |
| MemoryManager.ProxyRoundTrip | src/GoldenHammer/Caching/AssetMemoryManager.cs:161-190 | a serialized proxy reads back as the same proxy when its content is cached, and as null when it is not |
| MemoryManager.LegacySerializeProxy | src/GoldenHammer/Caching.cs:308-313 | the encoding is UTF-16LE |
| MemoryManager.LegacyDeserializeProxy | src/GoldenHammer/Caching.cs:315-326 | always throws: NullReference or InvalidCast once the JSON parses |
| MemoryManager.LegacyProxyNeverReadsBack | src/GoldenHammer/Caching.cs:308-326 | no legacy-serialized proxy ever reads back |
| MemoryManager.AssetMemoryManager.constructor | src/GoldenHammer/Caching/AssetMemoryManager.cs:72-77 | both dictionaries start empty, around the given data cache |
| MemoryManager.AssetMemoryManager.LoadContent | src/GoldenHammer/Caching/AssetMemoryManager.cs:122-144 | the double-checked load yields LoadOutcome's result and dictionary |
| MemoryManager.AssetMemoryManager.Load | src/GoldenHammer/Caching/AssetMemoryManager.cs:47 | a proxy loads through LoadContent of its own hash |
| MemoryManager.AssetMemoryManager.CreateProxyOf | src/GoldenHammer/Caching/AssetMemoryManager.cs:110-120 | loads, stores the encoding and returns the proxy as CreateOutcome says |
| MemoryManager.AssetMemoryManager.CreateProxy | src/GoldenHammer/Caching/AssetMemoryManager.cs:79-101 | binds and remembers the invoker for the asset's type the first time, then creates as CreateOutcome says |
| FetchOrCreate.SerializeAll | src/GoldenHammer/Caching/BuildCacheExtensions.cs:38 | one serialized proxy per asset, in order |
| FetchOrCreate.DeserializeAll | src/GoldenHammer/Caching/BuildCacheExtensions.cs:21 | succeeds exactly when every proxy deserializes; results in order; a failure is some proxy's exception |
| FetchOrCreate.DeserializeAllFirstFailure | src/GoldenHammer/Caching/BuildCacheExtensions.cs:21 | as awaiting Task.WhenAll does, a failure is the exception of the first proxy that failed, every earlier one having deserialized |
| FetchOrCreate.Resolved | src/GoldenHammer/Caching/BuildCacheExtensions.cs:22-24 | the resolved proxies, in record order |
| FetchOrCreate.FetchStep | src/GoldenHammer/Caching/BuildCacheExtensions.cs:19-32 | one pass of the loop body: a hit, an exception, a build under the key, or the next key; FetchStepOutcomes states when each happens |
| FetchOrCreate.LookupFrom | src/GoldenHammer/Caching/BuildCacheExtensions.cs:18-33 | the loop as passes of FetchStep until one ends it or the fuel is used up; LookupBuildsOnlyOnMiss and the record lemmas below state its outcomes |
| FetchOrCreate.FetchStepOutcomes | src/GoldenHammer/Caching/BuildCacheExtensions.cs:19-32 | one pass ends for a build exactly on a record that is neither IncompleteKey nor a fully resolving Cached record, and goes on only on IncompleteKey with the extended key |
| FetchOrCreate.LookupBuildsOnlyOnMiss | src/GoldenHammer/Caching/BuildCacheExtensions.cs:18-33 | the loop leaves to build only under a key whose record calls for a build |
| FetchOrCreate.FetchOnce | src/GoldenHammer/Caching/BuildCacheExtensions.cs:19-32 | one pass of the loop body, including the ComputeCacheKey call on IncompleteKey, does what FetchStep says |
| FetchOrCreate.FetchOrCreateRun | src/GoldenHammer/Caching/BuildCacheExtensions.cs:11-50 | the build cache is unchanged, or holds Found of the returned assets' proxies under one key |
| FetchOrCreate.FetchLoop | src/GoldenHammer/Caching/BuildCacheExtensions.cs:18-33 | the while loop ends as LookupFrom says |
| FetchOrCreate.FetchOrCreate | src/GoldenHammer/Caching/BuildCacheExtensions.cs:11-50 | the method returns and stores what FetchOrCreateRun says |
| FetchOrCreate.HitNeitherBuildsNorStores | src/GoldenHammer/Caching/BuildCacheExtensions.cs:19-24 | a hit returns the cached proxies without calling build or storing |
| FetchOrCreate.ResolvedRecordHits | src/GoldenHammer/Caching/BuildCacheExtensions.cs:19-24 | a Cached record whose proxies all resolve is a hit, in record order |
| FetchOrCreate.IncompleteKeyEscalates | src/GoldenHammer/Caching/BuildCacheExtensions.cs:27-29 | an IncompleteKey record makes the loop fetch again under the key extended by its missing inputs |
| FetchOrCreate.CachedWithoutAssetsThrows | src/GoldenHammer/Caching/BuildCacheExtensions.cs:21 | a Cached record without assets, which the public CacheRecord constructor (CacheRecord.cs:20-26) can build, ends the loop with ArgumentNullException |
| FetchOrCreate.UnresolvedRecordMisses | src/GoldenHammer/Caching/BuildCacheExtensions.cs:20-32 | NotCached, or Cached with an unresolved proxy, ends the loop for a build under the current key |
| FetchOrCreate.MissBuildsAndStoresFound | src/GoldenHammer/Caching/BuildCacheExtensions.cs:35-49 | on a miss the build runs once and Found of its serialized proxies is stored under the last key |
| FetchOrCreate.NullCacheAlwaysBuilds | src/GoldenHammer/Caching/BuildCacheExtensions.cs:11-50 | over NullBuildCache every call builds, and the cache stays null |
| FetchOrCreate.SerializedProxiesReadBack | src/GoldenHammer/Caching/BuildCacheExtensions.cs:21-38 | proxies serialized for a record deserialize back to themselves, in order |
| FetchOrCreate.BuildThenFetchHits | src/GoldenHammer/Caching/BuildCacheExtensions.cs:11-50 | after a first build, the next call with the same inputs returns the built proxies without building |
| Processors.Then | src/GoldenHammer/Processor.cs:41-45 | the merged processor is named "first-second" and goes from the first's input type to the second's output type |
| Processors.ThenProcess | src/GoldenHammer/Processor.cs:30-36 | the merged Process runs the first, then the second on its result; an exception in the first skips the second |
| Processors.ThenWellTyped | src/GoldenHammer/Processor.cs:16-45 | composing processors that keep their signatures gives one that keeps its signature |
| Processors.ThenAssociative | src/GoldenHammer/Processor.cs:28-45 | composition is associative in name, types and results |
| Assets.Asset.Identifier | src/GoldenHammer/Asset.cs:31 | an Asset<T> answers the identifier it was built with, a proxy its own; CreateOutcome shows a proxy answers as its asset did |
| Assets.Asset.Configuration | src/GoldenHammer/Asset.cs:32 | an Asset<T> answers the configuration it was built with, a proxy its own |
| Assets.Asset.AssetType | src/GoldenHammer/Asset.cs:33 | an Asset<T> answers T, whatever its value; a proxy its own type |
| Pipeline.FirstMatch | src/GoldenHammer/Pipeline.cs:119 | the first importer whose filter matches the path, or none exactly when no filter matches |
| Pipeline.ImportAsset | src/GoldenHammer/Pipeline.cs:117-121 | the first matching importer's import; no assets, and no error, when none matches |
| Pipeline.ProcessAsset | src/GoldenHammer/Pipeline.cs:123-131 | the processor registered for the asset's type, or the asset unchanged |
| Pipeline.ProcessAssetType | src/GoldenHammer/Pipeline.cs:123-131 | with a table keyed by input type, a processed asset has its processor's output type |
| Pipeline.ProcessAll | src/GoldenHammer/Pipeline.cs:112 | one processed asset per imported asset, in order; otherwise the first failure |
| Pipeline.BuildAsset | src/GoldenHammer/Pipeline.cs:109-115 | the import's exception, or one processed asset per imported asset in order, or the exception of the first asset whose processing failed |
| Pipeline.BuildSources | src/GoldenHammer/Pipeline.cs:99-104 | the sources built one after another, assets appended in order, the first exception stopping the bundle; BuildSourcesSucceedIffEach and BuildSourcesIsConcatenation state it |
| Pipeline.BuildSourcesSucceedIffEach | src/GoldenHammer/Pipeline.cs:97-115 | a bundle's sources build exactly when each of them builds |
| Pipeline.BuildSourcesIsConcatenation | src/GoldenHammer/Pipeline.cs:97-115 | when each source builds, the bundle holds their assets concatenated in configured order |
| Pipeline.BuildSourcesAppend | src/GoldenHammer/Pipeline.cs:100-103 | building two runs of sources in turn is building their concatenation |
| Pipeline.Batch | src/GoldenHammer/Pipeline.cs:100 | batches are non-empty, at most the batch size, and concatenate back to the sources |
| Pipeline.BuildBundlesInOrder | src/GoldenHammer/Pipeline.cs:89-92 | one bundle per configured bundle, in order, each built from its own configuration |
| Pipeline.BuildBundles | src/GoldenHammer/Pipeline.cs:89-92 | the package's bundles built in order, stopping at the first exception; BuildBundlesInOrder and BundlesFirstFailure state it |
| Pipeline.BundlesFirstFailure | src/GoldenHammer/Pipeline.cs:89-92 | the first failing bundle decides the package's exception |
| Pipeline.PackageTrace | src/GoldenHammer/Pipeline.cs:87-95 | the packager is called exactly once, with the name and all bundles, when every bundle builds and a packager is set |
| Pipeline.BuildStopsAtFirstFailure | src/GoldenHammer/Pipeline.cs:78-85 | after the first failing package, no later package reaches the packager |
| Pipeline.BuildTrace | src/GoldenHammer/Pipeline.cs:78-85 | the packager calls of a build, package by package, up to the first exception; BuildStopsAtFirstFailure and BuildDeliversInOrder state it |
| Pipeline.BuildDeliversInOrder | src/GoldenHammer/Pipeline.cs:78-95 | a build without exception calls the packager once per package, in configured order |
| Pipeline.PipelineBuilder.Start | src/GoldenHammer/Pipeline.cs:30-37 | no packager, no importers, no processors |
| Pipeline.PipelineBuilder.UseImporter | src/GoldenHammer/Pipeline.cs:39-43 | the importer is appended, after those already registered |
| Pipeline.PipelineBuilder.UsePackager | src/GoldenHammer/Pipeline.cs:45-49 | the last packager used is the one kept |
| Pipeline.PipelineBuilder.UseProcessor | src/GoldenHammer/Pipeline.cs:51-56 | the processor replaces any other for its input type, and the table stays keyed by input type |
| Pipeline.PipelineBuilder.Build | src/GoldenHammer/Pipeline.cs:58-61 | the pipeline copies the packager but shares the importer list and the processor table |
| Pipeline.BuildPipeline.constructor | src/GoldenHammer/Pipeline.cs:70-76 | keeps the given packager, importers and processors |
| Pipeline.BuildInBatches | src/GoldenHammer/Pipeline.cs:99-104 | the batched loop gives what building the sources one after another gives, for every batch size |
| Pipeline.BuildPipeline.BuildBundle | src/GoldenHammer/Pipeline.cs:97-107 | the batched loop builds the same bundle as building the sources one after another, whatever the batch size |
| Pipeline.BuildPipeline.BuildPackage | src/GoldenHammer/Pipeline.cs:87-95 | builds the bundles in order, then makes the packager call PackageTrace says |
| Pipeline.BuildPipeline.Build | src/GoldenHammer/Pipeline.cs:78-85 | builds the packages in order, stopping at the first exception, as BuildTrace says |

## Left out

- The on-disk `LocalDataCache` and `LocalBuildCache` are not part of this model. They do file I/O. The build cache is abstracted as a map from keys to records, and the data cache is `MemoryDataCache`.
- The locks in `MemoryDataCache` and `AssetMemoryManager` are not modelled. Other threads appear only through the `Interference` parameter of a load.
- Garbage-collection timing is not modelled. The collector's effect is a parameter.
- The reflection in `GetStoreMethod` is not modelled. An invoker is the asset type it binds `CreateProxy<T>` to.
- The async/await machinery and `Task.Run` are not modelled. Steps run one after another in source order. The batches of `BuildBundle` give the same assets in the same order.
- `Environment.NewLine` is taken to be "\n". The Windows value "\r\n" is not modelled.
- Text containing lone surrogates is not modelled, because Dafny strings hold Unicode scalar values only. The decoder's replacement of ill-formed input is modelled only as far as U+FFFD for lone surrogates and an odd trailing byte.
- Null elements inside lists (assets, input files, records) are not modelled. A null `params` array and a Cached record without assets are modelled.
- `CacheResult` values outside its three named members are not modelled.
- An exception thrown by the writer passed to `Store` is not modelled. The writer is the bytes it writes.
- `FetchOrBuild` in the legacy `Caching.cs` is not modelled separately. It follows the same loop as `FetchOrCreate`.
- The `IncompleteKey` store branch of `FetchOrCreate` is not modelled, because `extraFiles` is always empty there. The lookup side of `IncompleteKey` is modelled.
- FetchOrCreate.FetchLoop: the `while (true)` loop runs on fuel. A run that uses up its fuel is reported as `OutOfFuel`, so unbounded chains of `IncompleteKey` records are not followed.
- `BuildContext` is not modelled. It only hands `Asset<T>` construction back to importers and processors.
- Pipeline.PipelineBuilder.Start: the pipeline name is dropped, as in the source.
- The `Use` methods return the builder for chaining. The model's methods return nothing.
- The `as IAsset<TIn>` cast in the private `Processor<TIn, TOut>` wrapper is not modelled separately. A processor receives the asset as it is.
- Pipeline.BuildPipeline.BuildBundle: `Environment.ProcessorCount` is a parameter `batchSize > 0`.
- `Errors.MalformedData` is declared but not produced by any member.
- Configuration JSON is modelled as a function on configurations. Its content is not modelled.
- ProtoBuf and Newtonsoft JSON serialization are modelled as parameters. Their formats are not modelled.
- TryGetCached: the cast `(T) cached` is an exact match of type tags. A cast to a base type or an interface of the live value's type, which the runtime accepts, is not modelled; such a load fails with InvalidCast in the model.
- HashFile: only the empty path and a path with a NUL character are illegal. The further path checks some .NET runtimes make (other invalid characters, a path too long, a whitespace-only path) are not modelled.
- InputLinesSucceedIffReadable: its notion of a legal path is HashFile's, so the same further path checks are not modelled there either.

## Findings

| source | as written | input that shows it | evidently intended | confidence | as-written member | corrected member |
|---|---|---|---|---|---|---|
| src/GoldenHammer/Caching.cs:367-380 | the legacy cache key has no line for the source file's own hash | a source file rewritten with other bytes at the same path, with no extra input files: the key is unchanged, so the stale build is found | the key changes with the source file's content, as BuildCache.cs:16-18 later does | high; not executed | BuildCache.LegacyKeyIgnoresSourceEdit | BuildCache.SourceEditChangesPreImage |
| src/GoldenHammer/Caching.cs:308-326 | proxy metadata is written as JSON without type names and read back untyped, then cast to IProxyMeta | any proxy: the JSON reads back as a JObject and the cast throws InvalidCastException | the proxy reads back, as AssetMemoryManager.cs:161-190 does with TypeNameHandling.Objects | high; not executed | MemoryManager.LegacyProxyNeverReadsBack | MemoryManager.ProxyRoundTrip |
