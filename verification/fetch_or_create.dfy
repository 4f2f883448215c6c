/**
 * BuildCacheExtensions.FetchOrCreate: fetch the record for the asset source's cache key;
 * return the cached proxies when every one of them still resolves; extend the key with
 * the record's missing input files and fetch again on IncompleteKey; otherwise build once
 * and store a Found record of the built proxies under the key last fetched.
 *
 * The loop has no bound on escalations, so the model runs it on fuel and reports a run
 * that used the fuel up as OutOfFuel. The build function is a parameter; the memory
 * manager is represented by its serializers and its data cache's dictionary. The loop is
 * stated for any way of extending a key (a Rekeying); FetchOrCreate's own is Rekey, the
 * cache key of the same source with the record's missing input files.
 */
module FetchOrCreate {

  import opened Wrappers
  import opened Errors
  import opened Hashing
  import opened Assets
  import opened BuildCache
  import opened CacheRecords
  import opened MemoryManager

  /** Everything ComputeCacheKey reads besides the extra input files. */
  datatype KeyInputs = KeyInputs(sha: Sha256, fs: FileSystem, json: ConfigJson, pipeline: string, source: AssetSource)

  /** The cache key for the source, extended by `inputFiles`. */
  function Key(k: KeyInputs, inputFiles: Option<seq<string>>): Result<string, Error> {
    CacheKey(k.sha, k.fs, k.json, k.pipeline, k.source, inputFiles)
  }

  /** How the fetch loop extends a key by a record's missing input files. */
  type Rekeying = Option<seq<string>> -> Result<string, Error>

  /** FetchOrCreate's rekeying: ComputeCacheKey of the same source with the missing inputs. */
  function Rekey(k: KeyInputs): Rekeying {
    (inputFiles: Option<seq<string>>) => Key(k, inputFiles)
  }

  /** `rekey` computes the cache keys of `k`. */
  ghost predicate KeysOf(rekey: Rekeying, k: KeyInputs) {
    forall inputFiles {:trigger Key(k, inputFiles)} :: rekey(inputFiles) == Key(k, inputFiles)
  }

  lemma RekeyKeysOf(k: KeyInputs)
    ensures KeysOf(Rekey(k), k)
  {
  }

  /** `assets.Select(mem.SerializeProxy).ToList()`: one serialized proxy per asset, in order. */
  function SerializeAll(s: Serializers, assets: seq<ProxyAsset>): (r: seq<seq<byte>>)
    ensures |r| == |assets|
    ensures forall i :: 0 <= i < |assets| ==> r[i] == SerializeProxy(s, assets[i])
  {
    if |assets| == 0 then [] else [SerializeProxy(s, assets[0])] + SerializeAll(s, assets[1..])
  }

  /**
   * `Task.WhenAll(encoded.Select(mem.DeserializeProxy))`: every proxy deserialized, in
   * order; awaiting the combined task rethrows the exception of the first one that failed.
   */
  function DeserializeAll(s: Serializers, files: map<string, seq<byte>>, encoded: seq<seq<byte>>): (r: Result<seq<Option<ProxyAsset>>, Error>)
    ensures r.Success? <==> forall i :: 0 <= i < |encoded| ==> DeserializeProxy(s, files, encoded[i]).Success?
    ensures r.Success? ==> (|r.value| == |encoded| &&
      forall i :: 0 <= i < |encoded| ==> DeserializeProxy(s, files, encoded[i]) == Success(r.value[i]))
    ensures r.Failure? ==> exists i :: 0 <= i < |encoded| && DeserializeProxy(s, files, encoded[i]) == Failure(r.error)
    decreases |encoded|
  {
    if |encoded| == 0 then Success([])
    else
      match DeserializeProxy(s, files, encoded[0])
      case Failure(e) => Failure(e)
      case Success(first) =>
        match DeserializeAll(s, files, encoded[1..])
        case Failure(e) => Failure(e)
        case Success(rest) => Success([first] + rest)
  }

  /** Like `await Task.WhenAll`, a failed DeserializeAll rethrows the exception of the first proxy that failed. */
  lemma {:induction false} DeserializeAllFirstFailure(s: Serializers, files: map<string, seq<byte>>, encoded: seq<seq<byte>>)
    requires DeserializeAll(s, files, encoded).Failure?
    ensures exists i ::
      (0 <= i < |encoded| && DeserializeProxy(s, files, encoded[i]) == Failure(DeserializeAll(s, files, encoded).error) &&
       forall j :: 0 <= j < i ==> DeserializeProxy(s, files, encoded[j]).Success?)
    decreases |encoded|
  {
    if DeserializeProxy(s, files, encoded[0]).Failure? {
      assert DeserializeProxy(s, files, encoded[0]) == Failure(DeserializeAll(s, files, encoded).error);
    } else {
      var rest := encoded[1..];
      DeserializeAllFirstFailure(s, files, rest);
      var i :| 0 <= i < |rest| && DeserializeProxy(s, files, rest[i]) == Failure(DeserializeAll(s, files, rest).error) &&
        forall j :: 0 <= j < i ==> DeserializeProxy(s, files, rest[j]).Success?;
      assert DeserializeProxy(s, files, encoded[i + 1]) == Failure(DeserializeAll(s, files, encoded).error);
      assert forall j :: 0 <= j < i + 1 ==> DeserializeProxy(s, files, encoded[j]).Success? by {
        forall j | 0 <= j < i + 1
          ensures DeserializeProxy(s, files, encoded[j]).Success?
        {
          if j > 0 {
            assert encoded[j] == rest[j - 1];
          }
        }
      }
    }
  }

  /** `cachedAssets.All(a => a != null)`. */
  predicate AllResolved(proxies: seq<Option<ProxyAsset>>) {
    forall i :: 0 <= i < |proxies| ==> proxies[i].Some?
  }

  /** The proxies of a fully resolved list, in order. */
  function Resolved(proxies: seq<Option<ProxyAsset>>): (r: seq<ProxyAsset>)
    requires AllResolved(proxies)
    ensures |r| == |proxies| && forall i :: 0 <= i < |r| ==> proxies[i] == Some(r[i])
  {
    seq(|proxies|, i requires 0 <= i < |proxies| && AllResolved(proxies) => proxies[i].value)
  }

  /** How the fetch loop ends: cached proxies, the key to build under, an exception, or no fuel left. */
  datatype Fetched = CacheHit(proxies: seq<ProxyAsset>) | BuildUnder(key: string) | LookupThrew(error: Error) | Exhausted

  /** One pass through the loop body: the loop ends, or continues with the next key. */
  datatype Step = Done(fetched: Fetched) | Continue(next: string)

  /** One pass of the fetch loop under `key`. */
  function FetchStep(rekey: Rekeying, s: Serializers, files: map<string, seq<byte>>, store: BuildCacheStore, key: string): Step
  {
    var cached := Fetch(store, key);
    var answer :=
      if cached.kind != Cached then None
      else if cached.assets.None? then Some(LookupThrew(ArgumentNull))
      else match DeserializeAll(s, files, cached.assets.value)
        case Failure(e) => Some(LookupThrew(e))
        case Success(proxies) => if AllResolved(proxies) then Some(CacheHit(Resolved(proxies))) else None;
    if answer.Some? then Done(answer.value)
    else if cached.kind == IncompleteKey then
      match rekey(cached.missingInputs)
      case Failure(e) => Done(LookupThrew(e))
      case Success(next) => Continue(next)
    else Done(BuildUnder(key))
  }

  /** The fetch loop from `key` on, with `fuel` fetches allowed. */
  function LookupFrom(rekey: Rekeying, s: Serializers, files: map<string, seq<byte>>, store: BuildCacheStore,
                      key: string, fuel: nat): Fetched
    decreases fuel
  {
    if fuel == 0 then Exhausted
    else
      match FetchStep(rekey, s, files, store, key)
      case Done(fetched) => fetched
      case Continue(next) => LookupFrom(rekey, s, files, store, next, fuel - 1)
  }

  /** The fetched record sends the loop to a build: not IncompleteKey, and not Cached with every proxy resolving. */
  predicate CallsForBuild(s: Serializers, files: map<string, seq<byte>>, record: CacheRecord) {
    record.kind != IncompleteKey &&
    (record.kind == Cached ==>
      record.assets.Some? &&
      DeserializeAll(s, files, record.assets.value).Success? &&
      !AllResolved(DeserializeAll(s, files, record.assets.value).value))
  }

  /**
   * One pass ends for a build only under the key it fetched and only on a record that
   * calls for one; it continues only on an IncompleteKey record, with the key extended by
   * the record's missing inputs.
   */
  lemma FetchStepOutcomes(rekey: Rekeying, s: Serializers, files: map<string, seq<byte>>, store: BuildCacheStore, key: string)
    ensures var st := FetchStep(rekey, s, files, store, key);
      (st.Done? && st.fetched.BuildUnder? <==> CallsForBuild(s, files, Fetch(store, key))) &&
      (st.Done? && st.fetched.BuildUnder? ==> st.fetched.key == key)
    ensures var st := FetchStep(rekey, s, files, store, key);
      st.Continue? ==> Fetch(store, key).kind == IncompleteKey && rekey(Fetch(store, key).missingInputs) == Success(st.next)
    ensures !(FetchStep(rekey, s, files, store, key).Done? && FetchStep(rekey, s, files, store, key).fetched.Exhausted?)
  {
  }

  /**
   * The loop leaves to build only right after fetching, under the key it then reports, a
   * record that calls for a build.
   */
  lemma {:induction false} LookupBuildsOnlyOnMiss(rekey: Rekeying, s: Serializers, files: map<string, seq<byte>>, store: BuildCacheStore,
                                                  key: string, fuel: nat)
    requires LookupFrom(rekey, s, files, store, key, fuel).BuildUnder?
    ensures CallsForBuild(s, files, Fetch(store, LookupFrom(rekey, s, files, store, key, fuel).key))
    decreases fuel
  {
    FetchStepOutcomes(rekey, s, files, store, key);
    if FetchStep(rekey, s, files, store, key).Continue? {
      LookupBuildsOnlyOnMiss(rekey, s, files, store, FetchStep(rekey, s, files, store, key).next, fuel - 1);
    }
  }

  /** How FetchOrCreate ends. */
  datatype Outcome = Returned(assets: seq<ProxyAsset>) | Threw(error: Error) | OutOfFuel

  /** What FetchOrCreate returns and the build cache it leaves. */
  datatype Run = Run(outcome: Outcome, store: BuildCacheStore)

  /**
   * FetchOrCreate: the loop starts from the key without extra input files; a miss builds
   * once and, when the build succeeds, stores Found of its serialized proxies under the
   * key the loop ended on. Nothing else is ever stored.
   */
  function FetchOrCreateRun(k: KeyInputs, s: Serializers, files: map<string, seq<byte>>, store: BuildCacheStore,
                            build: AssetSource -> Result<seq<ProxyAsset>, Error>, fuel: nat): (r: Run)
    ensures r.store == store || (r.outcome.Returned? && exists key :: r.store == Store(store, key, Found(SerializeAll(s, r.outcome.assets))))
  {
    match Key(k, Some([]))
    case Failure(e) => Run(Threw(e), store)
    case Success(first) =>
      match LookupFrom(Rekey(k), s, files, store, first, fuel)
      case CacheHit(proxies) => Run(Returned(proxies), store)
      case LookupThrew(e) => Run(Threw(e), store)
      case Exhausted => Run(OutOfFuel, store)
      case BuildUnder(key) =>
        match build(k.source)
        case Failure(e) => Run(Threw(e), store)
        case Success(assets) =>
          var r := Run(Returned(assets), Store(store, key, Found(SerializeAll(s, assets))));
          assert r.store == Store(store, key, Found(SerializeAll(s, r.outcome.assets)));
          r
  }

  /** With fuel left, the loop makes one pass and then ends or goes on from the next key. */
  lemma LookupFromUnfolds(rekey: Rekeying, s: Serializers, files: map<string, seq<byte>>, store: BuildCacheStore,
                          key: string, fuel: nat, st: Step)
    requires fuel > 0 && st == FetchStep(rekey, s, files, store, key)
    ensures st.Done? ==> LookupFrom(rekey, s, files, store, key, fuel) == st.fetched
    ensures st.Continue? ==> LookupFrom(rekey, s, files, store, key, fuel) == LookupFrom(rekey, s, files, store, st.next, fuel - 1)
  {
  }

  /** The body of FetchOrCreate's `while (true)` loop, once, under `cacheKey`. */
  method FetchOnce(k: KeyInputs, ghost rekey: Rekeying, s: Serializers, files: map<string, seq<byte>>,
                   store: BuildCacheStore, cacheKey: string) returns (st: Step)
    requires KeysOf(rekey, k)
    ensures st == FetchStep(rekey, s, files, store, cacheKey)
  {
    var cached := Fetch(store, cacheKey);
    if cached.kind == Cached {
      if cached.assets.None? {
        return Done(LookupThrew(ArgumentNull));
      }
      var cachedAssets := DeserializeAll(s, files, cached.assets.value);
      if cachedAssets.Failure? {
        return Done(LookupThrew(cachedAssets.error));
      }
      if AllResolved(cachedAssets.value) {
        return Done(CacheHit(Resolved(cachedAssets.value)));
      }
    }
    if cached.kind == IncompleteKey {
      var next := ComputeCacheKey(k.sha, k.fs, k.json, k.pipeline, k.source, cached.missingInputs);
      assert next == Key(k, cached.missingInputs);
      if next.Failure? {
        return Done(LookupThrew(next.error));
      }
      return Continue(next.value);
    }
    return Done(BuildUnder(cacheKey));
  }

  /** The `while (true)` loop of FetchOrCreate, from `key` on, with at most `fuel` fetches. */
  method FetchLoop(k: KeyInputs, ghost rekey: Rekeying, s: Serializers, files: map<string, seq<byte>>,
                   store: BuildCacheStore, key: string, fuel: nat) returns (fetched: Fetched)
    requires KeysOf(rekey, k)
    ensures fetched == LookupFrom(rekey, s, files, store, key, fuel)
  {
    var cacheKey := key;
    var remaining := fuel;
    while true
      invariant LookupFrom(rekey, s, files, store, cacheKey, remaining) == LookupFrom(rekey, s, files, store, key, fuel)
      decreases remaining
    {
      if remaining == 0 {
        return Exhausted;
      }
      var st := FetchOnce(k, rekey, s, files, store, cacheKey);
      LookupFromUnfolds(rekey, s, files, store, cacheKey, remaining, st);
      if st.Done? {
        return st.fetched;
      }
      assert LookupFrom(rekey, s, files, store, st.next, remaining - 1) == LookupFrom(rekey, s, files, store, key, fuel);
      cacheKey := st.next;
      remaining := remaining - 1;
    }
  }

  /** BuildCacheExtensions.FetchOrCreate, run on at most `fuel` fetches. */
  method FetchOrCreate(k: KeyInputs, s: Serializers, files: map<string, seq<byte>>, store: BuildCacheStore,
                       build: AssetSource -> Result<seq<ProxyAsset>, Error>, fuel: nat)
    returns (outcome: Outcome, after: BuildCacheStore)
    ensures Run(outcome, after) == FetchOrCreateRun(k, s, files, store, build, fuel)
  {
    var cacheKey := ComputeCacheKey(k.sha, k.fs, k.json, k.pipeline, k.source, Some([]));
    if cacheKey.Failure? {
      return Threw(cacheKey.error), store;
    }
    RekeyKeysOf(k);
    var fetched := FetchLoop(k, Rekey(k), s, files, store, cacheKey.value, fuel);
    match fetched
    case CacheHit(proxies) => return Returned(proxies), store;
    case LookupThrew(e) => return Threw(e), store;
    case Exhausted => return OutOfFuel, store;
    case BuildUnder(key) =>
      var assets := build(k.source);
      if assets.Failure? {
        return Threw(assets.error), store;
      }
      after := Store(store, key, Found(SerializeAll(s, assets.value)));
      outcome := Returned(assets.value);
  }

  /** A hit returns the cached proxies in record order: build is not called and nothing is stored. */
  lemma HitNeitherBuildsNorStores(k: KeyInputs, s: Serializers, files: map<string, seq<byte>>, store: BuildCacheStore,
                                  build1: AssetSource -> Result<seq<ProxyAsset>, Error>,
                                  build2: AssetSource -> Result<seq<ProxyAsset>, Error>, fuel: nat)
    requires Key(k, Some([])).Success?
    requires LookupFrom(Rekey(k), s, files, store, Key(k, Some([])).value, fuel).CacheHit?
    ensures FetchOrCreateRun(k, s, files, store, build1, fuel) == FetchOrCreateRun(k, s, files, store, build2, fuel)
    ensures FetchOrCreateRun(k, s, files, store, build1, fuel) ==
      Run(Returned(LookupFrom(Rekey(k), s, files, store, Key(k, Some([])).value, fuel).proxies), store)
  {
  }

  /** A Cached record whose proxies all resolve is a hit, with the proxies in record order. */
  lemma ResolvedRecordHits(rekey: Rekeying, s: Serializers, files: map<string, seq<byte>>, store: BuildCacheStore,
                           key: string, fuel: nat)
    requires fuel > 0
    requires Fetch(store, key).kind == Cached && Fetch(store, key).assets.Some?
    requires DeserializeAll(s, files, Fetch(store, key).assets.value).Success?
    requires AllResolved(DeserializeAll(s, files, Fetch(store, key).assets.value).value)
    ensures LookupFrom(rekey, s, files, store, key, fuel) == CacheHit(Resolved(DeserializeAll(s, files, Fetch(store, key).assets.value).value))
  {
  }

  /**
   * A Cached record without assets, which the public CacheRecord constructor can build and
   * a store can return, ends the loop with the ArgumentNullException of `Select` on null.
   */
  lemma CachedWithoutAssetsThrows(rekey: Rekeying, s: Serializers, files: map<string, seq<byte>>,
                                  store: BuildCacheStore, key: string, fuel: nat)
    requires fuel > 0
    requires Fetch(store, key).kind == Cached && Fetch(store, key).assets.None?
    ensures LookupFrom(rekey, s, files, store, key, fuel) == LookupThrew(ArgumentNull)
  {
  }

  /** An IncompleteKey record makes the loop fetch again under the key extended by its missing inputs. */
  lemma IncompleteKeyEscalates(k: KeyInputs, s: Serializers, files: map<string, seq<byte>>, store: BuildCacheStore,
                               key: string, fuel: nat)
    requires fuel > 0
    requires Fetch(store, key).kind == IncompleteKey
    ensures Key(k, Fetch(store, key).missingInputs).Failure? ==>
      LookupFrom(Rekey(k), s, files, store, key, fuel) == LookupThrew(Key(k, Fetch(store, key).missingInputs).error)
    ensures Key(k, Fetch(store, key).missingInputs).Success? ==>
      LookupFrom(Rekey(k), s, files, store, key, fuel) == LookupFrom(Rekey(k), s, files, store, Key(k, Fetch(store, key).missingInputs).value, fuel - 1)
  {
  }

  /** A NotCached record, or a Cached one with a proxy whose content is gone, ends the loop for a build. */
  lemma UnresolvedRecordMisses(rekey: Rekeying, s: Serializers, files: map<string, seq<byte>>, store: BuildCacheStore,
                               key: string, fuel: nat)
    requires fuel > 0
    requires Fetch(store, key).kind == NotCached ||
      (Fetch(store, key).kind == Cached && Fetch(store, key).assets.Some? &&
       DeserializeAll(s, files, Fetch(store, key).assets.value).Success? &&
       !AllResolved(DeserializeAll(s, files, Fetch(store, key).assets.value).value))
    ensures LookupFrom(rekey, s, files, store, key, fuel) == BuildUnder(key)
  {
  }

  /**
   * On a miss the build runs once; its assets are returned in build order and a Found
   * record with one serialized proxy per asset, in the same order, is stored under the
   * key the loop ended on.
   */
  lemma MissBuildsAndStoresFound(k: KeyInputs, s: Serializers, files: map<string, seq<byte>>, store: BuildCacheStore,
                                 build: AssetSource -> Result<seq<ProxyAsset>, Error>, fuel: nat)
    requires Key(k, Some([])).Success?
    requires LookupFrom(Rekey(k), s, files, store, Key(k, Some([])).value, fuel).BuildUnder?
    requires build(k.source).Success?
    ensures var key := LookupFrom(Rekey(k), s, files, store, Key(k, Some([])).value, fuel).key;
      var assets := build(k.source).value;
      FetchOrCreateRun(k, s, files, store, build, fuel) == Run(Returned(assets), Store(store, key, Found(SerializeAll(s, assets))))
  {
  }

  /** Over NullBuildCache every call with fuel for one fetch builds, and the cache stays null. */
  lemma NullCacheAlwaysBuilds(k: KeyInputs, s: Serializers, files: map<string, seq<byte>>,
                              build: AssetSource -> Result<seq<ProxyAsset>, Error>, fuel: nat)
    requires fuel > 0 && Key(k, Some([])).Success?
    ensures FetchOrCreateRun(k, s, files, NullBuildCache, build, fuel) ==
      match build(k.source)
      case Failure(e) => Run(Threw(e), NullBuildCache)
      case Success(assets) => Run(Returned(assets), NullBuildCache)
  {
  }

  /** Serialized proxies whose contents are all in the data cache deserialize back to themselves, in order. */
  lemma {:induction false} SerializedProxiesReadBack(s: Serializers, files: map<string, seq<byte>>, assets: seq<ProxyAsset>)
    requires forall i :: 0 <= i < |assets| ==>
      assets[i].contentSha in files && s.readJson(s.writeJson(GetMeta(assets[i]))) == Success(MetaObject(GetMeta(assets[i])))
    ensures DeserializeAll(s, files, SerializeAll(s, assets)) == Success(seq(|assets|, i requires 0 <= i < |assets| => Some(assets[i])))
  {
    var encoded := SerializeAll(s, assets);
    forall i | 0 <= i < |assets|
      ensures DeserializeProxy(s, files, encoded[i]) == Success(Some(assets[i]))
    {
      ProxyRoundTrip(s, files, assets[i]);
    }
    var decoded := DeserializeAll(s, files, encoded);
    assert decoded.value == seq(|assets|, i requires 0 <= i < |assets| => Some(assets[i]));
  }

  /**
   * After a build on a first-time miss, the next FetchOrCreate with the same inputs is a
   * hit: it returns the built proxies in build order without building or storing, as long
   * as their contents are still in the data cache and the JSON serializer reads back
   * what it wrote.
   */
  lemma BuildThenFetchHits(k: KeyInputs, s: Serializers, files: map<string, seq<byte>>, records: map<string, CacheRecord>,
                           build: AssetSource -> Result<seq<ProxyAsset>, Error>,
                           rebuild: AssetSource -> Result<seq<ProxyAsset>, Error>, fuel: nat, fuel': nat)
    requires fuel > 0 && fuel' > 0 && Key(k, Some([])).Success?
    requires Fetch(RecordStore(records), Key(k, Some([])).value).kind == NotCached
    requires build(k.source).Success?
    requires forall i :: 0 <= i < |build(k.source).value| ==>
      var a := build(k.source).value[i];
      a.contentSha in files && s.readJson(s.writeJson(GetMeta(a))) == Success(MetaObject(GetMeta(a)))
    ensures var first := FetchOrCreateRun(k, s, files, RecordStore(records), build, fuel);
      first.outcome == Returned(build(k.source).value) &&
      FetchOrCreateRun(k, s, files, first.store, rebuild, fuel') == Run(Returned(build(k.source).value), first.store)
  {
    var key := Key(k, Some([])).value;
    var assets := build(k.source).value;
    UnresolvedRecordMisses(Rekey(k), s, files, RecordStore(records), key, fuel);
    var first := FetchOrCreateRun(k, s, files, RecordStore(records), build, fuel);
    assert first.store == Store(RecordStore(records), key, Found(SerializeAll(s, assets)));
    SerializedProxiesReadBack(s, files, assets);
    var decoded := DeserializeAll(s, files, SerializeAll(s, assets)).value;
    assert Resolved(decoded) == assets;
    ResolvedRecordHits(Rekey(k), s, files, first.store, key, fuel');
  }
}
