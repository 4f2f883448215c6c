/** Build-cache records and the two build-cache stores. */
module CacheRecords {

  import opened Wrappers
  import opened Hashing

  datatype CacheResult = NotCached | Cached | IncompleteKey

  /**
   * CacheRecord: the tag, the serialized proxies and the missing input files. The JSON
   * constructor accepts any combination, so either payload may be null (None) whatever the tag.
   */
  datatype CacheRecord = CacheRecord(kind: CacheResult, assets: Option<seq<seq<byte>>>, missingInputs: Option<seq<string>>)

  /** The record carries exactly the payload that matches its tag. */
  predicate WellFormed(r: CacheRecord) {
    match r.kind
    case Cached => r.assets.Some? && r.missingInputs.None?
    case NotCached => r.assets.None? && r.missingInputs.None?
    case IncompleteKey => r.assets.None? && r.missingInputs.Some?
  }

  /** CacheRecord.Found: a hit carrying the serialized proxies. */
  function Found(assets: seq<seq<byte>>): (r: CacheRecord)
    ensures WellFormed(r) && r.kind == Cached && r.assets == Some(assets)
  {
    CacheRecord(Cached, Some(assets), None)
  }

  /** CacheRecord.NotFound: a miss with neither payload. */
  function NotFound(): (r: CacheRecord)
    ensures WellFormed(r) && r.kind == NotCached
  {
    CacheRecord(NotCached, None, None)
  }

  /** CacheRecord.Incomplete: the key must be extended with the listed input files. */
  function Incomplete(missingInputs: seq<string>): (r: CacheRecord)
    ensures WellFormed(r) && r.kind == IncompleteKey && r.missingInputs == Some(missingInputs)
  {
    CacheRecord(IncompleteKey, None, Some(missingInputs))
  }

  /** The well-formed records are exactly those the three factories build. */
  lemma WellFormedIffFactoryBuilt(r: CacheRecord)
    ensures WellFormed(r) <==>
      (r == NotFound() || (r.assets.Some? && r == Found(r.assets.value)) ||
       (r.missingInputs.Some? && r == Incomplete(r.missingInputs.value)))
  {
  }

  /**
   * IBuildCache: NullBuildCache keeps nothing; a record store (the abstraction of the
   * on-disk LocalBuildCache) maps keys to whatever records were stored under them.
   */
  datatype BuildCacheStore = NullBuildCache | RecordStore(records: map<string, CacheRecord>)

  /** IBuildCache.Fetch: the record stored under `key`, NotFound when there is none. */
  function Fetch(cache: BuildCacheStore, key: string): (r: CacheRecord)
    ensures cache.NullBuildCache? ==> r == NotFound()
    ensures cache.RecordStore? && key !in cache.records ==> r == NotFound()
  {
    match cache
    case NullBuildCache => NotFound()
    case RecordStore(records) => if key in records then records[key] else NotFound()
  }

  /** IBuildCache.Store: NullBuildCache accepts any key and record and keeps nothing. */
  function Store(cache: BuildCacheStore, key: string, record: CacheRecord): (c: BuildCacheStore)
    ensures cache.NullBuildCache? ==> c == NullBuildCache
  {
    match cache
    case NullBuildCache => NullBuildCache
    case RecordStore(records) => RecordStore(records[key := record])
  }

  /** The null cache never yields Cached or IncompleteKey, even right after a Store. */
  lemma NullCacheAlwaysMisses(key: string, record: CacheRecord, key': string)
    ensures Fetch(Store(NullBuildCache, key, record), key').kind == NotCached
  {
  }

  /** A record store returns what was last stored under a key and leaves other keys alone. */
  lemma RecordStoreReadAfterWrite(records: map<string, CacheRecord>, key: string, record: CacheRecord, other: string)
    requires other != key
    ensures Fetch(Store(RecordStore(records), key, record), key) == record
    ensures Fetch(Store(RecordStore(records), key, record), other) == Fetch(RecordStore(records), other)
  {
  }
}
