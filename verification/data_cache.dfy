/**
 * The in-memory content-addressed store (MemoryDataCache): a dictionary from the
 * hex SHA-256 of some bytes to those bytes. The legacy MemoryCas is the same code.
 */
module DataCache {

  import opened Wrappers
  import opened Errors
  import opened Hashing

  /** The name under which Store files some content: the hex SHA-256 of its bytes. */
  function ContentName(sha: Sha256, bytes: seq<byte>): (name: string)
    ensures |name| == 64
    ensures forall k :: 0 <= k < |name| ==> IsUpperHex(name[k])
  {
    ToHexString(sha(bytes))
  }

  /** The store's invariant: every key is the digest of its value. */
  ghost predicate ContentAddressed(sha: Sha256, files: map<string, seq<byte>>) {
    forall h :: h in files ==> h == ContentName(sha, files[h])
  }

  /** The dictionary after storing some bytes: `_files[name] = bytes`. */
  function Stored(sha: Sha256, files: map<string, seq<byte>>, bytes: seq<byte>): map<string, seq<byte>> {
    files[ContentName(sha, bytes) := bytes]
  }

  /** The dictionary after storing each of `values` in turn. */
  function StoredAll(sha: Sha256, files: map<string, seq<byte>>, values: seq<seq<byte>>): map<string, seq<byte>>
    decreases |values|
  {
    if |values| == 0 then files else StoredAll(sha, Stored(sha, files, values[0]), values[1..])
  }

  /** No two of `values` are different bytes with the same digest. */
  ghost predicate NoCollisions(sha: Sha256, values: seq<seq<byte>>) {
    forall i, j :: 0 <= i < |values| && 0 <= j < |values| && sha(values[i]) == sha(values[j]) ==> values[i] == values[j]
  }

  /** Store keeps the invariant, whatever was there before under other names. */
  lemma StoreKeepsContentAddressed(sha: Sha256, files: map<string, seq<byte>>, bytes: seq<byte>)
    requires ContentAddressed(sha, files)
    ensures ContentAddressed(sha, Stored(sha, files, bytes))
  {
  }

  /** Reading back under the returned name yields exactly the stored bytes; no other entry changes. */
  lemma ReadAfterWrite(sha: Sha256, files: map<string, seq<byte>>, bytes: seq<byte>)
    ensures ContentName(sha, bytes) in Stored(sha, files, bytes)
    ensures Stored(sha, files, bytes)[ContentName(sha, bytes)] == bytes
    ensures forall h :: h != ContentName(sha, bytes) ==>
      (h in Stored(sha, files, bytes) <==> h in files) &&
      (h in files ==> Stored(sha, files, bytes)[h] == files[h])
  {
  }

  /** Storing the same bytes twice gives the same name and leaves the dictionary as the first store left it. */
  lemma StoreIdempotent(sha: Sha256, files: map<string, seq<byte>>, bytes: seq<byte>)
    ensures Stored(sha, Stored(sha, files, bytes), bytes) == Stored(sha, files, bytes)
  {
  }

  /** After many stores of collision-free contents, each content is readable under its own name. */
  lemma {:induction false} ManyStoresReadable(sha: Sha256, files: map<string, seq<byte>>, values: seq<seq<byte>>)
    requires NoCollisions(sha, values)
    ensures forall i :: 0 <= i < |values| ==>
      ContentName(sha, values[i]) in StoredAll(sha, files, values) &&
      StoredAll(sha, files, values)[ContentName(sha, values[i])] == values[i]
    decreases |values|
  {
    if |values| > 0 {
      var rest := values[1..];
      var next := Stored(sha, files, values[0]);
      assert NoCollisions(sha, rest) by {
        forall i, j | 0 <= i < |rest| && 0 <= j < |rest| && sha(rest[i]) == sha(rest[j])
          ensures rest[i] == rest[j]
        {
          assert rest[i] == values[i + 1] && rest[j] == values[j + 1];
        }
      }
      ManyStoresReadable(sha, next, rest);
      forall k | 0 <= k < |rest| && ContentName(sha, rest[k]) == ContentName(sha, values[0])
        ensures rest[k] == values[0]
      {
        ToHexStringInjective(sha(rest[k]), sha(values[0]));
        assert rest[k] == values[k + 1];
      }
      StoresKeepUntouched(sha, next, rest, ContentName(sha, values[0]), values[0]);
      forall i | 0 <= i < |values|
        ensures ContentName(sha, values[i]) in StoredAll(sha, files, values)
        ensures StoredAll(sha, files, values)[ContentName(sha, values[i])] == values[i]
      {
        if i > 0 {
          assert values[i] == rest[i - 1];
        }
      }
    }
  }

  /** An entry survives later stores whose names differ from it or that store the same bytes. */
  lemma {:induction false} StoresKeepUntouched(sha: Sha256, files: map<string, seq<byte>>, values: seq<seq<byte>>, h: string, v: seq<byte>)
    requires h in files && files[h] == v
    requires forall k :: 0 <= k < |values| && ContentName(sha, values[k]) == h ==> values[k] == v
    ensures h in StoredAll(sha, files, values) && StoredAll(sha, files, values)[h] == v
    decreases |values|
  {
    if |values| > 0 {
      StoresKeepUntouched(sha, Stored(sha, files, values[0]), values[1..], h, v);
    }
  }

  class MemoryDataCache {

    /** The SHA-256 implementation the store hashes with. */
    const sha: Sha256
    /** `_files`: digest name to content. */
    var files: map<string, seq<byte>>

    ghost predicate Valid()
      reads this
    {
      ContentAddressed(sha, files)
    }

    constructor (sha: Sha256)
      ensures this.sha == sha && files == map[]
      ensures Valid()
    {
      this.sha := sha;
      files := map[];
    }

    /** HasContent: whether some content is filed under `hash`. */
    method HasContent(hash: string) returns (found: bool)
      ensures found <==> hash in files
    {
      found := hash in files;
    }

    /** Open: the content filed under `hash`, or FileNotFoundException naming the hash. */
    method Open(hash: string) returns (r: Result<seq<byte>, Error>)
      ensures hash in files ==> r == Success(files[hash])
      ensures hash !in files ==> r == Failure(FileNotFound(hash))
    {
      if hash !in files {
        return Failure(FileNotFound(hash));
      }
      r := Success(files[hash]);
    }

    /**
     * Store: `written` is what the writer produced; it is filed under the hex digest of
     * exactly those bytes, and that name is returned.
     */
    method Store(written: seq<byte>) returns (name: string)
      requires Valid()
      modifies this
      ensures Valid()
      ensures name == ContentName(sha, written)
      ensures files == Stored(sha, old(files), written)
    {
      name := ToHexString(sha(written));
      StoreKeepsContentAddressed(sha, files, written);
      files := files[name := written];
    }
  }
}
