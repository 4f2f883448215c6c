/**
 * Build-cache keys (BuildCache): the hex SHA-256 of a line-per-field pre-image made of
 * the pipeline identity, the source path, the hash of the source file, the JSON of the
 * source configuration and the hash of every extra input file.
 *
 * The file system is a map from paths to entries; JSON serialization is a parameter.
 */
module BuildCache {

  import opened Wrappers
  import opened Errors
  import opened Hashing
  import opened Assets

  /**
   * What a path names: a regular file with its bytes, a directory, a file the process may
   * not read, or a file another process holds open without sharing reads.
   */
  datatype FsEntry = RegularFile(contents: seq<byte>) | Directory | ReadDenied | HeldOpen

  /** Paths absent from the map do not exist. */
  type FileSystem = map<string, FsEntry>

  /** JsonConvert.SerializeObject applied to a configuration. */
  type ConfigJson = Configuration -> string

  /** Environment.NewLine as StringBuilder.AppendLine writes it (the Unix value). */
  const NewLine: string := "\n"

  /** One AppendLine: the text followed by the line terminator. */
  function Line(s: string): string {
    s + NewLine
  }

  /** File.OpenRead rejects the empty path and a path holding a NUL character with an ArgumentException. */
  predicate IllegalPath(file: string) {
    |file| == 0 || '\0' in file
  }

  /** File.OpenRead succeeds on a regular file; a missing path is caught by HashFile. */
  predicate Readable(fs: FileSystem, file: string) {
    !IllegalPath(file) && (file !in fs || fs[file].RegularFile?)
  }

  /**
   * HashFile: the hex SHA-256 of a regular file's bytes; "".ToShaString() for a missing
   * path. Every other exception of File.OpenRead escapes: an illegal path, a directory or
   * a file it may not read, a file held open by another process.
   */
  function HashFile(sha: Sha256, fs: FileSystem, file: string): (r: Result<string, Error>)
    ensures r.Success? <==> Readable(fs, file)
    ensures r.Success? ==> |r.value| == 64 && forall k :: 0 <= k < |r.value| ==> IsUpperHex(r.value[k])
    ensures IllegalPath(file) ==> r == Failure(InvalidPath(file))
    ensures !IllegalPath(file) && file in fs && (fs[file].Directory? || fs[file].ReadDenied?) ==> r == Failure(AccessDenied(file))
    ensures !IllegalPath(file) && file in fs && fs[file].HeldOpen? ==> r == Failure(SharingViolation(file))
  {
    if IllegalPath(file) then Failure(InvalidPath(file))
    else if file !in fs then Success(ToShaString(sha, ""))
    else match fs[file]
      case RegularFile(contents) => Success(ToHexString(sha(contents)))
      case Directory => Failure(AccessDenied(file))
      case ReadDenied => Failure(AccessDenied(file))
      case HeldOpen => Failure(SharingViolation(file))
  }

  /** A missing file and an existing empty file hash alike. */
  lemma MissingFileHashesLikeEmptyFile(sha: Sha256, fs: FileSystem, file: string)
    requires file !in fs
    ensures HashFile(sha, fs, file) == HashFile(sha, fs[file := RegularFile([])], file)
  {
    assert Utf16LE("") == [];
  }

  /** The lines the loop over the extra input files appends, or the first exception it meets. */
  function InputLines(sha: Sha256, fs: FileSystem, files: seq<string>): (r: Result<string, Error>)
    ensures r.Success? ==> |r.value| == 65 * |files|
    decreases |files|
  {
    if |files| == 0 then Success("")
    else
      match InputLines(sha, fs, files[..|files| - 1])
      case Failure(e) => Failure(e)
      case Success(tail) =>
        match HashFile(sha, fs, files[|files| - 1])
        case Failure(e) => Failure(e)
        case Success(h) => Success(tail + Line(h))
  }

  /** The four lines that precede the extra input files. */
  function HeadLines(pipeline: string, asset: AssetSource, sourceHash: string, json: ConfigJson): string {
    Line(pipeline) + Line(asset.path) + Line(sourceHash) + Line(json(asset.configuration))
  }

  /**
   * The pre-image ComputeCacheKey hashes. `inputFiles` is None when the params array
   * itself is null, which makes the foreach throw.
   */
  function PreImage(sha: Sha256, fs: FileSystem, json: ConfigJson, pipeline: string,
                    asset: AssetSource, inputFiles: Option<seq<string>>): Result<string, Error>
  {
    match HashFile(sha, fs, asset.path)
    case Failure(e) => Failure(e)
    case Success(h) =>
      match inputFiles
      case None => Failure(NullReference)
      case Some(files) =>
        match InputLines(sha, fs, files)
        case Failure(e) => Failure(e)
        case Success(tail) => Success(HeadLines(pipeline, asset, h, json) + tail)
  }

  /** BuildCache.ComputeCacheKey as a value: the ToShaString of the pre-image, always 64 hex digits. */
  function CacheKey(sha: Sha256, fs: FileSystem, json: ConfigJson, pipeline: string,
                    asset: AssetSource, inputFiles: Option<seq<string>>): (r: Result<string, Error>)
    ensures r.Success? ==> |r.value| == 64 && forall k :: 0 <= k < |r.value| ==> IsUpperHex(r.value[k])
    ensures r.Success? <==> PreImage(sha, fs, json, pipeline, asset, inputFiles).Success?
  {
    match PreImage(sha, fs, json, pipeline, asset, inputFiles)
    case Failure(e) => Failure(e)
    case Success(p) => Success(ToShaString(sha, p))
  }

  /** BuildCache.ComputeCacheKey: appends the lines to a builder, one extra file at a time. */
  method ComputeCacheKey(sha: Sha256, fs: FileSystem, json: ConfigJson, pipeline: string,
                         asset: AssetSource, inputFiles: Option<seq<string>>) returns (r: Result<string, Error>)
    ensures r == CacheKey(sha, fs, json, pipeline, asset, inputFiles)
  {
    var key := Line(pipeline);
    key := key + Line(asset.path);
    var sourceHash := HashFile(sha, fs, asset.path);
    if sourceHash.Failure? {
      return Failure(sourceHash.error);
    }
    key := key + Line(sourceHash.value);
    key := key + Line(json(asset.configuration));
    assert key == HeadLines(pipeline, asset, sourceHash.value, json);
    if inputFiles.None? {
      return Failure(NullReference);
    }
    var built := AppendInputLines(sha, fs, key, inputFiles.value);
    if built.Failure? {
      return Failure(built.error);
    }
    r := Success(ToShaString(sha, built.value));
  }

  /** The foreach of ComputeCacheKey: appends one line per extra file to `head`, or stops at the first exception. */
  method AppendInputLines(sha: Sha256, fs: FileSystem, head: string, files: seq<string>) returns (r: Result<string, Error>)
    ensures InputLines(sha, fs, files).Failure? ==> r == Failure(InputLines(sha, fs, files).error)
    ensures InputLines(sha, fs, files).Success? ==> r == Success(head + InputLines(sha, fs, files).value)
  {
    var key := head;
    for i := 0 to |files|
      invariant InputLines(sha, fs, files[..i]).Success?
      invariant key == head + InputLines(sha, fs, files[..i]).value
    {
      assert files[..i + 1][..i] == files[..i];
      var fileHash := HashFile(sha, fs, files[i]);
      if fileHash.Failure? {
        InputLinesFirstFailure(sha, fs, files, i + 1);
        return Failure(fileHash.error);
      }
      key := key + Line(fileHash.value);
    }
    assert files[..|files|] == files;
    r := Success(key);
  }

  /** Once a prefix of the files fails, the whole loop fails with the same exception. */
  lemma {:induction false} InputLinesFirstFailure(sha: Sha256, fs: FileSystem, files: seq<string>, i: int)
    requires 0 <= i <= |files|
    requires InputLines(sha, fs, files[..i]).Failure?
    ensures InputLines(sha, fs, files) == InputLines(sha, fs, files[..i])
    decreases |files| - i
  {
    if i < |files| {
      assert files[..i + 1][..i] == files[..i];
      InputLinesFirstFailure(sha, fs, files, i + 1);
    } else {
      assert files[..i] == files;
    }
  }

  /** Block k of the extra-file lines is the line of the k-th file's hash. */
  lemma {:induction false} InputLinesBlock(sha: Sha256, fs: FileSystem, files: seq<string>, k: int)
    requires InputLines(sha, fs, files).Success?
    requires 0 <= k < |files|
    ensures HashFile(sha, fs, files[k]).Success?
    ensures InputLines(sha, fs, files).value[65 * k .. 65 * k + 65] == Line(HashFile(sha, fs, files[k]).value)
    decreases |files|
  {
    var n := |files|;
    var prefix := files[..n - 1];
    var tail := InputLines(sha, fs, prefix).value;
    if k < n - 1 {
      assert prefix[k] == files[k];
      InputLinesBlock(sha, fs, prefix, k);
      assert InputLines(sha, fs, files).value[65 * k .. 65 * k + 65] == tail[65 * k .. 65 * k + 65];
    } else {
      assert InputLines(sha, fs, files).value[65 * k ..] == Line(HashFile(sha, fs, files[k]).value);
    }
  }

  /** The extra-file loop succeeds exactly when every input file can be opened or is missing. */
  lemma {:induction false} InputLinesSucceedIffReadable(sha: Sha256, fs: FileSystem, files: seq<string>)
    ensures InputLines(sha, fs, files).Success? <==> forall k :: 0 <= k < |files| ==> Readable(fs, files[k])
    decreases |files|
  {
    if |files| > 0 {
      var prefix := files[..|files| - 1];
      InputLinesSucceedIffReadable(sha, fs, prefix);
      assert forall k :: 0 <= k < |prefix| ==> prefix[k] == files[k];
    }
  }

  /**
   * The pre-image with extra input files is the pre-image without them followed by the
   * lines of the files' hashes (laid out block by block as InputLinesBlock states).
   */
  lemma PreImageLayout(sha: Sha256, fs: FileSystem, json: ConfigJson, pipeline: string,
                       asset: AssetSource, files: seq<string>)
    requires PreImage(sha, fs, json, pipeline, asset, Some(files)).Success?
    ensures PreImage(sha, fs, json, pipeline, asset, Some([])).Success?
    ensures PreImage(sha, fs, json, pipeline, asset, Some(files)).value ==
            PreImage(sha, fs, json, pipeline, asset, Some([])).value + InputLines(sha, fs, files).value
  {
    var h := HashFile(sha, fs, asset.path).value;
    assert InputLines(sha, fs, []) == Success("");
    assert PreImage(sha, fs, json, pipeline, asset, Some([])) == Success(HeadLines(pipeline, asset, h, json) + "");
    assert HeadLines(pipeline, asset, h, json) + "" == HeadLines(pipeline, asset, h, json);
  }

  /** Two file systems that agree on a path. */
  predicate SameEntry(fs1: FileSystem, fs2: FileSystem, file: string) {
    (file in fs1 <==> file in fs2) && (file in fs1 ==> fs1[file] == fs2[file])
  }

  lemma {:induction false} InputLinesFrame(sha: Sha256, fs1: FileSystem, fs2: FileSystem, files: seq<string>)
    requires forall k :: 0 <= k < |files| ==> SameEntry(fs1, fs2, files[k])
    ensures InputLines(sha, fs1, files) == InputLines(sha, fs2, files)
    decreases |files|
  {
    if |files| > 0 {
      var prefix := files[..|files| - 1];
      assert forall k :: 0 <= k < |prefix| ==> prefix[k] == files[k];
      InputLinesFrame(sha, fs1, fs2, prefix);
    }
  }

  /**
   * The key is deterministic: it depends on the file system only through the source
   * path and the extra input files.
   */
  lemma CacheKeyDependsOnlyOnReadFiles(sha: Sha256, fs1: FileSystem, fs2: FileSystem, json: ConfigJson,
                                       pipeline: string, asset: AssetSource, files: seq<string>)
    requires SameEntry(fs1, fs2, asset.path)
    requires forall k :: 0 <= k < |files| ==> SameEntry(fs1, fs2, files[k])
    ensures CacheKey(sha, fs1, json, pipeline, asset, Some(files)) == CacheKey(sha, fs2, json, pipeline, asset, Some(files))
  {
    InputLinesFrame(sha, fs1, fs2, files);
  }

  /**
   * Editing the source file so that its digest changes changes the pre-image, so the
   * new key can only coincide with the old one through a SHA-256 collision.
   */
  lemma SourceEditChangesPreImage(sha: Sha256, fs: FileSystem, json: ConfigJson, pipeline: string,
                                  asset: AssetSource, files: seq<string>, c1: seq<byte>, c2: seq<byte>)
    requires sha(c1) != sha(c2)
    requires PreImage(sha, fs[asset.path := RegularFile(c1)], json, pipeline, asset, Some(files)).Success?
    requires PreImage(sha, fs[asset.path := RegularFile(c2)], json, pipeline, asset, Some(files)).Success?
    ensures PreImage(sha, fs[asset.path := RegularFile(c1)], json, pipeline, asset, Some(files)) !=
            PreImage(sha, fs[asset.path := RegularFile(c2)], json, pipeline, asset, Some(files))
  {
    var fs1 := fs[asset.path := RegularFile(c1)];
    var fs2 := fs[asset.path := RegularFile(c2)];
    var h1 := ToHexString(sha(c1));
    var h2 := ToHexString(sha(c2));
    var lead := Line(pipeline) + Line(asset.path);
    var p1 := PreImage(sha, fs1, json, pipeline, asset, Some(files)).value;
    var p2 := PreImage(sha, fs2, json, pipeline, asset, Some(files)).value;
    var rest1 := NewLine + Line(json(asset.configuration)) + InputLines(sha, fs1, files).value;
    var rest2 := NewLine + Line(json(asset.configuration)) + InputLines(sha, fs2, files).value;
    assert p1 == lead + h1 + rest1;
    assert p2 == lead + h2 + rest2;
    assert p1[|lead| .. |lead| + 64] == h1;
    assert p2[|lead| .. |lead| + 64] == h2;
    if p1 == p2 {
      ToHexStringInjective(sha(c1), sha(c2));
    }
  }

  /** The legacy pre-image (Caching.cs): no line for the source file's own hash. */
  function LegacyPreImage(sha: Sha256, fs: FileSystem, json: ConfigJson, pipeline: string,
                          asset: AssetSource, inputFiles: Option<seq<string>>): Result<string, Error>
  {
    match inputFiles
    case None => Failure(NullReference)
    case Some(files) =>
      match InputLines(sha, fs, files)
      case Failure(e) => Failure(e)
      case Success(tail) => Success(Line(pipeline) + Line(asset.path) + Line(json(asset.configuration)) + tail)
  }

  /** The legacy BuildCache.ComputeCacheKey, as a value. */
  function LegacyCacheKey(sha: Sha256, fs: FileSystem, json: ConfigJson, pipeline: string,
                          asset: AssetSource, inputFiles: Option<seq<string>>): (r: Result<string, Error>)
    ensures r.Success? ==> |r.value| == 64
  {
    match LegacyPreImage(sha, fs, json, pipeline, asset, inputFiles)
    case Failure(e) => Failure(e)
    case Success(p) => Success(ToShaString(sha, p))
  }

  /**
   * With the legacy key, rewriting the source file with any other bytes leaves the key
   * as it was, so a stale cached build is still found.
   */
  lemma LegacyKeyIgnoresSourceEdit(sha: Sha256, fs: FileSystem, json: ConfigJson, pipeline: string,
                                   asset: AssetSource, files: seq<string>, c1: seq<byte>, c2: seq<byte>)
    requires asset.path !in files
    ensures LegacyCacheKey(sha, fs[asset.path := RegularFile(c1)], json, pipeline, asset, Some(files)) ==
            LegacyCacheKey(sha, fs[asset.path := RegularFile(c2)], json, pipeline, asset, Some(files))
  {
    var fs1 := fs[asset.path := RegularFile(c1)];
    var fs2 := fs[asset.path := RegularFile(c2)];
    forall k | 0 <= k < |files|
      ensures SameEntry(fs1, fs2, files[k])
    {
      assert files[k] != asset.path;
    }
    InputLinesFrame(sha, fs1, fs2, files);
  }
}
