/** The exceptions the modelled code raises or lets through. */
module Errors {

  datatype Error =
    /** FileNotFoundException; FileName carries the missing content hash. */
    | FileNotFound(fileName: string)
    /** UnauthorizedAccessException from File.OpenRead on a directory or a file it may not read. */
    | AccessDenied(path: string)
    /** IOException from File.OpenRead on a file another process holds without sharing reads. */
    | SharingViolation(path: string)
    /** ArgumentException from File.OpenRead on a path that is not of a legal form. */
    | InvalidPath(path: string)
    /** NullReferenceException: a null key-file list, packager or JSON null was dereferenced. */
    | NullReference
    /** ArgumentNullException: a LINQ operator was given a null sequence. */
    | ArgumentNull
    /** InvalidCastException: a cached or deserialized object is not of the expected type. */
    | InvalidCast
    /** An exception thrown by the JSON or ProtoBuf reader on malformed input. */
    | MalformedData
    /** An exception thrown by a host-supplied importer, processor, packager or build function. */
    | StageFailure(message: string)
}
