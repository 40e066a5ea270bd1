/**
  Command-line value parsers of src/utils.rs. The file system is abstract: a
  `FileSystem` answers `fs::metadata(path)` with `None` for an error (missing
  path, no permission) or the metadata of what is there.
*/
module Utils {
  import opened Wrappers

  /** What `fs::metadata` reports that the parsers look at. */
  datatype Metadata = Metadata(isFile: bool)

  /** The file system as a query: `fs::metadata(path)`. */
  type FileSystem = string -> Option<Metadata>

  datatype PathError =
    | NotAFile(path: string)   // "Path exists but is not a file"
    | NotFound(path: string)   // "File not found"

  /** "format is not supporteded". */
  datatype FormatError = UnsupportedFormat

  /** The path that names standard input. */
  const StdinPath: string := "-"

  /**
    `verify_file_exists`: "-" passes untouched; any other path passes, unchanged,
    exactly when it names an existing regular file.
  */
  function VerifyFileExists(fs: FileSystem, path: string): (r: Result<string, PathError>)
    ensures path == StdinPath ==> r == Success(StdinPath)
    ensures r.Success? ==> r.value == path
    ensures path != StdinPath ==> (r.Success? <==> fs(path).Some? && fs(path).value.isFile)
    ensures path != StdinPath && fs(path).Some? && !fs(path).value.isFile ==> r == Failure(NotAFile(path))
    ensures path != StdinPath && fs(path).None? ==> r == Failure(NotFound(path))
  {
    if path == StdinPath then
      Success(path)
    else
      match fs(path)
      case Some(metadata) =>
        if metadata.isFile then Success(path) else Failure(NotAFile(path))
      case None => Failure(NotFound(path))
  }

  /** "-" is accepted whatever the file system holds: it is never consulted. */
  lemma StdinIgnoresFileSystem(fs1: FileSystem, fs2: FileSystem)
    ensures VerifyFileExists(fs1, StdinPath) == VerifyFileExists(fs2, StdinPath) == Success(StdinPath)
  {
  }

  /** For any other path, only the metadata of that one path matters. */
  lemma VerifyFileExistsIsLocal(fs1: FileSystem, fs2: FileSystem, path: string)
    requires fs1(path) == fs2(path)
    ensures VerifyFileExists(fs1, path) == VerifyFileExists(fs2, path)
  {
  }

  /** `verify_format_valid`: exactly "json", "yaml" and "toml", case-sensitive, returned unchanged. */
  function VerifyFormatValid(format: string): (r: Result<string, FormatError>)
    ensures r.Success? <==> format == "json" || format == "yaml" || format == "toml"
    ensures r.Success? ==> r.value == format
    ensures r.Failure? ==> r.error == UnsupportedFormat
  {
    match format
    case "json" => Success(format)
    case "yaml" => Success(format)
    case "toml" => Success(format)
    case _ => Failure(UnsupportedFormat)
  }

  /** The value parser is case-sensitive. */
  lemma VerifyFormatValidIsCaseSensitive()
    ensures VerifyFormatValid("JSON").Failure?
    ensures VerifyFormatValid("Yaml").Failure?
    ensures VerifyFormatValid("TOML").Failure?
  {
  }
}
