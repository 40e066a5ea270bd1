/**
  The `csv` subcommand's output format (src/cli/csv.rs). `OutputFormat::from_str`
  lower-cases its input before matching, while the `--format` value parser
  (`Utils.VerifyFormatValid`) is case-sensitive.
*/
module CliCsv {
  import opened Wrappers
  import Utils

  datatype OutputFormat = Yaml | Json | Toml

  /** "Invalid output format: {s}". */
  datatype FormatError = InvalidOutputFormat(input: string)

  /** The default value of `--format`. */
  const DefaultFormat: string := "json"

  /** Lower-casing of one character, on the ASCII letters. */
  function LowerChar(ch: char): (r: char)
    ensures 'A' <= ch <= 'Z' ==> r as int == ch as int + 32
    ensures !('A' <= ch <= 'Z') ==> r == ch
    ensures !('A' <= r <= 'Z')
  {
    if 'A' <= ch <= 'Z' then (ch as int + 32) as char else ch
  }

  /** `str::to_lowercase`, character by character. */
  function ToLower(s: string): (t: string)
    ensures |t| == |s|
    ensures forall i :: 0 <= i < |s| ==> t[i] == LowerChar(s[i])
  {
    seq(|s|, i requires 0 <= i < |s| => LowerChar(s[i]))
  }

  /** Lower-casing twice is lower-casing once. */
  lemma ToLowerIdempotent(s: string)
    ensures ToLower(ToLower(s)) == ToLower(s)
  {
  }

  /** The lower-case name a format is written as. */
  function FormatName(f: OutputFormat): string {
    match f
    case Yaml => "yaml"
    case Json => "json"
    case Toml => "toml"
  }

  /** `OutputFormat::from_str`: a match on the lower-cased input. */
  function OutputFormatFromStr(s: string): (r: Result<OutputFormat, FormatError>)
    ensures r.Success? <==> ToLower(s) == "yaml" || ToLower(s) == "json" || ToLower(s) == "toml"
    ensures r.Success? ==> ToLower(s) == FormatName(r.value)
    ensures r.Failure? ==> r.error == InvalidOutputFormat(s)
  {
    match ToLower(s)
    case "yaml" => Success(Yaml)
    case "json" => Success(Json)
    case "toml" => Success(Toml)
    case _ => Failure(InvalidOutputFormat(s))
  }

  /** Every format parses back from its name, and from any case variant of it. */
  lemma FromStrRoundTrip(f: OutputFormat, s: string)
    requires ToLower(s) == FormatName(f)
    ensures OutputFormatFromStr(FormatName(f)) == Success(f)
    ensures OutputFormatFromStr(s) == Success(f)
  {
    match f
    case Yaml => assert ToLower("yaml") == "yaml";
    case Json => assert ToLower("json") == "json";
    case Toml => assert ToLower("toml") == "toml";
  }

  /** The parse ignores case: a string and its lower-case form parse alike, up to the error's echo of the input. */
  lemma FromStrIgnoresCase(s: string)
    ensures OutputFormatFromStr(s).Success? == OutputFormatFromStr(ToLower(s)).Success?
    ensures OutputFormatFromStr(s).Success? ==> OutputFormatFromStr(s) == OutputFormatFromStr(ToLower(s))
  {
  }

  /** Mixed-case spellings are accepted. */
  lemma FromStrAcceptsMixedCase()
    ensures OutputFormatFromStr("JSON") == Success(Json)
    ensures OutputFormatFromStr("Yaml") == Success(Yaml)
    ensures OutputFormatFromStr("toml") == Success(Toml)
  {
    assert ToLower("JSON") == "json";
    assert ToLower("Yaml") == "yaml";
    assert ToLower("toml") == "toml";
  }

  /**
    Every string the `--format` value parser lets through also parses, to the
    format of the same name; the converse fails, "JSON" being one witness.
  */
  lemma ValueParserImpliesFromStr(s: string)
    ensures Utils.VerifyFormatValid(s).Success? ==>
      OutputFormatFromStr(s).Success? && FormatName(OutputFormatFromStr(s).value) == s
    ensures OutputFormatFromStr("JSON").Success? && Utils.VerifyFormatValid("JSON").Failure?
  {
  }

  /** The default `--format` passes the value parser and selects JSON. */
  lemma DefaultFormatIsJson()
    ensures Utils.VerifyFormatValid(DefaultFormat) == Success(DefaultFormat)
    ensures OutputFormatFromStr(DefaultFormat) == Success(Json)
  {
    assert ToLower(DefaultFormat) == "json";
  }
}
