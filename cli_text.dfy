/**
  The `text` subcommand's argument parsing (src/cli/text.rs): the closed set of
  signature formats and the `--format` value parser shared by `sign`, `verify`
  and `generate`.
*/
module CliText {
  import opened Wrappers

  /** The signature scheme chosen on the command line. */
  datatype TextFormat = Blake3 | Ed25519

  /** "Invalid signature format". */
  datatype FormatError = InvalidSignatureFormat

  /** The value every `--format` option of the `text` subcommands defaults to. */
  const DefaultFormat: string := "blake3"

  /** `TextFormat::from_str`: an exact, case-sensitive match on two names. */
  function TextFormatFromStr(s: string): (r: Result<TextFormat, FormatError>)
    ensures r == Success(Blake3) <==> s == "blake3"
    ensures r == Success(Ed25519) <==> s == "ed25519"
    ensures r.Failure? <==> s != "blake3" && s != "ed25519"
    ensures r.Failure? ==> r.error == InvalidSignatureFormat
  {
    match s
    case "blake3" => Success(Blake3)
    case "ed25519" => Success(Ed25519)
    case _ => Failure(InvalidSignatureFormat)
  }

  /** The canonical command-line name of a format. */
  function FormatName(f: TextFormat): string {
    match f
    case Blake3 => "blake3"
    case Ed25519 => "ed25519"
  }

  /** `parser_format`: the clap value parser is `str::parse`, i.e. `from_str`. */
  function ParserFormat(s: string): (r: Result<TextFormat, FormatError>)
    ensures r == TextFormatFromStr(s)
    ensures r.Success? ==> FormatName(r.value) == s
  {
    TextFormatFromStr(s)
  }

  /** Every format is reachable from the command line, through its own name only. */
  lemma ParserFormatRoundTrip(f: TextFormat, s: string)
    ensures ParserFormat(FormatName(f)) == Success(f)
    ensures ParserFormat(s) == Success(f) ==> s == FormatName(f)
  {
  }

  /** The default of the `sign`, `verify` and `generate` subcommands selects BLAKE3. */
  lemma DefaultFormatIsBlake3()
    ensures ParserFormat(DefaultFormat) == Success(Blake3)
  {
  }

  /** The match is case-sensitive: capitalised spellings are rejected. */
  lemma FromStrIsCaseSensitive()
    ensures TextFormatFromStr("Blake3") == Failure(InvalidSignatureFormat)
    ensures TextFormatFromStr("BLAKE3") == Failure(InvalidSignatureFormat)
    ensures TextFormatFromStr("ED25519") == Failure(InvalidSignatureFormat)
    ensures TextFormatFromStr("Ed25519") == Failure(InvalidSignatureFormat)
  {
  }
}
