# rcli core, modelled in Dafny

`rcli` is a small Rust command-line tool. This project models its core logic and proves properties of it:

- **Text signing** (`src/process/text.rs`). A message is signed and verified under one of two schemes:
  - a BLAKE3 keyed-hash MAC with a 32-byte key;
  - Ed25519 (RFC 8032, section 5.1), signing with a 32-byte seed and verifying with a 32-byte public key.
  The scheme is picked from the `TextFormat` tag. Key generation returns a bundle of named keys.
- **Password generation** (`src/process/password_generate.rs`). The generator takes one mandatory character from each enabled class, fills the rest from the pool of all enabled classes, and then shuffles.
- **CSV record-to-map conversion** (`src/process/csv_generate.rs`). Each record becomes a map from header name to field. The module also builds the TOML root map.
- **Command-line value parsers** (`src/cli/text.rs`, `src/cli/csv.rs`, `src/utils.rs`).

Files and modules:

| file | module | models |
|---|---|---|
| `wrappers.dfy` | `Wrappers` | `Result` (Rust's `Ok`/`Err`) and `Option` |
| `cli_text.dfy` | `CliText` | `TextFormat`, its `from_str`, `parser_format`, the defaults |
| `cli_csv.dfy` | `CliCsv` | `OutputFormat`, its `from_str`, lower-casing, the `--format` default |
| `utils.dfy` | `Utils` | `verify_file_exists`, `verify_format_valid` |
| `text.dfy` | `Text` | the schemes, `constant_time_eq`, the dispatchers, key generation |
| `password_generate.dfy` | `PasswordGenerate` | `password_gen` and the shuffle |
| `csv_generate.dfy` | `CsvGenerate` | `read_csv_data`, the `process_toml` root map |

Modelling choices:

- **Cryptographic primitives.** They stay uninterpreted. Each operation receives a `Primitives` value whose fields stand for the primitives:
  - `keyedHash(key, msg)` is `blake3::keyed_hash`;
  - `edSign(seed, msg)` is signing with the key derived from a seed;
  - `edPublic(seed)` is the public key derived from a seed;
  - `validPk(bytes)` is whether `VerifyingKey::from_bytes` accepts an encoding;
  - `edVerify(pk, msg, sig)` is `VerifyingKey::verify`.

  The types of these fields fix the result lengths: 32 bytes for a MAC, 64 for a signature. Nothing else is assumed. The Ed25519 round trip is proved only for primitives that satisfy `Ed25519Sound`, which says the library accepts its own signatures.
- **The message source.** It is a `Reader` object whose remaining bytes `read_to_end` drains. The dispatchers' contracts therefore show when the input is read:
  - a key error leaves the input untouched;
  - once the key is accepted, the input is consumed, even when Ed25519 then rejects a signature of the wrong length.
- **`constant_time_eq`.** It is modelled as the crate computes it: a length check, then the OR of the XORs of all byte pairs, tested once at the end. `ConstantTimeEq` is proved equal to sequence equality.
- **Randomness.** Key generation takes the random source's 32 bytes as a parameter, `entropy`. In the password generator every random choice is a nondeterministic `:|`. The shuffle is the Fisher–Yates loop of `SliceRandom::shuffle`, running in place on an array with a nondeterministic swap index. Every contract therefore holds whatever the random source returns.
- **The empty-pool panic.** With no class enabled and `length > 0`, the source panics in `expect`. The model returns the explicit error `EmptyPool` instead.
- **The file system.** `verify_file_exists` queries the file system. The query is a function parameter `fs: string -> Option<Metadata>`, where `None` stands for an error from `fs::metadata`.
- **The csv crate.** Its output enters as values: the header row, and one entry per record that holds either the parsed fields or a parse error.

Behaviour the code fixes and the model follows:

- **A mis-sized signature is handled differently per scheme.** BLAKE3 verification folds a wrong-length signature into `Ok(false)`. Ed25519 verification returns an error for it. The two schemes disagree here; the model follows the code.
- **Role names.** The key roles are `"blake3.key"`, `"ed25519.sk"` and `"ed25519.pk"`, as in the code.
- **Error messages.** The length errors name only the expected length, as the code's messages do.
- **Duplicated code.** `src/process/csv_generate.rs` repeats two functions word for word:
  - `OutputFormat::from_str` (lines 55-62), modelled once as `CliCsv.OutputFormatFromStr`;
  - `verify_format_valid` (lines 87-94), modelled once as `Utils.VerifyFormatValid`.

## Model

| member | source | states |
|---|---|---|
| `CliText.TextFormatFromStr` | src/cli/text.rs:53-59 | "blake3" parses to Blake3 and "ed25519" to Ed25519, each iff the input is exactly that string; every other string is the "Invalid signature format" error |
| `CliText.ParserFormat` | src/cli/text.rs:62-64 | the value parser returns exactly `TextFormat::from_str`; a parsed format's name is the input |
| `CliText.ParserFormatRoundTrip` | src/cli/text.rs:50-59 | every format parses from its own name, and only from that name |
| `CliText.DefaultFormatIsBlake3` | src/cli/text.rs:20-41 | the default "blake3" of the sign, verify and generate subcommands parses to Blake3 |
| `CliText.FromStrIsCaseSensitive` | src/cli/text.rs:54-58 | "Blake3", "BLAKE3", "ED25519" and "Ed25519" are rejected |
| `CliCsv.ToLower` | src/cli/csv.rs:41 | lower-casing keeps the length and lower-cases each character |
| `CliCsv.ToLowerIdempotent` | src/cli/csv.rs:41 | lower-casing an already lower-cased string changes nothing, so `from_str` sees the same text whether or not its input was lower-cased first |
| `CliCsv.OutputFormatFromStr` | src/cli/csv.rs:40-47 | succeeds iff the lower-cased input is "yaml", "json" or "toml", giving the format of that name; any other input is `InvalidOutputFormat(s)` |
| `CliCsv.FromStrRoundTrip` | src/cli/csv.rs:41-44 | each format parses from its name and from every case variant of it |
| `CliCsv.FromStrIgnoresCase` | src/cli/csv.rs:41 | a string and its lower-cased form are accepted alike, and to the same format |
| `CliCsv.FromStrAcceptsMixedCase` | src/cli/csv.rs:40-44 | "JSON", "Yaml" and "toml" parse to Json, Yaml and Toml |
| `CliCsv.ValueParserImpliesFromStr` | src/cli/csv.rs:17-47 | every string the `--format` value parser accepts also parses with `from_str`, to the format of that name; "JSON" parses but fails the value parser |
| `CliCsv.DefaultFormatIsJson` | src/cli/csv.rs:17 | the default "json" passes the value parser unchanged and parses to Json |
| `Utils.VerifyFileExists` | src/utils.rs:7-25 | "-" is returned as is; any other path is returned unchanged iff it exists and is a regular file; an existing non-file is `NotAFile` and a failed lookup is `NotFound` |
| `Utils.StdinIgnoresFileSystem` | src/utils.rs:8-11 | the result for "-" is the same on every file system |
| `Utils.VerifyFileExistsIsLocal` | src/utils.rs:12-24 | for any path, only that path's metadata affects the result |
| `Utils.VerifyFormatValid` | src/utils.rs:27-34 | accepts exactly "json", "yaml" and "toml", returning the input unchanged |
| `Utils.VerifyFormatValidIsCaseSensitive` | src/utils.rs:28-32 | "JSON", "Yaml" and "TOML" are rejected |
| `Text.DiffBits` | src/process/text.rs:75-78 | the reference definition of the XOR/OR fold inside `constant_time_eq`; `Text.DiffBitsZero` states what it computes |
| `Text.DiffBitsZero` | src/process/text.rs:75-78 | the OR-fold of byte XORs is zero iff the two equal-length sequences are equal |
| `Text.ConstantTimeEq` | src/process/text.rs:75-78 | `constant_time_eq` is true iff the sequences are equal; differing lengths give false |
| `Text.Blake3.TryNew` | src/process/text.rs:43-48 | succeeds iff the slice is 32 bytes long, storing those bytes unchanged; otherwise it is the key-length error |
| `Text.Blake3.Check` | src/process/text.rs:73-78 | the verdict is true iff `sig` equals the recomputed MAC; a signature that is not 32 bytes gives false, not an error |
| `Text.Blake3.Sign` | src/process/text.rs:61-66 | reads the whole input and returns `Ok` of its 32-byte keyed hash |
| `Text.Blake3.Verify` | src/process/text.rs:70-79 | reads the whole input and returns `Ok` of the MAC comparison, never an error |
| `Text.Blake3.GenerateKey` | src/process/text.rs:50-57 | returns exactly one entry, "blake3.key", holding the 32 random bytes |
| `Text.Ed25519Signer.TryNew` | src/process/text.rs:89-99 | succeeds iff the seed is 32 bytes, keeping it; otherwise it is the seed-length error |
| `Text.Ed25519Signer.Sign` | src/process/text.rs:113-118 | reads the whole input and returns the 64-byte signature under the seed |
| `Text.Ed25519Signer.GenerateKey` | src/process/text.rs:101-109 | returns exactly "ed25519.sk" (the random seed) and "ed25519.pk" (the public key derived from that seed) |
| `Text.Ed25519Verifier.TryNew` | src/process/text.rs:128-140 | succeeds iff the key is 32 bytes and a valid encoding; a wrong length and a bad encoding are two distinct errors, checked in that order |
| `Text.Ed25519Verifier.Check` | src/process/text.rs:148-157 | a signature that is not 64 bytes is an error, not false; a 64-byte one gives exactly the library's verification predicate |
| `Text.Ed25519Verifier.Verify` | src/process/text.rs:144-158 | reads the whole input first, then judges the signature as `Check` does |
| `Text.TextSign` | src/process/text.rs:162-171 | signing succeeds iff the key is 32 bytes; the tag alone picks the BLAKE3 MAC (32 bytes) or the Ed25519 signature (64 bytes), or that scheme's key error |
| `Text.TextVerify` | src/process/text.rs:172-185 | BLAKE3: key error, or `Ok(sig == MAC)`; Ed25519: key-length, key-encoding or signature-length error, in that order, or `Ok` of the library predicate |
| `Text.ProcessTextSign` | src/process/text.rs:162-171 | gives the result of `TextSign` on the input; on a key error the input is left unread, otherwise it is consumed |
| `Text.ProcessTextVerify` | src/process/text.rs:172-185 | gives the result of `TextVerify` on the input; the input is consumed exactly when the key is accepted, even if the signature is then rejected |
| `Text.ProcessKeyGenerate` | src/process/text.rs:187-193 | never fails; Blake3 gives one 32-byte "blake3.key"; Ed25519 gives "ed25519.sk" and "ed25519.pk", each 32 bytes, with pk derived from sk |
| `Text.Blake3VerifyIffSigned` | src/process/text.rs:69-79 | with a valid key, BLAKE3 verification returns `Ok(true)` exactly for the signature `sign` produces |
| `Text.Blake3RoundTrip` | src/process/text.rs:209-224 | signing then verifying with the same key and message gives `Ok(true)` |
| `Text.Blake3FirstByteTamper` | src/process/text.rs:226-244 | a MAC whose first byte is incremented with wrap-around verifies to `Ok(false)` |
| `Text.WrongLengthSignatures` | src/process/text.rs:69-157 | a mis-sized signature makes BLAKE3 return `Ok(false)` and Ed25519 return the signature-length error |
| `Text.Ed25519RoundTrip` | src/process/text.rs:266-288 | for a library that accepts its own signatures, an Ed25519 signature verifies under the public key derived from the signing seed |
| `Text.Blake3Scenario` | src/process/text.rs:209-224 | with key 0x2A×32 and "This is a test message for blake3", the MAC D is 32 bytes, D verifies, and D with its first byte incremented does not |
| `PasswordGenerate.Shuffle` | src/process/password_generate.rs:76 | the in-place shuffle only reorders the array: its multiset is unchanged |
| `PasswordGenerate.ShuffleVec` | src/process/password_generate.rs:76-77 | the collected password is a permutation of the shuffled characters |
| `PasswordGenerate.TakeClass` | src/process/password_generate.rs:24-32 | one class block (the same shape repeats at lines 33-59): an enabled class appends its alphabet to the pool and one character of that alphabet after the unchanged mandatory characters; a disabled class leaves pool and mandatory characters exactly as they were |
| `PasswordGenerate.CollectClasses` | src/process/password_generate.rs:21-59 | after the four class blocks the pool is the concatenation of the enabled alphabets in source order, and the mandatory characters hold exactly one character of each enabled class, in that order |
| `PasswordGenerate.ConcatContainsClasses` | src/process/password_generate.rs:24-59 | every character of each enabled alphabet is in the pool |
| `PasswordGenerate.EnabledClassesInPool` | src/process/password_generate.rs:24-59 | each enabled flag contributes its alphabet; the number of classes is the number of enabled flags |
| `PasswordGenerate.AssembledProperties` | src/process/password_generate.rs:66-77 | a permutation of one character per class plus filler from the pool has the combined length, uses only pool characters and covers every class |
| `PasswordGenerate.PasswordGen` | src/process/password_generate.rs:9-78 | length 0 is an error; fewer than the number of enabled classes is an error; no class is the empty-pool failure; otherwise the result has exactly `length` characters from the pool, covers every enabled class, and is a permutation of the mandatory characters followed by the filler |
| `PasswordGenerate.CoversEveryEnabledClass` | src/process/password_generate.rs:24-59 | coverage by class gives, per flag, a character of the upper-case, lower-case, digit or symbol alphabet |
| `CsvGenerate.RowMap` | src/process/csv_generate.rs:123-131 | the reference definition of one record's row, built by inserting each header with its field, or "" past the record's end; `RowMapKeys`, `RowMapValue` and `RowMapDropsExtraFields` state what it holds |
| `CsvGenerate.RowMapKeys` | src/process/csv_generate.rs:125-131 | a row map's key set is exactly the set of header names |
| `CsvGenerate.RowMapValue` | src/process/csv_generate.rs:125-131 | a header maps to the field of its last column with that name, or to "" when the record is shorter |
| `CsvGenerate.RowMapDropsExtraFields` | src/process/csv_generate.rs:125-131 | fields beyond the header count do not change the row map |
| `CsvGenerate.RowMapPrefixOfRecord` | src/process/csv_generate.rs:126 | only the fields in header positions are read |
| `CsvGenerate.ReadCsvData` | src/process/csv_generate.rs:113-136 | a header error is returned as is; otherwise one row map per record in record order, each keyed by exactly the headers; the first failing record aborts with row number `index + 2` |
| `CsvGenerate.TomlRoot` | src/process/csv_generate.rs:106-108 | the root map has exactly one key, `toml_key`, bound to the full record list |

## Left out

- Cryptographic internals of BLAKE3 and Ed25519: they are uninterpreted. The Ed25519 signature-tamper, message-tamper and wrong-key tests (src/process/text.rs:246-263, 290-369) rest on collision resistance and unforgeability, so they are not stated.
- Text.Ed25519RoundTrip: proved only under `Ed25519Sound`, the assumption that the library accepts its own signatures.
- Text.Ed25519Verifier.Check: assumes `Signature::try_from` fails only on length. Other signature checks happen inside `VerifyingKey::verify`, which is `edVerify` here.
- Text.ConstantTimeEq: states only the boolean result, not the timing behaviour.
- Text.Reader.ReadToEnd: never fails. I/O errors of `read_to_end`, which the code propagates with `?`, are not modelled.
- Randomness is not modelled as a distribution. The model fixes only where random values are used: `thread_rng`, `OsRng`, `choose` and `shuffle`.
- CliCsv.ToLower: lower-cases ASCII letters only. Rust's `to_lowercase` also maps non-ASCII characters, and those mappings are not modelled.
- PasswordGenerate.PasswordGen: returns the `EmptyPool` error where the code panics in `expect`.
- CsvGenerate.ReadCsvData: treats `row_index + 2` as an unbounded integer; `usize` overflow is not modelled.
- The serialisation by serde_json, serde_yaml and `toml::to_string_pretty` is not modelled, so `process_toml` is modelled only up to its root map. The CSV tokenising and quoting done by the csv crate are left out too.
- `src/process/b64.rs` is not part of this model. It streams Base64 (RFC 4648, section 4) through the `base64` crate.
- `get_reader`, `get_content` (src/utils.rs) and `verify_path` (src/cli/mod.rs) are file-system and stdin I/O.
- The private `verify_file_exists` of src/process/csv_generate.rs:30-44 is not modelled. It lacks the "-" shortcut. It is the `--input` parser of that file's `CsvOpts`, which only the stale wiring in src/process/mod.rs uses.
- `src/main.rs`, `src/process.rs` and `src/process/mod.rs` are not part of this model. They hold clap wiring and stale declarations.
- The clap options of `src/cli/password.rs` are not modelled; the model uses only its four alphabet constants.
- The constructors `Blake3::new`, `Ed25519Signer::new` and `Ed25519Verifier::new` are the datatype constructors.
