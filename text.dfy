/**
  Text signing and verification (src/process/text.rs): BLAKE3 keyed-hash MACs
  and Ed25519 signatures (RFC 8032, section 5.1) over a fully buffered message,
  the dispatch on the command line's `TextFormat`, and key generation.

  The cryptographic primitives are not modelled: they are the fields of a
  `Primitives` value that every operation receives, so nothing is assumed of
  them beyond the lengths their types fix.
*/
module Text {
  import opened Wrappers
  import CliText

  type Bytes = seq<bv8>
  type Bytes32 = s: seq<bv8> | |s| == 32 witness seq(32, _ => 0)
  type Bytes64 = s: seq<bv8> | |s| == 64 witness seq(64, _ => 0)

  /** The BLAKE3 key length, and Ed25519's `SECRET_KEY_LENGTH` and `PUBLIC_KEY_LENGTH`. */
  const KeyLength: nat := 32
  /** The length of a BLAKE3 MAC. */
  const MacLength: nat := 32
  /** Ed25519's `SIGNATURE_LENGTH`. */
  const SignatureLength: nat := 64

  /** The role names under which generated keys are returned. */
  const Blake3KeyName: string := "blake3.key"
  const Ed25519SecretName: string := "ed25519.sk"
  const Ed25519PublicName: string := "ed25519.pk"

  /**
    The library primitives, uninterpreted:
    - keyedHash(key, msg): `blake3::keyed_hash`, a 32-byte MAC;
    - edSign(seed, msg): `SigningKey::from_bytes(seed).sign(msg)`, a 64-byte signature;
    - edPublic(seed): the encoding of the verifying key derived from a seed;
    - validPk(bytes): `VerifyingKey::from_bytes` accepts the encoding;
    - edVerify(pk, msg, sig): `VerifyingKey::verify` returns `Ok`.
  */
  datatype Primitives = Primitives(
    keyedHash: (Bytes32, Bytes) -> Bytes32,
    edSign: (Bytes32, Bytes) -> Bytes64,
    edPublic: Bytes32 -> Bytes32,
    validPk: Bytes32 -> bool,
    edVerify: (Bytes32, Bytes, Bytes64) -> bool)

  /**
    What the Ed25519 library is trusted to provide: a derived public key is a
    valid encoding, and it accepts every signature made with its seed.
  */
  ghost predicate Ed25519Sound(c: Primitives) {
    && (forall seed: Bytes32 :: c.validPk(c.edPublic(seed)))
    && (forall seed: Bytes32, msg: Bytes :: c.edVerify(c.edPublic(seed), msg, c.edSign(seed, msg)))
  }

  /** The errors of key construction and signature parsing. */
  datatype TextError =
    | Blake3KeyLength          // "Blake3 key must be exactly 32 bytes long"
    | Ed25519SeedLength        // the signing seed is not SECRET_KEY_LENGTH bytes
    | Ed25519PublicKeyLength   // the verifying key is not PUBLIC_KEY_LENGTH bytes
    | Ed25519PublicKeyInvalid  // `VerifyingKey::from_bytes` rejects the encoding
    | Ed25519SignatureLength   // `Signature::try_from` rejects a slice that is not SIGNATURE_LENGTH bytes

  /** Generated keys by role name (a `HashMap<&str, Vec<u8>>`). */
  type KeyBundle = map<string, Bytes>

  // ---------------------------------------------------------------------------
  // constant_time_eq

  /** The OR of the XORs of corresponding bytes: zero exactly when no byte differs. */
  function DiffBits(a: Bytes, b: Bytes): bv8
    requires |a| == |b|
  {
    if |a| == 0 then 0 else (a[0] ^ b[0]) | DiffBits(a[1..], b[1..])
  }

  lemma {:induction false} DiffBitsZero(a: Bytes, b: Bytes)
    requires |a| == |b|
    ensures DiffBits(a, b) == 0 <==> a == b
  {
    if |a| > 0 {
      DiffBitsZero(a[1..], b[1..]);
      assert a == [a[0]] + a[1..];
      assert b == [b[0]] + b[1..];
    }
  }

  /**
    `constant_time_eq`: unequal lengths compare false; otherwise every byte
    pair is folded into one accumulator before the single test at the end.
  */
  function ConstantTimeEq(a: Bytes, b: Bytes): (r: bool)
    ensures r <==> a == b
  {
    if |a| != |b| then false
    else
      DiffBitsZero(a, b);
      DiffBits(a, b) == 0
  }

  // ---------------------------------------------------------------------------
  // The message source

  /** A `Read` whose remaining bytes are known; `read_to_end` drains it. */
  class Reader {
    var remaining: Bytes

    constructor (input: Bytes)
      ensures remaining == input
    {
      remaining := input;
    }

    method ReadToEnd() returns (buf: Bytes)
      modifies this
      ensures buf == old(remaining)
      ensures remaining == []
    {
      buf := remaining;
      remaining := [];
    }
  }

  // ---------------------------------------------------------------------------
  // BLAKE3

  datatype Blake3 = Blake3(key: Bytes32) {

    /** `Blake3::try_new`: exactly 32 bytes, kept as they are. */
    static function TryNew(keyBytes: Bytes): (r: Result<Blake3, TextError>)
      ensures r.Success? <==> |keyBytes| == KeyLength
      ensures r.Success? ==> r.value.key == keyBytes
      ensures r.Failure? ==> r.error == Blake3KeyLength
    {
      if |keyBytes| == KeyLength then Success(Blake3(keyBytes)) else Failure(Blake3KeyLength)
    }

    /** The MAC of a whole message under this key. */
    function Mac(c: Primitives, msg: Bytes): Bytes32 {
      c.keyedHash(key, msg)
    }

    /**
      The verdict of `verify` once the message is buffered: the recomputed MAC
      compared with `sig` in constant time. A signature of the wrong length is
      a plain mismatch, not an error.
    */
    function Check(c: Primitives, msg: Bytes, sig: Bytes): (ok: bool)
      ensures ok <==> sig == Mac(c, msg)
      ensures |sig| != MacLength ==> !ok
    {
      ConstantTimeEq(Mac(c, msg), sig)
    }

    /** `TextSigner::sign`: read the whole input, return its 32-byte keyed hash. */
    method Sign(c: Primitives, reader: Reader) returns (r: Result<Bytes, TextError>)
      modifies reader
      ensures r == Success(Mac(c, old(reader.remaining)))
      ensures reader.remaining == []
    {
      var buf := reader.ReadToEnd();
      var mac := c.keyedHash(key, buf);
      r := Success(mac);
    }

    /** `TextVerifier::verify`: read the whole input, never an error. */
    method Verify(c: Primitives, reader: Reader, sig: Bytes) returns (r: Result<bool, TextError>)
      modifies reader
      ensures r == Success(Check(c, old(reader.remaining), sig))
      ensures reader.remaining == []
    {
      var buf := reader.ReadToEnd();
      var expectedMac := c.keyedHash(key, buf);
      r := Success(ConstantTimeEq(expectedMac, sig));
    }

    /**
      `Blake3::generate_key`: a zeroed 32-byte buffer filled by the random
      source (whose output is `entropy`), returned under "blake3.key".
    */
    static method GenerateKey(entropy: Bytes32) returns (r: Result<KeyBundle, TextError>)
      ensures r.Success?
      ensures r.value.Keys == {Blake3KeyName}
      ensures r.value[Blake3KeyName] == entropy
    {
      var key := new bv8[KeyLength];
      forall i | 0 <= i < KeyLength {
        key[i] := entropy[i];
      }
      var bundle: KeyBundle := map[];
      bundle := bundle[Blake3KeyName := key[..]];
      r := Success(bundle);
    }
  }

  // ---------------------------------------------------------------------------
  // Ed25519

  /** A signing key, held as the 32-byte seed it is derived from. */
  datatype Ed25519Signer = Ed25519Signer(seed: Bytes32) {

    /** `Ed25519Signer::try_new`: the seed must be exactly `SECRET_KEY_LENGTH` bytes. */
    static function TryNew(keyBytes: Bytes): (r: Result<Ed25519Signer, TextError>)
      ensures r.Success? <==> |keyBytes| == KeyLength
      ensures r.Success? ==> r.value.seed == keyBytes
      ensures r.Failure? ==> r.error == Ed25519SeedLength
    {
      if |keyBytes| == KeyLength then Success(Ed25519Signer(keyBytes)) else Failure(Ed25519SeedLength)
    }

    /** `TextSigner::sign`: read the whole input, return its 64-byte signature. */
    method Sign(c: Primitives, reader: Reader) returns (r: Result<Bytes, TextError>)
      modifies reader
      ensures r == Success(c.edSign(seed, old(reader.remaining)))
      ensures reader.remaining == []
    {
      var buf := reader.ReadToEnd();
      var signature := c.edSign(seed, buf);
      r := Success(signature);
    }

    /**
      `Ed25519Signer::generate_key`: a seed drawn from the random source
      (`entropy`) and the public key derived from it, under two role names.
    */
    static method GenerateKey(c: Primitives, entropy: Bytes32) returns (r: Result<KeyBundle, TextError>)
      ensures r.Success?
      ensures r.value.Keys == {Ed25519SecretName, Ed25519PublicName}
      ensures r.value[Ed25519SecretName] == entropy
      ensures r.value[Ed25519PublicName] == c.edPublic(entropy)
    {
      var sk := Ed25519Signer(entropy);
      var pk := c.edPublic(sk.seed);
      var bundle: KeyBundle := map[];
      bundle := bundle[Ed25519SecretName := sk.seed];
      bundle := bundle[Ed25519PublicName := pk];
      r := Success(bundle);
    }
  }

  /** A verifying key, held as its (validated) 32-byte encoding. */
  datatype Ed25519Verifier = Ed25519Verifier(pk: Bytes32) {

    /**
      `Ed25519Verifier::try_new`: first the length, then the encoding; both
      failures are errors.
    */
    static function TryNew(c: Primitives, keyBytes: Bytes): (r: Result<Ed25519Verifier, TextError>)
      ensures r.Success? <==> |keyBytes| == KeyLength && c.validPk(keyBytes)
      ensures r.Success? ==> r.value.pk == keyBytes
      ensures |keyBytes| != KeyLength ==> r == Failure(Ed25519PublicKeyLength)
      ensures |keyBytes| == KeyLength && !c.validPk(keyBytes) ==> r == Failure(Ed25519PublicKeyInvalid)
    {
      if |keyBytes| != KeyLength then Failure(Ed25519PublicKeyLength)
      else if !c.validPk(keyBytes) then Failure(Ed25519PublicKeyInvalid)
      else Success(Ed25519Verifier(keyBytes))
    }

    /**
      The verdict of `verify` once the message is buffered: a signature that is
      not 64 bytes is an error; otherwise the library's verification predicate.
    */
    function Check(c: Primitives, msg: Bytes, sig: Bytes): (r: Result<bool, TextError>)
      ensures r.Success? <==> |sig| == SignatureLength
      ensures r.Failure? ==> r.error == Ed25519SignatureLength
      ensures r.Success? ==> r.value == c.edVerify(pk, msg, sig)
    {
      if |sig| != SignatureLength then Failure(Ed25519SignatureLength)
      else Success(c.edVerify(pk, msg, sig))
    }

    /** `TextVerifier::verify`: the input is read before the signature is parsed. */
    method Verify(c: Primitives, reader: Reader, sig: Bytes) returns (r: Result<bool, TextError>)
      modifies reader
      ensures r == Check(c, old(reader.remaining), sig)
      ensures reader.remaining == []
    {
      var buf := reader.ReadToEnd();
      if |sig| != SignatureLength {
        return Failure(Ed25519SignatureLength);
      }
      r := Success(c.edVerify(pk, buf, sig));
    }
  }

  // ---------------------------------------------------------------------------
  // Dispatch

  /** The signature length a scheme produces. */
  function SignatureSize(format: CliText.TextFormat): nat {
    match format
    case Blake3 => MacLength
    case Ed25519 => SignatureLength
  }

  /** `process_text_sign` on a fully buffered message: the scheme is chosen by the tag alone. */
  function TextSign(c: Primitives, msg: Bytes, key: Bytes, format: CliText.TextFormat): (r: Result<Bytes, TextError>)
    ensures r.Success? <==> |key| == KeyLength
    ensures r.Success? ==> |r.value| == SignatureSize(format)
    ensures format == CliText.Blake3 && r.Success? ==> r.value == c.keyedHash(key, msg)
    ensures format == CliText.Ed25519 && r.Success? ==> r.value == c.edSign(key, msg)
    ensures format == CliText.Blake3 && r.Failure? ==> r.error == Blake3KeyLength
    ensures format == CliText.Ed25519 && r.Failure? ==> r.error == Ed25519SeedLength
  {
    match format
    case Blake3 =>
      var signer :- Blake3.TryNew(key);
      Success(signer.Mac(c, msg))
    case Ed25519 =>
      var signer :- Ed25519Signer.TryNew(key);
      Success(c.edSign(signer.seed, msg))
  }

  /** Whether `process_text_verify` gets as far as building a verifier from `key`. */
  predicate VerifierKeyAccepted(c: Primitives, key: Bytes, format: CliText.TextFormat) {
    match format
    case Blake3 => |key| == KeyLength
    case Ed25519 => |key| == KeyLength && c.validPk(key)
  }

  /** `process_text_verify` on a fully buffered message. */
  function TextVerify(c: Primitives, msg: Bytes, key: Bytes, sig: Bytes, format: CliText.TextFormat): (r: Result<bool, TextError>)
    ensures format == CliText.Blake3 ==> (r.Success? <==> |key| == KeyLength)
    ensures format == CliText.Blake3 && r.Failure? ==> r.error == Blake3KeyLength
    ensures format == CliText.Blake3 && |key| == KeyLength ==> r == Success(sig == c.keyedHash(key, msg))
    ensures format == CliText.Ed25519 ==>
      (r.Success? <==> |key| == KeyLength && c.validPk(key) && |sig| == SignatureLength)
    ensures format == CliText.Ed25519 && |key| != KeyLength ==> r == Failure(Ed25519PublicKeyLength)
    ensures format == CliText.Ed25519 && |key| == KeyLength && !c.validPk(key) ==> r == Failure(Ed25519PublicKeyInvalid)
    ensures format == CliText.Ed25519 && VerifierKeyAccepted(c, key, format) && |sig| != SignatureLength ==>
      r == Failure(Ed25519SignatureLength)
    ensures format == CliText.Ed25519 && |key| == KeyLength && |sig| == SignatureLength && c.validPk(key) ==>
      r == Success(c.edVerify(key, msg, sig))
  {
    match format
    case Blake3 =>
      var verifier :- Blake3.TryNew(key);
      Success(verifier.Check(c, msg, sig))
    case Ed25519 =>
      var verifier :- Ed25519Verifier.TryNew(c, key);
      verifier.Check(c, msg, sig)
  }

  /**
    `process_text_sign`: build the signer the tag names, then let it read the
    input. A key error is returned before any byte of the input is read.
  */
  method ProcessTextSign(c: Primitives, input: Reader, key: Bytes, format: CliText.TextFormat)
    returns (r: Result<Bytes, TextError>)
    modifies input
    ensures r == TextSign(c, old(input.remaining), key, format)
    ensures input.remaining == if r.Success? then [] else old(input.remaining)
  {
    match format
    case Blake3 =>
      var signer := Blake3.TryNew(key);
      if signer.Failure? {
        return Failure(signer.error);
      }
      r := signer.value.Sign(c, input);
    case Ed25519 =>
      var signer := Ed25519Signer.TryNew(key);
      if signer.Failure? {
        return Failure(signer.error);
      }
      r := signer.value.Sign(c, input);
  }

  /**
    `process_text_verify`: build the verifier the tag names, then let it read
    the input and judge `sig`. A key error leaves the input unread; once the
    key is accepted the input is consumed, even when the signature is then
    rejected as malformed.
  */
  method ProcessTextVerify(c: Primitives, input: Reader, key: Bytes, sig: Bytes, format: CliText.TextFormat)
    returns (r: Result<bool, TextError>)
    modifies input
    ensures r == TextVerify(c, old(input.remaining), key, sig, format)
    ensures input.remaining == if VerifierKeyAccepted(c, key, format) then [] else old(input.remaining)
  {
    match format
    case Blake3 =>
      var verifier := Blake3.TryNew(key);
      if verifier.Failure? {
        return Failure(verifier.error);
      }
      r := verifier.value.Verify(c, input, sig);
    case Ed25519 =>
      var verifier := Ed25519Verifier.TryNew(c, key);
      if verifier.Failure? {
        return Failure(verifier.error);
      }
      r := verifier.value.Verify(c, input, sig);
  }

  /** `process_key_generate`: the key bundle of the scheme the tag names; it never fails. */
  method ProcessKeyGenerate(c: Primitives, format: CliText.TextFormat, entropy: Bytes32)
    returns (r: Result<KeyBundle, TextError>)
    ensures r.Success?
    ensures format == CliText.Blake3 ==>
      r.value.Keys == {Blake3KeyName} && r.value[Blake3KeyName] == entropy
    ensures format == CliText.Ed25519 ==>
      && r.value.Keys == {Ed25519SecretName, Ed25519PublicName}
      && r.value[Ed25519SecretName] == entropy
      && r.value[Ed25519PublicName] == c.edPublic(entropy)
    ensures forall name :: name in r.value ==> |r.value[name]| == KeyLength
  {
    match format
    case Blake3 =>
      r := Blake3.GenerateKey(entropy);
    case Ed25519 =>
      r := Ed25519Signer.GenerateKey(c, entropy);
  }

  // ---------------------------------------------------------------------------
  // Properties

  /** BLAKE3: a signature verifies exactly when it is the one `sign` produces. */
  lemma Blake3VerifyIffSigned(c: Primitives, key: Bytes, msg: Bytes, sig: Bytes)
    requires |key| == KeyLength
    ensures TextVerify(c, msg, key, sig, CliText.Blake3)
         == Success(sig == TextSign(c, msg, key, CliText.Blake3).value)
  {
  }

  /** BLAKE3 round trip: what `sign` returns, `verify` accepts with the same key and message. */
  lemma Blake3RoundTrip(c: Primitives, key: Bytes, msg: Bytes)
    requires |key| == KeyLength
    ensures TextSign(c, msg, key, CliText.Blake3).Success?
    ensures TextVerify(c, msg, key, TextSign(c, msg, key, CliText.Blake3).value, CliText.Blake3) == Success(true)
  {
  }

  /** Incrementing (with wrap-around) the first byte of a BLAKE3 MAC makes it fail to verify. */
  lemma Blake3FirstByteTamper(c: Primitives, key: Bytes, msg: Bytes)
    requires |key| == KeyLength
    ensures var sig := TextSign(c, msg, key, CliText.Blake3).value;
      TextVerify(c, msg, key, sig[0 := sig[0] + 1], CliText.Blake3) == Success(false)
  {
  }

  /**
    The schemes treat a mis-sized signature differently: BLAKE3 answers
    `Ok(false)`, Ed25519 returns an error.
  */
  lemma WrongLengthSignatures(c: Primitives, key: Bytes, msg: Bytes, sig: Bytes)
    requires |key| == KeyLength
    ensures |sig| != MacLength ==> TextVerify(c, msg, key, sig, CliText.Blake3) == Success(false)
    ensures c.validPk(key) && |sig| != SignatureLength ==>
      TextVerify(c, msg, key, sig, CliText.Ed25519) == Failure(Ed25519SignatureLength)
  {
  }

  /** Ed25519 round trip, for a library that accepts its own signatures. */
  lemma Ed25519RoundTrip(c: Primitives, seed: Bytes32, msg: Bytes)
    requires Ed25519Sound(c)
    ensures TextSign(c, msg, seed, CliText.Ed25519).Success?
    ensures TextVerify(c, msg, c.edPublic(seed), TextSign(c, msg, seed, CliText.Ed25519).value, CliText.Ed25519)
         == Success(true)
  {
  }

  /** The fixed key of the BLAKE3 tests: 32 bytes of 0x2A. */
  const TestKey: Bytes := seq(32, _ => 0x2A)

  /** "This is a test message for blake3", as bytes. */
  const TestMessage: Bytes := [
    0x54, 0x68, 0x69, 0x73, 0x20, 0x69, 0x73, 0x20, 0x61, 0x20, 0x74, 0x65, 0x73, 0x74, 0x20, 0x6D,
    0x65, 0x73, 0x73, 0x61, 0x67, 0x65, 0x20, 0x66, 0x6F, 0x72, 0x20, 0x62, 0x6C, 0x61, 0x6B, 0x65, 0x33]

  /**
    The BLAKE3 scenario: signing gives a 32-byte MAC D; D verifies, and D with
    its first byte incremented does not.
  */
  lemma Blake3Scenario(c: Primitives)
    ensures TextSign(c, TestMessage, TestKey, CliText.Blake3).Success?
    ensures var d := TextSign(c, TestMessage, TestKey, CliText.Blake3).value;
      && |d| == MacLength
      && TextVerify(c, TestMessage, TestKey, d, CliText.Blake3) == Success(true)
      && TextVerify(c, TestMessage, TestKey, d[0 := d[0] + 1], CliText.Blake3) == Success(false)
  {
  }
}
