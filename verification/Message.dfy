/** The signed message envelope: compute/src/utils/message.rs and compute/src/utils/crypto.rs. */
module Message {
  import opened Wrappers
  import opened Network
  import opened Rfc4648

  type SecretKey = string
  type PublicKey = string
  type Signature = string

  /** 65 bytes of signature and recovery id, as hex digits. */
  const SIGNATURE_SIZE_HEX: nat := 130

  /** The foreign cryptography: SHA-256 and secp256k1. */
  datatype Crypto = Crypto(
    sha256: seq<Byte> -> seq<Byte>,
    publicKey: SecretKey -> PublicKey,
    sign: (seq<Byte>, SecretKey) -> (Signature, Byte),
    serialize: Signature -> seq<Byte>,
    parse: seq<Byte> -> Option<Signature>,
    verify: (seq<Byte>, Signature, PublicKey) -> bool)
  {
    /** Signatures are 64 bytes long, can be read back, and verify under the matching key. */
    ghost predicate Sound() {
      && (forall digest, key :: |serialize(sign(digest, key).0)| == 64)
      && (forall digest, key :: parse(serialize(sign(digest, key).0)) == Some(sign(digest, key).0))
      && (forall digest, key :: verify(digest, sign(digest, key).0, publicKey(key)))
    }
  }

  datatype DriaMessage = DriaMessage(
    payload: seq<Byte>, topic: string, version: string, identity: string, timestamp: nat)

  datatype MessageError = BadBase64 | BadHex | BadSignature

  /** A call that may also panic: slicing a payload that is too short does. */
  datatype Attempt<+T> = Done(value: T) | Failure(error: MessageError) | Panic

  const VERSION: string := "0.2.33"

  function New(data: seq<Byte>, topic: string, now: nat): DriaMessage {
    DriaMessage(Encode(data), topic, VERSION, "", now)
  }

  /** `sign_bytes_recoverable`: signature and recovery id, in hex. */
  function SignatureHex(crypto: Crypto, digest: seq<Byte>, key: SecretKey): seq<Byte> {
    var (signature, recoveryId) := crypto.sign(digest, key);
    HexEncode(crypto.serialize(signature)) + HexEncode([recoveryId])
  }

  function DecodePayload(m: DriaMessage): Result<seq<Byte>, CodingError> {
    Decode(m.payload)
  }

  /** The bytes that `parse_payload` hands to the deserializer. */
  function ParsePayload(m: DriaMessage, signed: bool): Attempt<seq<Byte>> {
    match DecodePayload(m)
    case Err(_) => Failure(BadBase64)
    case Ok(payload) =>
      if !signed then Done(payload)
      else if |payload| < SIGNATURE_SIZE_HEX then Panic
      else Done(payload[SIGNATURE_SIZE_HEX..])
  }

  function IsSigned(crypto: Crypto, m: DriaMessage, key: PublicKey): Attempt<bool> {
    match DecodePayload(m)
    case Err(_) => Failure(BadBase64)
    case Ok(data) =>
      if |data| < SIGNATURE_SIZE_HEX then Panic
      else
        match HexDecode(data[..SIGNATURE_SIZE_HEX - 2])
        case Err(_) => Failure(BadHex)
        case Ok(bytes) =>
          match crypto.parse(bytes)
          case None => Failure(BadSignature)
          case Some(signature) =>
            Done(crypto.verify(crypto.sha256(data[SIGNATURE_SIZE_HEX..]), signature, key))
  }

  /** What `new_signed` must have produced. */
  ghost predicate IsSignedEnvelope(crypto: Crypto, m: DriaMessage, data: seq<Byte>, key: SecretKey) {
    DecodePayload(m) == Ok(SignatureHex(crypto, crypto.sha256(data), key) + data)
  }

  /** Prepends the signature of the data's hash to the data. */
  method NewSigned(crypto: Crypto, data: seq<Byte>, topic: string, key: SecretKey, now: nat) returns (m: DriaMessage)
    ensures IsSignedEnvelope(crypto, m, data, key)
    ensures m.topic == topic && m.timestamp == now && m.version == VERSION && m.identity == ""
  {
    var signatureBytes := SignatureHex(crypto, crypto.sha256(data), key);
    var signedData := [];
    signedData := signedData + signatureBytes;
    signedData := signedData + data;
    assert signedData == signatureBytes + data;
    DecodeInvertsEncode(signedData);
    m := New(signedData, topic, now);
  }

  lemma SignatureHexSize(crypto: Crypto, digest: seq<Byte>, key: SecretKey)
    requires crypto.Sound()
    ensures |SignatureHex(crypto, digest, key)| == SIGNATURE_SIZE_HEX
    ensures SignatureHex(crypto, digest, key)[..SIGNATURE_SIZE_HEX - 2] ==
      HexEncode(crypto.serialize(crypto.sign(digest, key).0))
  {
  }

  /** What was signed comes back byte for byte, and it verifies under the matching key. */
  lemma SignedRoundTrip(crypto: Crypto, m: DriaMessage, data: seq<Byte>, key: SecretKey)
    requires crypto.Sound() && IsSignedEnvelope(crypto, m, data, key)
    ensures ParsePayload(m, true) == Done(data)
    ensures IsSigned(crypto, m, crypto.publicKey(key)) == Done(true)
    ensures
      var payload, (signature, recoveryId) := Decode(m.payload).value, crypto.sign(crypto.sha256(data), key);
      && HexDecode(payload[..128]) == Ok(crypto.serialize(signature))
      && HexDecode(payload[128..130]) == Ok([recoveryId])
  {
    var digest := crypto.sha256(data);
    SignatureHexSize(crypto, digest, key);
    var envelope := SignatureHex(crypto, digest, key) + data;
    var signature := crypto.sign(digest, key).0;
    assert envelope[SIGNATURE_SIZE_HEX..] == data;
    assert envelope[..SIGNATURE_SIZE_HEX - 2] == HexEncode(crypto.serialize(signature));
    HexDecodeInvertsEncode(crypto.serialize(signature));
    HexDecodeInvertsEncode([crypto.sign(digest, key).1]);
    assert envelope[128..130] == HexEncode([crypto.sign(digest, key).1]);
    assert crypto.verify(digest, signature, crypto.publicKey(key));
  }

  lemma UnsignedRoundTrip(data: seq<Byte>, topic: string, now: nat)
    ensures ParsePayload(New(data, topic, now), false) == Done(data)
  {
    DecodeInvertsEncode(data);
  }

  /** m is the coding of a hex signature, two bytes that are never looked at, and a body. */
  ghost predicate IsEnvelope(m: DriaMessage, signature: seq<Byte>, recovery: seq<Byte>, body: seq<Byte>) {
    && |signature| == SIGNATURE_SIZE_HEX - 2
    && |recovery| == 2
    && m.payload == Encode(signature + recovery + body)
  }

  /** The digits and the bytes they spell make a signature. */
  predicate ReadableSignature(crypto: Crypto, signature: seq<Byte>) {
    HexDecode(signature).Ok? && crypto.parse(HexDecode(signature).value).Some?
  }

  ghost predicate SignatureCovers(crypto: Crypto, signature: seq<Byte>, body: seq<Byte>, key: PublicKey) {
    && ReadableSignature(crypto, signature)
    && crypto.verify(crypto.sha256(body), crypto.parse(HexDecode(signature).value).value, key)
  }

  /** m is an envelope around the body, with a signature of the key's owner over the body. */
  ghost predicate Vouches(crypto: Crypto, m: DriaMessage, key: PublicKey, body: seq<Byte>) {
    exists signature, recovery ::
      IsEnvelope(m, signature, recovery, body) && SignatureCovers(crypto, signature, body, key)
  }

  /** m is an envelope with a signature that is one, but not the key owner's over the body. */
  ghost predicate Misleads(crypto: Crypto, m: DriaMessage, key: PublicKey) {
    exists signature, recovery, body ::
      && IsEnvelope(m, signature, recovery, body)
      && ReadableSignature(crypto, signature) && !SignatureCovers(crypto, signature, body, key)
  }

  /** m is not base64, or an envelope whose signature is none. */
  ghost predicate Unreadable(crypto: Crypto, m: DriaMessage) {
    || (forall data :: m.payload != Encode(data))
    || (exists signature, recovery, body ::
          IsEnvelope(m, signature, recovery, body) && !ReadableSignature(crypto, signature))
  }

  /** m is the coding of less than a signature. */
  ghost predicate TooShort(m: DriaMessage) {
    exists data :: m.payload == Encode(data) && |data| < SIGNATURE_SIZE_HEX
  }

  /** An envelope is opened in one way only. */
  lemma EnvelopeIsDecoded(m: DriaMessage, signature: seq<Byte>, recovery: seq<Byte>, body: seq<Byte>)
    requires IsEnvelope(m, signature, recovery, body)
    ensures DecodePayload(m).Ok?
    ensures
      var data := DecodePayload(m).value;
      && |data| >= SIGNATURE_SIZE_HEX
      && data[..SIGNATURE_SIZE_HEX - 2] == signature && data[SIGNATURE_SIZE_HEX..] == body
  {
    var data := signature + recovery + body;
    Base64IsExact(m.payload, data);
    assert data[..128] == signature && data[130..] == body;
  }

  lemma DecodedIsEnvelope(m: DriaMessage) returns (signature: seq<Byte>, recovery: seq<Byte>, body: seq<Byte>)
    requires DecodePayload(m).Ok? && |DecodePayload(m).value| >= SIGNATURE_SIZE_HEX
    ensures IsEnvelope(m, signature, recovery, body)
    ensures signature == DecodePayload(m).value[..SIGNATURE_SIZE_HEX - 2]
    ensures body == DecodePayload(m).value[SIGNATURE_SIZE_HEX..]
  {
    var data := DecodePayload(m).value;
    signature, recovery, body := data[..128], data[128..130], data[130..];
    assert data == signature + recovery + body;
    Base64IsExact(m.payload, data);
  }

  /** The exact acceptance condition of the signature check. */
  lemma AcceptsExactly(crypto: Crypto, m: DriaMessage, key: PublicKey)
    ensures IsSigned(crypto, m, key) == Done(true) <==> exists body :: Vouches(crypto, m, key, body)
  {
    hide Decode, Encode, HexDecode;
    if IsSigned(crypto, m, key) == Done(true) {
      var signature, recovery, body := DecodedIsEnvelope(m);
      assert Vouches(crypto, m, key, body);
    }
    if body :| Vouches(crypto, m, key, body) {
      var signature, recovery :|
        IsEnvelope(m, signature, recovery, body) && SignatureCovers(crypto, signature, body, key);
      EnvelopeIsDecoded(m, signature, recovery, body);
    }
  }

  /** The check comes to an end with the answer no exactly on a readable signature that does not verify. */
  lemma RefusesExactly(crypto: Crypto, m: DriaMessage, key: PublicKey)
    ensures IsSigned(crypto, m, key) == Done(false) <==> Misleads(crypto, m, key)
  {
    hide Decode, Encode, HexDecode;
    if IsSigned(crypto, m, key) == Done(false) {
      var signature, recovery, body := DecodedIsEnvelope(m);
      assert !SignatureCovers(crypto, signature, body, key);
    }
    if signature, recovery, body :|
      && IsEnvelope(m, signature, recovery, body)
      && ReadableSignature(crypto, signature) && !SignatureCovers(crypto, signature, body, key)
    {
      EnvelopeIsDecoded(m, signature, recovery, body);
    }
  }

  /** The check fails exactly on a payload or a signature that cannot be read. */
  lemma FailsExactly(crypto: Crypto, m: DriaMessage, key: PublicKey)
    ensures IsSigned(crypto, m, key).Failure? <==> Unreadable(crypto, m)
  {
    hide Decode, Encode, HexDecode;
    if DecodePayload(m).Ok? {
      Base64IsExact(m.payload, DecodePayload(m).value);
      if |DecodePayload(m).value| >= SIGNATURE_SIZE_HEX {
        var signature, recovery, body := DecodedIsEnvelope(m);
      }
    } else {
      forall data ensures m.payload != Encode(data) {
        Base64IsExact(m.payload, data);
      }
    }
    if signature, recovery, body :|
      IsEnvelope(m, signature, recovery, body) && !ReadableSignature(crypto, signature)
    {
      EnvelopeIsDecoded(m, signature, recovery, body);
    }
  }

  /** The parser panics exactly on a payload that is too short, and only where it looks for a signature. */
  lemma ShortIsNotParsed(m: DriaMessage)
    ensures ParsePayload(m, true).Panic? <==> TooShort(m)
    ensures !ParsePayload(m, false).Panic?
  {
    hide Decode, Encode;
    if ParsePayload(m, true).Panic? {
      Base64IsExact(m.payload, DecodePayload(m).value);
    }
    if data :| m.payload == Encode(data) && |data| < SIGNATURE_SIZE_HEX {
      Base64IsExact(m.payload, data);
    }
  }

  /** Both calls panic on the same messages: those that decode to less than a signature. */
  lemma PanicsExactly(crypto: Crypto, m: DriaMessage, key: PublicKey)
    ensures IsSigned(crypto, m, key).Panic? <==> TooShort(m)
    ensures ParsePayload(m, true).Panic? <==> TooShort(m)
  {
    hide Decode, Encode, TooShort;
    ShortIsNotParsed(m);
  }

  /** The slice whose signature was verified is the slice that is parsed. */
  lemma VerifiedIsParsed(crypto: Crypto, m: DriaMessage, key: PublicKey, body: seq<Byte>)
    requires IsSigned(crypto, m, key) == Done(true)
    ensures ParsePayload(m, true) == Done(body) <==> Vouches(crypto, m, key, body)
  {
    hide Decode, Encode, HexDecode;
    var signature, recovery, slice := DecodedIsEnvelope(m);
    if Vouches(crypto, m, key, body) {
      var s, r :| IsEnvelope(m, s, r, body) && SignatureCovers(crypto, s, body, key);
      EnvelopeIsDecoded(m, s, r, body);
    }
  }
}
