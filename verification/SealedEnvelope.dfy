/**
  The sealed store-and-forward envelope: its bytes, the signed payload inside, and opening it again.
  Encryption, signatures and UTF-8 are parameters of the model.
 */
module SealedEnvelope {
  import opened Wrappers
  import opened Bytes

  type i64 = x: int | -0x8000_0000_0000_0000 <= x < 0x8000_0000_0000_0000

  type Id = b: Bytes | |b| == 32 witness ToBytes(32, 0)

  type MessageId = b: Bytes | |b| == 16 witness ToBytes(16, 0)

  type Signature = b: Bytes | |b| == 64 witness ToBytes(64, 0)

  type Key = Bytes

  datatype InnerPayload = InnerPayload(senderId: Id, sentTime: i64, messageId: MessageId, signature: Signature, text: string)

  datatype Envelope = Envelope(version: byte, suiteId: u16, enc: Id, ciphertext: Bytes)

  datatype OpenedMessage = OpenedMessage(senderId: Id, sentTime: i64, messageId: MessageId, text: string, signature: Signature, suiteId: u16)

  datatype ParseError = InnerTooShort | InvalidText | EnvelopeTooShort

  datatype OpenError =
    | Malformed(parse: ParseError) | UnknownVersion(version: byte) | UnknownSuite(suite: u16)
    | UnsealFailed | BadSenderKey | BadSignature

  datatype SealError = BadRecipientKey | HpkeFailed

  /** What the envelope relies on from outside. `hpkeSeal` takes the randomness it draws as an
      argument. */
  datatype Crypto = Crypto(
    utf8: string -> Bytes, fromUtf8: Bytes -> Option<string>,
    verifyingKey: Key -> Id, sign: (Key, Bytes) -> Signature, validKey: Id -> bool, verify: (Id, Bytes, Signature) -> bool,
    publicX: Id -> Option<Bytes>, secretX: Key -> Bytes,
    hpkeSeal: (Bytes, Bytes, Bytes, Bytes) -> Option<(Id, Bytes)>,
    hpkeUnseal: (Bytes, Id, Bytes, Bytes) -> Option<Bytes>)

  const ENVELOPE_VERSION: byte := 1
  const SUITE: u16 := 1
  const INNER_HEADER_SIZE := 120
  const ENVELOPE_HEADER_SIZE := 35

  // ----- times -----

  /** Two's complement, most significant byte first. */
  function TimeBytes(t: i64): Bytes {
    ToBytes(8, if t < 0 then t + 0x1_0000_0000_0000_0000 else t)
  }

  function TimeOf(b: Bytes): i64
    requires |b| == 8
  {
    Powers();
    var v := FromBytes(b);
    if v < 0x8000_0000_0000_0000 then v else v - 0x1_0000_0000_0000_0000
  }

  lemma TimeRoundTrip(t: i64)
    ensures TimeOf(TimeBytes(t)) == t
  {
    Powers();
    FromToBytes(8, if t < 0 then t + 0x1_0000_0000_0000_0000 else t);
  }

  lemma TimeBytesRoundTrip(b: Bytes)
    requires |b| == 8
    ensures TimeBytes(TimeOf(b)) == b
  {
    Powers();
    ToFromBytes(b);
  }

  // ----- the signed message -----

  function SignedMessage(c: Crypto, sender: Id, recipient: Id, sentTime: i64, text: string): Bytes {
    sender + recipient + TimeBytes(sentTime) + c.utf8(text)
  }

  /** Text survives encoding, and only valid encodings are read as text. */
  ghost predicate TextCodec(c: Crypto) {
    && (forall s :: c.fromUtf8(c.utf8(s)) == Some(s))
    && (forall b :: c.fromUtf8(b).Some? ==> c.utf8(c.fromUtf8(b).value) == b)
  }

  /** No two different field sets are signed as the same bytes. */
  lemma SignedMessageInjective(c: Crypto, s: Id, r: Id, t: i64, x: string, s': Id, r': Id, t': i64, x': string)
    requires TextCodec(c) && SignedMessage(c, s, r, t, x) == SignedMessage(c, s', r', t', x')
    ensures s == s' && r == r' && t == t' && x == x'
  {
    var m, n := SignedMessage(c, s, r, t, x), SignedMessage(c, s', r', t', x');
    assert m[..32] == s && n[..32] == s';
    assert m[32..64] == r && n[32..64] == r';
    assert m[64..72] == TimeBytes(t) && n[64..72] == TimeBytes(t');
    assert m[72..] == c.utf8(x) && n[72..] == c.utf8(x');
    TimeRoundTrip(t);
    TimeRoundTrip(t');
    assert c.fromUtf8(c.utf8(x)) == Some(x) && c.fromUtf8(c.utf8(x')) == Some(x');
  }

  // ----- the inner payload -----

  function InnerBytes(c: Crypto, p: InnerPayload): Bytes {
    p.senderId + TimeBytes(p.sentTime) + p.messageId + p.signature + c.utf8(p.text)
  }

  function ParseInner(c: Crypto, b: Bytes): Result<InnerPayload, ParseError> {
    if |b| < INNER_HEADER_SIZE then Err(InnerTooShort)
    else
      match c.fromUtf8(b[120..])
      case None => Err(InvalidText)
      case Some(text) => Ok(InnerPayload(b[..32], TimeOf(b[32..40]), b[40..56], b[56..120], text))
  }

  /** Parsing accepts exactly what printing produces, and undoes it. */
  lemma InnerExactly(c: Crypto, b: Bytes, p: InnerPayload)
    requires TextCodec(c)
    ensures ParseInner(c, b) == Ok(p) <==> b == InnerBytes(c, p)
  {
    if ParseInner(c, b) == Ok(p) {
      TimeBytesRoundTrip(b[32..40]);
      assert b == b[..32] + b[32..40] + b[40..56] + b[56..120] + b[120..];
    }
    if b == InnerBytes(c, p) {
      TimeRoundTrip(p.sentTime);
      assert b[..32] == p.senderId && b[32..40] == TimeBytes(p.sentTime) && b[40..56] == p.messageId;
      assert b[56..120] == p.signature && b[120..] == c.utf8(p.text);
    }
  }

  function NewSigned(c: Crypto, sender: Key, recipient: Id, sentTime: i64, messageId: MessageId, text: string): InnerPayload {
    var id := c.verifyingKey(sender);
    InnerPayload(id, sentTime, messageId, c.sign(sender, SignedMessage(c, id, recipient, sentTime, text)), text)
  }

  function Verify(c: Crypto, p: InnerPayload, recipient: Id): Result<(), OpenError> {
    if !c.validKey(p.senderId) then Err(BadSenderKey)
    else if !c.verify(p.senderId, SignedMessage(c, p.senderId, recipient, p.sentTime, p.text), p.signature) then Err(BadSignature)
    else Ok(())
  }

  // ----- the envelope -----

  function EnvelopeBytes(e: Envelope): Bytes {
    [e.version] + ToBytes(2, e.suiteId) + e.enc + e.ciphertext
  }

  function ParseEnvelope(b: Bytes): Result<Envelope, ParseError> {
    if |b| < ENVELOPE_HEADER_SIZE then Err(EnvelopeTooShort)
    else Ok(Envelope(b[0], U16(b[1..3]), b[3..35], b[35..]))
  }

  lemma EnvelopeExactly(b: Bytes, e: Envelope)
    ensures ParseEnvelope(b) == Ok(e) <==> b == EnvelopeBytes(e)
  {
    if ParseEnvelope(b) == Ok(e) {
      ToFromBytes(b[1..3]);
      assert b == [b[0]] + b[1..3] + b[3..35] + b[35..];
    }
    if b == EnvelopeBytes(e) {
      U16OfBytes(e.suiteId);
      assert b[0] == e.version && b[1..3] == ToBytes(2, e.suiteId) && b[3..35] == e.enc && b[35..] == e.ciphertext;
    }
  }

  /** Every sequence of at least a header is an envelope. */
  lemma EnvelopeAccepted(b: Bytes)
    ensures |b| >= ENVELOPE_HEADER_SIZE <==> exists e :: b == EnvelopeBytes(e)
  {
    if |b| >= ENVELOPE_HEADER_SIZE {
      EnvelopeExactly(b, ParseEnvelope(b).value);
    }
  }

  function AssociatedData(version: byte, suiteId: u16): Bytes {
    [version] + ToBytes(2, suiteId)
  }

  function SealInner(c: Crypto, recipient: Id, inner: InnerPayload, randomness: Bytes): Result<Envelope, SealError> {
    match c.publicX(recipient)
    case None => Err(BadRecipientKey)
    case Some(x) =>
      match c.hpkeSeal(x, AssociatedData(ENVELOPE_VERSION, SUITE), InnerBytes(c, inner), randomness)
      case None => Err(HpkeFailed)
      case Some((enc, ciphertext)) => Ok(Envelope(ENVELOPE_VERSION, SUITE, enc, ciphertext))
  }

  function UnsealInner(c: Crypto, e: Envelope, key: Key): Result<InnerPayload, OpenError> {
    if e.version != ENVELOPE_VERSION then Err(UnknownVersion(e.version))
    else if e.suiteId != SUITE then Err(UnknownSuite(e.suiteId))
    else
      match c.hpkeUnseal(c.secretX(key), e.enc, AssociatedData(e.version, e.suiteId), e.ciphertext)
      case None => Err(UnsealFailed)
      case Some(b) =>
        match ParseInner(c, b)
        case Err(p) => Err(Malformed(p))
        case Ok(inner) => Ok(inner)
  }

  function Seal(c: Crypto, recipient: Id, sender: Key, sentTime: i64, messageId: MessageId, text: string, randomness: Bytes): Result<Bytes, SealError> {
    var e :- SealInner(c, recipient, NewSigned(c, sender, recipient, sentTime, messageId, text), randomness);
    Ok(EnvelopeBytes(e))
  }

  function Opened(inner: InnerPayload): OpenedMessage {
    OpenedMessage(inner.senderId, inner.sentTime, inner.messageId, inner.text, inner.signature, SUITE)
  }

  function Unseal(c: Crypto, key: Key, b: Bytes): Result<OpenedMessage, OpenError> {
    match ParseEnvelope(b)
    case Err(p) => Err(Malformed(p))
    case Ok(e) =>
      var inner :- UnsealInner(c, e, key);
      var _ :- Verify(c, inner, c.verifyingKey(key));
      Ok(OpenedMessage(inner.senderId, inner.sentTime, inner.messageId, inner.text, inner.signature, e.suiteId))
  }

  // ----- sealing and opening -----

  /** The primitives do what they promise: HPKE opens what it sealed with the same associated data,
      and a signature made with a key verifies under it. */
  ghost predicate Correct(c: Crypto) {
    && (forall key, x, aad, plain, r, out |
          c.publicX(c.verifyingKey(key)) == Some(x) && c.hpkeSeal(x, aad, plain, r) == Some(out) ::
          c.hpkeUnseal(c.secretX(key), out.0, aad, out.1) == Some(plain))
    && (forall key, m :: c.verify(c.verifyingKey(key), m, c.sign(key, m)))
    && (forall key :: c.validKey(c.verifyingKey(key)))
  }

  /** The owner of the recipient's key opens what was sealed for it, and reads the sender, time, id
      and text that went in. */
  lemma UnsealUndoesSeal(c: Crypto, recipient: Key, sender: Key, sentTime: i64, messageId: MessageId, text: string, randomness: Bytes)
    requires TextCodec(c) && Correct(c)
    requires Seal(c, c.verifyingKey(recipient), sender, sentTime, messageId, text, randomness).Ok?
    ensures
      var sealed := Seal(c, c.verifyingKey(recipient), sender, sentTime, messageId, text, randomness).value;
      var r := Unseal(c, recipient, sealed);
      && r.Ok? && r.value.senderId == c.verifyingKey(sender) && r.value.sentTime == sentTime
      && r.value.messageId == messageId && r.value.text == text && r.value.suiteId == SUITE
  {
    var me := c.verifyingKey(recipient);
    var inner := NewSigned(c, sender, me, sentTime, messageId, text);
    var e := SealInner(c, me, inner, randomness).value;
    EnvelopeExactly(EnvelopeBytes(e), e);
    InnerExactly(c, InnerBytes(c, inner), inner);
    var out := c.hpkeSeal(c.publicX(me).value, AssociatedData(ENVELOPE_VERSION, SUITE), InnerBytes(c, inner), randomness).value;
    assert c.hpkeUnseal(c.secretX(recipient), out.0, AssociatedData(ENVELOPE_VERSION, SUITE), out.1) == Some(InnerBytes(c, inner));
    assert c.verify(inner.senderId, SignedMessage(c, inner.senderId, me, sentTime, text), inner.signature);
  }

  /** The envelope is of the one version and suite, its ciphertext opens to exactly this payload, and
      the payload's signature is its sender's over its sender, this recipient, its time and its text. */
  predicate Authentic(c: Crypto, key: Key, b: Bytes, enc: Id, ciphertext: Bytes, inner: InnerPayload) {
    && b == EnvelopeBytes(Envelope(ENVELOPE_VERSION, SUITE, enc, ciphertext))
    && c.hpkeUnseal(c.secretX(key), enc, AssociatedData(ENVELOPE_VERSION, SUITE), ciphertext) == Some(InnerBytes(c, inner))
    && c.validKey(inner.senderId)
    && c.verify(inner.senderId, SignedMessage(c, inner.senderId, c.verifyingKey(key), inner.sentTime, inner.text), inner.signature)
  }

  lemma OpenedIsAuthentic(c: Crypto, key: Key, b: Bytes) returns (enc: Id, ciphertext: Bytes, inner: InnerPayload)
    requires TextCodec(c) && Unseal(c, key, b).Ok?
    ensures Authentic(c, key, b, enc, ciphertext, inner) && Unseal(c, key, b).value == Opened(inner)
  {
    var e := ParseEnvelope(b).value;
    EnvelopeExactly(b, e);
    inner := UnsealInner(c, e, key).value;
    enc, ciphertext := e.enc, e.ciphertext;
    var plain := c.hpkeUnseal(c.secretX(key), enc, AssociatedData(e.version, e.suiteId), ciphertext).value;
    InnerExactly(c, plain, inner);
  }

  lemma AuthenticIsOpened(c: Crypto, key: Key, b: Bytes, enc: Id, ciphertext: Bytes, inner: InnerPayload)
    requires TextCodec(c) && Authentic(c, key, b, enc, ciphertext, inner)
    ensures Unseal(c, key, b) == Ok(Opened(inner))
  {
    EnvelopeExactly(b, Envelope(ENVELOPE_VERSION, SUITE, enc, ciphertext));
    InnerExactly(c, InnerBytes(c, inner), inner);
  }

  /** Opening succeeds exactly on authentic envelopes, and answers the fields of their payload. */
  lemma UnsealExactly(c: Crypto, key: Key, b: Bytes, m: OpenedMessage)
    requires TextCodec(c)
    ensures Unseal(c, key, b) == Ok(m) <==> exists enc, ciphertext, inner :: Authentic(c, key, b, enc, ciphertext, inner) && m == Opened(inner)
  {
    if Unseal(c, key, b) == Ok(m) {
      var enc, ciphertext, inner := OpenedIsAuthentic(c, key, b);
      assert Authentic(c, key, b, enc, ciphertext, inner) && m == Opened(inner);
    }
    forall enc, ciphertext, inner | Authentic(c, key, b, enc, ciphertext, inner) && m == Opened(inner) ensures Unseal(c, key, b) == Ok(m) {
      AuthenticIsOpened(c, key, b, enc, ciphertext, inner);
    }
  }
}
