/** Splitting a datagram into DTLS records and joining records into a datagram. */
module DtlsRecords {
  import opened Wrappers
  import opened Bytes
  import opened DtlsHello

  datatype Codec = Codec(base64: Bytes -> string, unbase64: string -> Option<Bytes>)

  datatype Header = Header(contentType: byte, major: byte, minor: byte, epoch: u16, sequenceNumber: u64, length: u16)

  datatype Handshake = Handshake(
    kind: byte, length: u24, messageSeq: u16, fragmentOffset: u24, fragmentLength: u24,
    clientHello: Option<seq<u16>>, serverHello: Option<seq<u16>>)

  datatype Alert = Alert(level: byte, description: byte)

  datatype Record = Record(header: Header, payload64: string, handshake: Option<Handshake>, alert: Option<Alert>)

  datatype Error =
    | TruncatedHeader | TruncatedPayload
    | BadBase64 | LengthMismatch(header: nat, payload: nat) | SequenceTooLong

  const HEADER_SIZE := 13
  const HANDSHAKE_HEADER_SIZE := 12
  const ALERT := 21
  const HANDSHAKE := 22
  const CLIENT_HELLO := 1
  const SERVER_HELLO := 2
  const MAX_SEQUENCE := 0x1_0000_0000_0000

  // ----- the record header -----

  function HeaderBytes(h: Header): (b: Bytes)
    ensures |b| == HEADER_SIZE
  {
    [h.contentType, h.major, h.minor] + ToBytes(2, h.epoch) + ToBytes(6, h.sequenceNumber) + ToBytes(2, h.length)
  }

  function ReadHeader(b: Bytes): (h: Header)
    requires |b| >= HEADER_SIZE
    ensures h.sequenceNumber < MAX_SEQUENCE
  {
    Powers();
    Header(b[0], b[1], b[2], U16(b[3..5]), FromBytes(b[5..11]), U16(b[11..13]))
  }

  lemma HeaderRoundTrip(h: Header, rest: Bytes)
    requires h.sequenceNumber < MAX_SEQUENCE
    ensures ReadHeader(HeaderBytes(h) + rest) == h
  {
    var b := HeaderBytes(h) + rest;
    Powers();
    FromToBytes(6, h.sequenceNumber);
    U16OfBytes(h.epoch);
    U16OfBytes(h.length);
    assert b[3..5] == ToBytes(2, h.epoch) && b[5..11] == ToBytes(6, h.sequenceNumber) && b[11..13] == ToBytes(2, h.length);
  }

  lemma HeaderBytesRoundTrip(b: Bytes)
    requires |b| >= HEADER_SIZE
    ensures HeaderBytes(ReadHeader(b)) == b[..HEADER_SIZE]
  {
    ToFromBytes(b[3..5]);
    ToFromBytes(b[5..11]);
    ToFromBytes(b[11..13]);
    assert b[..13] == [b[0], b[1], b[2]] + b[3..5] + b[5..11] + b[11..13];
  }

  // ----- handshakes and alerts inside a record -----

  /** The part of the message after its header that is both announced and there. */
  function HelloBody(payload: Bytes, length: nat): Bytes
    requires |payload| >= HANDSHAKE_HEADER_SIZE
  {
    payload[12..if |payload| < 12 + length then |payload| else 12 + length]
  }

  function HandshakeOf(contentType: byte, payload: Bytes): Option<Handshake> {
    if contentType != HANDSHAKE || |payload| < HANDSHAKE_HEADER_SIZE then None
    else
      var kind, length, offset := payload[0], U24(payload[1..4]), U24(payload[6..9]);
      var starts := offset == 0 && |payload| > HANDSHAKE_HEADER_SIZE;
      Some(Handshake(
             kind, length, U16(payload[4..6]), offset, U24(payload[9..12]),
             if starts && kind == CLIENT_HELLO then ClientHelloExtensions(HelloBody(payload, length)) else None,
             if starts && kind == SERVER_HELLO then ServerHelloExtensions(HelloBody(payload, length)) else None))
  }

  method ReadHandshake(contentType: byte, payload: Bytes) returns (r: Option<Handshake>)
    ensures r == HandshakeOf(contentType, payload)
  {
    if contentType == HANDSHAKE && |payload| >= HANDSHAKE_HEADER_SIZE {
      var kind, length := payload[0], U24(payload[1..4]);
      var hs := Handshake(kind, length, U16(payload[4..6]), U24(payload[6..9]), U24(payload[9..12]), None, None);
      if hs.fragmentOffset == 0 && HANDSHAKE_HEADER_SIZE < |payload| {
        var end: nat := if |payload| < 12 + length as nat then |payload| else 12 + length as nat;
        var body := payload[12..end];
        if kind == CLIENT_HELLO {
          var extensions := ParseClientHello(body);
          hs := hs.(clientHello := extensions);
        } else if kind == SERVER_HELLO {
          var extensions := ParseServerHello(body);
          hs := hs.(serverHello := extensions);
        }
      }
      r := Some(hs);
    } else {
      r := None;
    }
  }

  function AlertOf(contentType: byte, payload: Bytes): Option<Alert> {
    if contentType == ALERT && |payload| >= 2 then Some(Alert(payload[0], payload[1])) else None
  }

  function HandshakeHeaderBytes(h: Handshake): Bytes {
    [h.kind] + ToBytes(3, h.length) + ToBytes(2, h.messageSeq) + ToBytes(3, h.fragmentOffset) + ToBytes(3, h.fragmentLength)
  }

  /** A handshake message in one piece reads back with its header fields and the extensions found in
      its body. */
  lemma WholeMessage(h: Handshake, body: Bytes)
    requires h.fragmentOffset == 0 && h.length == |body|
    ensures HandshakeOf(HANDSHAKE, HandshakeHeaderBytes(h) + body)
         == Some(h.(clientHello := if h.kind == CLIENT_HELLO then ClientHelloExtensions(body) else None,
                    serverHello := if h.kind == SERVER_HELLO then ServerHelloExtensions(body) else None))
  {
    HandshakeFields(h, body);
    assert HelloBody(HandshakeHeaderBytes(h) + body, h.length) == body;
  }

  /** So a hello reads back with exactly the extension ids it was made of. */
  lemma ClientHelloMessage(h: Handshake, hello: ClientHello, body: Bytes)
    requires hello.Valid() && body == ClientHelloBytes(hello)
    requires h.kind == CLIENT_HELLO && h.fragmentOffset == 0 && h.length == |body|
    ensures HandshakeOf(HANDSHAKE, HandshakeHeaderBytes(h) + body)
         == Some(h.(clientHello := Some(Ids(hello.extensions.GetOr([]))), serverHello := None))
  {
    WholeMessage(h, body);
    ClientHelloRoundTrip(hello);
  }

  lemma ServerHelloMessage(h: Handshake, hello: ServerHello, body: Bytes)
    requires hello.Valid() && body == ServerHelloBytes(hello)
    requires h.kind == SERVER_HELLO && h.fragmentOffset == 0 && h.length == |body|
    ensures HandshakeOf(HANDSHAKE, HandshakeHeaderBytes(h) + body)
         == Some(h.(clientHello := None, serverHello := Some(Ids(hello.extensions.GetOr([])))))
  {
    WholeMessage(h, body);
    ServerHelloRoundTrip(hello);
  }

  lemma HandshakeFields(h: Handshake, body: Bytes)
    ensures
      var p := HandshakeHeaderBytes(h) + body;
      && |p| == 12 + |body| && p[0] == h.kind && U24(p[1..4]) == h.length && U16(p[4..6]) == h.messageSeq
      && U24(p[6..9]) == h.fragmentOffset && U24(p[9..12]) == h.fragmentLength && p[12..] == body
  {
    var p := HandshakeHeaderBytes(h) + body;
    U24OfBytes(h.length);
    U16OfBytes(h.messageSeq);
    U24OfBytes(h.fragmentOffset);
    U24OfBytes(h.fragmentLength);
    assert p[1..4] == ToBytes(3, h.length) && p[4..6] == ToBytes(2, h.messageSeq);
    assert p[6..9] == ToBytes(3, h.fragmentOffset) && p[9..12] == ToBytes(3, h.fragmentLength);
  }

  // ----- decoding -----

  function ReadRecord(c: Codec, h: Header, payload: Bytes): Record {
    Record(h, c.base64(payload), HandshakeOf(h.contentType, payload), AlertOf(h.contentType, payload))
  }

  function Needed(d: Bytes): nat
    requires |d| >= HEADER_SIZE
  {
    HEADER_SIZE + ReadHeader(d).length
  }

  /** The records of a datagram, one after the other. */
  function Split(c: Codec, d: Bytes): Result<seq<Record>, Error>
    decreases |d|
  {
    if d == [] then Ok([])
    else if |d| < HEADER_SIZE then Err(TruncatedHeader)
    else if |d| < Needed(d) then Err(TruncatedPayload)
    else Prepended([ReadRecord(c, ReadHeader(d), d[HEADER_SIZE..Needed(d)])], Split(c, d[Needed(d)..]))
  }

  function Prepended<T>(front: seq<T>, rest: Result<seq<T>, Error>): Result<seq<T>, Error> {
    match rest
    case Err(e) => Err(e)
    case Ok(items) => Ok(front + items)
  }

  lemma PrependNothing<T>(rest: Result<seq<T>, Error>)
    ensures Prepended([], rest) == rest
  {
    if rest.Ok? { assert [] + rest.value == rest.value; }
  }

  lemma PrependTwice<T>(a: seq<T>, b: seq<T>, rest: Result<seq<T>, Error>)
    ensures Prepended(a, Prepended(b, rest)) == Prepended(a + b, rest)
  {
    if rest.Ok? { assert a + (b + rest.value) == (a + b) + rest.value; }
  }

  lemma SplitAt(c: Codec, d: Bytes, i: nat)
    requires i + HEADER_SIZE <= |d| && i + Needed(d[i..]) <= |d|
    ensures
      var n := Needed(d[i..]);
      Split(c, d[i..]) == Prepended([ReadRecord(c, ReadHeader(d[i..]), d[i + HEADER_SIZE..i + n])], Split(c, d[i + n..]))
  {
    var n := Needed(d[i..]);
    assert d[i..][HEADER_SIZE..n] == d[i + HEADER_SIZE..i + n] && d[i..][n..] == d[i + n..];
  }

  /** Reads one record: its header, and what can be made out of its payload. */
  method ReadOne(c: Codec, header: Header, payload: Bytes) returns (record: Record)
    ensures record == ReadRecord(c, header, payload)
  {
    var handshake := ReadHandshake(header.contentType, payload);
    var alert := AlertOf(header.contentType, payload);
    record := Record(header, c.base64(payload), handshake, alert);
  }

  method Decode(c: Codec, datagram: Bytes) returns (r: Result<seq<Record>, Error>)
    ensures r == Split(c, datagram)
  {
    var i := 0;
    var records: seq<Record> := [];
    assert datagram[0..] == datagram;
    PrependNothing(Split(c, datagram));
    while i < |datagram|
      invariant i <= |datagram|
      invariant Split(c, datagram) == Prepended(records, Split(c, datagram[i..]))
    {
      if |datagram| - i < HEADER_SIZE {
        return Err(TruncatedHeader);
      }
      var header := ReadHeader(datagram[i..]);
      var needed := HEADER_SIZE + header.length as nat;
      if |datagram| - i < needed {
        return Err(TruncatedPayload);
      }
      var record := ReadOne(c, header, datagram[i + HEADER_SIZE..i + needed]);
      SplitAt(c, datagram, i);
      PrependTwice(records, [record], Split(c, datagram[i + needed..]));
      records := records + [record];
      i := i + needed;
    }
    assert records + [] == records;
    r := Ok(records);
  }

  // ----- encoding -----

  function RecordBytes(c: Codec, record: Record): Result<Bytes, Error> {
    match c.unbase64(record.payload64)
    case None => Err(BadBase64)
    case Some(payload) =>
      if |payload| != record.header.length then Err(LengthMismatch(record.header.length, |payload|))
      else if record.header.sequenceNumber >= MAX_SEQUENCE then Err(SequenceTooLong)
      else Ok(HeaderBytes(record.header) + payload)
  }

  function Join(c: Codec, records: seq<Record>): Result<Bytes, Error> {
    if records == [] then Ok([])
    else
      var first :- RecordBytes(c, records[0]);
      Prepended(first, Join(c, records[1..]))
  }

  method Encode(c: Codec, records: seq<Record>) returns (r: Result<Bytes, Error>)
    ensures r == Join(c, records)
  {
    var out: Bytes := [];
    assert records[0..] == records;
    PrependNothing(Join(c, records));
    for i := 0 to |records|
      invariant Join(c, records) == Prepended(out, Join(c, records[i..]))
    {
      var record := records[i];
      assert records[i..][0] == record && records[i..][1..] == records[i + 1..];
      var payload := c.unbase64(record.payload64);
      if payload.None? {
        return Err(BadBase64);
      }
      if |payload.value| != record.header.length {
        return Err(LengthMismatch(record.header.length, |payload.value|));
      }
      if record.header.sequenceNumber >= MAX_SEQUENCE {
        return Err(SequenceTooLong);
      }
      PrependTwice(out, HeaderBytes(record.header) + payload.value, Join(c, records[i + 1..]));
      out := out + (HeaderBytes(record.header) + payload.value);
    }
    assert out + [] == out;
    r := Ok(out);
  }

  // ----- round trips -----

  /** Base64 decoding undoes encoding. */
  ghost predicate Inverse(c: Codec) {
    forall b :: c.unbase64(c.base64(b)) == Some(b)
  }

  /** Every datagram the decoder accepts is what its records encode to. */
  lemma {:induction false} DatagramRoundTrip(c: Codec, d: Bytes)
    requires Inverse(c) && Split(c, d).Ok?
    ensures Join(c, Split(c, d).value) == Ok(d)
    decreases |d|
  {
    if d != [] {
      var n := Needed(d);
      DatagramRoundTrip(c, d[n..]);
      FrontRoundTrip(c, d);
      var records, rest := Split(c, d).value, Split(c, d[n..]).value;
      assert records[1..] == rest;
      assert d == d[..n] + d[n..];
    }
  }

  lemma FrontRoundTrip(c: Codec, d: Bytes)
    requires Inverse(c) && |d| >= HEADER_SIZE && |d| >= Needed(d)
    ensures RecordBytes(c, ReadRecord(c, ReadHeader(d), d[HEADER_SIZE..Needed(d)])) == Ok(d[..Needed(d)])
  {
    HeaderBytesRoundTrip(d);
    assert d[..Needed(d)] == d[..HEADER_SIZE] + d[HEADER_SIZE..Needed(d)];
  }

  /** The payload is base64 of the announced length, and the sequence number fits in 48 bits. */
  predicate Encodable(c: Codec, record: Record) {
    && c.unbase64(record.payload64).Some? && |c.unbase64(record.payload64).value| == record.header.length
    && record.header.sequenceNumber < MAX_SEQUENCE
  }

  /** The record with everything that is derived from its payload worked out again. */
  function Redecoded(c: Codec, record: Record): Record {
    ReadRecord(c, record.header, c.unbase64(record.payload64).GetOr([]))
  }

  function AllRedecoded(c: Codec, records: seq<Record>): seq<Record> {
    seq(|records|, i requires 0 <= i < |records| => Redecoded(c, records[i]))
  }

  lemma AllEncodable(c: Codec, first: Record, rest: seq<Record>)
    ensures
      var records := [first] + rest;
      (forall i | 0 <= i < |records| :: Encodable(c, records[i])) <==> Encodable(c, first) && forall i | 0 <= i < |rest| :: Encodable(c, rest[i])
  {
    var records := [first] + rest;
    assert records[0] == first;
    forall i | 0 <= i < |rest| ensures rest[i] == records[i + 1] {}
  }

  /** Records encode exactly when each payload has the announced length and each sequence number fits
      in 48 bits; and then they decode back to themselves, with the parts derived from the payload. */
  lemma {:induction false} RecordsRoundTrip(c: Codec, records: seq<Record>)
    ensures Join(c, records).Ok? <==> forall i | 0 <= i < |records| :: Encodable(c, records[i])
    ensures Join(c, records).Ok? ==> Split(c, Join(c, records).value) == Ok(AllRedecoded(c, records))
  {
    if records != [] {
      var first, rest := records[0], records[1..];
      RecordsRoundTrip(c, rest);
      assert records == [first] + rest;
      AllEncodable(c, first, rest);
      if Encodable(c, first) && Join(c, rest).Ok? {
        FirstRecord(c, first, Join(c, rest).value);
        assert AllRedecoded(c, records) == [Redecoded(c, first)] + AllRedecoded(c, rest);
      }
    } else {
      assert AllRedecoded(c, records) == [];
    }
  }

  /** Records whose derived parts are right, as the decoder leaves them, decode back to themselves. */
  lemma OwnRoundTrip(c: Codec, records: seq<Record>)
    requires forall i | 0 <= i < |records| :: Encodable(c, records[i]) && records[i] == Redecoded(c, records[i])
    ensures Join(c, records).Ok? && Split(c, Join(c, records).value) == Ok(records)
  {
    RecordsRoundTrip(c, records);
    assert AllRedecoded(c, records) == records;
  }

  lemma FirstRecord(c: Codec, record: Record, rest: Bytes)
    requires Encodable(c, record)
    ensures
      var d := RecordBytes(c, record).value + rest;
      Split(c, d) == Prepended([Redecoded(c, record)], Split(c, rest))
  {
    var payload := c.unbase64(record.payload64).value;
    var d := HeaderBytes(record.header) + payload + rest;
    HeaderRoundTrip(record.header, payload + rest);
    assert d == HeaderBytes(record.header) + (payload + rest);
    var n := HEADER_SIZE + |payload|;
    assert Needed(d) == n && d[HEADER_SIZE..n] == payload && d[n..] == rest;
  }

  // ----- the one-line summary -----

  datatype Part = Part(length: u16, contentType: byte, epoch: u16, sequenceNumber: u64, handshake: Option<byte>, alert: Option<Alert>)

  /** What the summary shows of the record at the front. */
  function Summary(d: Bytes): Part
    requires |d| >= HEADER_SIZE && |d| >= Needed(d)
  {
    var h := ReadHeader(d);
    Part(h.length, h.contentType, h.epoch, h.sequenceNumber,
         if h.contentType == HANDSHAKE && |d| >= 14 then Some(d[13]) else None,
         if h.contentType == ALERT && h.length >= 2 then Some(Alert(d[13], d[14])) else None)
  }

  function Summaries(d: Bytes): Result<seq<Part>, Error>
    decreases |d|
  {
    if d == [] then Ok([])
    else if |d| < HEADER_SIZE then Err(TruncatedHeader)
    else if |d| < Needed(d) then Err(TruncatedPayload)
    else Prepended([Summary(d)], Summaries(d[Needed(d)..]))
  }

  lemma SummariesAt(d: Bytes, i: nat)
    requires i + HEADER_SIZE <= |d| && i + Needed(d[i..]) <= |d|
    ensures Summaries(d[i..]) == Prepended([Summary(d[i..])], Summaries(d[i + Needed(d[i..])..]))
  {
    assert d[i..][Needed(d[i..])..] == d[i + Needed(d[i..])..];
  }

  /** Shows the record at `i`; the handshake type is read wherever a byte follows the header. */
  method SummariseOne(datagram: Bytes, i: nat) returns (part: Part)
    requires i + HEADER_SIZE <= |datagram| && i + Needed(datagram[i..]) <= |datagram|
    ensures part == Summary(datagram[i..])
  {
    var header := ReadHeader(datagram[i..]);
    var handshake: Option<byte> := None;
    if header.contentType == HANDSHAKE && |datagram| - i >= 14 {
      handshake := Some(datagram[i + 13]);
    }
    part := Part(header.length, header.contentType, header.epoch, header.sequenceNumber, handshake, None);
    if header.contentType == ALERT && header.length >= 2 {
      part := part.(alert := Some(Alert(datagram[i + 13], datagram[i + 14])));
    }
  }

  method Summarise(datagram: Bytes) returns (r: Result<seq<Part>, Error>)
    ensures r == Summaries(datagram)
  {
    var i := 0;
    var parts: seq<Part> := [];
    assert datagram[0..] == datagram;
    PrependNothing(Summaries(datagram));
    while i < |datagram|
      invariant i <= |datagram|
      invariant Summaries(datagram) == Prepended(parts, Summaries(datagram[i..]))
    {
      if |datagram| - i < HEADER_SIZE {
        return Err(TruncatedHeader);
      }
      var needed := Needed(datagram[i..]);
      if |datagram| - i < needed {
        return Err(TruncatedPayload);
      }
      var part := SummariseOne(datagram, i);
      SummariesAt(datagram, i);
      PrependTwice(parts, [part], Summaries(datagram[i + needed..]));
      parts := parts + [part];
      i := i + needed;
    }
    assert parts + [] == parts;
    r := Ok(parts);
  }

  /** The handshake type the summary shows for a record: its own first byte, or, for an empty record
      that is not the last, the first byte of the next record. */
  function ShownHandshake(c: Codec, records: seq<Record>, i: nat): Option<byte>
    requires i < |records|
  {
    var payload := c.unbase64(records[i].payload64).GetOr([]);
    if records[i].header.contentType != HANDSHAKE then None
    else if payload != [] then Some(payload[0])
    else if i + 1 < |records| then Some(records[i + 1].header.contentType)
    else None
  }

  predicate Matches(c: Codec, records: seq<Record>, i: nat, part: Part)
    requires i < |records|
  {
    var h := records[i].header;
    && part.length == h.length && part.contentType == h.contentType && part.epoch == h.epoch
    && part.sequenceNumber == h.sequenceNumber && part.alert == records[i].alert
    && part.handshake == ShownHandshake(c, records, i)
  }

  /** The two modes accept the same datagrams, refuse the others with the same error, and see the
      same records at the same boundaries. */
  lemma {:induction false} ModesAgree(c: Codec, d: Bytes)
    requires Inverse(c)
    ensures Summaries(d).Ok? <==> Split(c, d).Ok?
    ensures Summaries(d).Err? ==> Summaries(d).error == Split(c, d).error
    ensures Split(c, d).Ok? ==> |Summaries(d).value| == |Split(c, d).value|
                                && forall i | 0 <= i < |Split(c, d).value| :: Matches(c, Split(c, d).value, i, Summaries(d).value[i])
    decreases |d|
  {
    if |d| >= HEADER_SIZE && |d| >= Needed(d) {
      var n := Needed(d);
      ModesAgree(c, d[n..]);
      if Split(c, d).Ok? {
        var records, rest := Split(c, d).value, Split(c, d[n..]).value;
        var parts := Summaries(d).value;
        assert records[1..] == rest;
        if n == HEADER_SIZE && n < |d| {
          assert rest[0].header.contentType == d[n];
        }
        assert Matches(c, records, 0, parts[0]);
        forall i | 0 < i < |records| ensures Matches(c, records, i, parts[i]) {
          assert records[i] == rest[i - 1];
          assert Matches(c, rest, i - 1, parts[i]);
        }
      }
    }
  }
}
