/** The record in which a node publishes its endpoints: its bytes, and what is read back from them. */
module SidewinderEndpoint {
  import opened Wrappers
  import opened Bytes

  type u32 = x: int | 0 <= x < 0x1_0000_0000

  type Octets4 = b: Bytes | |b| == 4 witness [0, 0, 0, 0]

  type Octets16 = b: Bytes | |b| == 16 witness ToBytes(16, 0)

  datatype SocketV4 = SocketV4(ip: Octets4, port: u16)

  datatype SocketV6 = SocketV6(ip: Octets16, port: u16, flowInfo: u32, scopeId: u32)

  datatype Socket = V4(v4: SocketV4) | V6(v6: SocketV6)

  datatype Endpoint = Endpoint(v4: Option<SocketV4>, v6: Option<SocketV6>)

  const FLAG_V4: byte := 1
  const FLAG_V6: byte := 2

  /** A record publishes at least one endpoint. */
  function New(v4: Option<SocketV4>, v6: Option<SocketV6>): (r: Option<Endpoint>)
    ensures r.None? <==> v4.None? && v6.None?
    ensures r.Some? ==> r.value == Endpoint(v4, v6)
  {
    if v4.Some? || v6.Some? then Some(Endpoint(v4, v6)) else None
  }

  /** Only an address of the matching family is published. */
  function FromSockets(ipv4: Option<Socket>, ipv6: Option<Socket>): (r: Option<Endpoint>)
    ensures r.Some? ==> forall s: SocketV4 :: r.value.v4 == Some(s) <==> ipv4 == Some(V4(s))
    ensures r.Some? ==> forall s: SocketV6 :: r.value.v6 == Some(s) <==> ipv6 == Some(V6(s))
    ensures r.None? <==> !(ipv4.Some? && ipv4.value.V4?) && !(ipv6.Some? && ipv6.value.V6?)
  {
    var v4 := if ipv4.Some? && ipv4.value.V4? then Some(ipv4.value.v4) else None;
    var v6 := if ipv6.Some? && ipv6.value.V6? then Some(ipv6.value.v6) else None;
    New(v4, v6)
  }

  // ----- the bytes -----

  function Flags(e: Endpoint): byte {
    (if e.v4.Some? then 1 else 0) + (if e.v6.Some? then 2 else 0)
  }

  function BytesV4(v4: Option<SocketV4>): Bytes {
    match v4
    case None => []
    case Some(s) => s.ip + ToBytes(2, s.port)
  }

  function BytesV6(v6: Option<SocketV6>): Bytes {
    match v6
    case None => []
    case Some(s) => s.ip + ToBytes(2, s.port)
  }

  function EndpointBytes(e: Endpoint): Bytes {
    [Flags(e)] + BytesV4(e.v4) + BytesV6(e.v6)
  }

  method Encode(e: Endpoint) returns (out: Bytes)
    ensures out == EndpointBytes(e) && |out| <= 25
  {
    out := [];
    var flags: byte := 0;
    if e.v4.Some? {
      flags := flags + FLAG_V4;
    }
    if e.v6.Some? {
      flags := flags + FLAG_V6;
    }
    out := out + [flags];
    if e.v4.Some? {
      out := out + e.v4.value.ip;
      out := out + ToBytes(2, e.v4.value.port);
    }
    if e.v6.Some? {
      out := out + e.v6.value.ip;
      out := out + ToBytes(2, e.v6.value.port);
    }
  }

  /** Flow information and scope, which the record does not carry. */
  predicate Plain(v6: Option<SocketV6>) {
    v6.Some? ==> v6.value.flowInfo == 0 && v6.value.scopeId == 0
  }

  /** A record the decoder can have made. */
  predicate Decodable(e: Endpoint) {
    (e.v4.Some? || e.v6.Some?) && Plain(e.v6)
  }

  function ReadV4(b: Bytes): SocketV4
    requires |b| == 6
  {
    SocketV4(b[..4], U16(b[4..6]))
  }

  function ReadV6(b: Bytes): SocketV6
    requires |b| == 18
  {
    SocketV6(b[..16], U16(b[16..18]), 0, 0)
  }

  lemma V4RoundTrip(b: Bytes)
    requires |b| == 6
    ensures BytesV4(Some(ReadV4(b))) == b
  {
    ToFromBytes(b[4..6]);
    assert b == b[..4] + b[4..6];
  }

  lemma V6RoundTrip(b: Bytes)
    requires |b| == 18
    ensures BytesV6(Some(ReadV6(b))) == b
  {
    ToFromBytes(b[16..18]);
    assert b == b[..16] + b[16..18];
  }

  /** The encoding of a record tells it apart from every other, flow information and scope aside. */
  lemma EncodingInjective(e: Endpoint, f: Endpoint)
    requires EndpointBytes(e) == EndpointBytes(f) && Plain(e.v6) && Plain(f.v6)
    ensures e == f
  {
    var b, c := EndpointBytes(e), EndpointBytes(f);
    assert b[0] == Flags(e) && c[0] == Flags(f);
    if e.v4.Some? {
      assert b[1..5] == e.v4.value.ip && c[1..5] == f.v4.value.ip;
      assert b[5..7] == ToBytes(2, e.v4.value.port) && c[5..7] == ToBytes(2, f.v4.value.port);
      U16OfBytes(e.v4.value.port);
      U16OfBytes(f.v4.value.port);
    }
    if e.v6.Some? {
      var k := if e.v4.Some? then 7 else 1;
      assert b[k..k + 16] == e.v6.value.ip && c[k..k + 16] == f.v6.value.ip;
      assert b[k + 16..k + 18] == ToBytes(2, e.v6.value.port) && c[k + 16..k + 18] == ToBytes(2, f.v6.value.port);
      U16OfBytes(e.v6.value.port);
      U16OfBytes(f.v6.value.port);
    }
  }

  /** Accepts exactly the encodings of records, and answers the record encoded. */
  method Decode(bytes: Bytes) returns (r: Option<Endpoint>)
    ensures forall e :: r == Some(e) <==> Decodable(e) && EndpointBytes(e) == bytes
  {
    r := DecodeBlocks(bytes);
    forall e ensures r == Some(e) <==> Decodable(e) && EndpointBytes(e) == bytes {
      if Decodable(e) && EndpointBytes(e) == bytes {
        EncodingShape(e);
        if r.Some? {
          EncodingInjective(e, r.value);
        }
      }
    }
  }

  /** The lengths and flags an encoding can have. */
  predicate Shaped(bytes: Bytes) {
    || (|bytes| == 7 && bytes[0] == 1)
    || (|bytes| == 19 && bytes[0] == 2)
    || (|bytes| == 25 && bytes[0] == 3)
  }

  lemma EncodingShape(e: Endpoint)
    requires Decodable(e)
    ensures Shaped(EndpointBytes(e))
  {
  }

  method DecodeBlocks(bytes: Bytes) returns (r: Option<Endpoint>)
    ensures r.Some? <==> Shaped(bytes)
    ensures r.Some? ==> Decodable(r.value) && EndpointBytes(r.value) == bytes
  {
    if bytes == [] {
      return None;
    }
    var flags, rest := bytes[0], bytes[1..];
    if flags / 4 != 0 {
      return None;
    }
    var v4: Option<SocketV4> := None;
    var v6: Option<SocketV6> := None;
    if flags % 2 == FLAG_V4 {
      if |rest| < 6 {
        return None;
      }
      V4RoundTrip(rest[..6]);
      v4 := Some(ReadV4(rest[..6]));
      rest := rest[6..];
    }
    assert bytes == [flags] + BytesV4(v4) + rest;
    if flags / 2 % 2 == 1 {
      if |rest| < 18 {
        return None;
      }
      V6RoundTrip(rest[..18]);
      v6 := Some(ReadV6(rest[..18]));
      rest := rest[18..];
    }
    assert bytes == [flags] + BytesV4(v4) + BytesV6(v6) + rest;
    if rest != [] {
      return None;
    }
    r := New(v4, v6);
  }

  // ----- round trips -----

  /** The record as it reads back. */
  function Published(e: Endpoint): Endpoint {
    e.(v6 := if e.v6.Some? then Some(e.v6.value.(flowInfo := 0, scopeId := 0)) else None)
  }

  /** A record reads back as itself exactly when it has an endpoint and its IPv6 address carries no
      flow information and no scope; otherwise those two are lost. */
  method RoundTrip(e: Endpoint) returns (r: Option<Endpoint>)
    ensures r == (if e.v4.Some? || e.v6.Some? then Some(Published(e)) else None)
    ensures r == Some(e) <==> Decodable(e)
  {
    var bytes := Encode(e);
    r := Decode(bytes);
    assert EndpointBytes(Published(e)) == bytes;
    if e.v4.Some? || e.v6.Some? {
      assert Decodable(Published(e));
    } else if r.Some? {
      assert Decodable(r.value) && EndpointBytes(r.value) == bytes;
      EncodingShape(r.value);
    }
  }
}
