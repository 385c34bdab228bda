/** The extensions of a ClientHello or ServerHello body, found by skipping what comes before them. */
module DtlsHello {
  import opened Wrappers
  import opened Bytes

  // ----- the extension list -----

  /** The ids of a list of extensions; up to three stray bytes at the end are ignored. */
  function Extensions(data: Bytes): Option<seq<u16>>
    decreases |data|
  {
    if |data| < 4 then Some([])
    else
      var len := U16(data[2..4]);
      if |data| < 4 + len then None
      else
        var rest :- Extensions(data[4 + len..]);
        Some([U16(data[..2])] + rest)
  }

  function Prepend(out: seq<u16>, rest: Option<seq<u16>>): Option<seq<u16>> {
    match rest
    case None => None
    case Some(ids) => Some(out + ids)
  }

  method ParseExtensions(bytes: Bytes) returns (r: Option<seq<u16>>)
    ensures r == Extensions(bytes)
  {
    var data := bytes;
    var out: seq<u16> := [];
    assert Extensions(bytes).Some? ==> [] + Extensions(bytes).value == Extensions(bytes).value;
    while |data| >= 4
      invariant Extensions(bytes) == Prepend(out, Extensions(data))
      decreases |data|
    {
      var id, len: nat := U16(data[..2]), U16(data[2..4]);
      if |data| >= 4 + len && Extensions(data[4 + len..]).Some? {
        var rest := Extensions(data[4 + len..]).value;
        assert out + ([id] + rest) == (out + [id]) + rest;
      }
      out := out + [id];
      if |data| < 4 + len {
        return None;
      }
      data := data[4 + len..];
    }
    assert out + [] == out;
    r := Some(out);
  }

  datatype Extension = Extension(id: u16, body: Bytes)

  predicate Fits(es: seq<Extension>) {
    forall i | 0 <= i < |es| :: |es[i].body| < 0x1_0000
  }

  function ExtensionBytes(es: seq<Extension>): Bytes {
    if es == [] then []
    else OneExtension(es[0]) + ExtensionBytes(es[1..])
  }

  function Ids(es: seq<Extension>): seq<u16> {
    seq(|es|, i requires 0 <= i < |es| => es[i].id)
  }

  function OneExtension(e: Extension): Bytes {
    ToBytes(2, e.id) + ToBytes(2, |e.body|) + e.body
  }

  /** One extension in front is read and passed over. */
  lemma {:induction false} FirstExtension(e: Extension, rest: Bytes)
    requires |e.body| < 0x1_0000
    ensures Extensions(OneExtension(e) + rest) == Prepend([e.id], Extensions(rest))
  {
    var data, n := OneExtension(e) + rest, |e.body|;
    U16OfBytes(e.id);
    U16OfBytes(n);
    assert data[..2] == ToBytes(2, e.id) && data[2..4] == ToBytes(2, n) && data[4 + n..] == rest;
  }

  lemma {:induction false} ExtensionsRoundTrip(es: seq<Extension>, tail: Bytes)
    requires Fits(es) && |tail| < 4
    ensures Extensions(ExtensionBytes(es) + tail) == Some(Ids(es))
    decreases |es|
  {
    if es == [] {
      assert ExtensionBytes(es) + tail == tail && Ids(es) == [];
    } else {
      ExtensionsRoundTrip(es[1..], tail);
      FirstExtension(es[0], ExtensionBytes(es[1..]) + tail);
      assert ExtensionBytes(es) + tail == OneExtension(es[0]) + (ExtensionBytes(es[1..]) + tail);
      assert Ids(es) == [es[0].id] + Ids(es[1..]);
    }
  }

  /** The extension a list begins with. */
  lemma {:induction false} SplitFirst(data: Bytes) returns (e: Extension, rest: Bytes)
    requires |data| >= 4 && Extensions(data).Some?
    ensures |e.body| < 0x1_0000 && data == OneExtension(e) + rest && Extensions(rest).Some? && |rest| < |data|
  {
    var n := U16(data[2..4]);
    e, rest := Extension(U16(data[..2]), data[4..4 + n]), data[4 + n..];
    ToFromBytes(data[..2]);
    ToFromBytes(data[2..4]);
    assert data == data[..2] + data[2..4] + data[4..4 + n] + data[4 + n..];
  }

  lemma {:induction false} ExtensionsSplit(data: Bytes) returns (es: seq<Extension>, tail: Bytes)
    requires Extensions(data).Some?
    ensures Fits(es) && |tail| < 4 && data == ExtensionBytes(es) + tail
    decreases |data|
  {
    if |data| < 4 {
      es, tail := [], data;
    } else {
      var first, rest := SplitFirst(data);
      var others, end := ExtensionsSplit(rest);
      es, tail := [first] + others, end;
      assert es[1..] == others;
      assert data == OneExtension(first) + ExtensionBytes(others) + tail;
    }
  }

  /** The list is accepted exactly when it is extensions with less than a header to spare. */
  lemma ExtensionsAccepted(data: Bytes)
    ensures Extensions(data).Some? <==> exists es, tail :: Fits(es) && |tail| < 4 && data == ExtensionBytes(es) + tail
  {
    if Extensions(data).Some? {
      var es, tail := ExtensionsSplit(data);
    }
    forall es, tail | Fits(es) && |tail| < 4 && data == ExtensionBytes(es) + tail ensures Extensions(data).Some? {
      ExtensionsRoundTrip(es, tail);
    }
  }

  // ----- the hello messages -----

  function Skip(b: Bytes, n: nat): Option<Bytes> {
    if |b| < n then None else Some(b[n..])
  }

  /** Past a field that begins with its own length, in `w` bytes. */
  function SkipVector(b: Bytes, w: nat): Option<Bytes> {
    if |b| < w then None else Skip(b[w..], FromBytes(b[..w]))
  }

  /** The extensions at the end of a hello, which may be missing. */
  function ExtensionBlock(b: Bytes): Option<seq<u16>> {
    if |b| < 2 then Some([])
    else
      var n := U16(b[..2]);
      if |b| < 2 + n then None else Extensions(b[2..2 + n])
  }

  /** Version and random; session id; cookie; cipher suites; compression methods; extensions. */
  function ClientHelloExtensions(body: Bytes): Option<seq<u16>> {
    var a :- Skip(body, 34);
    var b :- SkipVector(a, 1);
    var c :- SkipVector(b, 1);
    var d :- SkipVector(c, 2);
    var e :- SkipVector(d, 1);
    ExtensionBlock(e)
  }

  /** Version and random; session id; cipher suite and compression method; extensions. */
  function ServerHelloExtensions(body: Bytes): Option<seq<u16>> {
    var a :- Skip(body, 34);
    var b :- SkipVector(a, 1);
    var c :- Skip(b, 3);
    ExtensionBlock(c)
  }

  /** Reads the extensions from the cursor on. */
  method ParseBlock(body: Bytes, cursor: nat) returns (r: Option<seq<u16>>)
    requires cursor <= |body|
    ensures r == ExtensionBlock(body[cursor..])
  {
    var p := cursor;
    if |body| < p + 2 {
      return Some([]);
    }
    var total := U16(body[p..p + 2]);
    assert body[cursor..][..2] == body[p..p + 2];
    p := p + 2;
    if |body| < p + total {
      return None;
    }
    assert body[cursor..][2..2 + total] == body[p..p + total];
    r := ParseExtensions(body[p..p + total]);
  }

  /** Moves the cursor past a field that begins with its own length. */
  method PassVector(body: Bytes, cursor: nat, w: nat) returns (r: Option<nat>)
    requires cursor <= |body|
    ensures r.Some? ==> r.value <= |body| && SkipVector(body[cursor..], w) == Some(body[r.value..])
    ensures r.None? ==> SkipVector(body[cursor..], w).None?
  {
    var p := cursor;
    if |body| < p + w {
      return None;
    }
    var n := FromBytes(body[p..p + w]);
    assert body[cursor..][..w] == body[p..p + w] && body[cursor..][w..] == body[p + w..];
    p := p + w;
    if |body| < p + n {
      return None;
    }
    assert body[p..][n..] == body[p + n..];
    r := Some(p + n);
  }

  method ParseClientHello(body: Bytes) returns (r: Option<seq<u16>>)
    ensures r == ClientHelloExtensions(body)
  {
    if |body| < 2 || |body| < 34 {
      return None;
    }
    var p :- PassVector(body, 34, 1);
    p :- PassVector(body, p, 1);
    p :- PassVector(body, p, 2);
    p :- PassVector(body, p, 1);
    r := ParseBlock(body, p);
  }

  method ParseServerHello(body: Bytes) returns (r: Option<seq<u16>>)
    ensures r == ServerHelloExtensions(body)
  {
    if |body| < 2 || |body| < 34 {
      return None;
    }
    var p :- PassVector(body, 34, 1);
    if |body| < p + 2 || |body| < p + 3 {
      return None;
    }
    assert body[p..][3..] == body[p + 3..];
    r := ParseBlock(body, p + 3);
  }

  datatype ClientHello = ClientHello(
    preamble: Bytes, session: Bytes, cookie: Bytes, suites: Bytes, compression: Bytes, extensions: Option<seq<Extension>>)
  {
    predicate Valid() {
      && |preamble| == 34 && |session| < 0x100 && |cookie| < 0x100 && |suites| < 0x1_0000 && |compression| < 0x100
      && ValidBlock(extensions)
    }
  }

  datatype ServerHello = ServerHello(preamble: Bytes, session: Bytes, choice: Bytes, extensions: Option<seq<Extension>>) {
    predicate Valid() {
      |preamble| == 34 && |session| < 0x100 && |choice| == 3 && ValidBlock(extensions)
    }
  }

  predicate ValidBlock(extensions: Option<seq<Extension>>) {
    extensions.Some? ==> Fits(extensions.value) && |ExtensionBytes(extensions.value)| < 0x1_0000
  }

  function Vector(w: nat, b: Bytes): Bytes {
    ToBytes(w, |b|) + b
  }

  function BlockBytes(extensions: Option<seq<Extension>>): Bytes {
    match extensions
    case None => []
    case Some(es) => Vector(2, ExtensionBytes(es))
  }

  function ClientHelloBytes(h: ClientHello): Bytes {
    h.preamble + (Vector(1, h.session) + (Vector(1, h.cookie) + (Vector(2, h.suites) + (Vector(1, h.compression) + BlockBytes(h.extensions)))))
  }

  function ServerHelloBytes(h: ServerHello): Bytes {
    h.preamble + (Vector(1, h.session) + (h.choice + BlockBytes(h.extensions)))
  }

  lemma SkipsVector(w: nat, b: Bytes, rest: Bytes)
    requires |b| < Pow256(w)
    ensures SkipVector(Vector(w, b) + rest, w) == Some(rest)
  {
    FromToBytes(w, |b|);
    Slices(ToBytes(w, |b|), b, rest);
  }

  lemma BlockRoundTrip(extensions: Option<seq<Extension>>)
    requires ValidBlock(extensions)
    ensures ExtensionBlock(BlockBytes(extensions)) == Some(Ids(extensions.GetOr([])))
  {
    if extensions.Some? {
      var b := ExtensionBytes(extensions.value);
      var all := BlockBytes(extensions);
      U16OfBytes(|b|);
      assert all[..2] == ToBytes(2, |b|) && all[2..2 + |b|] == b;
      ExtensionsRoundTrip(extensions.value, []);
      assert b + [] == b;
    } else {
      assert Ids([]) == [];
    }
  }

  /** Of every well-formed ClientHello the parser finds exactly its extension ids, in order. */
  lemma {:induction false} ClientHelloRoundTrip(h: ClientHello)
    requires h.Valid()
    ensures ClientHelloExtensions(ClientHelloBytes(h)) == Some(Ids(h.extensions.GetOr([])))
  {
    Powers();
    var e := BlockBytes(h.extensions);
    var d := Vector(1, h.compression) + e;
    var c := Vector(2, h.suites) + d;
    var b := Vector(1, h.cookie) + c;
    assert ClientHelloBytes(h)[34..] == Vector(1, h.session) + b;
    SkipsVector(1, h.session, b);
    SkipsVector(1, h.cookie, c);
    SkipsVector(2, h.suites, d);
    SkipsVector(1, h.compression, e);
    BlockRoundTrip(h.extensions);
  }

  lemma {:induction false} ServerHelloRoundTrip(h: ServerHello)
    requires h.Valid()
    ensures ServerHelloExtensions(ServerHelloBytes(h)) == Some(Ids(h.extensions.GetOr([])))
  {
    Powers();
    var c := BlockBytes(h.extensions);
    var b := h.choice + c;
    assert ServerHelloBytes(h)[34..] == Vector(1, h.session) + b;
    SkipsVector(1, h.session, b);
    assert b[3..] == c;
    BlockRoundTrip(h.extensions);
  }
}
