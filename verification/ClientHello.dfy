/** The ClientHello reader and writer (sections 4.1.2 and 4.2 of RFC 8446): `parse_client_hello`
    and `build_hello`. */
module ClientHello {
  import opened Bytes
  import opened TlsRecords

  datatype Extension = Extension(kind: u16, body: bytes)

  datatype ParsedHello = ParsedHello(
    recordVersion: bytes, prefix: bytes, extensions: seq<Extension>, sni: bytes)

  const CLIENT_HELLO: byte := 0x01
  const SERVER_NAME: u16 := 0

  /** Offset of the extensions length: after version, random, session id, cipher suites and
      compression methods. Indexing past the end raises; the clipped two-byte slice does not. */
  function PrefixEnd(body: bytes): (r: Result<nat>)
    ensures r.Ok? ==> 34 < r.value
  {
    if |body| <= 34 then Err(OutOfRange)
    else
      var ciphers: nat := 35 + body[34] as int;
      var compression := ciphers + 2 + FromBe(Slice(body, ciphers, ciphers + 2));
      if |body| <= compression then Err(OutOfRange)
      else Ok(compression + 1 + body[compression])
  }

  /** Splits a hello body into what precedes the extensions and the extension bytes. */
  function SplitBody(body: bytes): (r: Result<(bytes, bytes)>)
  {
    var p :- PrefixEnd(body);
    if p + 2 > |body| then Err(NoExtensions)
    else if p + 2 + FromBe(body[p..p + 2]) != |body| then Err(BadExtensionsLength)
    else Ok((body[..p], body[p + 2..]))
  }

  /** The extension list's grammar from offset `q` on. */
  function ParseFrom(blob: bytes, q: nat): (r: Result<seq<Extension>>)
    requires q <= |blob|
    decreases |blob| - q
  {
    if q == |blob| then Ok([])
    else if q + 4 > |blob| then Err(BadExtensionHeader)
    else
      FromBe2(blob[q..q + 2]);
      var next := q + 4 + FromBe(blob[q + 2..q + 4]);
      if next > |blob| then Err(BadExtensionBody)
      else
        var rest :- ParseFrom(blob, next);
        Ok([Extension(FromBe(blob[q..q + 2]), blob[q + 4..next])] + rest)
  }

  function ParseExtensions(blob: bytes): Result<seq<Extension>> { ParseFrom(blob, 0) }

  /** An extension the reader takes the host name from. */
  predicate NamesHost(e: Extension) {
    e.kind == SERVER_NAME && |e.body| >= 5 && e.body[2] == 0
  }

  function HostOf(e: Extension): bytes
    requires NamesHost(e)
  {
    Slice(e.body, 5, 5 + FromBe(e.body[3..5]))
  }

  /** The last naming extension wins. */
  function Sni(extensions: seq<Extension>): bytes {
    if extensions == [] then []
    else
      var last := extensions[|extensions| - 1];
      if NamesHost(last) then HostOf(last) else Sni(extensions[..|extensions| - 1])
  }

  /** The body announced by the three-byte length, once the handshake holds all of it. */
  function HelloBody(hs: bytes): (r: Result<bytes>)
    requires hs != []
    ensures r.Ok? ==> |hs| >= 4 + |r.value| || |r.value| == 0
  {
    if hs[0] != CLIENT_HELLO then Err(NotClientHello)
    else
      var n := FromBe(Slice(hs, 1, 4));
      var body := Slice(hs, 4, 4 + n);
      if |body| != n then Err(TruncatedHello) else Ok(body)
  }

  function Parse(wire: bytes): Result<ParsedHello> {
    var hs :- Unwrap(wire);
    var body :- HelloBody(hs.content);
    var parts :- SplitBody(body);
    var extensions :- ParseExtensions(parts.1);
    Ok(ParsedHello(hs.version, parts.0, extensions, Sni(extensions)))
  }

  method ParseClientHello(wire: bytes) returns (r: Result<ParsedHello>)
    ensures r == Parse(wire)
  {
    var unwrapped := UnwrapRecords(wire);
    if unwrapped.Err? {
      return Err(unwrapped.fault);
    }
    var read := HelloBody(unwrapped.value.content);
    if read.Err? {
      return Err(read.fault);
    }
    var parts := LocateExtensions(read.value);
    if parts.Err? {
      return Err(parts.fault);
    }
    var exts, sni := ReadExtensions(parts.value.1);
    if exts.Err? {
      return Err(exts.fault);
    }
    return Ok(ParsedHello(unwrapped.value.version, parts.value.0, exts.value, sni));
  }

  /** The cursor `p` of parse_client_hello. */
  method LocateExtensions(body: bytes) returns (r: Result<(bytes, bytes)>)
    ensures r == SplitBody(body)
  {
    var p: nat := 2 + 32;
    if p >= |body| {
      return Err(OutOfRange);
    }
    p := p + 1 + body[p] as int;
    p := p + 2 + FromBe(Slice(body, p, p + 2));
    if p >= |body| {
      return Err(OutOfRange);
    }
    p := p + 1 + body[p] as int;
    if p + 2 > |body| {
      return Err(NoExtensions);
    }
    var elen := FromBe(body[p..p + 2]);
    var blob := Slice(body, p + 2, p + 2 + elen);
    if |blob| != elen || p + 2 + elen != |body| {
      return Err(BadExtensionsLength);
    }
    assert blob == body[p + 2..];
    return Ok((body[..p], blob));
  }

  /** The cursor `q` of parse_client_hello. */
  method ReadExtensions(blob: bytes) returns (r: Result<seq<Extension>>, sni: bytes)
    ensures r == ParseExtensions(blob)
    ensures r.Ok? ==> sni == Sni(r.value)
  {
    var exts: seq<Extension> := [];
    sni := [];
    var q := 0;
    while q < |blob|
      invariant 0 <= q <= |blob|
      invariant sni == Sni(exts)
      invariant ParseExtensions(blob) == Prepend(exts, ParseFrom(blob, q))
      decreases |blob| - q
    {
      ExtensionStep(blob, q, exts);
      if q + 4 > |blob| {
        return Err(BadExtensionHeader), sni;
      }
      FromBe2(blob[q..q + 2]);
      var t := FromBe(blob[q..q + 2]);
      var n := FromBe(blob[q + 2..q + 4]);
      var data := Slice(blob, q + 4, q + 4 + n);
      if |data| != n {
        return Err(BadExtensionBody), sni;
      }
      var one := Extension(t, data);
      sni := TakeName(exts, one, sni);
      exts := exts + [one];
      q := q + 4 + n;
    }
    assert exts + [] == exts;
    return Ok(exts), sni;
  }

  /** A server_name extension with a host name in front replaces the name read before. */
  method TakeName(exts: seq<Extension>, one: Extension, before: bytes) returns (sni: bytes)
    requires before == Sni(exts)
    ensures sni == Sni(exts + [one])
  {
    SniStep(exts, one);
    sni := before;
    if one.kind == 0 && |one.body| >= 5 && one.body[2] == 0 {
      var hl := FromBe(one.body[3..5]);
      sni := Slice(one.body, 5, 5 + hl);
    }
  }

  /** One round of the cursor: a header that does not fit, a body that does not, or one more extension. */
  lemma ExtensionStep(blob: bytes, q: nat, exts: seq<Extension>)
    requires q < |blob|
    ensures var whole := Prepend(exts, ParseFrom(blob, q));
            if q + 4 > |blob| then whole == Err(BadExtensionHeader)
            else
              var n := FromBe(blob[q + 2..q + 4]);
              var data := Slice(blob, q + 4, q + 4 + n);
              if |data| != n then whole == Err(BadExtensionBody)
              else && FromBe(blob[q..q + 2]) < 0x1_0000
                   && whole == Prepend(exts + [Extension(FromBe(blob[q..q + 2]), data)], ParseFrom(blob, q + 4 + n))
  {
    if q + 4 <= |blob| {
      FromBe2(blob[q..q + 2]);
      var n := FromBe(blob[q + 2..q + 4]);
      var data := Slice(blob, q + 4, q + 4 + n);
      if |data| == n {
        PrependStep(exts, Extension(FromBe(blob[q..q + 2]), data), ParseFrom(blob, q + 4 + n));
      }
    }
  }

  lemma SniStep(done: seq<Extension>, one: Extension)
    ensures Sni(done + [one]) == if NamesHost(one) then HostOf(one) else Sni(done)
  {
    assert (done + [one])[..|done|] == done;
  }

  // ---- build_hello ----

  predicate BodiesFit(extensions: seq<Extension>) {
    forall k :: 0 <= k < |extensions| ==> |extensions[k].body| < 0x1_0000
  }

  function Blob(extensions: seq<Extension>): bytes
    requires BodiesFit(extensions)
  {
    if extensions == [] then []
    else
      var e := extensions[0];
      Pack16(e.kind) + Pack16(|e.body|) + e.body + Blob(extensions[1..])
  }

  /** `struct.pack` raises when a body or the whole block does not fit its length field. */
  function Build(prefix: bytes, extensions: seq<Extension>): (r: Result<bytes>)
    ensures r.Ok? ==> r.value != []
  {
    if !BodiesFit(extensions) then Err(DoesNotFit)
    else
      var blob := Blob(extensions);
      if |blob| >= 0x1_0000 then Err(DoesNotFit)
      else
        var body := prefix + Pack16(|blob|) + blob;
        if |body| >= 0x1_0000_0000 then Err(DoesNotFit)
        else Ok([CLIENT_HELLO] + Pack24(|body|) + body)
  }

  lemma {:induction false} ParsedBodiesFit(blob: bytes, q: nat)
    requires q <= |blob| && ParseFrom(blob, q).Ok?
    ensures BodiesFit(ParseFrom(blob, q).value)
    decreases |blob| - q
  {
    if q < |blob| {
      FromBe2(blob[q + 2..q + 4]);
      ParsedBodiesFit(blob, q + 4 + FromBe(blob[q + 2..q + 4]));
    }
  }

  lemma FourParts(blob: bytes, q: nat, next: nat)
    requires q + 4 <= next <= |blob|
    ensures blob[q..q + 2] + blob[q + 2..q + 4] + blob[q + 4..next] + blob[next..] == blob[q..]
  {
  }

  lemma {:induction false} BlobOfRest(blob: bytes, q: nat)
    requires q <= |blob| && ParseFrom(blob, q).Ok?
    ensures BodiesFit(ParseFrom(blob, q).value)
    ensures Blob(ParseFrom(blob, q).value) == blob[q..]
    decreases |blob| - q
  {
    ParsedBodiesFit(blob, q);
    if q < |blob| {
      var next := q + 4 + FromBe(blob[q + 2..q + 4]);
      var rest := ParseFrom(blob, next).value;
      BlobOfRest(blob, next);
      FromBe2(blob[q..q + 2]);
      FromBe2(blob[q + 2..q + 4]);
      ReadsPack16(blob[q..q + 2]);
      ReadsPack16(blob[q + 2..q + 4]);
      var e := Extension(FromBe(blob[q..q + 2]), blob[q + 4..next]);
      BlobCons(e, rest);
      FourParts(blob, q, next);
    }
  }

  /** Printing what was parsed gives back the bytes. */
  lemma BlobOfParsed(blob: bytes)
    requires ParseExtensions(blob).Ok?
    ensures BodiesFit(ParseExtensions(blob).value)
    ensures Blob(ParseExtensions(blob).value) == blob
  {
    BlobOfRest(blob, 0);
    assert blob[0..] == blob;
  }

  lemma BlobCons(e: Extension, rest: seq<Extension>)
    requires BodiesFit(rest) && |e.body| < 0x1_0000
    ensures BodiesFit([e] + rest)
    ensures Blob([e] + rest) == Pack16(e.kind) + Pack16(|e.body|) + e.body + Blob(rest)
  {
    assert ([e] + rest)[1..] == rest;
  }

  function Printed(e: Extension): bytes
    requires |e.body| < 0x1_0000
  {
    Pack16(e.kind) + Pack16(|e.body|) + e.body
  }

  lemma PrintedReads(before: bytes, e: Extension, after: bytes)
    requires |e.body| < 0x1_0000
    ensures var blob := before + Printed(e) + after;
            var q := |before|;
            && q + 4 + |e.body| <= |blob|
            && FromBe(blob[q..q + 2]) == e.kind
            && FromBe(blob[q + 2..q + 4]) == |e.body|
            && blob[q + 4..q + 4 + |e.body|] == e.body
  {
    var blob := before + Printed(e) + after;
    var q := |before|;
    assert blob[q..q + 2] == Pack16(e.kind) && blob[q + 2..q + 4] == Pack16(|e.body|);
    Pack16Reads(e.kind);
    Pack16Reads(|e.body|);
  }

  lemma ParseOne(blob: bytes, q: nat, e: Extension, next: nat, more: seq<Extension>)
    requires next == q + 4 + |e.body| <= |blob| && |e.body| < 0x1_0000
    requires FromBe(blob[q..q + 2]) == e.kind && FromBe(blob[q + 2..q + 4]) == |e.body|
    requires blob[q + 4..next] == e.body
    requires ParseFrom(blob, next) == Ok(more)
    ensures ParseFrom(blob, q) == Ok([e] + more)
  {
  }

  /** A printed extension in front of bytes that already read back. */
  lemma PrintedFirst(blob: bytes, before: bytes, e: Extension, after: bytes, next: nat, more: seq<Extension>)
    requires |e.body| < 0x1_0000 && blob == before + Printed(e) + after && next == |before + Printed(e)|
    requires ParseFrom(blob, next) == Ok(more)
    ensures ParseFrom(blob, |before|) == Ok([e] + more)
  {
    PrintedReads(before, e, after);
    ParseOne(blob, |before|, e, next, more);
  }

  lemma {:induction false} ParsedAfter(blob: bytes, before: bytes, extensions: seq<Extension>)
    requires BodiesFit(extensions) && blob == before + Blob(extensions)
    ensures ParseFrom(blob, |before|) == Ok(extensions)
    decreases |extensions|
  {
    if extensions != [] {
      var e, more := extensions[0], extensions[1..];
      var rest := Blob(more);
      assert blob == before + Printed(e) + rest;
      var passed := before + Printed(e);
      ParsedAfter(blob, passed, more);
      PrintedFirst(blob, before, e, rest, |passed|, more);
      assert [e] + more == extensions;
    }
  }

  /** Parsing what was printed gives back the extensions. */
  lemma ParsedOfBlob(extensions: seq<Extension>)
    requires BodiesFit(extensions)
    ensures ParseExtensions(Blob(extensions)) == Ok(extensions)
  {
    var none: bytes := [];
    assert none + Blob(extensions) == Blob(extensions);
    ParsedAfter(Blob(extensions), none, extensions);
  }

  /** A prefix that ends where its own length fields say the extensions begin. */
  predicate WellFormedPrefix(prefix: bytes) {
    PrefixEnd(prefix) == Ok(|prefix|)
  }

  /** Prefix reading looks only at bytes before the extensions, so it ignores what follows. */
  lemma PrefixEndLocal(prefix: bytes, tail: bytes)
    ensures WellFormedPrefix(prefix) ==> PrefixEnd(prefix + tail) == Ok(|prefix|)
    ensures PrefixEnd(prefix + tail) == Ok(|prefix|) ==> WellFormedPrefix(prefix) && |prefix| < 0x3_0000
  {
    var body := prefix + tail;
    if |prefix| > 34 {
      assert body[34] == prefix[34];
      var ciphers: nat := 35 + prefix[34] as int;
      if ciphers + 2 <= |prefix| {
        assert Slice(body, ciphers, ciphers + 2) == Slice(prefix, ciphers, ciphers + 2);
        FromBe2(Slice(prefix, ciphers, ciphers + 2));
      }
    }
  }

  lemma SplitBodyJoins(body: bytes)
    requires SplitBody(body).Ok?
    ensures var (prefix, blob) := SplitBody(body).value;
            && |blob| < 0x1_0000 && body == prefix + Pack16(|blob|) + blob
            && WellFormedPrefix(prefix) && |prefix| < 0x3_0000
  {
    var p := PrefixEnd(body).value;
    assert body[..p] + body[p..] == body;
    PrefixEndLocal(body[..p], body[p..]);
    ReadsPack16(body[p..p + 2]);
    assert body == body[..p] + body[p..p + 2] + body[p + 2..];
  }

  lemma JoinedBodySplits(prefix: bytes, blob: bytes)
    requires WellFormedPrefix(prefix) && |blob| < 0x1_0000
    ensures SplitBody(prefix + Pack16(|blob|) + blob) == Ok((prefix, blob))
  {
    var body := prefix + Pack16(|blob|) + blob;
    assert body == prefix + (Pack16(|blob|) + blob);
    PrefixEndLocal(prefix, Pack16(|blob|) + blob);
    assert body[|prefix|..|prefix| + 2] == Pack16(|blob|);
    Pack16Reads(|blob|);
    assert body[..|prefix|] == prefix && body[|prefix| + 2..] == blob;
  }

  function Enclose(body: bytes): bytes {
    [CLIENT_HELLO] + Pack24(|body|) + body
  }

  lemma EnclosedReads(body: bytes)
    requires |body| < 0x100_0000
    ensures HelloBody(Enclose(body)) == Ok(body)
    ensures Declared(Enclose(body)) == 4 + |body|
  {
    var hs := Enclose(body);
    assert Slice(hs, 1, 4) == Pack24(|body|);
    Pack24Reads(|body|);
    assert Slice(hs, 4, 4 + |body|) == body;
  }

  /** Header plus the body length the header announces. */
  function Declared(hs: bytes): nat {
    4 + FromBe(Slice(hs, 1, 4))
  }

  lemma ReadEncloses(hs: bytes)
    requires hs != [] && HelloBody(hs).Ok? && HelloBody(hs).value != []
    ensures Declared(hs) <= |hs| && Enclose(HelloBody(hs).value) == hs[..Declared(hs)]
    ensures |HelloBody(hs).value| < 0x100_0000
  {
    var body := HelloBody(hs).value;
    assert Slice(hs, 1, 4) == hs[1..4];
    ReadsPack24(hs[1..4]);
    assert hs[..4 + |body|] == hs[..1] + hs[1..4] + body;
  }

  lemma BuildIsEnclose(prefix: bytes, extensions: seq<Extension>)
    requires BodiesFit(extensions) && |Blob(extensions)| < 0x1_0000 && |prefix| < 0x3_0000
    ensures Build(prefix, extensions) == Ok(Enclose(prefix + Pack16(|Blob(extensions)|) + Blob(extensions)))
  {
  }

  /** Rebuilding a parsed hello with its own extensions gives back the handshake bytes up to the
      length the hello declares: nothing inside the message is lost or altered. */
  lemma BuildUndoesParse(wire: bytes)
    requires Parse(wire).Ok?
    ensures var hs := Unwrap(wire).value.content;
            && Declared(hs) <= |hs|
            && Build(Parse(wire).value.prefix, Parse(wire).value.extensions) == Ok(hs[..Declared(hs)])
  {
    var hs := Unwrap(wire).value.content;
    var body := HelloBody(hs).value;
    ReadEncloses(hs);
    SplitBodyJoins(body);
    BlobOfParsed(SplitBody(body).value.1);
    BuildIsEnclose(Parse(wire).value.prefix, Parse(wire).value.extensions);
  }

  /** The length fields of a prefix bound it. */
  lemma PrefixIsShort(prefix: bytes)
    requires WellFormedPrefix(prefix)
    ensures |prefix| < 0x3_0000
  {
    assert prefix + [] == prefix;
    PrefixEndLocal(prefix, []);
  }

  /** Parsing a wrapped build gives back the prefix, the extensions and the version. */
  lemma ParseUndoesBuild(prefix: bytes, extensions: seq<Extension>, sizes: seq<int>, version: bytes)
    requires WellFormedPrefix(prefix) && |version| == 2
    requires Build(prefix, extensions).Ok?
    requires Wrap(Build(prefix, extensions).value, sizes, version).Ok?
    ensures Parse(Wrap(Build(prefix, extensions).value, sizes, version).value)
         == Ok(ParsedHello(version, prefix, extensions, Sni(extensions)))
  {
    var blob := Blob(extensions);
    var body := prefix + Pack16(|blob|) + blob;
    PrefixIsShort(prefix);
    BuildIsEnclose(prefix, extensions);
    WrapUnwraps(Enclose(body), sizes, version);
    EnclosedReads(body);
    JoinedBodySplits(prefix, blob);
    ParsedOfBlob(extensions);
  }

  /** What the reader accepts it can also re-read: the prefix is well formed and the extensions fit. */
  lemma ParsedIsBuildable(wire: bytes)
    requires Parse(wire).Ok?
    ensures var hello := Parse(wire).value;
            && WellFormedPrefix(hello.prefix) && |hello.prefix| < 0x3_0000 && |hello.recordVersion| == 2
            && BodiesFit(hello.extensions) && |Blob(hello.extensions)| < 0x1_0000
  {
    var body := HelloBody(Unwrap(wire).value.content).value;
    SplitBodyJoins(body);
    BlobOfParsed(SplitBody(body).value.1);
    assert RecordsOf(wire).value != [];
    assert |wire| >= 5;
  }
}
