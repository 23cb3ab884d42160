/** TLS record framing (section 5.1 of RFC 8446): `unwrap_records`, `wrap_records`, `_split`. */
module TlsRecords {
  import opened Bytes

  const HANDSHAKE: byte := 0x16
  const TLS12: bytes := [0x03, 0x03]

  datatype Record = Record(version: bytes, payload: bytes)

  function Payloads(records: seq<Record>): seq<bytes> {
    seq(|records|, i requires 0 <= i < |records| => records[i].payload)
  }

  /** The record layer's grammar from offset `i` on: whole handshake records and nothing else. */
  function RecordsFrom(wire: bytes, i: nat): (r: Result<seq<Record>>)
    requires i <= |wire|
    decreases |wire| - i
  {
    if i == |wire| then Ok([])
    else if i + 5 > |wire| then Err(TrailingBytes)
    else if wire[i] != HANDSHAKE then Err(NotHandshakeRecord)
    else
      var next := i + 5 + FromBe(wire[i + 3..i + 5]);
      if next > |wire| then Err(TruncatedRecord)
      else
        var rest :- RecordsFrom(wire, next);
        Ok([Record(wire[i + 1..i + 3], wire[i + 5..next])] + rest)
  }

  function RecordsOf(wire: bytes): Result<seq<Record>> { RecordsFrom(wire, 0) }

  datatype Handshake = Handshake(content: bytes, version: bytes)

  /** What a peer reassembles from `wire`, and the version of the first record. */
  function Unwrap(wire: bytes): (r: Result<Handshake>) {
    var records :- RecordsOf(wire);
    var content := Join(Payloads(records));
    if content == [] then Err(TrailingBytes) else Ok(Handshake(content, wire[1..3]))
  }

  method UnwrapRecords(wire: bytes) returns (r: Result<Handshake>)
    ensures r == Unwrap(wire)
  {
    var out: bytes := [];
    var i := 0;
    var version: bytes := [0x03, 0x01];
    var first := true;
    ghost var done: seq<Record> := [];
    while i + 5 <= |wire|
      invariant 0 <= i <= |wire|
      invariant first <==> i == 0
      invariant !first ==> 5 <= |wire| && version == wire[1..3]
      invariant out == Join(Payloads(done))
      invariant RecordsOf(wire) == Prepend(done, RecordsFrom(wire, i))
      decreases |wire| - i
    {
      if wire[i] != HANDSHAKE {
        return Err(NotHandshakeRecord);
      }
      if first {
        version := wire[i + 1..i + 3];
        first := false;
      }
      var n := FromBe(wire[i + 3..i + 5]);
      if i + 5 + n > |wire| {
        return Err(TruncatedRecord);
      }
      ghost var one := Record(wire[i + 1..i + 3], wire[i + 5..i + 5 + n]);
      PrependStep(done, one, RecordsFrom(wire, i + 5 + n));
      PayloadsSnoc(done, one);
      out := out + wire[i + 5..i + 5 + n];
      done := done + [one];
      i := i + 5 + n;
    }
    assert done + [] == done;
    if i != |wire| || out == [] {
      return Err(TrailingBytes);
    }
    return Ok(Handshake(out, version));
  }

  lemma PayloadsSnoc(done: seq<Record>, one: Record)
    ensures Join(Payloads(done + [one])) == Join(Payloads(done)) + one.payload
  {
    assert Payloads(done + [one]) == Payloads(done) + [one.payload];
    JoinSnoc(Payloads(done), one.payload);
  }

  // ---- cutting a byte string into pieces (shared by wrap_records and _split) ----

  function Positive(sizes: seq<int>): (clean: seq<pos>)
    ensures |clean| <= |sizes|
    ensures (forall k :: 0 <= k < |sizes| ==> sizes[k] > 0) ==> clean == sizes
  {
    if sizes == [] then []
    else if sizes[0] > 0 then
      assert [sizes[0]] + sizes[1..] == sizes;
      [sizes[0]] + Positive(sizes[1..])
    else Positive(sizes[1..])
  }

  /** Pieces of the asked sizes while bytes remain, then one piece with the rest. */
  function Chop(data: bytes, sizes: seq<pos>): (pieces: seq<bytes>)
    ensures forall k :: 0 <= k < |pieces| ==> pieces[k] != []
    decreases |sizes|
  {
    if data == [] then []
    else if sizes == [] then [data]
    else
      var n := Min(sizes[0], |data|);
      [data[..n]] + Chop(data[n..], sizes[1..])
  }

  lemma {:induction false} ChopJoins(data: bytes, sizes: seq<pos>)
    ensures Join(Chop(data, sizes)) == data
    decreases |sizes|
  {
    if data == [] {
    } else if sizes == [] {
      JoinOne(data);
    } else {
      var n := Min(sizes[0], |data|);
      ChopJoins(data[n..], sizes[1..]);
      assert Chop(data, sizes)[1..] == Chop(data[n..], sizes[1..]);
      assert data[..n] + data[n..] == data;
    }
  }

  /** The loop of wrap_records and _split: `for s in clean` with a running offset. */
  method ChopLoop(data: bytes, clean: seq<pos>) returns (out: seq<bytes>)
    ensures out == Chop(data, clean)
  {
    out := [];
    var off := 0;
    var k := 0;
    while k < |clean| && off < |data|
      invariant 0 <= k <= |clean| && 0 <= off <= |data|
      invariant Chop(data, clean) == out + Chop(data[off..], clean[k..])
    {
      var piece := Slice(data, off, off + clean[k]);
      var next := off + |piece|;
      ChopMove(data, clean, off, k, piece, next, out);
      out := out + [piece];
      off := next;
      k := k + 1;
    }
    if off < |data| {
      out := out + [data[off..]];
    }
  }

  lemma ChopMove(data: bytes, clean: seq<pos>, off: nat, k: nat, piece: bytes, next: nat, out: seq<bytes>)
    requires off < |data| && k < |clean|
    requires piece == Slice(data, off, off + clean[k]) && next == off + |piece|
    ensures next <= |data|
    ensures out + Chop(data[off..], clean[k..]) == out + [piece] + Chop(data[next..], clean[k + 1..])
  {
    ChopStep(data, clean, off, k);
    var rest := Chop(data[next..], clean[k + 1..]);
    assert out + ([piece] + rest) == out + [piece] + rest;
  }

  lemma ChopStep(data: bytes, clean: seq<pos>, off: nat, k: nat)
    requires off < |data| && k < |clean|
    ensures var piece := Slice(data, off, off + clean[k]);
            && off + |piece| <= |data|
            && Chop(data[off..], clean[k..]) == [piece] + Chop(data[off + |piece|..], clean[k + 1..])
  {
    var piece := Slice(data, off, off + clean[k]);
    SubTail(data, off, 0, |piece|);
    assert data[off..][..|piece|] == data[off..][0..|piece|];
    assert clean[k..][1..] == clean[k + 1..];
  }

  // ---- wrap_records ----

  function Frame(version: bytes, payload: bytes): bytes
    requires |payload| < 0x1_0000
  {
    [HANDSHAKE] + version + Pack16(|payload|) + payload
  }

  predicate Fits(chunks: seq<bytes>) {
    forall k :: 0 <= k < |chunks| ==> |chunks[k]| < 0x1_0000
  }

  /** The first record carries `version`, all later ones 0x0303. */
  function Framed(chunks: seq<bytes>, version: bytes): bytes
    requires Fits(chunks)
  {
    if chunks == [] then [] else Frame(version, chunks[0]) + Framed(chunks[1..], TLS12)
  }

  function Cuts(hs: bytes, sizes: seq<int>): seq<pos>
    requires hs != []
  {
    var clean := Positive(sizes);
    if clean == [] then [|hs|] else clean
  }

  function Chunks(hs: bytes, sizes: seq<int>): (chunks: seq<bytes>) {
    if hs == [] then [] else Chop(hs, Cuts(hs, sizes))
  }

  /** `struct.pack("!H", len(c))` raises when a chunk is longer than a length field can say. */
  function Wrap(hs: bytes, sizes: seq<int>, version: bytes): Result<bytes> {
    var chunks := Chunks(hs, sizes);
    if Fits(chunks) then Ok(Framed(chunks, version)) else Err(DoesNotFit)
  }

  method WrapRecords(hs: bytes, sizes: seq<int>, version: bytes) returns (r: Result<bytes>)
    ensures r == Wrap(hs, sizes, version)
  {
    var chunks: seq<bytes> := [];
    if hs != [] {
      chunks := ChopLoop(hs, Cuts(hs, sizes));
    }
    r := FrameLoop(chunks, version);
  }

  method FrameLoop(chunks: seq<bytes>, version: bytes) returns (r: Result<bytes>)
    ensures r == (if Fits(chunks) then Ok(Framed(chunks, version)) else Err(DoesNotFit))
  {
    var out: bytes := [];
    var k := 0;
    assert chunks[0..] == chunks;
    while k < |chunks|
      invariant 0 <= k <= |chunks|
      invariant out == [] <==> k == 0
      invariant FrameFrom(chunks, 0, version) == Prepend(out, FrameFrom(chunks, k, version))
    {
      var c := chunks[k];
      FrameFromStep(chunks, k, version, out);
      if |c| >= 0x1_0000 {
        return Err(DoesNotFit);
      }
      var ver := if out == [] then version else TLS12;
      out := out + Frame(ver, c);
      k := k + 1;
    }
    assert chunks[k..] == [] && out + [] == out;
    return Ok(out);
  }

  function VersionFrom(k: nat, version: bytes): bytes { if k == 0 then version else TLS12 }

  /** What the writer still has to give from chunk `k` on. */
  ghost function FrameFrom(chunks: seq<bytes>, k: nat, version: bytes): Result<bytes>
    requires k <= |chunks|
  {
    if Fits(chunks[k..]) then Ok(Framed(chunks[k..], VersionFrom(k, version))) else Err(DoesNotFit)
  }

  lemma FrameFromStep(chunks: seq<bytes>, k: nat, version: bytes, out: bytes)
    requires k < |chunks|
    ensures Prepend(out, FrameFrom(chunks, k, version))
         == if |chunks[k]| < 0x1_0000
            then Prepend(out + Frame(VersionFrom(k, version), chunks[k]), FrameFrom(chunks, k + 1, version))
            else Err(DoesNotFit)
  {
    FitsStep(chunks, k);
    if Fits(chunks[k..]) {
      FramedStep(chunks, k, VersionFrom(k, version));
      var rest := Framed(chunks[k + 1..], TLS12);
      assert out + (Frame(VersionFrom(k, version), chunks[k]) + rest)
          == out + Frame(VersionFrom(k, version), chunks[k]) + rest;
    }
  }

  lemma FitsStep(chunks: seq<bytes>, k: nat)
    requires k < |chunks|
    ensures Fits(chunks[k..]) <==> |chunks[k]| < 0x1_0000 && Fits(chunks[k + 1..])
  {
    assert chunks[k..] == [chunks[k]] + chunks[k + 1..];
  }

  lemma FramedStep(chunks: seq<bytes>, k: nat, version: bytes)
    requires k < |chunks| && Fits(chunks[k..]) && Fits(chunks[k + 1..]) && |chunks[k]| < 0x1_0000
    ensures Framed(chunks[k..], version) == Frame(version, chunks[k]) + Framed(chunks[k + 1..], TLS12)
  {
    assert chunks[k..][1..] == chunks[k + 1..];
  }

  /** Records a framed list of chunks decodes to. */
  function RecordList(chunks: seq<bytes>, version: bytes): seq<Record> {
    if chunks == [] then [] else [Record(version, chunks[0])] + RecordList(chunks[1..], TLS12)
  }

  /** A framed payload, wherever it stands, reads back as its record. */
  lemma FrameReads(before: bytes, version: bytes, payload: bytes, after: bytes)
    requires |version| == 2 && |payload| < 0x1_0000
    ensures var wire := before + Frame(version, payload) + after;
            var next := |before| + 5 + |payload|;
            && next <= |wire|
            && wire[|before|] == HANDSHAKE
            && FromBe(wire[|before| + 3..|before| + 5]) == |payload|
            && wire[|before| + 1..|before| + 3] == version
            && wire[|before| + 5..next] == payload
  {
    var wire := before + Frame(version, payload) + after;
    assert wire[|before| + 3..|before| + 5] == Pack16(|payload|);
    Pack16Reads(|payload|);
  }

  lemma ReadOne(wire: bytes, i: nat, version: bytes, payload: bytes, next: nat, more: seq<Record>)
    requires next == i + 5 + |payload| <= |wire| && wire[i] == HANDSHAKE
    requires FromBe(wire[i + 3..i + 5]) == |payload|
    requires wire[i + 1..i + 3] == version && wire[i + 5..next] == payload
    requires RecordsFrom(wire, next) == Ok(more)
    ensures RecordsFrom(wire, i) == Ok([Record(version, payload)] + more)
  {
  }

  /** A framed payload in front of bytes that already read back. */
  lemma FrameFirst(wire: bytes, before: bytes, version: bytes, payload: bytes, after: bytes, next: nat,
                   more: seq<Record>)
    requires |version| == 2 && |payload| < 0x1_0000
    requires wire == before + Frame(version, payload) + after && next == |before + Frame(version, payload)|
    requires RecordsFrom(wire, next) == Ok(more)
    ensures RecordsFrom(wire, |before|) == Ok([Record(version, payload)] + more)
  {
    FrameReads(before, version, payload, after);
    ReadOne(wire, |before|, version, payload, next, more);
  }

  lemma {:induction false} FramedParsesAfter(wire: bytes, before: bytes, chunks: seq<bytes>, version: bytes)
    requires Fits(chunks) && |version| == 2 && wire == before + Framed(chunks, version)
    ensures RecordsFrom(wire, |before|) == Ok(RecordList(chunks, version))
    decreases |chunks|
  {
    if chunks != [] {
      var c, more := chunks[0], chunks[1..];
      var rest := Framed(more, TLS12);
      assert wire == before + Frame(version, c) + rest;
      var passed := before + Frame(version, c);
      FramedParsesAfter(wire, passed, more, TLS12);
      FrameFirst(wire, before, version, c, rest, |passed|, RecordList(more, TLS12));
    }
  }

  lemma FramedParses(chunks: seq<bytes>, version: bytes)
    requires Fits(chunks) && |version| == 2
    ensures RecordsOf(Framed(chunks, version)) == Ok(RecordList(chunks, version))
  {
    var none: bytes := [];
    assert none + Framed(chunks, version) == Framed(chunks, version);
    FramedParsesAfter(Framed(chunks, version), none, chunks, version);
  }

  lemma {:induction false} RecordListPayloads(chunks: seq<bytes>, version: bytes)
    ensures Payloads(RecordList(chunks, version)) == chunks
  {
    if chunks != [] {
      RecordListPayloads(chunks[1..], TLS12);
      var l := RecordList(chunks, version);
      assert l[1..] == RecordList(chunks[1..], TLS12);
      assert Payloads(l) == [l[0].payload] + Payloads(l[1..]);
    }
  }

  /** Wrapping then unwrapping gives back the handshake bytes and the first version; it fails only
      when a chunk is too long for its length field. */
  lemma WrapUnwraps(hs: bytes, sizes: seq<int>, version: bytes)
    requires hs != [] && |version| == 2
    ensures Wrap(hs, sizes, version).Ok?
       <==> forall k :: 0 <= k < |Chunks(hs, sizes)| ==> |Chunks(hs, sizes)[k]| < 0x1_0000
    ensures Wrap(hs, sizes, version).Ok? ==>
              Unwrap(Wrap(hs, sizes, version).value) == Ok(Handshake(hs, version))
  {
    var chunks := Chunks(hs, sizes);
    ChopJoins(hs, Cuts(hs, sizes));
    if Fits(chunks) {
      FramedParses(chunks, version);
      RecordListPayloads(chunks, version);
      var wire := Framed(chunks, version);
      assert wire[1..3] == version;
    }
  }

  /** No emitted record is empty (zero-length handshake fragments are forbidden). */
  lemma NoEmptyRecord(hs: bytes, sizes: seq<int>, version: bytes)
    requires |version| == 2
    requires Wrap(hs, sizes, version).Ok?
    ensures var records := RecordsOf(Wrap(hs, sizes, version).value);
            && records.Ok?
            && (forall r :: r in records.value ==> r.payload != [])
            && Join(Payloads(records.value)) == hs
            && forall k :: 0 <= k < |records.value| ==> records.value[k].version == if k == 0 then version else TLS12
  {
    var chunks := Chunks(hs, sizes);
    FramedParses(chunks, version);
    RecordListPayloads(chunks, version);
    var records := RecordList(chunks, version);
    forall r | r in records
      ensures r.payload != []
    {
      var k :| 0 <= k < |records| && records[k] == r;
      assert Payloads(records)[k] == chunks[k];
      assert chunks[k] in chunks;
    }
    if hs != [] {
      ChopJoins(hs, Cuts(hs, sizes));
    }
    RecordListVersions(chunks, version);
  }

  lemma {:induction false} RecordListVersions(chunks: seq<bytes>, version: bytes)
    ensures |RecordList(chunks, version)| == |chunks|
    ensures forall k :: 0 <= k < |chunks| ==>
              RecordList(chunks, version)[k].version == if k == 0 then version else TLS12
  {
    if chunks != [] {
      RecordListVersions(chunks[1..], TLS12);
    }
  }

  // ---- _split ----

  function Split(data: bytes, sizes: seq<int>): seq<bytes> {
    var clean := Positive(sizes);
    if clean == [] || data == [] then [data] else Chop(data, clean)
  }

  method SplitPieces(data: bytes, sizes: seq<int>) returns (out: seq<bytes>)
    ensures out == Split(data, sizes)
  {
    var clean := Positive(sizes);
    if clean == [] {
      return [data];
    }
    out := ChopLoop(data, clean);
    if out == [] {
      out := [data];
    }
  }

  /** Splitting conserves the stream; only an empty input yields an empty piece. */
  lemma SplitConserves(data: bytes, sizes: seq<int>)
    ensures Join(Split(data, sizes)) == data && Split(data, sizes) != []
    ensures data != [] ==> forall p :: p in Split(data, sizes) ==> p != []
  {
    var clean := Positive(sizes);
    JoinOne(data);
    if clean != [] && data != [] {
      ChopJoins(data, clean);
    }
  }
}
