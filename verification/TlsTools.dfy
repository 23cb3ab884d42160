/** `tls_tools.py`: the byte-range SNI locator and the named fragment strategies. */
module TlsTools {
  import opened Bytes
  import opened Permute
  import opened TlsRecords
  import opened ClientHello
  import opened GenePlan
  import opened GenePlanLaws

  datatype Range = Range(start: nat, length: nat)

  // ---- locate_sni ----

  /** The host-name entries of one server_name extension, from `q` on. */
  function LocateName(data: bytes, q: nat, namesEnd: nat): (r: Option<Range>)
    requires namesEnd <= |data|
    ensures r.Some? ==> q + 3 <= r.value.start && r.value.start + r.value.length <= namesEnd
    decreases namesEnd - q
  {
    if q + 3 > namesEnd then None
    else
      var n := FromBe(data[q + 1..q + 3]);
      if data[q] == 0 && q + 3 + n <= namesEnd then Some(Range(q + 3, n))
      else LocateName(data, q + 3 + n, namesEnd)
  }

  /** The extensions from `pos` on, up to `end`. */
  function LocateIn(data: bytes, pos: nat, end: nat): (r: Option<Range>)
    requires end <= |data|
    ensures r.Some? ==> pos < r.value.start && r.value.start + r.value.length <= end
    decreases end - pos
  {
    if pos + 4 > end then None
    else
      var kind := FromBe(data[pos..pos + 2]);
      var n := FromBe(data[pos + 2..pos + 4]);
      var body := pos + 4;
      var found := if kind == 0 && body + n <= end then LocateName(data, body + 2, body + n) else None;
      if found.Some? then found else LocateIn(data, body + n, end)
  }

  /** Where the extensions start: indexing past the end means no answer, clipped slices do not. */
  function ExtensionsStart(data: bytes): (r: Option<nat>)
    ensures r.Some? ==> 44 <= r.value
  {
    if |data| <= 43 then None
    else
      var ciphers: nat := 44 + data[43] as int;
      var compression := ciphers + 2 + FromBe(Slice(data, ciphers, ciphers + 2));
      if |data| <= compression then None
      else Some(compression + 1 + data[compression] as int)
  }

  function LocateSni(data: bytes): (r: Option<Range>)
    ensures r.Some? ==> 43 < r.value.start && r.value.start + r.value.length <= |data|
  {
    if |data| < 9 || data[0] != HANDSHAKE || data[5] != CLIENT_HELLO then None
    else
      var recordEnd := Min(|data|, 5 + FromBe(data[3..5]));
      match ExtensionsStart(data)
      case None => None
      case Some(at) =>
        var end := Min(recordEnd, at + 2 + FromBe(Slice(data, at, at + 2)));
        LocateIn(data, at + 2, end)
  }

  method FindRange(data: bytes) returns (r: Option<Range>)
    ensures r == LocateSni(data)
  {
    if |data| < 9 || data[0] != HANDSHAKE {
      return None;
    }
    var recordEnd := Min(|data|, 5 + FromBe(data[3..5]));
    if data[5] != CLIENT_HELLO {
      return None;
    }
    var start := SkipToExtensions(data);
    if start.None? {
      return None;
    }
    var pos := start.value;
    var extensionsLen := FromBe(Slice(data, pos, pos + 2));
    pos := pos + 2;
    var end := Min(recordEnd, pos + extensionsLen);
    r := WalkExtensions(data, pos, end);
  }

  /** The cursor of locate_sni up to the extensions length; reading past the end gives up. */
  method SkipToExtensions(data: bytes) returns (r: Option<nat>)
    ensures r == ExtensionsStart(data)
  {
    var pos: nat := 5 + 4 + 2 + 32;
    if pos >= |data| {
      return None;
    }
    pos := pos + 1 + data[pos] as int;
    pos := pos + 2 + FromBe(Slice(data, pos, pos + 2));
    if pos >= |data| {
      return None;
    }
    return Some(pos + 1 + data[pos] as int);
  }

  lemma WalkStep(data: bytes, pos: nat, end: nat, next: nat)
    requires pos + 4 <= end <= |data| && next == pos + 4 + FromBe(data[pos + 2..pos + 4])
    ensures var named := FromBe(data[pos..pos + 2]) == 0 && next <= end;
            var found := if named then LocateName(data, pos + 6, next) else None;
            LocateIn(data, pos, end) == if found.Some? then found else LocateIn(data, next, end)
  {
  }

  method WalkExtensions(data: bytes, from: nat, end: nat) returns (r: Option<Range>)
    requires end <= |data|
    ensures r == LocateIn(data, from, end)
  {
    var pos := from;
    while pos + 4 <= end
      invariant LocateIn(data, from, end) == LocateIn(data, pos, end)
      decreases end - pos
    {
      var extType := FromBe(data[pos..pos + 2]);
      var extLen := FromBe(data[pos + 2..pos + 4]);
      var next := pos + 4 + extLen;
      WalkStep(data, pos, end, next);
      if extType == 0 && next <= end {
        r := WalkNames(data, pos + 6, next);
        if r.Some? {
          return;
        }
      }
      pos := next;
    }
    return None;
  }

  method WalkNames(data: bytes, from: nat, namesEnd: nat) returns (r: Option<Range>)
    requires namesEnd <= |data|
    ensures r == LocateName(data, from, namesEnd)
  {
    var q := from;
    while q + 3 <= namesEnd
      invariant LocateName(data, from, namesEnd) == LocateName(data, q, namesEnd)
      decreases namesEnd - q
    {
      var nameType := data[q];
      var nameLen := FromBe(data[q + 1..q + 3]);
      q := q + 3;
      if nameType == 0 && q + nameLen <= namesEnd {
        return Some(Range(q, nameLen));
      }
      q := q + nameLen;
    }
    return None;
  }

  // ---- agreement with the other reader ----

  /** A server_name extension whose first entry is a whole host name. */
  predicate WholeHost(e: Extension) {
    && NamesHost(e)
    && 5 + FromBe(e.body[3..5]) <= |e.body|
  }

  predicate OnlyHostAt(extensions: seq<Extension>, k: nat) {
    && k < |extensions|
    && WholeHost(extensions[k])
    && forall j :: 0 <= j < |extensions| && j != k ==> extensions[j].kind != SERVER_NAME
  }

  lemma {:induction false} OnlyHostSni(extensions: seq<Extension>, k: nat)
    requires OnlyHostAt(extensions, k)
    ensures Sni(extensions) == HostOf(extensions[k])
    decreases |extensions|
  {
    var last := |extensions| - 1;
    if k < last {
      OnlyHostSni(extensions[..last], k);
    }
  }

  /** The extension read at offset q of a stretch of the input, in the input's own offsets. */
  lemma FirstExtension(data: bytes, base: nat, end: nat, q: nat)
    requires base + q < end <= |data|
    requires ParseFrom(data[base..end], q).Ok?
    ensures base + q + 4 <= end
    ensures FromBe(data[base + q..base + q + 2]) < 0x1_0000
    ensures var next := q + 4 + FromBe(data[base + q + 2..base + q + 4]);
            && base + next <= end
            && ParseFrom(data[base..end], next).Ok?
            && ParseFrom(data[base..end], q).value
               == [Extension(FromBe(data[base + q..base + q + 2]), data[base + q + 4..base + next])]
                  + ParseFrom(data[base..end], next).value
  {
    var blob := data[base..end];
    SubSlice(data, base, end, q, q + 2);
    SubSlice(data, base, end, q + 2, q + 4);
    SubSlice(data, base, end, q + 4, q + 4 + FromBe(blob[q + 2..q + 4]));
    FromBe2(blob[q..q + 2]);
  }

  lemma WholeHostLocated(data: bytes, body: nat, n: nat)
    requires body + n <= |data|
    requires WholeHost(Extension(SERVER_NAME, data[body..body + n]))
    ensures LocateName(data, body + 2, body + n).Some?
    ensures var r := LocateName(data, body + 2, body + n).value;
            data[r.start..r.start + r.length] == HostOf(Extension(SERVER_NAME, data[body..body + n]))
  {
    var e := data[body..body + n];
    SubSlice(data, body, body + n, 3, 5);
    assert e[2] == data[body + 2];
    var hl := FromBe(e[3..5]);
    SubSlice(data, body, body + n, 5, 5 + hl);
    assert Slice(e, 5, 5 + hl) == e[5..5 + hl];
  }

  lemma HostHere(data: bytes, pos: nat, end: nat, n: nat) returns (r: Range)
    requires pos + 4 + n <= end <= |data|
    requires FromBe(data[pos..pos + 2]) == 0 && FromBe(data[pos + 2..pos + 4]) == n
    requires WholeHost(Extension(SERVER_NAME, data[pos + 4..pos + 4 + n]))
    ensures LocateIn(data, pos, end) == Some(r)
    ensures data[r.start..r.start + r.length] == HostOf(Extension(SERVER_NAME, data[pos + 4..pos + 4 + n]))
  {
    WholeHostLocated(data, pos + 4, n);
    LocateStops(data, pos, end);
    r := LocateName(data, pos + 6, pos + 4 + n).value;
  }

  lemma HostFirst(data: bytes, pos: nat, end: nat, n: nat, e: Extension) returns (r: Range)
    requires pos + 4 + n <= end <= |data|
    requires FromBe(data[pos..pos + 2]) == e.kind && FromBe(data[pos + 2..pos + 4]) == n
    requires WholeHost(e) && e.body == data[pos + 4..pos + 4 + n]
    ensures LocateIn(data, pos, end) == Some(r)
    ensures data[r.start..r.start + r.length] == HostOf(e)
  {
    assert e == Extension(SERVER_NAME, data[pos + 4..pos + 4 + n]);
    r := HostHere(data, pos, end, n);
  }

  /** The locator, run on the very bytes the reader split into extensions. */
  lemma {:induction false} LocatesTheHost(data: bytes, base: nat, end: nat, q: nat, pos: nat,
                                          extensions: seq<Extension>, k: nat)
      returns (r: Range)
    requires base <= end <= |data| && base + q <= end && pos == base + q
    requires ParseFrom(data[base..end], q) == Ok(extensions)
    requires OnlyHostAt(extensions, k)
    ensures LocateIn(data, pos, end) == Some(r)
    ensures data[r.start..r.start + r.length] == HostOf(extensions[k])
    decreases end - q
  {
    var n, next, rest := FirstOf(data, base, end, q, pos, extensions);
    if k == 0 {
      r := HostFirst(data, pos, end, n, extensions[0]);
    } else {
      OnlyHostTail(extensions, rest, k);
      r := LocatesTheHost(data, base, end, q + 4 + n, next, rest, k - 1);
      HostLater(data, pos, end, next, r);
    }
  }

  lemma HostLater(data: bytes, pos: nat, end: nat, next: nat, r: Range)
    requires pos + 4 <= end <= |data|
    requires FromBe(data[pos..pos + 2]) != 0 && next == pos + 4 + FromBe(data[pos + 2..pos + 4])
    requires LocateIn(data, next, end) == Some(r)
    ensures LocateIn(data, pos, end) == Some(r)
  {
    LocateSkips(data, pos, end, next);
  }

  lemma FirstOf(data: bytes, base: nat, end: nat, q: nat, pos: nat, extensions: seq<Extension>)
      returns (n: nat, next: nat, rest: seq<Extension>)
    requires base <= end <= |data| && base + q <= end && pos == base + q && extensions != []
    requires ParseFrom(data[base..end], q) == Ok(extensions)
    ensures next == pos + 4 + n <= end
    ensures n == FromBe(data[pos + 2..pos + 4])
    ensures extensions[0].kind == FromBe(data[pos..pos + 2])
    ensures extensions[0].body == data[pos + 4..pos + 4 + n]
    ensures extensions == [extensions[0]] + rest
    ensures ParseFrom(data[base..end], q + 4 + n) == Ok(rest)
  {
    assert base + q < end;
    FirstExtension(data, base, end, q);
    n := FromBe(data[base + q + 2..base + q + 4]);
    next := pos + 4 + n;
    rest := ParseFrom(data[base..end], q + 4 + n).value;
  }

  lemma LocateStops(data: bytes, pos: nat, end: nat)
    requires pos + 4 <= end <= |data|
    requires FromBe(data[pos..pos + 2]) == 0
    requires pos + 4 + FromBe(data[pos + 2..pos + 4]) <= end
    ensures var found := LocateName(data, pos + 6, pos + 4 + FromBe(data[pos + 2..pos + 4]));
            found.Some? ==> LocateIn(data, pos, end) == found
  {
  }

  lemma LocateSkips(data: bytes, pos: nat, end: nat, next: nat)
    requires pos + 4 <= end <= |data|
    requires FromBe(data[pos..pos + 2]) != 0 && next == pos + 4 + FromBe(data[pos + 2..pos + 4])
    ensures LocateIn(data, pos, end) == LocateIn(data, next, end)
  {
  }

  lemma OnlyHostTail(all: seq<Extension>, rest: seq<Extension>, k: nat)
    requires OnlyHostAt(all, k) && k > 0 && all == [all[0]] + rest
    ensures OnlyHostAt(rest, k - 1) && rest[k - 1] == all[k] && all[0].kind != SERVER_NAME
  {
    assert forall j :: 0 <= j < |rest| ==> rest[j] == all[j + 1];
  }

  /** The input is one handshake record and nothing else. */
  predicate OneRecord(data: bytes) {
    |data| >= 5 && data[0] == HANDSHAKE && |data| == 5 + FromBe(data[3..5])
  }

  lemma OneRecordContent(data: bytes)
    requires OneRecord(data)
    ensures RecordsOf(data) == Ok([Record(data[1..3], data[5..])])
    ensures Unwrap(data) == if |data| > 5 then Ok(Handshake(data[5..], data[1..3])) else Err(TrailingBytes)
  {
    var none: seq<Record> := [];
    var one := Record(data[1..3], data[5..]);
    assert [one] + none == [one] && data[5..|data|] == data[5..];
    assert RecordsFrom(data, |data|) == Ok(none);
    assert RecordsFrom(data, 0) == Ok([one] + none);
    assert Payloads([one]) == [data[5..]];
    JoinOne(data[5..]);
  }

  /** Both readers find the extensions in the same place. */
  lemma SameExtensions(data: bytes, hello: ParsedHello) returns (at: nat, end: nat)
    requires OneRecord(data) && Parse(data) == Ok(hello)
    ensures |data| >= 9 && data[5] == CLIENT_HELLO
    ensures ExtensionsStart(data) == Some(at) && at + 2 <= |data|
    ensures end == at + 2 + FromBe(data[at..at + 2]) <= |data|
    ensures ParseExtensions(data[at + 2..end]) == Ok(hello.extensions)
    ensures hello.sni == Sni(hello.extensions)
  {
    assert Unwrap(data).Ok?;
    OneRecordContent(data);
    var body := HelloBody(data[5..]).value;
    BodyInRecord(data, body);
    at, end := SameSplit(data, body);
  }

  lemma BodyInRecord(data: bytes, body: bytes)
    requires |data| > 5 && HelloBody(data[5..]) == Ok(body) && body != []
    ensures |data| >= 9 + |body| && body == data[9..9 + |body|]
    ensures data[5] == CLIENT_HELLO
  {
    var hs := data[5..];
    ReadEncloses(hs);
    SubTail(data, 5, 4, 4 + |body|);
    assert body == Slice(hs, 4, 4 + |body|);
  }

  lemma SameSplit(data: bytes, body: bytes) returns (at: nat, end: nat)
    requires |data| >= 9 + |body| && body == data[9..9 + |body|]
    requires SplitBody(body).Ok?
    ensures ExtensionsStart(data) == Some(at) && at + 2 <= |data|
    ensures end == at + 2 + FromBe(data[at..at + 2]) <= |data|
    ensures data[at + 2..end] == SplitBody(body).value.1
  {
    var p := PrefixEnd(body).value;
    SameStart(data, body);
    SubSlice(data, 9, 9 + |body|, p, p + 2);
    SubSlice(data, 9, 9 + |body|, p + 2, |body|);
    assert body[p + 2..] == body[p + 2..|body|];
    at, end := 9 + p, 9 + |body|;
  }

  lemma SameStart(data: bytes, body: bytes)
    requires |data| >= 9 + |body| && body == data[9..9 + |body|]
    requires PrefixEnd(body).Ok? && PrefixEnd(body).value + 2 <= |body|
    ensures ExtensionsStart(data) == Some(9 + PrefixEnd(body).value)
  {
    var ciphers: nat := 35 + body[34] as int;
    assert data[43] == body[34];
    SubSlice(data, 9, 9 + |body|, ciphers, ciphers + 2);
    assert Slice(data, 9 + ciphers, 11 + ciphers) == data[9 + ciphers..11 + ciphers];
    assert Slice(body, ciphers, ciphers + 2) == body[ciphers..ciphers + 2];
  }

  /** On a one-record hello the strict reader accepts, with one server_name extension that starts
      with a whole host name, the locator's byte range holds exactly the name the reader took. */
  lemma ParsersAgree(data: bytes, hello: ParsedHello, k: nat)
    requires OneRecord(data) && Parse(data) == Ok(hello)
    requires OnlyHostAt(hello.extensions, k)
    ensures LocateSni(data).Some?
    ensures var r := LocateSni(data).value;
            && r.start + r.length <= |data|
            && data[r.start..r.start + r.length] == hello.sni
  {
    var at, end := SameExtensions(data, hello);
    AgreeFrom(data, at, end, hello.extensions, k);
  }

  lemma AgreeFrom(data: bytes, at: nat, end: nat, extensions: seq<Extension>, k: nat)
    requires OneRecord(data) && |data| >= 9 && data[5] == CLIENT_HELLO
    requires ExtensionsStart(data) == Some(at) && at + 2 <= |data|
    requires end == at + 2 + FromBe(data[at..at + 2]) <= |data|
    requires ParseExtensions(data[at + 2..end]) == Ok(extensions) && OnlyHostAt(extensions, k)
    ensures LocateSni(data).Some?
    ensures var r := LocateSni(data).value;
            r.start + r.length <= |data| && data[r.start..r.start + r.length] == Sni(extensions)
  {
    var base := at + 2;
    LocateFrom(data, at, base, end);
    var r := AgreeRange(data, base, end, extensions, k);
  }

  lemma AgreeRange(data: bytes, base: nat, end: nat, extensions: seq<Extension>, k: nat) returns (r: Range)
    requires base <= end <= |data|
    requires ParseExtensions(data[base..end]) == Ok(extensions) && OnlyHostAt(extensions, k)
    ensures LocateIn(data, base, end) == Some(r)
    ensures r.start + r.length <= |data| && data[r.start..r.start + r.length] == Sni(extensions)
  {
    OnlyHostSni(extensions, k);
    r := LocatesTheHost(data, base, end, 0, base, extensions, k);
  }

  lemma LocateFrom(data: bytes, at: nat, base: nat, end: nat)
    requires OneRecord(data) && |data| >= 9 && data[5] == CLIENT_HELLO
    requires ExtensionsStart(data) == Some(at) && at + 2 <= |data|
    requires base == at + 2 && end == base + FromBe(data[at..base]) <= |data|
    ensures LocateSni(data) == LocateIn(data, base, end)
  {
    assert Slice(data, at, at + 2) == data[at..base];
    var stop := Min(Min(|data|, 5 + FromBe(data[3..5])), at + 2 + FromBe(Slice(data, at, at + 2)));
    assert at + 2 == base && stop == end;
  }

  // ---- fragments ----

  datatype Strategy =
    | Primitive | Plain | Half | Multi | Full5 | Full10 | Full20 | Multi64
    | SniSplit | SniBoundary | SniChars | TlsRecordFrag | TlsSniRecords | UnknownName

  predicate Blockwise(strategy: Strategy) {
    strategy.Multi? || strategy.Full5? || strategy.Full10? || strategy.Full20? || strategy.Multi64?
  }

  predicate Rerecording(strategy: Strategy) { strategy == TlsRecordFrag || strategy == TlsSniRecords }

  function FixedSize(strategy: Strategy, chunkSize: int): (n: pos) {
    match strategy
    case Full5 => 5
    case Full10 => 10
    case Full20 => 20
    case Multi64 => 64
    case _ => Max(1, chunkSize)
  }

  /** `[data[i:i+size] for i in range(0, len(data), size)]`. */
  function Blocks(data: bytes, size: pos): (pieces: seq<bytes>)
    ensures forall k :: 0 <= k < |pieces| ==> 0 < |pieces[k]| <= size
    decreases |data|
  {
    if data == [] then []
    else [Slice(data, 0, size)] + Blocks(Slice(data, size, |data|), size)
  }

  function Bytewise(data: bytes): seq<bytes> { Blocks(data, 1) }

  function NonEmpty(pieces: seq<bytes>): (r: seq<bytes>)
    ensures forall k :: 0 <= k < |r| ==> r[k] != []
  {
    if pieces == [] then []
    else (if pieces[0] == [] then [] else [pieces[0]]) + NonEmpty(pieces[1..])
  }

  /** Only dictionaries among the ops are passed on. */
  function DictsOnly(raw: seq<RawOp>): seq<RawOp> {
    FlatMap((r: RawOp) => if r.Dict? then [r] else [], raw)
  }

  function PrimitivePieces(data: bytes, raw: seq<RawOp>): Result<seq<bytes>> {
    if data == [] then Ok([data])
    else
      var plan :- BuildPlan(data, DictsOnly(raw), false);
      var pieces := NonEmpty(plan.pieces);
      Ok(if pieces == [] then [data] else pieces)
  }

  function RecordSplit(data: bytes, strategy: Strategy, location: Option<Range>): nat
    requires |data| > 5
    requires location.Some? ==> 5 < location.value.start
  {
    if strategy == TlsSniRecords && location.Some?
    then Max(1, Min(|data| - 5 - 1, location.value.start - 5))
    else Max(1, (|data| - 5) / 2)
  }

  function CutTwo(data: bytes, cut: nat): seq<bytes> {
    [Slice(data, 0, cut), Slice(data, cut, |data|)]
  }

  function TlsRecord(version: bytes, payload: bytes): Result<bytes> {
    if |payload| < 0x1_0000 then Ok(Frame(version, payload)) else Err(DoesNotFit)
  }

  /** Where sni_split and sni_boundary cut. */
  function NameCut(data: bytes, strategy: Strategy, r: Range): nat
    requires |data| >= 2
  {
    Max(1, Min(|data| - 1, r.start + if strategy == SniSplit then Max(1, r.length / 2) else 0))
  }

  function NameCharacters(data: bytes, r: Range): seq<bytes>
    requires r.start + r.length <= |data|
  {
    NonEmpty([data[..r.start]] + Bytewise(data[r.start..r.start + r.length]) + [data[r.start + r.length..]])
  }

  function Rerecord(data: bytes, split: nat): Result<seq<bytes>>
    requires |data| > 5
  {
    var payload := data[5..];
    var first :- TlsRecord(data[1..3], Slice(payload, 0, split));
    var second :- TlsRecord(data[1..3], Slice(payload, split, |payload|));
    Ok([first, second])
  }

  /** The strategies that look only at the input. */
  function PlainFragments(data: bytes, strategy: Strategy, chunkSize: int): Result<seq<bytes>>
    requires |data| >= 2
  {
    var location := LocateSni(data);
    if strategy == Half then Ok(CutTwo(data, Max(1, |data| / 2)))
    else if Blockwise(strategy) then Ok(Blocks(data, FixedSize(strategy, chunkSize)))
    else if (strategy == SniSplit || strategy == SniBoundary) && location.Some? then
      Ok(CutTwo(data, NameCut(data, strategy, location.value)))
    else if strategy == SniChars && location.Some? then Ok(NameCharacters(data, location.value))
    else if Rerecording(strategy) && data[0] == HANDSHAKE && |data| > 5 then
      Rerecord(data, RecordSplit(data, strategy, location))
    else Ok([data])
  }

  function Fragments(data: bytes, strategy: Strategy, chunkSize: int, raw: seq<RawOp>): Result<seq<bytes>> {
    if |data| < 2 then Ok([data])
    else if strategy == Primitive then PrimitivePieces(data, raw)
    else if strategy == Plain then Ok([data])
    else PlainFragments(data, strategy, chunkSize)
  }

  lemma CutTwoJoins(data: bytes, cut: nat)
    ensures Join(CutTwo(data, cut)) == data
  {
    var a, b := Slice(data, 0, cut), Slice(data, cut, |data|);
    assert [a, b] == [a] + [b];
    JoinSnoc([a], b);
    JoinOne(a);
    assert a + b == data;
  }

  lemma {:induction false} BlocksJoin(data: bytes, size: pos)
    ensures Join(Blocks(data, size)) == data
    decreases |data|
  {
    if data != [] {
      var a, b := Slice(data, 0, size), Slice(data, size, |data|);
      BlocksJoin(b, size);
      assert Blocks(data, size)[1..] == Blocks(b, size);
      assert a + b == data;
    }
  }

  lemma {:induction false} NonEmptyJoins(pieces: seq<bytes>)
    ensures Join(NonEmpty(pieces)) == Join(pieces)
  {
    if pieces != [] {
      NonEmptyJoins(pieces[1..]);
      var rest := NonEmpty(pieces[1..]);
      if pieces[0] != [] {
        assert ([pieces[0]] + rest)[1..] == rest;
      } else {
        assert [] + rest == rest;
      }
    }
  }

  lemma DictsOnlyHasDicts(raw: seq<RawOp>)
    ensures forall k :: 0 <= k < |DictsOnly(raw)| ==> !DictsOnly(raw)[k].Ready?
  {
    if raw != [] {
      DictsOnlyHasDicts(raw[1..]);
      var first := if raw[0].Dict? then [raw[0]] else [];
      assert DictsOnly(raw) == first + DictsOnly(raw[1..]);
    }
  }

  /** The primitive strategy never fails, sends no empty piece of a non-empty input, and delivers the input
      itself unless the plan re-records it, and then the same hello in other records. */
  lemma PrimitiveConserves(data: bytes, raw: seq<RawOp>)
    ensures PrimitivePieces(data, raw).Ok?
    ensures var sent := Join(PrimitivePieces(data, raw).value);
            if Rerecords(data, LiveSettingsOf(DictsOnly(raw))) then KeepsDeclaredHello(data, sent) else sent == data
    ensures data != [] ==> forall k :: 0 <= k < |PrimitivePieces(data, raw).value| ==>
              PrimitivePieces(data, raw).value[k] != []
  {
    LiveTranscriptPreserved(data, DictsOnly(raw));
    LiveWireIs(data, DictsOnly(raw));
    JoinOne(data);
    if data != [] {
      NonEmptyJoins(BuildPlan(data, DictsOnly(raw), false).value.pieces);
    } else {
      NothingRerecorded(LiveSettingsOf(DictsOnly(raw)));
    }
  }

  /** Every strategy that keeps the records delivers exactly the input, on every input. */
  lemma FragmentsConserve(data: bytes, strategy: Strategy, chunkSize: int, raw: seq<RawOp>)
    requires strategy != Primitive
    requires !Rerecording(strategy) || |data| <= 5 || data[0] != HANDSHAKE
    ensures Fragments(data, strategy, chunkSize, raw).Ok?
    ensures Join(Fragments(data, strategy, chunkSize, raw).value) == data
  {
    JoinOne(data);
    if |data| >= 2 {
      PlainConserve(data, strategy, chunkSize);
    }
  }

  lemma PlainConserve(data: bytes, strategy: Strategy, chunkSize: int)
    requires |data| >= 2
    requires !Rerecording(strategy) || |data| <= 5 || data[0] != HANDSHAKE
    ensures PlainFragments(data, strategy, chunkSize).Ok?
    ensures Join(PlainFragments(data, strategy, chunkSize).value) == data
  {
    JoinOne(data);
    if strategy == Half {
      CutTwoJoins(data, Max(1, |data| / 2));
    } else if Blockwise(strategy) {
      BlocksJoin(data, FixedSize(strategy, chunkSize));
    } else if LocateSni(data).Some? {
      NamedConserve(data, strategy, chunkSize, LocateSni(data).value);
    }
  }

  lemma NamedConserve(data: bytes, strategy: Strategy, chunkSize: int, r: Range)
    requires |data| >= 2 && LocateSni(data) == Some(r)
    requires strategy != Half && !Blockwise(strategy)
    requires !Rerecording(strategy) || |data| <= 5 || data[0] != HANDSHAKE
    ensures PlainFragments(data, strategy, chunkSize).Ok?
    ensures Join(PlainFragments(data, strategy, chunkSize).value) == data
  {
    JoinOne(data);
    if strategy == SniChars {
      SniCharsJoin(data, r);
    } else {
      CutTwoJoins(data, NameCut(data, strategy, r));
    }
  }

  lemma SniCharsJoin(data: bytes, r: Range)
    requires r.start + r.length <= |data|
    ensures Join(NameCharacters(data, r)) == data
  {
    var before, name, after := data[..r.start], data[r.start..r.start + r.length], data[r.start + r.length..];
    NonEmptyJoins([before] + Bytewise(name) + [after]);
    JoinAppend([before] + Bytewise(name), [after]);
    JoinAppend([before], Bytewise(name));
    JoinOne(before);
    JoinOne(after);
    BlocksJoin(name, 1);
    assert before + name + after == data;
  }

  /** The two record strategies, on input that begins like a handshake record. */
  predicate Recordable(data: bytes, strategy: Strategy) {
    Rerecording(strategy) && |data| > 5 && data[0] == HANDSHAKE
  }

  lemma RecordPieces(data: bytes, strategy: Strategy, chunkSize: int, raw: seq<RawOp>) returns (split: nat)
    requires Recordable(data, strategy)
    ensures split == RecordSplit(data, strategy, LocateSni(data))
    ensures 0 < split <= |data| - 5
    ensures Fragments(data, strategy, chunkSize, raw) == Rerecord(data, split)
  {
    split := RecordSplit(data, strategy, LocateSni(data));
  }

  lemma RerecordPieces(data: bytes, split: nat)
    requires |data| > 5 && split <= |data| - 5
    requires Rerecord(data, split).Ok?
    ensures split < 0x1_0000 && |data| - 5 - split < 0x1_0000
    ensures Rerecord(data, split).value
         == [Frame(data[1..3], data[5..5 + split]), Frame(data[1..3], data[5 + split..])]
  {
    var payload := data[5..];
    SubSlice(data, 5, |data|, 0, split);
    SubSlice(data, 5, |data|, split, |payload|);
    assert payload == data[5..|data|] && data[5 + split..] == data[5 + split..|data|];
  }

  lemma TwoPayloads(version: bytes, a: bytes, b: bytes)
    ensures var two := [Record(version, a)] + ([Record(version, b)] + []);
            Join(Payloads(two)) == a + b && two[0] == Record(version, a)
  {
    var two := [Record(version, a)] + ([Record(version, b)] + []);
    assert Payloads(two) == [a] + [b];
    JoinSnoc([a], b);
    JoinOne(a);
  }

  lemma TwoRecordsUnwrap(version: bytes, a: bytes, b: bytes)
    requires |version| == 2 && a != [] && |a| < 0x1_0000 && |b| < 0x1_0000
    ensures Unwrap(Frame(version, a) + Frame(version, b)) == Ok(Handshake(a + b, version))
  {
    var wire := Frame(version, a) + Frame(version, b);
    var none: bytes := [];
    assert none + Frame(version, a) + Frame(version, b) == wire;
    assert Frame(version, a) + Frame(version, b) + none == wire;
    FrameFirst(wire, Frame(version, a), version, b, none, |wire|, []);
    FrameFirst(wire, none, version, a, Frame(version, b), |Frame(version, a)|, [Record(version, b)] + []);
    TwoPayloads(version, a, b);
  }

  /** The record strategies fail only when one of the two parts does not fit a length field, never on input
      that is one record. */
  lemma RecordStrategiesFail(data: bytes, strategy: Strategy, chunkSize: int, raw: seq<RawOp>)
    requires Recordable(data, strategy)
    ensures var split := RecordSplit(data, strategy, LocateSni(data));
            && 0 < split <= |data| - 5
            && (Fragments(data, strategy, chunkSize, raw).Ok?
                <==> split < 0x1_0000 && |data| - 5 - split < 0x1_0000)
            && (OneRecord(data) ==> Fragments(data, strategy, chunkSize, raw).Ok?)
  {
    var split := RecordPieces(data, strategy, chunkSize, raw);
    if OneRecord(data) {
      FromBe2(data[3..5]);
    }
  }

  /** On every input they take, the record strategies succeed and keep the handshake stream if and only if
      the input is one record: further record headers would be delivered as handshake bytes. */
  lemma RecordStrategiesKeepStreamIff(data: bytes, strategy: Strategy, chunkSize: int, raw: seq<RawOp>)
    requires Recordable(data, strategy)
    ensures Fragments(data, strategy, chunkSize, raw).Ok? ==>
              Unwrap(Join(Fragments(data, strategy, chunkSize, raw).value)) == Ok(Handshake(data[5..], data[1..3]))
    ensures Fragments(data, strategy, chunkSize, raw).Ok?
            && Unwrap(Join(Fragments(data, strategy, chunkSize, raw).value)) == Unwrap(data)
       <==> OneRecord(data)
  {
    var split := RecordPieces(data, strategy, chunkSize, raw);
    RecordStrategiesFail(data, strategy, chunkSize, raw);
    if Fragments(data, strategy, chunkSize, raw).Ok? {
      RerecordUnwraps(data, split);
    }
    if OneRecord(data) {
      OneRecordContent(data);
    } else if Unwrap(data).Ok? {
      SeveralRecordsShorter(data);
    }
  }

  /** The first of the two records is never empty; the second is if and only if the payload is one byte
      long, which section 5.1 of RFC 8446 does not allow. */
  lemma EmptySecondRecordIff(data: bytes, strategy: Strategy, chunkSize: int, raw: seq<RawOp>)
    requires Recordable(data, strategy)
    requires Fragments(data, strategy, chunkSize, raw).Ok?
    ensures var split := RecordSplit(data, strategy, LocateSni(data));
            && 0 < split <= |data| - 5 && split < 0x1_0000 && |data| - 5 - split < 0x1_0000
            && Fragments(data, strategy, chunkSize, raw).value
               == [Frame(data[1..3], data[5..5 + split]), Frame(data[1..3], data[5 + split..])]
            && (data[5 + split..] == [] <==> |data| == 6)
  {
    var split := RecordPieces(data, strategy, chunkSize, raw);
    RerecordPieces(data, split);
  }

  lemma RerecordUnwraps(data: bytes, split: nat)
    requires |data| > 5 && 0 < split <= |data| - 5
    requires Rerecord(data, split).Ok?
    ensures Unwrap(Join(Rerecord(data, split).value)) == Ok(Handshake(data[5..], data[1..3]))
  {
    RerecordPieces(data, split);
    var a, b := data[5..5 + split], data[5 + split..];
    var first, second := Frame(data[1..3], a), Frame(data[1..3], b);
    assert [first, second] == [first] + [second];
    JoinSnoc([first], second);
    JoinOne(first);
    TwoRecordsUnwrap(data[1..3], a, b);
    assert a + b == data[5..];
  }

  /** Every further record costs at least its five header bytes. */
  lemma {:induction false} PayloadsShorter(wire: bytes, i: nat)
    requires i <= |wire| && RecordsFrom(wire, i).Ok?
    ensures var content := Join(Payloads(RecordsFrom(wire, i).value));
            if i < |wire| then |content| <= |wire| - i - 5 else content == []
    decreases |wire| - i
  {
    if i < |wire| {
      var next := i + 5 + FromBe(wire[i + 3..i + 5]);
      PayloadsShorter(wire, next);
      var all, rest := RecordsFrom(wire, i).value, RecordsFrom(wire, next).value;
      assert Payloads(all) == [wire[i + 5..next]] + Payloads(rest);
    }
  }

  lemma SeveralRecordsShorter(data: bytes)
    requires Unwrap(data).Ok? && !OneRecord(data)
    ensures |Unwrap(data).value.content| < |data| - 5
  {
    var next := 5 + FromBe(data[3..5]);
    PayloadsShorter(data, next);
    var all, rest := RecordsOf(data).value, RecordsFrom(data, next).value;
    assert Payloads(all) == [data[5..next]] + Payloads(rest);
  }

  /** sni_split: the name is cut, so no piece holds all of it. */
  lemma SniSplitBreaksName(data: bytes, chunkSize: int, raw: seq<RawOp>)
    requires LocateSni(data).Some? && LocateSni(data).value.length >= 2
    ensures var r := LocateSni(data).value;
            exists cut :: && r.start < cut < r.start + r.length
                          && Fragments(data, SniSplit, chunkSize, raw) == Ok([data[..cut], data[cut..]])
  {
    var r := LocateSni(data).value;
    var cut := NameCut(data, SniSplit, r);
    assert r.start < cut < r.start + r.length;
    assert Slice(data, 0, cut) == data[..cut];
    assert Slice(data, cut, |data|) == data[cut..];
    assert Fragments(data, SniSplit, chunkSize, raw) == PlainFragments(data, SniSplit, chunkSize);
  }

  /** tls_sni_records: the second record starts with the first byte of the located name. */
  lemma SecondRecordStartsWithName(data: bytes, chunkSize: int, raw: seq<RawOp>)
    requires LocateSni(data).Some? && LocateSni(data).value.length >= 1
    requires Fragments(data, TlsSniRecords, chunkSize, raw).Ok?
    ensures var at := LocateSni(data).value.start;
            && |data| - at < 0x1_0000
            && |Fragments(data, TlsSniRecords, chunkSize, raw).value| == 2
            && Fragments(data, TlsSniRecords, chunkSize, raw).value[1] == Frame(data[1..3], data[at..])
  {
    assert |data| > 5 && data[0] == HANDSHAKE;
    var at := LocateSni(data).value.start;
    var split := RecordPieces(data, TlsSniRecords, chunkSize, raw);
    assert 5 + split == at;
    RerecordPieces(data, split);
    assert data[5 + split..] == data[at..];
  }

  // ---- the second copy of the index shuffle ----

  /** `_permute_indices` of this file, written out again, computes the same list. */
  method PermuteIndicesCopy(n: int, seed: int) returns (order: array<nat>)
    ensures fresh(order) && order[..] == PermuteIndices(n, seed)
  {
    order := new nat[if n < 0 then 0 else n](k => k);
    assert order[..] == Indices(n);
    if order.Length <= 1 {
      return;
    }
    SwapLoop(order, if seed % WORD == 0 then 1 else seed % WORD);
  }

  method SwapLoop(order: array<nat>, seedState: nat)
    requires order.Length > 1
    modifies order
    ensures order[..] == Shuffled(old(order[..]), seedState)
  {
    var state: nat := seedState;
    var i := order.Length - 1;
    while i > 0
      invariant 0 <= i < order.Length
      invariant Shuffled(old(order[..]), seedState) == Rounds(order[..], i, state)
    {
      ghost var before := order[..];
      state := Lcg(state);
      var j := state % (i + 1);
      order[i], order[j] := order[j], order[i];
      assert order[..] == Swap(before, i, j);
      i := i - 1;
    }
  }
}
