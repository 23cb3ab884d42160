/** `normalize_ops` and `build_plan`: from a ClientHello and a list of gene ops to the TCP pieces. */
module GenePlan {
  import opened Bytes
  import opened Permute
  import opened TlsRecords
  import opened ClientHello
  import opened ExtensionNames
  import opened ExtensionRewrite

  // ---- ops ----

  datatype Kind =
    | TcpFrag | Delay | RecordCut | PadExt | ShuffleExt | Grease | SniCut | JunkRecord | ReorderSend

  datatype Op = Op(kind: Kind, size: int, delayMs: int, offset: int, contentType: int)

  /** A dictionary field: absent, not convertible by `int()`, or a number. */
  datatype Field = Absent | NotANumber | Number(n: int)

  datatype RawOp =
    | Ready(op: Op)
    | Dict(kind: Option<Kind>, size: Field, delayMs: Field, offset: Field, contentType: Field)
    | Other

  function Clamp(n: int, lo: int, hi: int): int { Max(lo, Min(hi, n)) }

  function ClampField(f: Field, lo: int, hi: int, fallback: int): int {
    match f
    case Absent => Clamp(fallback, lo, hi)
    case NotANumber => fallback
    case Number(n) => Clamp(n, lo, hi)
  }

  /** `Op.from_any`: an unknown or missing kind means tcp_frag. */
  function FromAny(raw: RawOp): Option<Op> {
    match raw
    case Ready(op) => Some(op)
    case Other => None
    case Dict(kind, rawSize, rawDelay, rawOffset, rawType) =>
      var k := if kind.Some? then kind.value else TcpFrag;
      var size0 := ClampField(rawSize, 0, 2048, 5);
      var offset0 := ClampField(rawOffset, 0, 4096, 0);
      var size := match k
        case TcpFrag => Clamp(size0, 1, 512)
        case RecordCut => Clamp(size0, 1, 1024)
        case PadExt => Clamp(size0, 0, 512)
        case JunkRecord => Clamp(size0, 0, 256)
        case _ => size0;
      var offset := if k == SniCut then Clamp(offset0, 0, 64) else offset0;
      Some(Op(k, size, ClampField(rawDelay, 0, 80, 0), offset, ClampField(rawType, 0, 255, 0x17)))
  }

  function NormalizeOps(raw: seq<RawOp>): seq<Op> {
    FlatMap((r: RawOp) => if FromAny(r).Some? then [FromAny(r).value] else [], raw)
  }

  predicate LiveUnsafe(kind: Kind) {
    kind == PadExt || kind == ShuffleExt || kind == Grease || kind == JunkRecord || kind == ReorderSend
  }

  function LiveOps(ops: seq<Op>): (safe: seq<Op>)
    ensures forall k :: 0 <= k < |safe| ==> !LiveUnsafe(safe[k].kind)
    ensures forall kind :: !LiveUnsafe(kind) ==> (HasOp(ops, kind) <==> HasOp(safe, kind))
  {
    if ops == [] then []
    else
      var rest := LiveOps(ops[1..]);
      assert ops == [ops[0]] + ops[1..];
      if LiveUnsafe(ops[0].kind) then
        assert forall kind :: HasOp(ops, kind) <==> ops[0].kind == kind || HasOp(ops[1..], kind) by {
          HasOpCons(ops[0], ops[1..]);
        }
        rest
      else
        HasOpCons(ops[0], ops[1..]);
        HasOpCons(ops[0], rest);
        [ops[0]] + rest
  }

  predicate HasOp(ops: seq<Op>, kind: Kind) {
    exists k :: 0 <= k < |ops| && ops[k].kind == kind
  }

  lemma HasOpCons(op: Op, rest: seq<Op>)
    ensures forall kind :: HasOp([op] + rest, kind) <==> op.kind == kind || HasOp(rest, kind)
  {
    forall kind
      ensures HasOp([op] + rest, kind) <==> op.kind == kind || HasOp(rest, kind)
    {
      if HasOp(rest, kind) {
        var k :| 0 <= k < |rest| && rest[k].kind == kind;
        assert ([op] + rest)[k + 1].kind == kind;
      }
      if op.kind == kind {
        assert ([op] + rest)[0].kind == kind;
      }
      if HasOp([op] + rest, kind) && op.kind != kind {
        var k :| 0 <= k < |rest| + 1 && ([op] + rest)[k].kind == kind;
        assert rest[k - 1].kind == kind;
      }
    }
  }

  // ---- gathering the settings ----

  datatype Settings = Settings(
    pad: int, grease: bool, shuffleSeed: Option<int>, reorderSeed: Option<int>,
    recordSizes: seq<int>, tcpSizes: seq<int>, tcpDelays: seq<int>, sniCuts: seq<int>, junk: seq<Op>)

  const NOTHING: Settings := Settings(0, false, None, None, [], [], [], [], [])

  function Apply(s: Settings, op: Op): Settings {
    match op.kind
    case PadExt => s.(pad := op.size)
    case Grease => s.(grease := op.size > 0)
    case ShuffleExt =>
      s.(shuffleSeed := Some(if op.size != 0 then op.size else if op.offset != 0 then op.offset else 1))
    case RecordCut => s.(recordSizes := s.recordSizes + [op.size])
    case TcpFrag => s.(tcpSizes := s.tcpSizes + [op.size], tcpDelays := s.tcpDelays + [op.delayMs])
    case Delay =>
      if s.tcpDelays == [] then s
      else
        var last := |s.tcpDelays| - 1;
        s.(tcpDelays := s.tcpDelays[last := Max(s.tcpDelays[last], op.delayMs)])
    case SniCut => s.(sniCuts := s.sniCuts + [op.offset])
    case JunkRecord => s.(junk := s.junk + [op])
    case ReorderSend => if op.size > 0 then s.(reorderSeed := Some(op.size)) else s
  }

  function Gather(ops: seq<Op>): Settings {
    if ops == [] then NOTHING else Apply(Gather(ops[..|ops| - 1]), ops[|ops| - 1])
  }

  method GatherOps(ops: seq<Op>) returns (s: Settings)
    ensures s == Gather(ops)
  {
    s := NOTHING;
    var i := 0;
    while i < |ops|
      invariant 0 <= i <= |ops|
      invariant s == Gather(ops[..i])
    {
      assert ops[..i + 1][..i] == ops[..i];
      s := Apply(s, ops[i]);
      i := i + 1;
    }
    assert ops[..i] == ops;
  }

  // ---- rewriting and re-recording ----

  predicate Rewrites(s: Settings) { s.pad != 0 || s.grease || s.shuffleSeed.Some? }

  predicate NeedsParse(s: Settings) { s.recordSizes != [] || s.sniCuts != [] || Rewrites(s) }

  datatype Shaped = Shaped(wire: bytes, hostname: bytes)

  /** The body of the `try`: any raise sends the caller back to the input bytes. */
  function Shape(data: bytes, s: Settings, strict: bool): Result<Shaped> {
    var hello :- Parse(data);
    var extensions :=
      if Rewrites(s) then Rewrite(hello.extensions, s.pad, s.grease, s.shuffleSeed) else hello.extensions;
    var hs :- Build(hello.prefix, extensions);
    var wire :-
      if s.recordSizes != [] || Rewrites(s)
      then Wrap(hs, s.recordSizes, if strict then [0x03, 0x01] else hello.recordVersion)
      else Ok(data);
    var _ :- Parse(wire);
    Ok(Shaped(wire, hello.sni))
  }

  // ---- cuts inside the host name ----

  /** `hostname.encode("ascii", "ignore")` of a name decoded with "replace". */
  function Ascii(name: bytes): bytes {
    FlatMap((b: byte) => if b < 128 then [b] else [], name)
  }

  predicate OccursAt(haystack: bytes, needle: bytes, at: nat) {
    at + |needle| <= |haystack| && haystack[at..at + |needle|] == needle
  }

  /** `haystack.find(needle)` from `at` on. */
  function Find(haystack: bytes, needle: bytes, at: nat): (r: Option<nat>)
    requires at <= |haystack|
    ensures r.Some? ==> OccursAt(haystack, needle, r.value)
    ensures forall k :: at <= k < (if r.Some? then r.value else |haystack|) ==> !OccursAt(haystack, needle, k)
    decreases |haystack| - at
  {
    if OccursAt(haystack, needle, at) then Some(at)
    else if at == |haystack| then None
    else Find(haystack, needle, at + 1)
  }

  /** `sorted({idx + o for o in cuts if 0 <= o <= length})`, from offset `o` on. */
  function SortedCuts(idx: nat, length: nat, cuts: seq<int>, o: nat): (r: seq<nat>)
    ensures forall k :: 0 <= k < |r| ==> idx + o <= r[k] <= idx + length
    ensures forall k :: 0 <= k < |r| - 1 ==> r[k] < r[k + 1]
    decreases length + 1 - o
  {
    if o > length then []
    else (if o in cuts then [idx + o] else []) + SortedCuts(idx, length, cuts, o + 1)
  }

  function Differences(positions: seq<nat>, prev: nat): (r: seq<pos>) {
    if positions == [] then []
    else if positions[0] > prev then [positions[0] - prev] + Differences(positions[1..], positions[0])
    else Differences(positions[1..], prev)
  }

  lemma DifferenceStep(positions: seq<nat>, i: nat, prev: nat, r: seq<pos>)
    requires i < |positions|
    ensures r + Differences(positions[i..], prev)
         == if positions[i] > prev then r + [positions[i] - prev] + Differences(positions[i + 1..], positions[i])
            else r + Differences(positions[i + 1..], prev)
  {
    assert positions[i..][1..] == positions[i + 1..];
  }

  method DifferenceLoop(positions: seq<nat>) returns (r: seq<pos>)
    ensures r == Differences(positions, 0)
  {
    r := [];
    var prev := 0;
    var i := 0;
    assert positions[0..] == positions;
    while i < |positions|
      invariant 0 <= i <= |positions|
      invariant 0 <= prev
      invariant Differences(positions, 0) == r + Differences(positions[i..], prev)
    {
      DifferenceStep(positions, i, prev, r);
      var c := positions[i];
      if c > prev {
        r := r + [c - prev];
        prev := c;
      }
      i := i + 1;
    }
    assert r + [] == r;
  }

  function NeedleLength(needle: bytes): nat { if |needle| == 0 then 1 else |needle| }

  function CutPositions(shaped: Shaped, cuts: seq<int>): seq<nat> {
    var needle := Ascii(shaped.hostname);
    if shaped.hostname == [] || cuts == [] then []
    else match Find(shaped.wire, needle, 0)
      case None => []
      case Some(idx) => SortedCuts(idx, NeedleLength(needle), cuts, 0)
  }

  // ---- pieces and delays ----

  datatype Piece = Piece(data: bytes, delayMs: int)

  function Datas(pieces: seq<Piece>): seq<bytes> {
    seq(|pieces|, i requires 0 <= i < |pieces| => pieces[i].data)
  }

  function Delays(pieces: seq<Piece>): seq<int> {
    seq(|pieces|, i requires 0 <= i < |pieces| => pieces[i].delayMs)
  }

  function DelayAt(i: nat, n: nat, delays: seq<int>): int {
    if i >= n - 1 then 0 else if i < |delays| then delays[i] else 0
  }

  function Timed(chunks: seq<bytes>, delays: seq<int>): (r: seq<Piece>)
    ensures |r| == |chunks|
  {
    seq(|chunks|, i requires 0 <= i < |chunks| => Piece(chunks[i], DelayAt(i, |chunks|, delays)))
  }

  function Reordered(hello: seq<Piece>, seed: Option<int>): (r: seq<Piece>)
    ensures |r| == |hello|
  {
    if seed.None? || |hello| < 2 then hello
    else
      PermuteIsPermutation(|hello|, seed.value);
      var moved := Pick(PermuteIndices(|hello|, seed.value), hello);
      moved[|moved| - 1 := moved[|moved| - 1].(delayMs := 0)]
  }

  predicate JunkFits(junk: seq<Op>) {
    forall k :: 0 <= k < |junk| ==> 0 <= junk[k].size < 0x1_0000
  }

  function JunkPiece(op: Op): Piece
    requires 0 <= op.size < 0x1_0000
  {
    Piece([op.contentType % 256] + TLS12 + Pack16(op.size) + Zeros(op.size), op.delayMs)
  }

  function JunkPieces(junk: seq<Op>): (r: seq<Piece>)
    requires JunkFits(junk)
    ensures |r| == |junk|
  {
    seq(|junk|, i requires 0 <= i < |junk| => JunkPiece(junk[i]))
  }

  // ---- what was applied and what was skipped ----

  /** All kinds in the order `sorted` puts their names. */
  const ALPHABETICAL: seq<Kind> :=
    [Delay, Grease, JunkRecord, PadExt, RecordCut, ReorderSend, ShuffleExt, SniCut, TcpFrag]

  function Present(kinds: seq<Kind>, ops: seq<Op>): (r: seq<Kind>)
    ensures forall k :: k in r <==> k in kinds && HasOp(ops, k)
    ensures Distinct(kinds) ==> Distinct(r)
  {
    if kinds == [] then []
    else
      var rest := Present(kinds[1..], ops);
      assert kinds == [kinds[0]] + kinds[1..];
      assert Distinct(kinds) ==> kinds[0] !in kinds[1..];
      if HasOp(ops, kinds[0]) then [kinds[0]] + rest else rest
  }

  /** Unsafe kinds in order of first occurrence. */
  function UnsafeKinds(ops: seq<Op>): (r: seq<Kind>)
    ensures Distinct(r)
    ensures forall k :: k in r <==> LiveUnsafe(k) && HasOp(ops, k)
  {
    if ops == [] then []
    else
      var init, last := ops[..|ops| - 1], ops[|ops| - 1];
      var before := UnsafeKinds(init);
      assert ops == init + [last];
      HasOpSnoc(init, last);
      if LiveUnsafe(last.kind) && last.kind !in before then before + [last.kind] else before
  }

  lemma HasOpSnoc(init: seq<Op>, last: Op)
    ensures forall kind :: HasOp(init + [last], kind) <==> HasOp(init, kind) || last.kind == kind
  {
    forall kind
      ensures HasOp(init + [last], kind) <==> HasOp(init, kind) || last.kind == kind
    {
      if HasOp(init, kind) {
        var k :| 0 <= k < |init| && init[k].kind == kind;
        assert (init + [last])[k].kind == kind;
      }
      assert (init + [last])[|init|] == last;
    }
  }

  const DEPENDS_ON_PARSE: seq<Kind> := [PadExt, Grease, ShuffleExt, RecordCut, SniCut]

  function Removed(kinds: seq<Kind>, gone: seq<Kind>): (r: seq<Kind>)
    ensures forall k :: k in r <==> k in kinds && k !in gone
    ensures Distinct(kinds) ==> Distinct(r)
  {
    if kinds == [] then []
    else
      var rest := Removed(kinds[1..], gone);
      assert kinds == [kinds[0]] + kinds[1..];
      assert Distinct(kinds) ==> kinds[0] !in kinds[1..];
      if kinds[0] in gone then rest else [kinds[0]] + rest
  }

  function Moved(kinds: seq<Kind>, applied: seq<Kind>): (r: seq<Kind>)
    ensures forall k :: k in r <==> k in kinds && k in applied
    ensures Distinct(kinds) ==> Distinct(r)
  {
    if kinds == [] then []
    else
      var rest := Moved(kinds[1..], applied);
      assert kinds == [kinds[0]] + kinds[1..];
      assert Distinct(kinds) ==> kinds[0] !in kinds[1..];
      if kinds[0] in applied then [kinds[0]] + rest else rest
  }

  // ---- the plan ----

  datatype Plan = Plan(
    pieces: seq<bytes>, delaysMs: seq<int>, wire: bytes,
    applied: seq<Kind>, skipped: seq<Kind>, fault: Option<Fault>)

  function OpsFor(raw: seq<RawOp>, strict: bool): seq<Op> {
    if strict then NormalizeOps(raw) else LiveOps(NormalizeOps(raw))
  }

  /** `wire` and `hostname` after the try statement, or why it fell back. */
  function Outcome(data: bytes, s: Settings, strict: bool): Result<Shaped> {
    if NeedsParse(s) then Shape(data, s, strict) else Ok(Shaped(data, []))
  }

  function WireOf(data: bytes, s: Settings, strict: bool): bytes {
    var o := Outcome(data, s, strict);
    if o.Ok? then o.value.wire else data
  }

  function CutSizes(data: bytes, s: Settings, strict: bool): seq<pos> {
    var o := Outcome(data, s, strict);
    if o.Ok? then Differences(CutPositions(o.value, s.sniCuts), 0) else []
  }

  function NoDelay(n: nat): seq<int> { seq(n, _ => 0) }

  function HelloPieces(data: bytes, s: Settings, strict: bool): seq<Piece> {
    var cuts := CutSizes(data, s, strict);
    Timed(Split(WireOf(data, s, strict), cuts + s.tcpSizes), NoDelay(|cuts|) + s.tcpDelays)
  }

  function AppliedKinds(data: bytes, ops: seq<Op>, strict: bool): seq<Kind> {
    var kinds := Present(ALPHABETICAL, ops);
    if Outcome(data, Gather(ops), strict).Ok? then kinds else Removed(kinds, DEPENDS_ON_PARSE)
  }

  function SkippedKinds(data: bytes, raw: seq<RawOp>, strict: bool): seq<Kind> {
    var ops := OpsFor(raw, strict);
    (if strict then [] else UnsafeKinds(NormalizeOps(raw)))
    + if Outcome(data, Gather(ops), strict).Ok? then []
      else Moved(DEPENDS_ON_PARSE, Present(ALPHABETICAL, ops))
  }

  /** Packing a junk record's length raises when an op given as an object carries an odd size. */
  function BuildPlan(data: bytes, raw: seq<RawOp>, strict: bool): Result<Plan> {
    var ops := OpsFor(raw, strict);
    var s := Gather(ops);
    if !JunkFits(s.junk) then Err(DoesNotFit)
    else
      var all := JunkPieces(s.junk) + Reordered(HelloPieces(data, s, strict), s.reorderSeed);
      var o := Outcome(data, s, strict);
      Ok(Plan(Datas(all), Delays(all), WireOf(data, s, strict),
              AppliedKinds(data, ops, strict), SkippedKinds(data, raw, strict),
              if o.Ok? then None else Some(o.fault)))
  }

  /** build_plan itself, on the loops of its helpers. */
  method MakePlan(data: bytes, raw: seq<RawOp>, strict: bool) returns (r: Result<Plan>)
    ensures r == BuildPlan(data, raw, strict)
  {
    var ops := OpsFor(raw, strict);
    var s := GatherOps(ops);
    var shaped := Ok(Shaped(data, []));
    if NeedsParse(s) {
      shaped := ShapeHello(data, s, strict);
    }
    var wire := if shaped.Ok? then shaped.value.wire else data;
    var fromCuts: seq<pos> := [];
    if shaped.Ok? {
      fromCuts := DifferenceLoop(CutPositions(shaped.value, s.sniCuts));
    }
    if !JunkFits(s.junk) {
      return Err(DoesNotFit);
    }
    var chunks := SplitPieces(wire, fromCuts + s.tcpSizes);
    var hello := TimeLoop(chunks, NoDelay(|fromCuts|) + s.tcpDelays);
    var sent := ReorderLoop(hello, s.reorderSeed);
    var all := JunkPieces(s.junk) + sent;
    return Ok(Plan(Datas(all), Delays(all), wire,
                   AppliedKinds(data, ops, strict), SkippedKinds(data, raw, strict),
                   if shaped.Ok? then None else Some(shaped.fault)));
  }

  method ShapeHello(data: bytes, s: Settings, strict: bool) returns (r: Result<Shaped>)
    ensures r == Shape(data, s, strict)
  {
    var parsed := ParseClientHello(data);
    if parsed.Err? {
      return Err(parsed.fault);
    }
    var hello := parsed.value;
    var extensions := hello.extensions;
    if Rewrites(s) {
      ExtNamesSound();
      extensions := RewriteExtensions(ExtNames(), extensions, s.pad, s.grease, s.shuffleSeed);
    }
    var hs := Build(hello.prefix, extensions);
    if hs.Err? {
      return Err(hs.fault);
    }
    var wire := Ok(data);
    if s.recordSizes != [] || Rewrites(s) {
      wire := WrapRecords(hs.value, s.recordSizes, if strict then [0x03, 0x01] else hello.recordVersion);
    }
    if wire.Err? {
      return Err(wire.fault);
    }
    var sanity := ParseClientHello(wire.value);
    if sanity.Err? {
      return Err(sanity.fault);
    }
    return Ok(Shaped(wire.value, hello.sni));
  }

  method TimeLoop(chunks: seq<bytes>, delays: seq<int>) returns (hello: seq<Piece>)
    ensures hello == Timed(chunks, delays)
  {
    hello := [];
    var i := 0;
    while i < |chunks|
      invariant 0 <= i <= |chunks|
      invariant hello == Timed(chunks, delays)[..i]
    {
      hello := hello + [Piece(chunks[i], DelayAt(i, |chunks|, delays))];
      i := i + 1;
    }
  }

  method ReorderLoop(hello: seq<Piece>, seed: Option<int>) returns (sent: seq<Piece>)
    ensures sent == Reordered(hello, seed)
  {
    sent := hello;
    if seed.Some? && |hello| >= 2 {
      var order := PermutedIndices(|hello|, seed.value);
      PermuteIsPermutation(|hello|, seed.value);
      sent := Pick(order[..], hello);
      var last := |sent| - 1;
      sent := sent[last := sent[last].(delayMs := 0)];
    }
  }
}
