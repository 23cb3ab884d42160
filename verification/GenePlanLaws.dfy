/** What `build_plan` keeps: the byte stream, the handshake transcript, the cuts and the delays. */
module GenePlanLaws {
  import opened Bytes
  import opened Permute
  import opened TlsRecords
  import opened ClientHello
  import opened ExtensionRewrite
  import opened GenePlan

  // ---- live mode runs no rewriting op ----

  predicate LiveSettings(s: Settings) {
    !Rewrites(s) && s.junk == [] && s.reorderSeed.None?
  }

  /** Every tcp_frag op adds one size and one delay. */
  lemma {:induction false} GatheredAlike(ops: seq<Op>)
    ensures |Gather(ops).tcpSizes| == |Gather(ops).tcpDelays|
  {
    if ops != [] {
      GatheredAlike(ops[..|ops| - 1]);
    }
  }

  lemma {:induction false} LiveGathers(ops: seq<Op>)
    requires forall k :: 0 <= k < |ops| ==> !LiveUnsafe(ops[k].kind)
    ensures LiveSettings(Gather(ops))
    ensures Gather(ops).recordSizes != [] <==> HasOp(ops, RecordCut)
  {
    if ops != [] {
      var init, last := ops[..|ops| - 1], ops[|ops| - 1];
      assert ops == init + [last];
      LiveGathers(init);
      HasOpSnoc(init, last);
    }
  }

  lemma TimedDatas(chunks: seq<bytes>, delays: seq<int>)
    ensures Datas(Timed(chunks, delays)) == chunks
  {
  }

  /** Before junk and reordering, the pieces spell out `wire` and there is at least one. */
  lemma HelloConserved(data: bytes, s: Settings, strict: bool)
    ensures Join(Datas(HelloPieces(data, s, strict))) == WireOf(data, s, strict)
    ensures HelloPieces(data, s, strict) != []
  {
    var cuts := CutSizes(data, s, strict);
    var chunks := Split(WireOf(data, s, strict), cuts + s.tcpSizes);
    SplitConserves(WireOf(data, s, strict), cuts + s.tcpSizes);
    TimedDatas(chunks, NoDelay(|cuts|) + s.tcpDelays);
  }

  /** What live mode sends through the record writer: the bytes the hello declares. */
  function DeclaredHello(data: bytes): bytes
    requires Parse(data).Ok? && Declared(Unwrap(data).value.content) <= |Unwrap(data).value.content|
  {
    var hs := Unwrap(data).value.content;
    hs[..Declared(hs)]
  }

  function Rerecorded(data: bytes, sizes: seq<int>): Result<Shaped>
    requires Parse(data).Ok? && Declared(Unwrap(data).value.content) <= |Unwrap(data).value.content|
  {
    var wire :- Wrap(DeclaredHello(data), sizes, Unwrap(data).value.version);
    Ok(Shaped(wire, Parse(data).value.sni))
  }

  lemma RebuiltBytes(data: bytes)
    requires Parse(data).Ok?
    ensures Declared(Unwrap(data).value.content) <= |Unwrap(data).value.content|
    ensures Build(Parse(data).value.prefix, Parse(data).value.extensions) == Ok(DeclaredHello(data))
    ensures Parse(data).value.recordVersion == Unwrap(data).value.version
  {
    BuildUndoesParse(data);
  }

  lemma SanityHolds(data: bytes, hello: ParsedHello, hs: bytes, sizes: seq<int>)
    requires Parse(data) == Ok(hello) && Build(hello.prefix, hello.extensions) == Ok(hs)
    requires Wrap(hs, sizes, hello.recordVersion).Ok?
    ensures Parse(Wrap(hs, sizes, hello.recordVersion).value).Ok?
  {
    ParsedIsBuildable(data);
    ParseUndoesBuild(hello.prefix, hello.extensions, sizes, hello.recordVersion);
  }

  /** Live mode re-records exactly the bytes the hello declares; only an over-long chunk stops it. */
  lemma LiveShape(data: bytes, s: Settings)
    requires LiveSettings(s) && s.recordSizes != []
    requires Parse(data).Ok?
    ensures Declared(Unwrap(data).value.content) <= |Unwrap(data).value.content|
    ensures Outcome(data, s, false) == Rerecorded(data, s.recordSizes)
  {
    RebuiltBytes(data);
    var hello, hs := Parse(data).value, DeclaredHello(data);
    if Wrap(hs, s.recordSizes, hello.recordVersion).Ok? {
      SanityHolds(data, hello, hs, s.recordSizes);
    }
  }

  /** The extensions a transformed hello carries. */
  function NewExtensions(hello: ParsedHello, s: Settings): seq<Extension> {
    if Rewrites(s) then Rewrite(hello.extensions, s.pad, s.grease, s.shuffleSeed) else hello.extensions
  }

  /** Every mode: a transformed wire reads back as the same hello prefix with exactly the rewritten
      extensions, in records that start with the version the mode asks for. */
  lemma TransformedWireReads(data: bytes, s: Settings, strict: bool)
    requires s.recordSizes != [] || Rewrites(s)
    requires Outcome(data, s, strict).Ok?
    ensures Parse(data).Ok?
    ensures var hello := Parse(data).value;
            var version := if strict then [0x03, 0x01] else hello.recordVersion;
            Parse(WireOf(data, s, strict))
            == Ok(ParsedHello(version, hello.prefix, NewExtensions(hello, s), Sni(NewExtensions(hello, s))))
  {
    var hello := Parse(data).value;
    var extensions := NewExtensions(hello, s);
    var version := if strict then [0x03, 0x01] else hello.recordVersion;
    ParsedIsBuildable(data);
    ParseUndoesBuild(hello.prefix, extensions, s.recordSizes, version);
  }

  /** Live mode re-records: a record_cut is asked for, the hello can be read, and the chunks of what it
      declares fit their length fields. All of it can be tested on the input. */
  predicate Rerecords(data: bytes, s: Settings) {
    && s.recordSizes != [] && Parse(data).Ok?
    && Declared(Unwrap(data).value.content) <= |Unwrap(data).value.content|
    && Fits(Chunks(DeclaredHello(data), s.recordSizes))
  }

  /** The test says whether the attempt succeeds. */
  lemma RerecordsExact(data: bytes, s: Settings)
    requires LiveSettings(s) && s.recordSizes != []
    ensures Outcome(data, s, false).Ok? <==> Rerecords(data, s)
  {
    if Parse(data).Ok? {
      LiveShape(data, s);
    }
  }

  lemma LiveWireKept(data: bytes, s: Settings)
    requires LiveSettings(s) && !Rerecords(data, s)
    ensures WireOf(data, s, false) == data
  {
    if s.recordSizes != [] {
      RerecordsExact(data, s);
    }
  }

  /** `wire` carries, in non-empty records of the same first version, the handshake bytes of `data`
      up to the end its hello declares. */
  predicate KeepsDeclaredHello(data: bytes, wire: bytes) {
    && Unwrap(data).Ok?
    && var hs := Unwrap(data).value;
    && Declared(hs.content) <= |hs.content|
    && Unwrap(wire) == Ok(Handshake(hs.content[..Declared(hs.content)], hs.version))
    && RecordsOf(wire).Ok?
    && forall k :: 0 <= k < |RecordsOf(wire).value| ==> RecordsOf(wire).value[k].payload != []
  }

  lemma LiveWireUnwraps(data: bytes, s: Settings)
    requires LiveSettings(s) && Rerecords(data, s)
    ensures KeepsDeclaredHello(data, WireOf(data, s, false))
  {
    RerecordsExact(data, s);
    LiveShape(data, s);
    ParsedIsBuildable(data);
    var hs := Unwrap(data).value;
    var kept := hs.content[..Declared(hs.content)];
    assert kept != [];
    WrapUnwraps(kept, s.recordSizes, hs.version);
    NoEmptyRecord(kept, s.recordSizes, hs.version);
  }

  function LiveSettingsOf(raw: seq<RawOp>): (s: Settings)
    ensures LiveSettings(s)
  {
    LiveGathers(LiveOps(NormalizeOps(raw)));
    Gather(LiveOps(NormalizeOps(raw)))
  }

  /** Main result, live mode: for every input and every op list a plan exists, its pieces are `wire`
      cut up, and `wire` is either the input or carries the same handshake bytes up to the length the
      hello declares, in records none of which is empty. */
  lemma LiveTranscriptPreserved(data: bytes, raw: seq<RawOp>)
    ensures BuildPlan(data, raw, false).Ok?
    ensures var plan := BuildPlan(data, raw, false).value;
            && Join(plan.pieces) == plan.wire
            && (plan.wire == data || KeepsDeclaredHello(data, plan.wire))
  {
    var s := LiveSettingsOf(raw);
    HelloConserved(data, s, false);
    assert JunkPieces(s.junk) == [];
    assert [] + HelloPieces(data, s, false) == HelloPieces(data, s, false);
    LiveWireIs(data, raw);
  }

  /** Which of the two it is can be tested on the input. */
  lemma LiveWireIs(data: bytes, raw: seq<RawOp>)
    ensures BuildPlan(data, raw, false).Ok?
    ensures var wire := BuildPlan(data, raw, false).value.wire;
            if Rerecords(data, LiveSettingsOf(raw)) then KeepsDeclaredHello(data, wire) else wire == data
  {
    var s := LiveSettingsOf(raw);
    if Rerecords(data, s) {
      LiveWireUnwraps(data, s);
    } else {
      LiveWireKept(data, s);
    }
  }

  lemma NothingRerecorded(s: Settings)
    ensures !Rerecords([], s)
  {
    assert Unwrap([]).Err?;
  }

  /** The exact condition: the peer reassembles the very same handshake stream if and only if nothing
      is re-recorded or the stream is exactly one ClientHello. */
  lemma LiveTranscriptSameIff(data: bytes, raw: seq<RawOp>)
    requires Unwrap(data).Ok?
    ensures BuildPlan(data, raw, false).Ok?
    ensures Unwrap(BuildPlan(data, raw, false).value.wire) == Unwrap(data)
       <==> !Rerecords(data, LiveSettingsOf(raw))
            || |Unwrap(data).value.content| == Declared(Unwrap(data).value.content)
  {
    var s := LiveSettingsOf(raw);
    assert JunkPieces(s.junk) == [];
    if Rerecords(data, s) {
      LiveWireUnwraps(data, s);
      var hs := Unwrap(data).value.content;
      assert hs[..|hs|] == hs;
    } else {
      LiveWireKept(data, s);
    }
  }

  /** A minimal well-formed hello body prefix: empty session id, no suites, no compression. */
  lemma ZeroPrefix()
    ensures WellFormedPrefix(Zeros(38))
  {
    var body := Zeros(38);
    FromBe2(Slice(body, 35, 37));
  }

  lemma OneRecordUnwraps(hs: bytes, version: bytes)
    requires hs != [] && |hs| < 0x1_0000 && |version| == 2
    ensures Unwrap(Frame(version, hs)) == Ok(Handshake(hs, version))
  {
    assert Fits([hs]);
    assert Framed([hs], version) == Frame(version, hs) + Framed([], TLS12) == Frame(version, hs);
    FramedParses([hs], version);
    RecordListPayloads([hs], version);
    JoinOne(hs);
    assert Frame(version, hs)[1..3] == version;
  }

  lemma TrailingByteIgnored(body: bytes, b: byte)
    requires |body| < 0x100_0000
    ensures var hs := Enclose(body) + [b];
            HelloBody(hs) == Ok(body) && Declared(hs) == 4 + |body| && hs[..Declared(hs)] == Enclose(body)
  {
    var hs := Enclose(body) + [b];
    EnclosedReads(body);
    assert Slice(hs, 1, 4) == Slice(Enclose(body), 1, 4) && Slice(hs, 4, 4 + |body|) == body;
  }

  /** The smallest hello the reader accepts. */
  function TinyHello(): bytes { Enclose(Zeros(38) + Pack16(0) + []) }

  /** Where the promise fails: one byte follows the hello in its record, and a record cut drops it. */
  lemma TrailingByteDropped(b: byte)
    ensures var data := Frame([0x03, 0x01], TinyHello() + [b]);
            var plan := BuildPlan(data, [Ready(Op(RecordCut, 64, 0, 0, 0))], false);
            && plan.Ok?
            && Unwrap(data) == Ok(Handshake(TinyHello() + [b], [0x03, 0x01]))
            && Unwrap(plan.value.wire) == Ok(Handshake(TinyHello(), [0x03, 0x01]))
  {
    var body := Zeros(38) + Pack16(0) + [];
    var hs := TinyHello() + [b];
    var data := Frame([0x03, 0x01], hs);
    var op := Op(RecordCut, 64, 0, 0, 0);
    OneRecordUnwraps(hs, [0x03, 0x01]);
    TrailingByteIgnored(body, b);
    ZeroPrefix();
    JoinedBodySplits(Zeros(38), []);
    assert Parse(data).Ok?;
    OneOpSettings(op);
    var s := LiveSettingsOf([Ready(op)]);
    LiveShape(data, s);
    ShortChunks(TinyHello(), s.recordSizes);
    assert Rerecords(data, s);
    LiveWireUnwraps(data, s);
    LiveTranscriptPreserved(data, [Ready(op)]);
  }

  lemma OneOpSettings(op: Op)
    requires op.kind == RecordCut
    ensures LiveSettingsOf([Ready(op)]).recordSizes == [op.size]
  {
    var f := (r: RawOp) => if FromAny(r).Some? then [FromAny(r).value] else [];
    FlatMapOne(f, Ready(op));
    assert NormalizeOps([Ready(op)]) == [op];
    var none: seq<Op> := [];
    assert [op][1..] == none && LiveOps(none) == none;
    assert LiveOps([op]) == [op] + LiveOps([op][1..]) == [op];
    assert [op][..0] == none;
    assert Gather([op]) == Apply(Gather(none), op);
  }

  lemma ShortChunks(hs: bytes, sizes: seq<int>)
    requires |hs| < 0x1_0000
    ensures Fits(Chunks(hs, sizes))
  {
    if hs != [] {
      ChopShort(hs, Cuts(hs, sizes));
    }
  }

  lemma {:induction false} ChopShort(data: bytes, sizes: seq<pos>)
    requires |data| < 0x1_0000
    ensures Fits(Chop(data, sizes))
    decreases |sizes|
  {
    if data != [] && sizes != [] {
      ChopShort(data[Min(sizes[0], |data|)..], sizes[1..]);
    }
  }

  // ---- cuts land where asked ----

  /** A piece ends, or the first one starts, at stream offset `at`. */
  ghost predicate IsBoundary(pieces: seq<bytes>, at: int) {
    exists i :: 0 <= i <= |pieces| && |Join(pieces[..i])| == at
  }

  function Total(sizes: seq<int>): int {
    if sizes == [] then 0 else sizes[0] + Total(sizes[1..])
  }

  lemma {:induction false} ChopBoundary(data: bytes, sizes: seq<pos>, j: nat)
    requires j <= |sizes| && Total(sizes[..j]) <= |data|
    ensures Total(sizes[..j]) >= 0
    ensures IsBoundary(Chop(data, sizes), Total(sizes[..j]))
    decreases j
  {
    var pieces := Chop(data, sizes);
    if j == 0 {
      assert pieces[..0] == [];
      assert |Join(pieces[..0])| == 0;
    } else {
      var n: nat := sizes[0];
      assert sizes[..j][1..] == sizes[1..][..j - 1];
      TotalGrows(sizes[1..][..j - 1]);
      var rest := Chop(data[n..], sizes[1..]);
      ChopBoundary(data[n..], sizes[1..], j - 1);
      assert pieces == [data[..n]] + rest;
      var i :| 0 <= i <= |rest| && |Join(rest[..i])| == Total(sizes[1..][..j - 1]);
      assert pieces[..i + 1][1..] == rest[..i];
      assert |Join(pieces[..i + 1])| == n + |Join(rest[..i])|;
    }
  }

  lemma {:induction false} TotalGrows(sizes: seq<pos>)
    ensures Total(sizes) >= 0
  {
    if sizes != [] {
      TotalGrows(sizes[1..]);
    }
  }

  /** The differences of ascending positions add up to each of them. */
  lemma {:induction false} DifferencesTelescope(positions: seq<nat>, prev: nat, k: nat)
    requires k < |positions| && prev <= positions[0]
    requires forall i :: 0 <= i < |positions| - 1 ==> positions[i] < positions[i + 1]
    ensures exists j :: 0 <= j <= |Differences(positions, prev)|
                        && prev + Total(Differences(positions, prev)[..j]) == positions[k]
    decreases |positions|
  {
    var all := Differences(positions, prev);
    var rest := positions[1..];
    if k == 0 {
      if positions[0] > prev {
        assert all[..1] == [positions[0] - prev];
        assert all[..1][1..] == [];
        assert Total(all[..1]) == positions[0] - prev;
      } else {
        assert all[..0] == [];
        assert prev + Total(all[..0]) == positions[0];
      }
    } else {
      var next := positions[0];
      DifferencesTelescope(rest, next, k - 1);
      var tail := Differences(rest, next);
      var j :| 0 <= j <= |tail| && next + Total(tail[..j]) == rest[k - 1];
      if positions[0] > prev {
        assert all == [positions[0] - prev] + tail;
        assert all[..j + 1][1..] == tail[..j];
        assert prev + Total(all[..j + 1]) == positions[k];
      } else {
        assert all == tail;
      }
    }
  }

  lemma {:induction false} SortedCutsHas(idx: nat, length: nat, cuts: seq<int>, from: nat, o: nat)
    requires o in cuts && from <= o <= length
    ensures idx + o in SortedCuts(idx, length, cuts, from)
    decreases o - from
  {
    if from < o {
      SortedCutsHas(idx, length, cuts, from + 1, o);
    }
  }

  lemma {:induction false} PositiveAppend(a: seq<pos>, b: seq<int>)
    ensures Positive(a + b) == a + Positive(b)
  {
    if a == [] {
      assert a + b == b;
    } else {
      assert (a + b)[1..] == a[1..] + b;
      PositiveAppend(a[1..], b);
    }
  }

  lemma SplitBoundary(data: bytes, cuts: seq<pos>, more: seq<int>, j: nat)
    requires j <= |cuts| && Total(cuts[..j]) <= |data|
    ensures IsBoundary(Split(data, cuts + more), Total(cuts[..j]))
  {
    PositiveAppend(cuts, more);
    var clean := Positive(cuts + more);
    assert clean[..j] == cuts[..j];
    TotalGrows(cuts[..j]);
    if clean == [] || data == [] {
      assert [data][..0] == [];
      assert |Join([data][..0])| == 0;
    } else {
      ChopBoundary(data, clean, j);
    }
  }

  lemma CutLandsIn(shaped: Shaped, sniCuts: seq<int>, more: seq<int>, idx: nat, o: nat)
    requires shaped.hostname != [] && shaped.wire != []
    requires Find(shaped.wire, Ascii(shaped.hostname), 0) == Some(idx)
    requires o in sniCuts && o <= NeedleLength(Ascii(shaped.hostname))
    ensures IsBoundary(Split(shaped.wire, Differences(CutPositions(shaped, sniCuts), 0) + more), idx + o)
  {
    var needle := Ascii(shaped.hostname);
    SortedCutsHas(idx, NeedleLength(needle), sniCuts, 0, o);
    var positions := CutPositions(shaped, sniCuts);
    assert needle == [] ==> OccursAt(shaped.wire, needle, 0);
    assert idx + o <= |shaped.wire|;
    var k :| 0 <= k < |positions| && positions[k] == idx + o;
    DifferencesTelescope(positions, 0, k);
    var cuts := Differences(positions, 0);
    var j :| 0 <= j <= |cuts| && 0 + Total(cuts[..j]) == positions[k];
    SplitBoundary(shaped.wire, cuts, more, j);
  }

  lemma LocatedNameMeansParsed(data: bytes, s: Settings, strict: bool)
    requires Outcome(data, s, strict).Ok? && Outcome(data, s, strict).value.hostname != []
    ensures WireOf(data, s, strict) != []
  {
    assert NeedsParse(s);
    assert Parse(Outcome(data, s, strict).value.wire).Ok?;
    NothingParses();
  }

  lemma NothingParses()
    ensures Parse([]).Err?
  {
  }

  lemma HelloCutsLand(data: bytes, s: Settings, strict: bool, o: nat)
    requires Outcome(data, s, strict).Ok?
    requires var shaped := Outcome(data, s, strict).value;
             && shaped.hostname != []
             && Find(shaped.wire, Ascii(shaped.hostname), 0).Some?
             && o in s.sniCuts && o <= NeedleLength(Ascii(shaped.hostname))
    ensures var shaped := Outcome(data, s, strict).value;
            IsBoundary(Datas(HelloPieces(data, s, strict)),
                       Find(shaped.wire, Ascii(shaped.hostname), 0).value + o)
  {
    var shaped := Outcome(data, s, strict).value;
    LocatedNameMeansParsed(data, s, strict);
    CutLandsIn(shaped, s.sniCuts, s.tcpSizes, Find(shaped.wire, Ascii(shaped.hostname), 0).value, o);
    var cuts := CutSizes(data, s, strict);
    TimedDatas(Split(shaped.wire, cuts + s.tcpSizes), NoDelay(|cuts|) + s.tcpDelays);
  }

  // ---- the hello inside a plan ----

  /** What is sent after the junk, with the reordering undone. */
  function Restored(sent: seq<bytes>, seed: Option<int>): seq<bytes> {
    if seed.Some? && |sent| >= 2 then Unpermuted(sent, seed.value) else sent
  }

  /** What a plan sends of the hello, in the order of the wire. */
  function HelloOf(plan: Plan, s: Settings): seq<bytes>
    requires |s.junk| <= |plan.pieces|
  {
    Restored(plan.pieces[|s.junk|..], s.reorderSeed)
  }

  lemma ReorderedDatas(hello: seq<Piece>, seed: Option<int>)
    ensures Restored(Datas(Reordered(hello, seed)), seed) == Datas(hello)
  {
    if seed.Some? && |hello| >= 2 {
      PermuteIsPermutation(|hello|, seed.value);
      PickDatas(PermuteIndices(|hello|, seed.value), hello);
      assert Datas(Reordered(hello, seed)) == Pick(PermuteIndices(|hello|, seed.value), Datas(hello));
      PermutedUndone(Datas(hello), seed.value);
    }
  }

  lemma AfterJunk(junk: seq<Piece>, sent: seq<Piece>)
    ensures Datas(junk + sent)[|junk|..] == Datas(sent) && Delays(junk + sent)[|junk|..] == Delays(sent)
  {
  }

  lemma PlanHello(data: bytes, raw: seq<RawOp>, strict: bool)
    requires BuildPlan(data, raw, strict).Ok?
    ensures var plan := BuildPlan(data, raw, strict).value;
            var s := Gather(OpsFor(raw, strict));
            var hello := HelloPieces(data, s, strict);
            && |plan.pieces| == |plan.delaysMs| == |s.junk| + |hello|
            && plan.wire == WireOf(data, s, strict) && (plan.fault.None? <==> Outcome(data, s, strict).Ok?)
            && HelloOf(plan, s) == Datas(hello)
            && (s.reorderSeed.None? ==>
                  plan.pieces[|s.junk|..] == Datas(hello) && plan.delaysMs[|s.junk|..] == Delays(hello))
  {
    var s := Gather(OpsFor(raw, strict));
    var hello := HelloPieces(data, s, strict);
    AfterJunk(JunkPieces(s.junk), Reordered(hello, s.reorderSeed));
    ReorderedDatas(hello, s.reorderSeed);
  }

  lemma OutcomeHost(data: bytes, s: Settings, strict: bool)
    requires s.sniCuts != [] && Outcome(data, s, strict).Ok?
    ensures Parse(data).Ok?
    ensures Outcome(data, s, strict).value == Shaped(WireOf(data, s, strict), Parse(data).value.sni)
  {
  }

  /** In every mode, when the hello was read and its host name stands in `wire`, every accepted cut offset
      is a boundary of the pieces the plan sends. */
  lemma CutsLand(data: bytes, raw: seq<RawOp>, strict: bool, o: nat)
    requires BuildPlan(data, raw, strict).Ok? && BuildPlan(data, raw, strict).value.fault.None?
    requires Parse(data).Ok? && Parse(data).value.sni != []
    requires o in Gather(OpsFor(raw, strict)).sniCuts && o <= NeedleLength(Ascii(Parse(data).value.sni))
    requires Find(BuildPlan(data, raw, strict).value.wire, Ascii(Parse(data).value.sni), 0).Some?
    ensures var plan := BuildPlan(data, raw, strict).value;
            && |Gather(OpsFor(raw, strict)).junk| <= |plan.pieces|
            && IsBoundary(HelloOf(plan, Gather(OpsFor(raw, strict))),
                          Find(plan.wire, Ascii(Parse(data).value.sni), 0).value + o)
  {
    var s := Gather(OpsFor(raw, strict));
    PlanHello(data, raw, strict);
    OutcomeHost(data, s, strict);
    HelloCutsLand(data, s, strict, o);
  }

  // ---- delays stay aligned ----

  lemma {:induction false} ChopSizes(data: bytes, sizes: seq<pos>, i: nat)
    requires i + 1 < |Chop(data, sizes)|
    ensures i < |sizes| && |Chop(data, sizes)[i]| == sizes[i]
    decreases i
  {
    var n := Min(sizes[0], |data|);
    var rest := Chop(data[n..], sizes[1..]);
    if i > 0 {
      ChopSizes(data[n..], sizes[1..], i - 1);
    } else {
      assert rest != [];
    }
  }

  lemma LastDelayIsZero(chunks: seq<bytes>, delays: seq<int>, seed: Option<int>)
    requires chunks != []
    ensures var sent := Reordered(Timed(chunks, delays), seed); sent[|sent| - 1].delayMs == 0
  {
  }

  /** Every mode: one delay per piece, and none after the last piece. */
  lemma DelaysMatchPieces(data: bytes, raw: seq<RawOp>, strict: bool)
    requires BuildPlan(data, raw, strict).Ok?
    ensures var plan := BuildPlan(data, raw, strict).value;
            && plan.pieces != [] && |plan.pieces| == |plan.delaysMs|
            && plan.delaysMs[|plan.delaysMs| - 1] == 0
  {
    var s := Gather(OpsFor(raw, strict));
    var sent := Reordered(HelloPieces(data, s, strict), s.reorderSeed);
    SentLastDelay(data, s, strict);
    LastOfBoth(JunkPieces(s.junk), sent);
  }

  lemma SentLastDelay(data: bytes, s: Settings, strict: bool)
    ensures var sent := Reordered(HelloPieces(data, s, strict), s.reorderSeed);
            sent != [] && sent[|sent| - 1].delayMs == 0
  {
    var cuts := CutSizes(data, s, strict);
    var chunks := Split(WireOf(data, s, strict), cuts + s.tcpSizes);
    SplitConserves(WireOf(data, s, strict), cuts + s.tcpSizes);
    LastDelayIsZero(chunks, NoDelay(|cuts|) + s.tcpDelays, s.reorderSeed);
  }

  lemma LastOfBoth(a: seq<Piece>, b: seq<Piece>)
    requires b != []
    ensures Delays(a + b)[|a + b| - 1] == b[|b| - 1].delayMs
  {
  }

  /** The position of the m-th positive size. */
  function Nth(sizes: seq<int>, m: nat): (k: nat)
    requires m < |Positive(sizes)|
    ensures m <= k < |sizes| && sizes[k] > 0
  {
    if sizes[0] <= 0 then 1 + Nth(sizes[1..], m) else if m == 0 then 0 else 1 + Nth(sizes[1..], m - 1)
  }

  lemma {:induction false} NthIsPositive(sizes: seq<int>, m: nat)
    requires m < |Positive(sizes)|
    ensures Positive(sizes)[m] == sizes[Nth(sizes, m)]
  {
    if sizes[0] <= 0 {
      NthIsPositive(sizes[1..], m);
    } else if m > 0 {
      NthIsPositive(sizes[1..], m - 1);
    }
  }

  /** A size keeps its place exactly while none before it was dropped. */
  lemma {:induction false} NthInPlace(sizes: seq<int>, m: nat)
    requires m < |Positive(sizes)|
    ensures Nth(sizes, m) == m <==> forall k :: 0 <= k <= m ==> sizes[k] > 0
  {
    if sizes[0] > 0 && m > 0 {
      NthInPlace(sizes[1..], m - 1);
      if forall k :: 0 <= k <= m - 1 ==> sizes[1..][k] > 0 {
        forall k | 0 <= k <= m
          ensures sizes[k] > 0
        {
          assert k > 0 ==> sizes[1..][k - 1] > 0;
        }
      } else {
        var k :| 0 <= k <= m - 1 && sizes[1..][k] <= 0;
        assert sizes[k + 1] <= 0;
      }
    }
  }

  /** A piece cut for the host name, with another piece behind it: its size is the cut, it carries no delay. */
  lemma CutPiece(data: bytes, s: Settings, strict: bool, i: nat)
    requires i + 1 < |HelloPieces(data, s, strict)| && i < |CutSizes(data, s, strict)|
    ensures |HelloPieces(data, s, strict)[i].data| == CutSizes(data, s, strict)[i]
    ensures HelloPieces(data, s, strict)[i].delayMs == 0
  {
    var cuts := CutSizes(data, s, strict);
    PositiveAppend(cuts, s.tcpSizes);
    ChopSizes(WireOf(data, s, strict), Positive(cuts + s.tcpSizes), i);
  }

  /** The m-th piece after those, with another piece behind it: its size is the m-th positive tcp_frag size
      and its delay the m-th tcp_frag delay. */
  lemma FragPiece(data: bytes, s: Settings, strict: bool, i: nat, m: nat)
    requires |s.tcpSizes| == |s.tcpDelays| && i == |CutSizes(data, s, strict)| + m
    requires i + 1 < |HelloPieces(data, s, strict)|
    ensures m < |Positive(s.tcpSizes)| && m < |s.tcpDelays|
    ensures |HelloPieces(data, s, strict)[i].data| == Positive(s.tcpSizes)[m]
    ensures HelloPieces(data, s, strict)[i].delayMs == s.tcpDelays[m]
  {
    var cuts := CutSizes(data, s, strict);
    var clean := Positive(s.tcpSizes);
    PositiveAppend(cuts, s.tcpSizes);
    ChopSizes(WireOf(data, s, strict), cuts + clean, i);
    assert (cuts + clean)[i] == clean[m];
    assert (NoDelay(|cuts|) + s.tcpDelays)[i] == s.tcpDelays[m];
  }

  lemma AtTail<T>(s: seq<T>, n: nat, tail: seq<T>, i: nat, at: nat)
    requires n <= |s| && s[n..] == tail && i < |tail| && at == n + i
    ensures at < |s| && s[at] == tail[i]
  {
  }

  /** Every plan that does not reorder, every piece that another follows: a piece cut for the host name
      carries no delay. */
  lemma CutPiecesCarryNoDelay(data: bytes, raw: seq<RawOp>, strict: bool, s: Settings, i: nat, at: nat)
    requires BuildPlan(data, raw, strict).Ok? && s == Gather(OpsFor(raw, strict)) && s.reorderSeed.None?
    requires i < |CutSizes(data, s, strict)| && at == |s.junk| + i
    requires at + 1 < |BuildPlan(data, raw, strict).value.pieces|
    ensures var plan := BuildPlan(data, raw, strict).value;
            at < |plan.delaysMs| && |plan.pieces[at]| == CutSizes(data, s, strict)[i] && plan.delaysMs[at] == 0
  {
    var hello := HelloPieces(data, s, strict);
    PlanHello(data, raw, strict);
    CutPiece(data, s, strict, i);
    AtTail(BuildPlan(data, raw, strict).value.pieces, |s.junk|, Datas(hello), i, at);
    AtTail(BuildPlan(data, raw, strict).value.delaysMs, |s.junk|, Delays(hello), i, at);
  }

  /** And the m-th piece after those has the size of one tcp_frag op and the delay of the m-th: the same op
      if and only if no tcp_frag size up to the m-th is zero or less. */
  lemma DelaysFollowTheirOps(data: bytes, raw: seq<RawOp>, strict: bool, s: Settings, m: nat, i: nat, at: nat)
    requires BuildPlan(data, raw, strict).Ok? && s == Gather(OpsFor(raw, strict)) && s.reorderSeed.None?
    requires i == |CutSizes(data, s, strict)| + m && at == |s.junk| + i
    requires at + 1 < |BuildPlan(data, raw, strict).value.pieces|
    ensures |s.tcpSizes| == |s.tcpDelays| && m < |Positive(s.tcpSizes)|
    ensures var plan := BuildPlan(data, raw, strict).value;
            && at < |plan.delaysMs|
            && |plan.pieces[at]| == s.tcpSizes[Nth(s.tcpSizes, m)]
            && plan.delaysMs[at] == s.tcpDelays[m]
    ensures Nth(s.tcpSizes, m) == m <==> forall k :: 0 <= k <= m ==> s.tcpSizes[k] > 0
  {
    var hello := HelloPieces(data, s, strict);
    PlanHello(data, raw, strict);
    GatheredAlike(OpsFor(raw, strict));
    FragPiece(data, s, strict, i, m);
    NthIsPositive(s.tcpSizes, m);
    NthInPlace(s.tcpSizes, m);
    AtTail(BuildPlan(data, raw, strict).value.pieces, |s.junk|, Datas(hello), i, at);
    AtTail(BuildPlan(data, raw, strict).value.delaysMs, |s.junk|, Delays(hello), i, at);
  }

  /** A plan that reorders sends each piece with its own delay behind it, except behind the last. */
  lemma ReorderMovesDelays(data: bytes, raw: seq<RawOp>, strict: bool, s: Settings, seed: int, j: nat, at: nat)
    requires BuildPlan(data, raw, strict).Ok? && s == Gather(OpsFor(raw, strict)) && s.reorderSeed == Some(seed)
    requires at == |s.junk| + j && j + 1 < |HelloPieces(data, s, strict)|
    ensures var hello := HelloPieces(data, s, strict);
            var plan := BuildPlan(data, raw, strict).value;
            && IsPermutation(PermuteIndices(|hello|, seed)) && |PermuteIndices(|hello|, seed)| == |hello|
            && |plan.pieces| == |plan.delaysMs| == |s.junk| + |hello|
            && plan.pieces[at] == hello[PermuteIndices(|hello|, seed)[j]].data
            && plan.delaysMs[at] == hello[PermuteIndices(|hello|, seed)[j]].delayMs
  {
    var hello := HelloPieces(data, s, strict);
    var sent := Reordered(hello, s.reorderSeed);
    PermuteIsPermutation(|hello|, seed);
    AfterJunk(JunkPieces(s.junk), sent);
    AtTail(BuildPlan(data, raw, strict).value.pieces, |s.junk|, Datas(sent), j, at);
    AtTail(BuildPlan(data, raw, strict).value.delaysMs, |s.junk|, Delays(sent), j, at);
  }

  predicate AllDicts(raw: seq<RawOp>) { forall k :: 0 <= k < |raw| ==> !raw[k].Ready? }

  predicate FragInRange(op: Op) { op.kind == TcpFrag ==> 1 <= op.size <= 512 && 0 <= op.delayMs <= 80 }

  lemma {:induction false} DictOpsInRange(raw: seq<RawOp>)
    requires AllDicts(raw)
    ensures forall k :: 0 <= k < |NormalizeOps(raw)| ==> FragInRange(NormalizeOps(raw)[k])
  {
    if raw != [] {
      DictOpsInRange(raw[1..]);
      var first := if FromAny(raw[0]).Some? then [FromAny(raw[0]).value] else [];
      assert NormalizeOps(raw) == first + NormalizeOps(raw[1..]);
      assert forall k :: 0 <= k < |first| ==> FragInRange(first[k]);
    }
  }

  lemma {:induction false} GatheredSizes(ops: seq<Op>)
    requires forall k :: 0 <= k < |ops| && ops[k].kind == TcpFrag ==> ops[k].size > 0
    ensures forall k :: 0 <= k < |Gather(ops).tcpSizes| ==> Gather(ops).tcpSizes[k] > 0
  {
    if ops != [] {
      GatheredSizes(ops[..|ops| - 1]);
    }
  }

  lemma {:induction false} LiveOpsInRange(ops: seq<Op>)
    requires forall k :: 0 <= k < |ops| ==> FragInRange(ops[k])
    ensures forall k :: 0 <= k < |LiveOps(ops)| ==> FragInRange(LiveOps(ops)[k])
  {
    if ops != [] {
      LiveOpsInRange(ops[1..]);
    }
  }

  /** Ops given as dictionaries, the only form the app passes, always meet the condition. */
  lemma DictsStayAligned(raw: seq<RawOp>, strict: bool)
    requires AllDicts(raw)
    ensures var s := Gather(OpsFor(raw, strict));
            && |s.tcpSizes| == |s.tcpDelays|
            && forall k :: 0 <= k < |s.tcpSizes| ==> s.tcpSizes[k] > 0
  {
    DictOpsInRange(raw);
    LiveOpsInRange(NormalizeOps(raw));
    var ops := OpsFor(raw, strict);
    assert forall k :: 0 <= k < |ops| ==> FragInRange(ops[k]);
    GatheredSizes(ops);
    GatheredAlike(ops);
  }

  lemma ShiftedSettings(first: Op, second: Op)
    requires first == Op(TcpFrag, 0, 7, 0, 0) && second == Op(TcpFrag, 1, 3, 0, 0)
    ensures Gather([first, second]) == NOTHING.(tcpSizes := [0, 1], tcpDelays := [7, 3])
  {
    var ops := [first, second];
    assert ops[..1] == [first] && [first][..0] == [];
    assert Gather([first]) == Apply(NOTHING, first);
  }

  lemma ShiftedPieces(a: byte, b: byte)
    ensures Split([a, b], [0, 1]) == [[a], [b]]
  {
    var sizes: seq<int> := [0, 1];
    assert sizes[1..] == [1] && [1][1..] == [];
    assert Positive([1]) == [1] + Positive([]);
    assert Positive(sizes) == [1];
    var none: seq<pos>, one: seq<pos> := [], [1];
    assert [a, b][..1] == [a] && [a, b][1..] == [b] && one[1..] == none;
    assert Chop([b], none) == [[b]];
    assert Chop([a, b], one) == [[a]] + Chop([b], none);
  }

  /** An op object with size 0 is dropped from the sizes but not from the delays, and shifts them. */
  lemma ObjectOpShiftsDelays(a: byte, b: byte)
    ensures var s := Gather([Op(TcpFrag, 0, 7, 0, 0), Op(TcpFrag, 1, 3, 0, 0)]);
            HelloPieces([a, b], s, false) == [Piece([a], 7), Piece([b], 0)]
  {
    ShiftedSettings(Op(TcpFrag, 0, 7, 0, 0), Op(TcpFrag, 1, 3, 0, 0));
    ShiftedPieces(a, b);
    var s := NOTHING.(tcpSizes := [0, 1], tcpDelays := [7, 3]);
    var none: seq<pos> := [];
    assert CutSizes([a, b], s, false) == none && none + s.tcpSizes == [0, 1];
    assert NoDelay(0) + s.tcpDelays == [7, 3];
  }

  // ---- every op is accounted for ----

  lemma AppliedAndMoved(ops: seq<Op>, ok: bool, kind: Kind)
    ensures var present := Present(ALPHABETICAL, ops);
            var applied := if ok then present else Removed(present, DEPENDS_ON_PARSE);
            var moved := if ok then [] else Moved(DEPENDS_ON_PARSE, Present(ALPHABETICAL, ops));
            && (HasOp(ops, kind) <==> kind in applied || kind in moved)
            && !(kind in applied && kind in moved)
            && Distinct(applied) && Distinct(moved)
  {
    assert kind in ALPHABETICAL;
    assert Distinct(DEPENDS_ON_PARSE) && Distinct(ALPHABETICAL);
  }

  /** Each kind given ends in exactly one of `applied` and `skipped`, other kinds in neither, and
      neither list repeats itself. */
  lemma KindsAccounted(data: bytes, raw: seq<RawOp>, strict: bool, kind: Kind)
    requires BuildPlan(data, raw, strict).Ok?
    ensures var plan := BuildPlan(data, raw, strict).value;
            && (HasOp(NormalizeOps(raw), kind) <==> kind in plan.applied || kind in plan.skipped)
            && !(kind in plan.applied && kind in plan.skipped)
            && Distinct(plan.applied) && Distinct(plan.skipped)
  {
    var all, ops := NormalizeOps(raw), OpsFor(raw, strict);
    var ok := Outcome(data, Gather(ops), strict).Ok?;
    var unsafe := if strict then [] else UnsafeKinds(all);
    var moved := if ok then [] else Moved(DEPENDS_ON_PARSE, Present(ALPHABETICAL, ops));
    assert BuildPlan(data, raw, strict).value.skipped == unsafe + moved;
    AppliedAndMoved(ops, ok, kind);
    if !strict {
      LiveOpsAreSafe(all, kind);
    }
    forall k ensures !(k in unsafe && k in moved) {
      AppliedAndMoved(ops, ok, k);
      LiveOpsAreSafe(all, k);
    }
    DistinctAppend(unsafe, moved);
  }

  lemma LiveOpsAreSafe(ops: seq<Op>, kind: Kind)
    ensures LiveUnsafe(kind) ==> !HasOp(LiveOps(ops), kind)
    ensures !LiveUnsafe(kind) ==> (HasOp(ops, kind) <==> HasOp(LiveOps(ops), kind))
  {
  }

  lemma DistinctAppend(a: seq<Kind>, b: seq<Kind>)
    requires Distinct(a) && Distinct(b) && forall k :: !(k in a && k in b)
    ensures Distinct(a + b)
  {
    forall i, j | 0 <= i < j < |a + b|
      ensures (a + b)[i] != (a + b)[j]
    {
      if i < |a| <= j {
        assert a[i] in a && b[j - |a|] in b;
      }
    }
  }

  // ---- strict mode's reordering can be undone ----

  lemma {:induction false} PickDatas(order: seq<nat>, hello: seq<Piece>)
    requires InRange(order, |hello|)
    ensures Datas(Pick(order, hello)) == Pick(order, Datas(hello))
  {
  }

  /** A receiver who drops the junk and knows the seed puts the pieces back and reads `wire`. */
  lemma ReorderUndone(data: bytes, raw: seq<RawOp>, seed: int)
    requires BuildPlan(data, raw, true).Ok?
    requires var s := Gather(NormalizeOps(raw));
             s.reorderSeed == Some(seed) && |HelloPieces(data, s, true)| >= 2
    ensures var plan := BuildPlan(data, raw, true).value;
            var junk := |Gather(NormalizeOps(raw)).junk|;
            && junk <= |plan.pieces|
            && Join(Unpermuted(plan.pieces[junk..], seed)) == plan.wire
  {
    PlanHello(data, raw, true);
    HelloConserved(data, Gather(NormalizeOps(raw)), true);
  }
}
