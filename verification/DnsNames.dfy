/** DNS wire names: the encoder, the compression-pointer reader and the PTR answer walk, against sections
    3.1 and 4.1.4 of RFC 1035. Names are sequences of labels; a label is the bytes on the wire. */
module DnsNames {
  import opened Bytes

  datatype Reading = Reading(labels: seq<bytes>, next: nat)

  const MAX_STEPS := 64

  // ---- one step of a name, and where steps lead ----

  predicate AtEnd(packet: bytes, c: nat) { c < |packet| && packet[c] == 0 }

  predicate AtPointer(packet: bytes, c: nat) { c + 1 < |packet| && packet[c] as int >= 0xC0 }

  predicate AtLabel(packet: bytes, c: nat) {
    c < |packet| && 0 < packet[c] as int < 0x40 && c + 1 + packet[c] as int <= |packet|
  }

  function Target(packet: bytes, c: nat): nat
    requires AtPointer(packet, c)
  {
    packet[c] as int % 64 * 256 + packet[c + 1] as int
  }

  /** The cursor after one label or one pointer. */
  function StepTo(packet: bytes, c: nat): Option<nat> {
    if AtPointer(packet, c) then Some(Target(packet, c))
    else if AtLabel(packet, c) then Some(c + 1 + packet[c] as int)
    else None
  }

  /** The name at `c` reaches its terminator within `n` steps, the terminator included. This knows nothing
      of visited places. */
  predicate Ends(packet: bytes, c: nat, n: nat)
    decreases n
  {
    n > 0 && (AtEnd(packet, c) || (StepTo(packet, c).Some? && Ends(packet, StepTo(packet, c).value, n - 1)))
  }

  function Labels(packet: bytes, c: nat, n: nat): seq<bytes>
    decreases n
  {
    if n == 0 || AtEnd(packet, c) || StepTo(packet, c).None? then []
    else
      var rest := Labels(packet, StepTo(packet, c).value, n - 1);
      if AtPointer(packet, c) then rest else [packet[c + 1..c + 1 + packet[c] as int]] + rest
  }

  /** Just past the name where it stands: its terminator, or the first pointer in it. */
  function After(packet: bytes, c: nat): nat
    decreases Max(0, |packet| - c)
  {
    if AtPointer(packet, c) then c + 2
    else if AtLabel(packet, c) then After(packet, c + 1 + packet[c] as int)
    else c + 1
  }

  /** Reading by the standard, with the source's limit on steps. */
  function ReadAt(packet: bytes, offset: nat): Option<Reading> {
    if Ends(packet, offset, MAX_STEPS)
    then Some(Reading(Labels(packet, offset, MAX_STEPS), After(packet, offset)))
    else None
  }

  lemma {:induction false} EndsLonger(packet: bytes, c: nat, n: nat)
    requires Ends(packet, c, n)
    ensures Ends(packet, c, n + 1)
    decreases n
  {
    if !AtEnd(packet, c) {
      EndsLonger(packet, StepTo(packet, c).value, n - 1);
    }
  }

  /** Whatever the reader does from `v`, it passes `c` at least one step later. */
  ghost predicate Leads(packet: bytes, v: nat, c: nat) {
    forall m: nat :: Ends(packet, v, m) ==> m > 0 && Ends(packet, c, m - 1)
  }

  lemma StepLeads(packet: bytes, c: nat)
    requires StepTo(packet, c).Some?
    ensures Leads(packet, c, StepTo(packet, c).value)
  {
  }

  lemma LeadsOn(packet: bytes, v: nat, c: nat)
    requires Leads(packet, v, c) && StepTo(packet, c).Some?
    ensures Leads(packet, v, StepTo(packet, c).value)
  {
    var d := StepTo(packet, c).value;
    forall m: nat | Ends(packet, v, m)
      ensures m > 0 && Ends(packet, d, m - 1)
    {
      assert Ends(packet, c, m - 1);
      assert !AtEnd(packet, c);
      EndsLonger(packet, d, m - 2);
    }
  }

  /** A name that comes back to a place it passed never ends: refusing visited places loses nothing. */
  lemma {:induction false} LoopNeverEnds(packet: bytes, c: nat, n: nat)
    requires Leads(packet, c, c)
    ensures !Ends(packet, c, n)
    decreases n
  {
    if Ends(packet, c, n) {
      LoopNeverEnds(packet, c, n - 1);
    }
  }

  /** A successful reading goes strictly forward and stays in the packet. */
  lemma {:induction false} AfterAdvances(packet: bytes, c: nat, n: nat)
    requires Ends(packet, c, n)
    ensures c < After(packet, c) <= |packet|
    decreases n
  {
    if !AtEnd(packet, c) && !AtPointer(packet, c) {
      AfterAdvances(packet, StepTo(packet, c).value, n - 1);
    }
  }

  /** All visited places, and this one, lead on to the next place. */
  lemma AllLeadOn(packet: bytes, visited: set<nat>, c: nat, next: nat)
    requires forall v :: v in visited ==> Leads(packet, v, c)
    requires StepTo(packet, c) == Some(next)
    ensures forall v :: v in visited + {c} ==> Leads(packet, v, next)
  {
    forall v | v in visited + {c}
      ensures Leads(packet, v, next)
    {
      if v in visited { LeadsOn(packet, v, c); } else { StepLeads(packet, c); }
    }
  }

  /** A pointer against the rest of the name. */
  lemma PointerStep(packet: bytes, c: nat, next: nat, n: nat)
    requires n > 0 && AtPointer(packet, c) && next == Target(packet, c)
    ensures StepTo(packet, c) == Some(next)
    ensures Ends(packet, c, n) <==> Ends(packet, next, n - 1)
    ensures Labels(packet, c, n) == Labels(packet, next, n - 1)
    ensures After(packet, c) == c + 2
  {
  }

  /** A label against the rest of the name. */
  lemma LabelStep(packet: bytes, c: nat, next: nat, n: nat)
    requires n > 0 && AtLabel(packet, c) && next == c + 1 + packet[c] as int
    ensures StepTo(packet, c) == Some(next)
    ensures Ends(packet, c, n) <==> Ends(packet, next, n - 1)
    ensures Labels(packet, c, n) == [packet[c + 1..next]] + Labels(packet, next, n - 1)
    ensures After(packet, c) == After(packet, next)
  {
  }

  /** Where the reader stands with `left` steps to go, against the reading by the standard. */
  ghost predicate Progress(packet: bytes, offset: nat, left: nat, cursor: nat, labels: seq<bytes>,
                           consumed: Option<nat>, visited: set<nat>)
  {
    && (Ends(packet, offset, MAX_STEPS) <==> Ends(packet, cursor, left))
    && Labels(packet, offset, MAX_STEPS) == labels + Labels(packet, cursor, left)
    && (forall v :: v in visited ==> Leads(packet, v, cursor))
    && After(packet, offset) == if consumed.Some? then consumed.value else After(packet, cursor)
  }

  lemma Regrouped(whole: seq<bytes>, labels: seq<bytes>, before: seq<bytes>, one: seq<bytes>, rest: seq<bytes>)
    requires whole == labels + before && before == one + rest
    ensures whole == labels + one + rest
  {
  }

  lemma JumpOn(packet: bytes, offset: nat, left: nat, cursor: nat, labels: seq<bytes>, consumed: Option<nat>,
               visited: set<nat>, next: nat)
    requires Progress(packet, offset, left, cursor, labels, consumed, visited) && left > 0
    requires AtPointer(packet, cursor) && next == Target(packet, cursor)
    ensures Progress(packet, offset, left - 1, next, labels, if consumed.None? then Some(cursor + 2) else consumed,
                     visited + {cursor})
  {
    PointerStep(packet, cursor, next, left);
    AllLeadOn(packet, visited, cursor, next);
  }

  lemma LabelOn(packet: bytes, offset: nat, left: nat, cursor: nat, labels: seq<bytes>, consumed: Option<nat>,
                visited: set<nat>, next: nat)
    requires Progress(packet, offset, left, cursor, labels, consumed, visited) && left > 0
    requires AtLabel(packet, cursor) && next == cursor + 1 + packet[cursor] as int
    ensures Progress(packet, offset, left - 1, next, labels + [packet[cursor + 1..next]], consumed, visited + {cursor})
  {
    LabelStep(packet, cursor, next, left);
    Regrouped(Labels(packet, offset, MAX_STEPS), labels, Labels(packet, cursor, left), [packet[cursor + 1..next]],
              Labels(packet, next, left - 1));
    AllLeadOn(packet, visited, cursor, next);
  }

  /** The reader gives up only where the standard has nothing to read either. */
  lemma GiveUp(packet: bytes, offset: nat, left: nat, cursor: nat, labels: seq<bytes>, consumed: Option<nat>,
               visited: set<nat>)
    requires Progress(packet, offset, left, cursor, labels, consumed, visited)
    requires left == 0 || cursor in visited || (!AtEnd(packet, cursor) && StepTo(packet, cursor).None?)
    ensures ReadAt(packet, offset) == None
  {
    if cursor in visited { LoopNeverEnds(packet, cursor, left); }
  }

  lemma ReachEnd(packet: bytes, offset: nat, left: nat, cursor: nat, labels: seq<bytes>, consumed: Option<nat>,
                 visited: set<nat>)
    requires Progress(packet, offset, left, cursor, labels, consumed, visited) && left > 0 && AtEnd(packet, cursor)
    ensures ReadAt(packet, offset)
         == Some(Reading(labels, if consumed.Some? then consumed.value else cursor + 1))
    ensures offset < ReadAt(packet, offset).value.next <= |packet|
  {
    assert Labels(packet, cursor, left) == [] && labels + [] == labels;
    AfterAdvances(packet, offset, MAX_STEPS);
  }

  /** `_read_dns_name`: at most 64 steps, no place twice. It returns exactly what the reading by the
      standard gives within 64 steps. */
  method ReadName(packet: bytes, offset: nat) returns (r: Option<Reading>)
    ensures r == ReadAt(packet, offset)
    ensures r.Some? ==> offset < r.value.next <= |packet|
  {
    var labels: seq<bytes> := [];
    var cursor: nat := offset;
    var consumed: Option<nat> := None;
    var visited: set<nat> := {};
    ghost var left: nat := MAX_STEPS;
    for i := 0 to MAX_STEPS
      invariant left == MAX_STEPS - i
      invariant Progress(packet, offset, left, cursor, labels, consumed, visited)
    {
      if cursor >= |packet| || cursor in visited {
        GiveUp(packet, offset, left, cursor, labels, consumed, visited);
        return None;
      }
      var length := packet[cursor] as int;
      if length == 0 {
        ReachEnd(packet, offset, left, cursor, labels, consumed, visited);
        return Some(Reading(labels, if consumed.Some? then consumed.value else cursor + 1));
      }
      var next: nat := 0;
      if length >= 0xC0 {
        if cursor + 1 >= |packet| {
          GiveUp(packet, offset, left, cursor, labels, consumed, visited);
          return None;
        }
        next := Target(packet, cursor);
        JumpOn(packet, offset, left, cursor, labels, consumed, visited, next);
        if consumed.None? {
          consumed := Some(cursor + 2);
        }
      } else {
        if length >= 0x40 || cursor + 1 + length > |packet| {
          GiveUp(packet, offset, left, cursor, labels, consumed, visited);
          return None;
        }
        next := cursor + 1 + length;
        LabelOn(packet, offset, left, cursor, labels, consumed, visited, next);
        labels := labels + [packet[cursor + 1..next]];
      }
      visited := visited + {cursor};
      cursor := next;
      left := left - 1;
    }
    GiveUp(packet, offset, left, cursor, labels, consumed, visited);
    return None;
  }

  // ---- text ----

  /** `value.split(".")`. */
  function Split(s: string): (parts: seq<string>)
    ensures |parts| >= 1
  {
    if s == "" then [""]
    else
      var rest := Split(s[1..]);
      if s[0] == '.' then [""] + rest else [[s[0]] + rest[0]] + rest[1..]
  }

  /** `".".join(parts)`. */
  function Join(parts: seq<string>): string {
    if parts == [] then "" else if |parts| == 1 then parts[0] else parts[0] + "." + Join(parts[1..])
  }

  /** `value.rstrip(".")`. */
  function WithoutDots(s: string): (r: string)
    ensures r <= s && (r != "" ==> r[|r| - 1] != '.')
  {
    if s != "" && s[|s| - 1] == '.' then WithoutDots(s[..|s| - 1]) else s
  }

  lemma {:induction false} JoinSplit(s: string)
    ensures Join(Split(s)) == s
    decreases |s|
  {
    if s != "" {
      JoinSplit(s[1..]);
      var rest := Split(s[1..]);
      if s[0] == '.' {
        assert ([""] + rest)[1..] == rest;
      } else {
        assert ([[s[0]] + rest[0]] + rest[1..])[1..] == rest[1..];
      }
      assert s == [s[0]] + s[1..];
    }
  }

  predicate IsAscii(s: string) { forall i :: 0 <= i < |s| ==> s[i] as int < 128 }

  function Raw(s: string): (b: bytes)
    requires IsAscii(s)
    ensures |b| == |s| && Text(b) == s
  {
    seq(|s|, i requires 0 <= i < |s| => s[i] as int)
  }

  /** Bytes below 128 decode to themselves. */
  function Text(b: bytes): string {
    seq(|b|, i requires 0 <= i < |b| => (b[i] as int) as char)
  }

  function Texts(labels: seq<bytes>): seq<string> {
    seq(|labels|, i requires 0 <= i < |labels| => Text(labels[i]))
  }

  function NameText(labels: seq<bytes>): string { Join(Texts(labels)) }

  // ---- the encoder ----

  predicate GoodPart(part: string) { IsAscii(part) && 0 < |part| <= 63 }

  predicate Encodable(parts: seq<string>) { forall i :: 0 <= i < |parts| ==> GoodPart(parts[i]) }

  function Raws(parts: seq<string>): (raws: seq<bytes>)
    requires Encodable(parts)
    ensures Texts(raws) == parts && WireReady(raws)
  {
    seq(|parts|, i requires 0 <= i < |parts| => Raw(parts[i]))
  }

  predicate WireReady(labels: seq<bytes>) { forall i :: 0 <= i < |labels| ==> 0 < |labels[i]| <= 63 }

  function Wire(labels: seq<bytes>): (b: bytes)
    requires WireReady(labels)
    ensures |b| > 0
  {
    if labels == [] then [0] else [|labels[0]|] + labels[0] + Wire(labels[1..])
  }

  function Parts(value: string): seq<string> { Split(WithoutDots(value)) }

  /** `_encode_dns_name`; every refusal of the source is a ValueError. */
  method EncodeName(value: string) returns (r: Option<bytes>)
    ensures r.Some? <==> Encodable(Parts(value))
    ensures r.Some? ==> r.value == Wire(Raws(Parts(value)))
  {
    var parts := Parts(value);
    var encoded: bytes := [];
    for i := 0 to |parts|
      invariant Encodable(parts[..i])
      invariant Encodable(parts) ==> Wire(Raws(parts)) == encoded + Wire(Raws(parts)[i..])
    {
      var part := parts[i];
      if !IsAscii(part) || part == "" || |part| > 63 {
        assert !GoodPart(parts[i]);
        return None;
      }
      assert GoodPart(parts[i]);
      assert parts[..i + 1] == parts[..i] + [part];
      if Encodable(parts) {
        WireStep(Raws(parts), i, encoded);
      }
      encoded := encoded + [|part|] + Raw(part);
    }
    assert parts[..|parts|] == parts;
    assert Raws(parts)[|parts|..] == [];
    return Some(encoded + [0]);
  }

  lemma WireStep(raws: seq<bytes>, i: nat, encoded: bytes)
    requires WireReady(raws) && i < |raws|
    ensures encoded + Wire(raws[i..]) == encoded + [|raws[i]|] + raws[i] + Wire(raws[i + 1..])
  {
    assert raws[i..][1..] == raws[i + 1..];
  }

  // ---- the round trip ----

  /** `b` stands in the packet at `at`. */
  predicate Placed(packet: bytes, at: nat, b: bytes) { at + |b| <= |packet| && packet[at..at + |b|] == b }

  lemma PlacedAt(packet: bytes, at: nat, b: bytes, k: nat)
    requires Placed(packet, at, b) && k < |b|
    ensures packet[at + k] == b[k]
  {
    assert packet[at..at + |b|][k] == packet[at + k];
  }

  lemma PlacedPart(packet: bytes, at: nat, b: bytes, lo: nat, hi: nat)
    requires Placed(packet, at, b) && lo <= hi <= |b|
    ensures Placed(packet, at + lo, b[lo..hi])
  {
    forall k | lo <= k < hi
      ensures packet[at + k] == b[k]
    {
      PlacedAt(packet, at, b, k);
    }
    assert packet[at + lo..at + hi] == b[lo..hi];
  }

  /** One label in front of a name that is already read back. */
  lemma LabelReadsBack(packet: bytes, at: nat, first: bytes, next: nat, n: nat, m: nat)
    requires 0 < |first| <= 63 && Placed(packet, at, [|first|] + first)
    requires next == at + 1 + |first| && (n > 0 ==> m == n - 1)
    ensures StepTo(packet, at) == Some(next) && After(packet, at) == After(packet, next)
    ensures Ends(packet, at, n) <==> n > 0 && Ends(packet, next, m)
    ensures n > 0 ==> Labels(packet, at, n) == [first] + Labels(packet, next, m)
  {
    var b: bytes := [|first|] + first;
    PlacedAt(packet, at, b, 0);
    PlacedPart(packet, at, b, 1, |b|);
    assert b[1..|b|] == first;
  }

  /** Wherever a packet holds the wire form of labels, the reader finds those labels when its steps
      suffice, and nothing when they do not. */
  lemma {:induction false} WireReadsBack(packet: bytes, at: nat, labels: seq<bytes>, n: nat)
    requires WireReady(labels) && Placed(packet, at, Wire(labels))
    ensures Ends(packet, at, n) <==> |labels| < n
    ensures Ends(packet, at, n) ==> Labels(packet, at, n) == labels
    ensures After(packet, at) == at + |Wire(labels)|
    decreases |labels|
  {
    if labels == [] {
      PlacedAt(packet, at, [0], 0);
    } else {
      var first, rest := labels[0], labels[1..];
      var next: nat := at + 1 + |first|;
      var m: nat := if n > 0 then n - 1 else 0;
      WireSplits(packet, at, labels, next);
      LabelReadsBack(packet, at, first, next, n, m);
      WireReadsBack(packet, next, rest, m);
      assert labels == [first] + rest;
    }
  }

  lemma WireSplits(packet: bytes, at: nat, labels: seq<bytes>, next: nat)
    requires WireReady(labels) && labels != [] && Placed(packet, at, Wire(labels))
    requires next == at + 1 + |labels[0]|
    ensures Placed(packet, at, [|labels[0]|] + labels[0])
    ensures Placed(packet, next, Wire(labels[1..]))
    ensures at + |Wire(labels)| == next + |Wire(labels[1..])|
  {
    var b := Wire(labels);
    var head: bytes := [|labels[0]|] + labels[0];
    var rest := Wire(labels[1..]);
    assert b == head + rest;
    assert b[0..|head|] == head && b[|head|..|b|] == rest;
    PlacedPart(packet, at, b, 0, |head|);
    PlacedPart(packet, at, b, |head|, |b|);
    assert at + 0 == at && at + |head| == next;
  }

  /** Main result: an encoded name read back from any place in any packet is the name without its trailing
      dots, followed by the right offset, when it has at most 63 labels; with more the reader refuses it. */
  lemma NameRoundTrip(value: string, packet: bytes, at: nat)
    requires Encodable(Parts(value)) && Placed(packet, at, Wire(Raws(Parts(value))))
    ensures ReadAt(packet, at).Some? <==> |Parts(value)| <= 63
    ensures ReadAt(packet, at).Some? ==>
              && NameText(ReadAt(packet, at).value.labels) == WithoutDots(value)
              && ReadAt(packet, at).value.next == at + |Wire(Raws(Parts(value)))|
  {
    WireReadsBack(packet, at, Raws(Parts(value)), MAX_STEPS);
    JoinSplit(WithoutDots(value));
  }

  /** Different names never share a wire form. */
  lemma EncodingInjective(x: string, y: string)
    requires Encodable(Parts(x)) && Encodable(Parts(y)) && Wire(Raws(Parts(x))) == Wire(Raws(Parts(y)))
    ensures WithoutDots(x) == WithoutDots(y)
  {
    var b := Wire(Raws(Parts(x)));
    var n := |Parts(x)| + |Parts(y)| + 1;
    WireReadsBack(b, 0, Raws(Parts(x)), n);
    WireReadsBack(b, 0, Raws(Parts(y)), n);
    JoinSplit(WithoutDots(x));
    JoinSplit(WithoutDots(y));
  }

  // ---- PTR answers ----

  /** A resource record that lies inside the packet: its type and where its data stands. */
  datatype Record = Record(kind: nat, start: nat, end: nat)

  /** The record behind the owner name that ends at `body`, if header and data fit. */
  function RecordAt(packet: bytes, body: nat): (r: Option<Record>)
    ensures r.Some? ==> r.value.start == body + 10 && r.value.start <= r.value.end <= |packet|
  {
    if body + 10 > |packet| then None
    else
      var end := body + 10 + FromBe(packet[body + 8..body + 10]);
      if end > |packet| then None else Some(Record(FromBe(packet[body..body + 2]), body + 10, end))
  }

  function SkipQuestions(packet: bytes, offset: nat, left: nat): Option<nat>
    decreases left
  {
    if left == 0 then Some(offset)
    else
      match ReadAt(packet, offset)
      case None => None
      case Some(name) => SkipQuestions(packet, name.next + 4, left - 1)
  }

  /** The records the walk reaches, up to the first that does not fit; None when an owner name or the name
      in a PTR record cannot be read. */
  function Walk(packet: bytes, offset: nat, left: nat): Option<seq<Record>>
    decreases left
  {
    if left == 0 then Some([])
    else
      match ReadAt(packet, offset)
      case None => None
      case Some(name) =>
        match RecordAt(packet, name.next)
        case None => Some([])
        case Some(record) =>
          if record.kind == 12 && ReadAt(packet, record.start).None? then None
          else
            match Walk(packet, record.end, left - 1)
            case None => None
            case Some(rest) => Some([record] + rest)
  }

  /** Names are kept in order of first appearance. */
  function Noted(found: seq<string>, name: string): seq<string> {
    if name != "" && name !in found then found + [name] else found
  }

  function NameOf(packet: bytes, record: Record, normalize: string -> string): string {
    if record.kind == 12 && ReadAt(packet, record.start).Some?
    then normalize(NameText(ReadAt(packet, record.start).value.labels))
    else ""
  }

  function NamesOf(packet: bytes, records: seq<Record>, normalize: string -> string, found: seq<string>): seq<string>
    decreases |records|
  {
    if records == [] then found
    else NamesOf(packet, records[1..], normalize, Noted(found, NameOf(packet, records[0], normalize)))
  }

  function Count(packet: bytes, field: nat): nat
    requires 2 * field + 2 <= |packet|
  {
    FromBe(packet[2 * field..2 * field + 2])
  }

  function PtrSpec(packet: bytes, normalize: string -> string): seq<string> {
    if |packet| < 12 then []
    else
      match SkipQuestions(packet, 12, Count(packet, 2))
      case None => []
      case Some(offset) =>
        match Walk(packet, offset, Count(packet, 3) + Count(packet, 4) + Count(packet, 5))
        case None => []
        case Some(records) => NamesOf(packet, records, normalize, [])
  }

  /** The walk from here, with what was found before it. */
  function Rest(packet: bytes, offset: nat, left: nat, normalize: string -> string,
                found: seq<string>): Option<seq<string>>
  {
    match Walk(packet, offset, left)
    case None => None
    case Some(records) => Some(NamesOf(packet, records, normalize, found))
  }

  /** The first loop of `_ptr_answers`. */
  method SkipLoop(packet: bytes, questions: nat) returns (end: Option<nat>)
    ensures end == SkipQuestions(packet, 12, questions)
  {
    var offset: nat := 12;
    for i := 0 to questions
      invariant SkipQuestions(packet, 12, questions) == SkipQuestions(packet, offset, questions - i)
    {
      var question := ReadName(packet, offset);
      if question.None? {
        return None;
      }
      offset := question.value.next + 4;
    }
    return Some(offset);
  }

  /** The second loop of `_ptr_answers`; the walk goes strictly forward. */
  method RecordLoop(packet: bytes, first: nat, total: nat, normalize: string -> string)
    returns (names: Option<seq<string>>)
    ensures names == Rest(packet, first, total, normalize, [])
  {
    var result: seq<string> := [];
    var offset: nat := first;
    for i := 0 to total
      invariant Rest(packet, first, total, normalize, []) == Rest(packet, offset, total - i, normalize, result)
    {
      var owner := ReadName(packet, offset);
      if owner.None? {
        return None;
      }
      var record := RecordAt(packet, owner.value.next);
      if record.None? {
        return Some(result);
      }
      RestStep(packet, offset, total - i, normalize, result, record.value);
      if record.value.kind == 12 {
        var name := ReadName(packet, record.value.start);
        if name.None? {
          return None;
        }
        result := Noted(result, normalize(NameText(name.value.labels)));
      }
      offset := record.value.end;
    }
    return Some(result);
  }

  /** `_ptr_answers`. */
  method PtrAnswers(packet: bytes, normalize: string -> string) returns (result: seq<string>)
    ensures result == PtrSpec(packet, normalize)
  {
    if |packet| < 12 {
      return [];
    }
    var offset := SkipLoop(packet, Count(packet, 2));
    if offset.None? {
      return [];
    }
    var names := RecordLoop(packet, offset.value, Count(packet, 3) + Count(packet, 4) + Count(packet, 5), normalize);
    return if names.Some? then names.value else [];
  }

  lemma RestStep(packet: bytes, offset: nat, left: nat, normalize: string -> string, found: seq<string>, record: Record)
    requires left > 0 && ReadAt(packet, offset).Some?
    requires RecordAt(packet, ReadAt(packet, offset).value.next) == Some(record)
    ensures Rest(packet, offset, left, normalize, found)
         == if record.kind == 12 && ReadAt(packet, record.start).None? then None
            else Rest(packet, record.end, left - 1, normalize, Noted(found, NameOf(packet, record, normalize)))
  {
    var rest := Walk(packet, record.end, left - 1);
    if rest.Some? {
      assert ([record] + rest.value)[1..] == rest.value;
    }
  }

  predicate Distinct(names: seq<string>) { forall i, j :: 0 <= i < j < |names| ==> names[i] != names[j] }

  /** The answers are exactly the non-empty normalized names of the PTR records walked, each once. */
  lemma {:induction false} NamesOfExact(packet: bytes, records: seq<Record>, normalize: string -> string,
                                        found: seq<string>, x: string)
    requires Distinct(found)
    ensures Distinct(NamesOf(packet, records, normalize, found))
    ensures x in NamesOf(packet, records, normalize, found)
       <==> x in found || (x != "" && exists k :: 0 <= k < |records| && NameOf(packet, records[k], normalize) == x)
    decreases |records|
  {
    if records != [] {
      var name := NameOf(packet, records[0], normalize);
      var noted := Noted(found, name);
      NamesOfExact(packet, records[1..], normalize, noted, x);
      if x in noted && x !in found {
        assert NameOf(packet, records[0], normalize) == x;
      }
      if k :| 0 <= k < |records| && NameOf(packet, records[k], normalize) == x {
        assert k > 0 ==> records[1..][k - 1] == records[k];
      }
      if j :| 0 <= j < |records[1..]| && NameOf(packet, records[1..][j], normalize) == x {
        assert records[j + 1] == records[1..][j];
      }
    }
  }

  /** However many records the header claims, each one walked takes at least eleven bytes of the packet. */
  lemma {:induction false} WalkBounded(packet: bytes, offset: nat, left: nat)
    requires Walk(packet, offset, left).Some?
    ensures var records := Walk(packet, offset, left).value;
            && |records| <= left
            && (records != [] ==> offset + 11 * |records| <= |packet|)
            && (forall k :: 0 <= k < |records| ==> offset < records[k].start <= records[k].end <= |packet|)
    decreases left
  {
    var name := ReadAt(packet, offset);
    if left > 0 && name.Some? {
      AfterAdvances(packet, offset, MAX_STEPS);
      var record := RecordAt(packet, name.value.next);
      if record.Some? {
        WalkBounded(packet, record.value.end, left - 1);
        var rest := Walk(packet, record.value.end, left - 1).value;
        forall k | 0 <= k < |rest| + 1
          ensures offset < ([record.value] + rest)[k].start <= ([record.value] + rest)[k].end <= |packet|
        {
          if k > 0 { assert ([record.value] + rest)[k] == rest[k - 1]; }
        }
      }
    }
  }
}
