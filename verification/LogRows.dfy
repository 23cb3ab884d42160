/** The log view: classified lines are collapsed into runs, given phases, smoothed and put under section
    headers. A phase is a name; the empty one means that the line has none. */
module LogRows {
  import opened Bytes

  datatype Entry = Entry(
    stamp: string, raw: string, en: string, cat: string, level: string, phase: string, noise: bool, pulse: bool)

  datatype Kind = Section | Line | Pulse

  /** `entry` is the latest line of the run; `firstStamp` and `phase` come from its first line. */
  datatype Row = Row(kind: Kind, entry: Option<Entry>, count: nat, phase: string, firstStamp: string, key: string)

  // ---- which lines show, and as what ----

  datatype Look = Hidden | Shown(kind: Kind, key: string)

  function CollapseKey(e: Entry, details: bool): string {
    e.cat + "|" + e.level + "|" + if details then e.raw else e.en
  }

  function LookOf(e: Entry, details: bool): Look {
    if e.noise && !details then (if e.pulse then Shown(Pulse, "pulse|" + e.cat) else Hidden)
    else Shown(Line, CollapseKey(e, details))
  }

  predicate Visible(e: Entry, details: bool, matches: Entry -> bool) {
    matches(e) && LookOf(e, details).Shown?
  }

  /** The lines the view is about, in order. */
  function VisibleOf(entries: seq<Entry>, details: bool, matches: Entry -> bool): (v: seq<Entry>)
    ensures forall k :: 0 <= k < |v| ==> LookOf(v[k], details).Shown?
  {
    if entries == [] then []
    else
      var front := VisibleOf(entries[..|entries| - 1], details, matches);
      var e := entries[|entries| - 1];
      if Visible(e, details, matches) then front + [e] else front
  }

  // ---- collapsing runs ----

  predicate Fits(row: Row, look: Look) { look.Shown? && row.kind == look.kind && row.key == look.key }

  function NewRow(e: Entry, look: Look): Row
    requires look.Shown?
  {
    Row(look.kind, Some(e), 1, e.phase, e.stamp, look.key)
  }

  function Push(rows: seq<Row>, e: Entry, look: Look): seq<Row>
    requires look.Shown?
  {
    var n := |rows|;
    if n > 0 && Fits(rows[n - 1], look)
    then rows[n - 1 := rows[n - 1].(count := rows[n - 1].count + 1, entry := Some(e))]
    else rows + [NewRow(e, look)]
  }

  function Collapse(visible: seq<Entry>, details: bool): seq<Row>
    requires forall k :: 0 <= k < |visible| ==> LookOf(visible[k], details).Shown?
  {
    if visible == [] then []
    else
      var e := visible[|visible| - 1];
      Push(Collapse(visible[..|visible| - 1], details), e, LookOf(e, details))
  }

  function Total(rows: seq<Row>): nat {
    if rows == [] then 0 else Total(rows[..|rows| - 1]) + rows[|rows| - 1].count
  }

  lemma TotalPush(rows: seq<Row>, e: Entry, look: Look)
    requires look.Shown?
    ensures Total(Push(rows, e, look)) == Total(rows) + 1
  {
    var out := Push(rows, e, look);
    if |out| == |rows| {
      assert out[..|out| - 1] == rows[..|rows| - 1];
    } else {
      assert out[..|out| - 1] == rows;
    }
  }

  /** No line is lost or counted twice. */
  lemma {:induction false} CollapseConserves(visible: seq<Entry>, details: bool)
    requires forall k :: 0 <= k < |visible| ==> LookOf(visible[k], details).Shown?
    ensures Total(Collapse(visible, details)) == |visible|
  {
    if visible != [] {
      var front := visible[..|visible| - 1];
      var e := visible[|visible| - 1];
      CollapseConserves(front, details);
      TotalPush(Collapse(front, details), e, LookOf(e, details));
    }
  }

  predicate Alternates(rows: seq<Row>) {
    forall k {:trigger rows[k]} :: 0 < k < |rows| ==> rows[k - 1].kind != rows[k].kind || rows[k - 1].key != rows[k].key
  }

  /** Runs are maximal: neighbours differ. */
  lemma {:induction false} CollapseAlternates(visible: seq<Entry>, details: bool)
    requires forall k :: 0 <= k < |visible| ==> LookOf(visible[k], details).Shown?
    ensures Alternates(Collapse(visible, details))
  {
    if visible != [] {
      CollapseAlternates(visible[..|visible| - 1], details);
    }
  }

  /** Row `row` stands for exactly the lines `lo..hi`. */
  predicate Covers(row: Row, visible: seq<Entry>, details: bool, lo: nat, hi: nat) {
    && lo < hi <= |visible| && row.count == hi - lo
    && (forall j :: lo <= j < hi ==> Fits(row, LookOf(visible[j], details)))
    && row.entry == Some(visible[hi - 1]) && row.firstStamp == visible[lo].stamp && row.phase == visible[lo].phase
  }

  /** Row `k` covers the lines that follow those of the rows before it. */
  predicate RowAt(rows: seq<Row>, visible: seq<Entry>, details: bool, k: nat)
    requires k < |rows|
  {
    var lo := Total(rows[..k]);
    Covers(rows[k], visible, details, lo, lo + rows[k].count)
  }

  lemma CoversLonger(row: Row, visible: seq<Entry>, more: seq<Entry>, details: bool, lo: nat, hi: nat)
    requires Covers(row, visible, details, lo, hi)
    ensures Covers(row, visible + more, details, lo, hi)
  {
    var whole := visible + more;
    forall j | lo <= j < hi
      ensures Fits(row, LookOf(whole[j], details))
    {
      assert whole[j] == visible[j];
    }
  }

  /** The last row after one more line. */
  lemma CoversGrown(row: Row, visible: seq<Entry>, e: Entry, details: bool, lo: nat)
    requires Covers(row, visible, details, lo, |visible|) && Fits(row, LookOf(e, details))
    ensures Covers(row.(count := row.count + 1, entry := Some(e)), visible + [e], details, lo, |visible| + 1)
  {
    var whole := visible + [e];
    var grown := row.(count := row.count + 1, entry := Some(e));
    forall j | lo <= j < |whole|
      ensures Fits(grown, LookOf(whole[j], details))
    {
      assert j < |visible| ==> whole[j] == visible[j];
    }
  }

  lemma CoversNew(visible: seq<Entry>, e: Entry, details: bool)
    requires LookOf(e, details).Shown?
    ensures Covers(NewRow(e, LookOf(e, details)), visible + [e], details, |visible|, |visible| + 1)
  {
  }

  /** Pushing a line keeps every row on its stretch, given the stretch of the row before the push. */
  lemma PushCovers(before: seq<Row>, visible: seq<Entry>, e: Entry, details: bool, k: nat)
    requires LookOf(e, details).Shown? && Total(before) == |visible|
    requires k < |Push(before, e, LookOf(e, details))|
    requires k < |before| ==> RowAt(before, visible, details, k)
    ensures RowAt(Push(before, e, LookOf(e, details)), visible + [e], details, k)
  {
    var look := LookOf(e, details);
    var rows := Push(before, e, look);
    assert rows[..k] == before[..k];
    var lo := Total(before[..k]);
    if k == |before| {
      assert before[..k] == before;
      CoversNew(visible, e, details);
    } else if k == |before| - 1 && Fits(before[k], look) {
      assert lo + before[k].count == |visible|;
      CoversGrown(before[k], visible, e, details, lo);
    } else {
      assert rows[k] == before[k];
      CoversLonger(before[k], visible, [e], details, lo, lo + before[k].count);
    }
  }

  /** Each row stands for one stretch of lines, and the stretches follow one another in order. */
  lemma {:induction false} RowCovers(visible: seq<Entry>, details: bool, k: nat)
    requires forall j :: 0 <= j < |visible| ==> LookOf(visible[j], details).Shown?
    requires k < |Collapse(visible, details)|
    ensures RowAt(Collapse(visible, details), visible, details, k)
    decreases |visible|
  {
    var front := visible[..|visible| - 1];
    var e := visible[|visible| - 1];
    var before := Collapse(front, details);
    CollapseConserves(front, details);
    if k < |before| {
      RowCovers(front, details, k);
    }
    assert front + [e] == visible;
    PushCovers(before, front, e, details, k);
  }

  // ---- phases ----

  const PROTECTED: set<string> := {"connected", "drop", "key", "scan"}
  const NO_JOIN: set<string> := {"connected", "drop"}

  function PhaseOr(row: Row, phase: string): string {
    if row.phase != "" then row.phase else if phase != "" then phase else "app"
  }

  /** Rows without a phase inherit the one before. */
  function Filled(rows: seq<Row>): (out: seq<Row>)
    ensures |out| == |rows|
  {
    if rows == [] then []
    else
      var front := Filled(rows[..|rows| - 1]);
      var phase := if front == [] then "" else front[|front| - 1].phase;
      var row := rows[|rows| - 1];
      front + [row.(phase := PhaseOr(row, phase))]
  }

  /** The two lists differ in phases only. */
  predicate SameLines(a: seq<Row>, b: seq<Row>) {
    |a| == |b| && forall k :: 0 <= k < |a| ==> a[k].(phase := "") == b[k].(phase := "")
  }

  lemma {:induction false} FilledAt(rows: seq<Row>, k: nat)
    requires k < |rows|
    ensures Filled(rows)[k]
         == rows[k].(phase := PhaseOr(rows[k], if k == 0 then "" else Filled(rows)[k - 1].phase))
    decreases |rows|
  {
    var front := rows[..|rows| - 1];
    if k < |front| {
      FilledAt(front, k);
    }
  }

  /** A row's own phase stays, a missing one is inherited, and nothing else changes. */
  lemma FilledRow(rows: seq<Row>, k: nat)
    requires k < |rows|
    ensures Filled(rows)[k].(phase := "") == rows[k].(phase := "") && Filled(rows)[k].phase != ""
    ensures rows[k].phase != "" ==> Filled(rows)[k].phase == rows[k].phase
    ensures rows[k].phase == "" && k > 0 ==> Filled(rows)[k].phase == Filled(rows)[k - 1].phase
  {
    FilledAt(rows, k);
    if k > 0 {
      FilledAt(rows, k - 1);
    }
  }

  lemma FilledPhases(rows: seq<Row>)
    ensures SameLines(Filled(rows), rows)
    ensures forall k :: 0 <= k < |rows| ==> Filled(rows)[k].phase != ""
    ensures forall k :: 0 <= k < |rows| && rows[k].phase != "" ==> Filled(rows)[k].phase == rows[k].phase
    ensures forall k :: 0 < k < |rows| && rows[k].phase == "" ==> Filled(rows)[k].phase == Filled(rows)[k - 1].phase
  {
    forall k | 0 <= k < |rows|
      ensures Filled(rows)[k].phase != "" && Filled(rows)[k].(phase := "") == rows[k].(phase := "")
      ensures rows[k].phase != "" ==> Filled(rows)[k].phase == rows[k].phase
      ensures k > 0 && rows[k].phase == "" ==> Filled(rows)[k].phase == Filled(rows)[k - 1].phase
    {
      FilledRow(rows, k);
    }
  }

  // ---- smoothing ----

  /** A single unprotected row whose neighbours agree on a phase it can join; past the end agrees. */
  predicate Lone(rows: seq<Row>, i: nat) {
    && 0 < i < |rows| && rows[i].phase !in PROTECTED
    && rows[i - 1].phase != rows[i].phase && rows[i - 1].phase !in NO_JOIN
    && (i + 1 < |rows| ==> rows[i + 1].phase == rows[i - 1].phase)
  }

  function SmoothAt(rows: seq<Row>, i: nat): (out: seq<Row>)
    ensures |out| == |rows|
  {
    if Lone(rows, i) then rows[i := rows[i].(phase := rows[i - 1].phase)] else rows
  }

  /** The first `n` positions smoothed, left to right. */
  function Smoothed(rows: seq<Row>, n: nat): (out: seq<Row>)
    ensures |out| == |rows|
  {
    if n == 0 then rows else SmoothAt(Smoothed(rows, n - 1), n - 1)
  }

  /** A row that has not been reached is as it was, and one that has been passed stays. */
  lemma {:induction false} SmoothedFrame(rows: seq<Row>, n: nat, m: nat, k: nat)
    requires n <= m && k < |rows| && (k < n || m <= k)
    ensures Smoothed(rows, m)[k] == Smoothed(rows, n)[k]
    decreases m
  {
    if n < m {
      SmoothedFrame(rows, n, m - 1, k);
    }
  }

  /** Smoothing changes phases only, never of a protected row, and never into connected or drop. */
  lemma {:induction false} SmoothedKeeps(rows: seq<Row>, n: nat)
    ensures SameLines(Smoothed(rows, n), rows)
    ensures forall k :: 0 <= k < |rows| && rows[k].phase in PROTECTED ==> Smoothed(rows, n)[k] == rows[k]
    ensures forall k :: 0 <= k < |rows| && Smoothed(rows, n)[k] != rows[k] ==>
              rows[k].phase !in PROTECTED && Smoothed(rows, n)[k].phase !in NO_JOIN
    decreases n
  {
    if n > 0 {
      SmoothedKeeps(rows, n - 1);
      if n - 1 < |rows| {
        SmoothedFrame(rows, 0, n - 1, n - 1);
      }
    }
  }

  /** One pass is enough: no lone row is left, although every step looks at neighbours that other steps
      may change. */
  lemma NoLoneLeft(rows: seq<Row>, i: nat)
    ensures !Lone(Smoothed(rows, |rows|), i)
  {
    if 0 < i < |rows| {
      SmoothedFrame(rows, i, |rows|, i - 1);
      SmoothedFrame(rows, i + 1, |rows|, i);
      if i + 1 < |rows| {
        SmoothedFrame(rows, i + 2, |rows|, i + 1);
      }
    }
  }

  /** Smoothing what is smooth changes nothing. */
  lemma SmoothingIdempotent(rows: seq<Row>, n: nat)
    ensures Smoothed(Smoothed(rows, |rows|), n) == Smoothed(rows, |rows|)
    decreases n
  {
    if n > 0 {
      SmoothingIdempotent(rows, n - 1);
      NoLoneLeft(rows, n - 1);
    }
  }

  // ---- sections ----

  function Header(phase: string): Row { Row(Section, None, 1, phase, "", "") }

  function Sectioned(rows: seq<Row>): seq<Row> {
    if rows == [] then []
    else
      var n := |rows|;
      var row := rows[n - 1];
      if n > 1 && rows[n - 2].phase == row.phase then Sectioned(rows[..n - 1]) + [row]
      else Sectioned(rows[..n - 1]) + [Header(row.phase), row]
  }

  /** The rows that are no headers. */
  function Bodies(out: seq<Row>): seq<Row> {
    if out == [] then []
    else
      var front := Bodies(out[..|out| - 1]);
      var row := out[|out| - 1];
      if row.kind.Section? then front else front + [row]
  }

  /** The phase of the last header among the first `n` rows. */
  function Under(out: seq<Row>, n: nat): Option<string>
    requires n <= |out|
  {
    if n == 0 then None else if out[n - 1].kind.Section? then Some(out[n - 1].phase) else Under(out, n - 1)
  }

  predicate NoSections(rows: seq<Row>) { forall k :: 0 <= k < |rows| ==> !rows[k].kind.Section? }

  /** What sections promise at one place: a row stands under a header of its own phase; a header differs
      from the one before and stands over a row. */
  predicate WellAt(out: seq<Row>, k: nat)
    requires k < |out|
  {
    if out[k].kind.Section? then Under(out, k) != Some(out[k].phase) && k + 1 < |out| && !out[k + 1].kind.Section?
    else Under(out, k) == Some(out[k].phase)
  }

  predicate WellSectioned(out: seq<Row>) { forall k :: 0 <= k < |out| ==> WellAt(out, k) }

  lemma {:induction false} UnderPrefix(a: seq<Row>, b: seq<Row>, n: nat)
    requires n <= |a|
    ensures Under(a + b, n) == Under(a, n)
    decreases n
  {
    if n > 0 {
      UnderPrefix(a, b, n - 1);
    }
  }

  lemma WellAtLonger(out: seq<Row>, more: seq<Row>, k: nat)
    requires k < |out| && WellAt(out, k)
    ensures WellAt(out + more, k)
  {
    UnderPrefix(out, more, k);
  }

  /** One more row under the current header. */
  lemma AppendRow(out: seq<Row>, row: Row)
    requires WellSectioned(out) && !row.kind.Section? && Under(out, |out|) == Some(row.phase)
    ensures WellSectioned(out + [row])
    ensures Under(out + [row], |out| + 1) == Some(row.phase)
  {
    var whole := out + [row];
    UnderPrefix(out, [row], |out|);
    forall k | 0 <= k < |whole|
      ensures WellAt(whole, k)
    {
      if k < |out| { WellAtLonger(out, [row], k); }
    }
  }

  /** A header and the first row under it. */
  lemma AppendSection(out: seq<Row>, row: Row)
    requires WellSectioned(out) && !row.kind.Section? && Under(out, |out|) != Some(row.phase)
    ensures WellSectioned(out + [Header(row.phase), row])
    ensures Under(out + [Header(row.phase), row], |out| + 2) == Some(row.phase)
  {
    var more := [Header(row.phase), row];
    var whole := out + more;
    UnderPrefix(out, more, |out|);
    assert Under(whole, |out| + 1) == Some(row.phase);
    forall k | 0 <= k < |whole|
      ensures WellAt(whole, k)
    {
      if k < |out| { WellAtLonger(out, more, k); }
    }
  }

  lemma BodiesAppend(out: seq<Row>, more: seq<Row>)
    requires |more| == 1 || (|more| == 2 && more[0].kind.Section?)
    requires !more[|more| - 1].kind.Section?
    ensures Bodies(out + more) == Bodies(out) + [more[|more| - 1]]
  {
    assert (out + more)[..|out + more| - 1] == out + more[..|more| - 1];
    if |more| == 2 {
      assert (out + [more[0]])[..|out|] == out;
      assert more[..1] == [more[0]];
    } else {
      assert out + more[..0] == out;
    }
  }

  lemma RowStep(out: seq<Row>, bodies: seq<Row>, row: Row)
    requires WellSectioned(out) && Bodies(out) == bodies && !row.kind.Section?
    requires Under(out, |out|) == Some(row.phase)
    ensures var more := out + [row];
            WellSectioned(more) && Bodies(more) == bodies + [row] && Under(more, |more|) == Some(row.phase)
  {
    AppendRow(out, row);
    BodiesAppend(out, [row]);
  }

  lemma SectionStep(out: seq<Row>, bodies: seq<Row>, row: Row)
    requires WellSectioned(out) && Bodies(out) == bodies && !row.kind.Section?
    requires Under(out, |out|) != Some(row.phase)
    ensures var more := out + [Header(row.phase), row];
            WellSectioned(more) && Bodies(more) == bodies + [row] && Under(more, |more|) == Some(row.phase)
  {
    AppendSection(out, row);
    BodiesAppend(out, [Header(row.phase), row]);
  }

  lemma {:induction false} SectionedHolds(rows: seq<Row>)
    requires NoSections(rows)
    ensures WellSectioned(Sectioned(rows)) && Bodies(Sectioned(rows)) == rows
    ensures rows != [] ==> Under(Sectioned(rows), |Sectioned(rows)|) == Some(rows[|rows| - 1].phase)
  {
    if rows != [] {
      var n := |rows|;
      var front := rows[..n - 1];
      var row := rows[n - 1];
      SectionedHolds(front);
      assert rows == front + [row];
      if n > 1 && rows[n - 2].phase == row.phase {
        RowStep(Sectioned(front), front, row);
      } else {
        SectionStep(Sectioned(front), front, row);
      }
    }
  }

  // ---- the whole view ----

  /** `items[-max_rows:]` when there are too many; a maximum of zero or less slices from the front. */
  function Trim<T>(rows: seq<T>, max: int): seq<T> {
    if |rows| <= max then rows
    else if max > 0 then rows[|rows| - max..]
    else rows[Min(-max, |rows|)..]
  }

  function Phased(rows: seq<Row>): seq<Row> { Smoothed(Filled(rows), |rows|) }

  function Rows(entries: seq<Entry>, details: bool, matches: Entry -> bool, sections: bool, max: int): seq<Row> {
    var items := Trim(Collapse(VisibleOf(entries, details, matches), details), max);
    if sections then Sectioned(Phased(items)) else items
  }

  lemma {:induction false} CollapseNoSections(visible: seq<Entry>, details: bool)
    requires forall k :: 0 <= k < |visible| ==> LookOf(visible[k], details).Shown?
    ensures NoSections(Collapse(visible, details))
  {
    if visible != [] {
      CollapseNoSections(visible[..|visible| - 1], details);
    }
  }

  lemma {:induction false} SameTotals(a: seq<Row>, b: seq<Row>)
    requires SameLines(a, b)
    ensures Total(a) == Total(b)
  {
    if a != [] {
      var n := |a| - 1;
      assert a[n].(phase := "").count == b[n].(phase := "").count;
      SameTotals(a[..n], b[..n]);
    }
  }

  /** Main result: under any query, the sectioned view is well sectioned, and its rows are the collapsed
      lines with nothing changed but phases; untrimmed, their counts add up to the visible lines. */
  lemma ViewConserves(entries: seq<Entry>, details: bool, matches: Entry -> bool, max: int)
    ensures var visible := VisibleOf(entries, details, matches);
            var collapsed := Collapse(visible, details);
            var out := Rows(entries, details, matches, true, max);
            && WellSectioned(out)
            && SameLines(Bodies(out), Trim(collapsed, max))
            && (|collapsed| <= max ==> Total(Bodies(out)) == |visible|)
  {
    var visible := VisibleOf(entries, details, matches);
    CollapseNoSections(visible, details);
    CollapseConserves(visible, details);
    TrimmedView(Collapse(visible, details), max, |visible|);
  }

  lemma TrimNoSections(rows: seq<Row>, max: int)
    requires NoSections(rows)
    ensures NoSections(Trim(rows, max)) && (|rows| <= max ==> Trim(rows, max) == rows)
  {
  }

  lemma TrimmedView(collapsed: seq<Row>, max: int, lines: nat)
    requires NoSections(collapsed) && Total(collapsed) == lines
    ensures var out := Sectioned(Phased(Trim(collapsed, max)));
            && WellSectioned(out)
            && SameLines(Bodies(out), Trim(collapsed, max))
            && (|collapsed| <= max ==> Total(Bodies(out)) == lines)
  {
    TrimNoSections(collapsed, max);
    ItemsConserved(Trim(collapsed, max));
  }

  /** The last passes of the view on the rows they get. */
  lemma ItemsConserved(items: seq<Row>)
    requires NoSections(items)
    ensures WellSectioned(Sectioned(Phased(items)))
    ensures SameLines(Bodies(Sectioned(Phased(items))), items)
    ensures Total(Bodies(Sectioned(Phased(items)))) == Total(items)
  {
    PhasedLines(items);
    SectionedHolds(Phased(items));
    SameTotals(Phased(items), items);
  }

  lemma PhasedLines(items: seq<Row>)
    requires NoSections(items)
    ensures SameLines(Phased(items), items) && NoSections(Phased(items))
  {
    FilledPhases(items);
    SmoothedKeeps(Filled(items), |items|);
    forall k | 0 <= k < |items|
      ensures Phased(items)[k].(phase := "") == items[k].(phase := "") && !Phased(items)[k].kind.Section?
    {
      assert Phased(items)[k].(phase := "") == Filled(items)[k].(phase := "") == items[k].(phase := "");
      assert Phased(items)[k].(phase := "").kind == items[k].(phase := "").kind;
    }
  }

  // ---- the model object ----

  function Last<T>(s: seq<T>, n: nat): seq<T> { if |s| > n then s[|s| - n..] else s }

  class LogModel {
    const limit: nat
    var entries: seq<Entry>

    constructor (limit: nat)
      ensures this.limit == limit && entries == []
    {
      this.limit := limit;
      entries := [];
    }

    /** `add`, on a line already classified. */
    method Add(entry: Entry)
      modifies this
      ensures entries == Last(old(entries) + [entry], limit)
    {
      entries := entries + [entry];
      if |entries| > limit {
        entries := entries[|entries| - limit..];
      }
    }

    /** `rows`. */
    method View(details: bool, matches: Entry -> bool, sections: bool, max: int) returns (out: seq<Row>)
      ensures out == Rows(entries, details, matches, sections, max)
    {
      var items := CollapseLoop(entries, details, matches);
      items := Trim(items, max);
      if !sections {
        return items;
      }
      items := FillLoop(items);
      items := SmoothLoop(items);
      out := SectionLoop(items);
    }
  }

  /** A line that fits the last row counts there and becomes its entry; any other starts a row. */
  method PushRow(rows: seq<Row>, entry: Entry, look: Look) returns (items: seq<Row>)
    requires look.Shown?
    ensures items == Push(rows, entry, look)
  {
    items := rows;
    var n := |items|;
    if n > 0 && items[n - 1].kind == look.kind && items[n - 1].key == look.key {
      items := items[n - 1 := items[n - 1].(count := items[n - 1].count + 1, entry := Some(entry))];
    } else {
      items := items + [NewRow(entry, look)];
    }
  }

  method CollapseLoop(entries: seq<Entry>, details: bool, matches: Entry -> bool) returns (items: seq<Row>)
    ensures items == Collapse(VisibleOf(entries, details, matches), details)
  {
    items := [];
    for i := 0 to |entries|
      invariant items == Collapse(VisibleOf(entries[..i], details, matches), details)
    {
      var entry := entries[i];
      CollapseStep(entries, details, matches, i);
      var look := LookOf(entry, details);
      if !matches(entry) || look.Hidden? {
        continue;
      }
      items := PushRow(items, entry, look);
    }
    assert entries[..|entries|] == entries;
  }

  lemma CollapseStep(entries: seq<Entry>, details: bool, matches: Entry -> bool, i: nat)
    requires i < |entries|
    ensures var before := Collapse(VisibleOf(entries[..i], details, matches), details);
            Collapse(VisibleOf(entries[..i + 1], details, matches), details)
            == if Visible(entries[i], details, matches) then Push(before, entries[i], LookOf(entries[i], details))
               else before
  {
    assert entries[..i + 1][..i] == entries[..i];
    var front := VisibleOf(entries[..i], details, matches);
    assert (front + [entries[i]])[..|front|] == front;
  }

  method FillLoop(rows: seq<Row>) returns (items: seq<Row>)
    ensures items == Filled(rows)
  {
    items := rows;
    var phase := "";
    for i := 0 to |rows|
      invariant |items| == |rows|
      invariant forall k :: 0 <= k < |rows| ==> items[k] == if k < i then Filled(rows)[k] else rows[k]
      invariant phase == if i == 0 then "" else Filled(rows)[i - 1].phase
    {
      FilledAt(rows, i);
      phase := if items[i].phase != "" then items[i].phase else if phase != "" then phase else "app";
      items := items[i := items[i].(phase := phase)];
    }
  }

  method SmoothLoop(rows: seq<Row>) returns (items: seq<Row>)
    ensures items == Smoothed(rows, |rows|)
  {
    items := rows;
    for i := 0 to |rows|
      invariant items == Smoothed(rows, i)
    {
      var row := items[i];
      if row.phase in PROTECTED {
        continue;
      }
      var j := i;
      while j < |items| && items[j].phase == row.phase
        invariant i <= j <= |items|
        invariant forall k :: i <= k < j ==> items[k].phase == row.phase
      {
        j := j + 1;
      }
      if i > 0 && j - i <= 1 && items[i - 1].phase != row.phase {
        assert j == i + 1;
        var before := items[i - 1].phase;
        var after := if j < |items| then items[j].phase else before;
        if before == after && before !in NO_JOIN {
          items := items[i := items[i].(phase := before)];
        }
      }
    }
  }

  method SectionLoop(items: seq<Row>) returns (out: seq<Row>)
    ensures out == Sectioned(items)
  {
    out := [];
    var current: Option<string> := None;
    for i := 0 to |items|
      invariant out == Sectioned(items[..i])
      invariant current == if i == 0 then None else Some(items[i - 1].phase)
    {
      assert items[..i + 1][..i] == items[..i];
      if Some(items[i].phase) != current {
        current := Some(items[i].phase);
        out := out + [Header(items[i].phase)];
      }
      out := out + [items[i]];
    }
    assert items[..|items|] == items;
  }

  /** Any run of `add` calls keeps the latest lines, in order. */
  function AddAll(limit: nat, kept: seq<Entry>, lines: seq<Entry>): seq<Entry> {
    if lines == [] then kept
    else Last(AddAll(limit, kept, lines[..|lines| - 1]) + [lines[|lines| - 1]], limit)
  }

  lemma LastSnoc<T>(s: seq<T>, e: T, n: nat)
    ensures Last(Last(s, n) + [e], n) == Last(s + [e], n)
  {
  }

  lemma {:induction false} AddAllKeepsLast(limit: nat, lines: seq<Entry>)
    ensures AddAll(limit, [], lines) == Last(lines, limit)
  {
    if lines != [] {
      AddAllKeepsLast(limit, lines[..|lines| - 1]);
      LastSnoc(lines[..|lines| - 1], lines[|lines| - 1], limit);
      assert lines == lines[..|lines| - 1] + [lines[|lines| - 1]];
    }
  }
}
