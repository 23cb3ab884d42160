/** `rewrite_extensions`: padding, GREASE and shuffling of an existing hello's extensions, with
    pre_shared_key kept last (section 4.2.11 of RFC 8446). */
module ExtensionRewrite {
  import opened Bytes
  import opened ClientHello
  import opened ExtensionNames
  import opened Permute

  const GREASE_A: u16 := 0x0A0A
  const PSK: u16 := 0x0029
  const PADDING: u16 := 0x0015

  /** The locals `names`, `by_name` and `psk` after the collecting loop. */
  datatype Slots = Slots(names: seq<string>, bodies: map<string, bytes>, psk: Option<bytes>)

  function AddSlot(t: Table, slots: Slots, e: Extension): Slots {
    if e.kind == PSK then slots.(psk := Some(e.body))
    else
      var name := FreshName(t, slots, e.kind);
      slots.(names := slots.names + [name], bodies := slots.bodies[name := e.body])
  }

  function FreshName(t: Table, slots: Slots, kind: u16): string {
    var base := t.base(kind);
    if base in slots.bodies then TwinName(base, |slots.names|) else base
  }

  function Collect(t: Table, extensions: seq<Extension>): Slots {
    if extensions == [] then Slots([], map[], None)
    else AddSlot(t, Collect(t, extensions[..|extensions| - 1]), extensions[|extensions| - 1])
  }

  function Padded(names: seq<string>): seq<string> {
    if "padding" in names then names else names + ["padding"]
  }

  function Ordered(names: seq<string>, shuffleSeed: Option<int>): seq<string> {
    if shuffleSeed.Some? then ShuffleOrder(shuffleSeed.value, names) else names
  }

  predicate HasKind(extensions: seq<Extension>, kind: u16) {
    exists k :: 0 <= k < |extensions| && extensions[k].kind == kind
  }

  function PadPart(pad: int): seq<Extension> {
    if pad > 0 then [Extension(PADDING, Zeros(Min(pad, 2048)))] else []
  }

  function GreasePart(grease: bool, extensions: seq<Extension>): seq<Extension> {
    if grease && !HasKind(extensions, GREASE_A) then [Extension(GREASE_A, [0])] else []
  }

  function PskPart(psk: Option<bytes>): seq<Extension> {
    if psk.Some? then [Extension(PSK, psk.value)] else []
  }

  /** What one name contributes to the output; every name but "padding" has a stored body. */
  function EmitName(t: Table, name: string, bodies: map<string, bytes>, pad: int): seq<Extension> {
    if name == "padding" then PadPart(pad)
    else if name in bodies then [Extension(t.kind(Before(name)), bodies[name])]
    else []
  }

  function Emitter(t: Table, bodies: map<string, bytes>, pad: int): string -> seq<Extension> {
    name => EmitName(t, name, bodies, pad)
  }

  /** The extensions between GREASE and pre_shared_key. */
  function Middle(t: Table, extensions: seq<Extension>, pad: int, shuffleSeed: Option<int>): seq<Extension> {
    var slots := Collect(t, extensions);
    FlatMap(Emitter(t, slots.bodies, pad), Ordered(Padded(slots.names), shuffleSeed))
  }

  function Rewritten(t: Table, extensions: seq<Extension>, pad: int, grease: bool,
                     shuffleSeed: Option<int>): seq<Extension>
  {
    GreasePart(grease, extensions) + Middle(t, extensions, pad, shuffleSeed) + PskPart(Collect(t, extensions).psk)
  }

  // ---- the naming pass ----

  predicate PlainOrTwin(t: Table, name: string, kind: u16, position: nat) {
    name == t.base(kind) || name == TwinName(t.base(kind), position)
  }

  function OfKind(extensions: seq<Extension>, kind: u16): seq<Extension> {
    if extensions == [] then []
    else
      var (e, rest) := (extensions[0], OfKind(extensions[1..], kind));
      if e.kind == kind then [e] + rest else rest
  }

  function Without(extensions: seq<Extension>, kind: u16): seq<Extension> {
    if extensions == [] then []
    else
      var (e, rest) := (extensions[0], Without(extensions[1..], kind));
      if e.kind == kind then rest else [e] + rest
  }

  lemma {:induction false} OfKindAppend(a: seq<Extension>, b: seq<Extension>, kind: u16)
    ensures OfKind(a + b, kind) == OfKind(a, kind) + OfKind(b, kind)
  {
    if a == [] {
      assert a + b == b;
    } else {
      assert (a + b)[1..] == a[1..] + b;
      OfKindAppend(a[1..], b, kind);
    }
  }

  lemma {:induction false} WithoutAppend(a: seq<Extension>, b: seq<Extension>, kind: u16)
    ensures Without(a + b, kind) == Without(a, kind) + Without(b, kind)
  {
    if a == [] {
      assert a + b == b;
    } else {
      assert (a + b)[1..] == a[1..] + b;
      WithoutAppend(a[1..], b, kind);
    }
  }

  lemma KindsAppend(a: seq<Extension>, b: seq<Extension>, kind: u16)
    ensures OfKind(a + b, kind) == OfKind(a, kind) + OfKind(b, kind)
    ensures Without(a + b, kind) == Without(a, kind) + Without(b, kind)
  {
    OfKindAppend(a, b, kind);
    WithoutAppend(a, b, kind);
  }

  lemma SnocKinds(init: seq<Extension>, e: Extension, kind: u16)
    ensures OfKind(init + [e], kind) == if e.kind == kind then OfKind(init, kind) + [e] else OfKind(init, kind)
    ensures Without(init + [e], kind) == if e.kind == kind then Without(init, kind) else Without(init, kind) + [e]
  {
    KindsAppend(init, [e], kind);
    var one, none: seq<Extension> := [e], [];
    assert one[1..] == none;
  }

  /** Names are unique, and position by position they stand for the extensions that were read. */
  ghost predicate Names(t: Table, slots: Slots, kept: seq<Extension>) {
    && |slots.names| == |kept|
    && Distinct(slots.names)
    && slots.bodies.Keys == (set k | 0 <= k < |slots.names| :: slots.names[k])
    && (forall k :: 0 <= k < |kept| ==>
          && PlainOrTwin(t, slots.names[k], kept[k].kind, k)
          && slots.names[k] in slots.bodies && slots.bodies[slots.names[k]] == kept[k].body)
    && (forall k :: FirstPadding(kept, k) ==> slots.names[k] == "padding")
  }

  /** The first padding extension of the list sits at k. */
  predicate FirstPadding(kept: seq<Extension>, k: int) {
    0 <= k < |kept| && kept[k].kind == PADDING && forall j :: 0 <= j < k ==> kept[j].kind != PADDING
  }

  lemma FreshNameIsFresh(t: Table, slots: Slots, kept: seq<Extension>, kind: u16)
    requires Sound(t)
    requires Names(t, slots, kept)
    ensures FreshName(t, slots, kind) !in slots.bodies
    ensures PlainOrTwin(t, FreshName(t, slots, kind), kind, |slots.names|)
  {
    var base := t.base(kind);
    if base in slots.bodies && TwinName(base, |slots.names|) in slots.bodies {
      var k :| 0 <= k < |kept| && slots.names[k] == TwinName(base, |slots.names|);
      TwinNamesDiffer(base, |slots.names|, t.base(kept[k].kind), k);
    }
  }

  lemma {:induction false} CollectNames(t: Table, extensions: seq<Extension>)
    requires Sound(t)
    ensures Names(t, Collect(t, extensions), Without(extensions, PSK))
  {
    if extensions != [] {
      var init := extensions[..|extensions| - 1];
      var e := extensions[|extensions| - 1];
      assert extensions == init + [e];
      SnocKinds(init, e, PSK);
      CollectNames(t, init);
      if e.kind != PSK {
        AddKeepsNames(t, Collect(t, init), Without(init, PSK), e);
      } else {
        assert Without(init, PSK) + [] == Without(init, PSK);
      }
    }
  }

  lemma AddKeepsNames(t: Table, slots: Slots, kept: seq<Extension>, e: Extension)
    requires Sound(t)
    requires Names(t, slots, kept) && e.kind != PSK
    ensures Names(t, AddSlot(t, slots, e), kept + [e])
  {
    var name := FreshName(t, slots, e.kind);
    FreshNameIsFresh(t, slots, kept, e.kind);
    AddedKeys(slots.names, slots.bodies, name, e.body);
    AddedDistinct(slots, name);
    AddedBodies(t, slots, kept, e, name);
    forall k | FirstPadding(kept + [e], k) ensures AddSlot(t, slots, e).names[k] == "padding" {
      AddKeepsFirstPadding(t, slots, kept, e, k);
    }
  }

  lemma AddedDistinct(slots: Slots, name: string)
    requires Distinct(slots.names) && name !in slots.bodies
    requires forall k :: 0 <= k < |slots.names| ==> slots.names[k] in slots.bodies
    ensures Distinct(slots.names + [name])
  {
  }

  lemma AddedBodies(t: Table, slots: Slots, kept: seq<Extension>, e: Extension, name: string)
    requires Names(t, slots, kept) && name !in slots.bodies && PlainOrTwin(t, name, e.kind, |slots.names|)
    ensures var names := slots.names + [name];
            var bodies := slots.bodies[name := e.body];
            var all := kept + [e];
            forall k :: 0 <= k < |all| ==>
              && PlainOrTwin(t, names[k], all[k].kind, k) && names[k] in bodies && bodies[names[k]] == all[k].body
  {
  }

  lemma AddedKeys(names: seq<string>, bodies: map<string, bytes>, name: string, body: bytes)
    requires bodies.Keys == (set k | 0 <= k < |names| :: names[k])
    ensures var more := names + [name];
            bodies[name := body].Keys == (set k | 0 <= k < |more| :: more[k])
  {
    var more := names + [name];
    var prior := set k | 0 <= k < |names| :: names[k];
    forall x | x in prior ensures x in (set k | 0 <= k < |more| :: more[k]) {
      var k :| 0 <= k < |names| && names[k] == x;
      assert more[k] == x;
    }
    assert more[|names|] == name;
    forall k | 0 <= k < |more| ensures more[k] in bodies[name := body].Keys {
      if k < |names| {
        assert names[k] in prior;
      }
    }
  }

  lemma NoPaddingName(t: Table, slots: Slots, kept: seq<Extension>)
    requires Sound(t)
    requires Names(t, slots, kept)
    requires forall j :: 0 <= j < |kept| ==> kept[j].kind != PADDING
    ensures "padding" !in slots.bodies
  {
    forall j | 0 <= j < |kept| ensures slots.names[j] != "padding" {
      NameMeansKind(t, slots.names[j], kept[j].kind, j);
    }
  }

  lemma PlainWhenFree(t: Table, slots: Slots, e: Extension)
    requires Sound(t)
    requires e.kind == PADDING && "padding" !in slots.bodies
    ensures AddSlot(t, slots, e).names == slots.names + ["padding"]
  {
    assert t.base(e.kind) == "padding";
  }

  lemma FirstPaddingSnoc(kept: seq<Extension>, e: Extension, k: nat)
    requires FirstPadding(kept + [e], k)
    ensures k < |kept| ==> FirstPadding(kept, k)
    ensures k >= |kept| ==> k == |kept| && e.kind == PADDING && forall j :: 0 <= j < |kept| ==> kept[j].kind != PADDING
  {
    var more := kept + [e];
    assert forall j :: 0 <= j < |kept| ==> more[j] == kept[j];
  }

  lemma AddKeepsFirstPadding(t: Table, slots: Slots, kept: seq<Extension>, e: Extension, k: nat)
    requires Sound(t)
    requires Names(t, slots, kept) && e.kind != PSK
    requires FirstPadding(kept + [e], k)
    ensures AddSlot(t, slots, e).names[k] == "padding"
  {
    FirstPaddingSnoc(kept, e, k);
    if k < |kept| {
      assert slots.names[k] == "padding";
    } else {
      NoPaddingName(t, slots, kept);
      PlainWhenFree(t, slots, e);
    }
  }

  lemma NameMeansKind(t: Table, name: string, kind: u16, position: nat)
    requires Sound(t)
    requires PlainOrTwin(t, name, kind, position)
    ensures t.kind(Before(name)) == kind
    ensures name != "grease"
    ensures name == "padding" ==> kind == PADDING
  {
    BeforePlain(t.base(kind));
    BeforeTwin(t.base(kind), Decimal(position));
    if name == TwinName(t.base(kind), position) {
      assert name[|t.base(kind)|] == '#';
      assert '#' in name && '#' !in "padding" && '#' !in "grease";
    }
  }

  lemma OrderedKeepsElements(names: seq<string>, shuffleSeed: Option<int>)
    ensures multiset(Ordered(names, shuffleSeed)) == multiset(names)
  {
    if shuffleSeed.Some? {
      ShuffleKeepsElements(names, shuffleSeed.value % WORD);
    }
  }

  /** No extension is ever named "grease", so the guard on that name never fires. */
  lemma NoGreaseName(t: Table, extensions: seq<Extension>, shuffleSeed: Option<int>)
    requires Sound(t)
    ensures "grease" !in Ordered(Padded(Collect(t, extensions).names), shuffleSeed)
    ensures forall name :: name in Ordered(Padded(Collect(t, extensions).names), shuffleSeed) ==>
              name == "padding" || name in Collect(t, extensions).bodies
  {
    var slots, kept := Collect(t, extensions), Without(extensions, PSK);
    var padded := Padded(slots.names);
    var order := Ordered(padded, shuffleSeed);
    CollectNames(t, extensions);
    OrderedKeepsElements(padded, shuffleSeed);
    forall name | name in order
      ensures name != "grease"
      ensures name == "padding" || name in slots.bodies
    {
      assert name in multiset(order) && name in padded;
      if name in slots.names {
        assert name in slots.bodies;
        var k :| 0 <= k < |kept| && slots.names[k] == name;
        NameMeansKind(t, name, kept[k].kind, k);
      }
    }
  }

  // ---- the loops ----

  method RewriteExtensions(t: Table, extensions: seq<Extension>, pad: int, grease: bool, shuffleSeed: Option<int>)
    returns (out: seq<Extension>)
    requires Sound(t)
    ensures out == Rewritten(t, extensions, pad, grease, shuffleSeed)
  {
    var slots := CollectSlots(t, extensions);
    NoGreaseName(t, extensions, shuffleSeed);
    var names := slots.names;
    if "padding" !in names {
      names := names + ["padding"];
    }
    if shuffleSeed.Some? {
      var order := new string[|names|](k requires 0 <= k < |names| => names[k]);
      assert order[..] == names;
      ShuffleInPlace(order, shuffleSeed.value % WORD);
      names := order[..];
    }
    out := [];
    if grease && "grease" !in names && !HasKind(extensions, GREASE_A) {
      out := [Extension(GREASE_A, [0])];
    }
    var middle := EmitLoop(t, names, slots.bodies, pad);
    out := out + middle;
    if slots.psk.Some? {
      out := out + [Extension(PSK, slots.psk.value)];
    }
  }

  method EmitLoop(t: Table, names: seq<string>, bodies: map<string, bytes>, pad: int) returns (out: seq<Extension>)
    ensures out == FlatMap(Emitter(t, bodies, pad), names)
  {
    ghost var f := Emitter(t, bodies, pad);
    out := [];
    var i := 0;
    while i < |names|
      invariant 0 <= i <= |names|
      invariant out == FlatMap(f, names[..i])
    {
      FlatMapAppend(f, names[..i], [names[i]]);
      FlatMapOne(f, names[i]);
      assert names[..i + 1] == names[..i] + [names[i]];
      out := out + EmitName(t, names[i], bodies, pad);
      i := i + 1;
    }
    assert names[..i] == names;
  }

  method CollectSlots(t: Table, extensions: seq<Extension>) returns (slots: Slots)
    ensures slots == Collect(t, extensions)
  {
    var names: seq<string> := [];
    var byName: map<string, bytes> := map[];
    var psk: Option<bytes> := None;
    var i := 0;
    while i < |extensions|
      invariant 0 <= i <= |extensions|
      invariant Slots(names, byName, psk) == Collect(t, extensions[..i])
    {
      var e := extensions[i];
      assert extensions[..i + 1][..i] == extensions[..i];
      if e.kind == PSK {
        psk := Some(e.body);
      } else {
        var name := t.base(e.kind);
        if name in byName {
          name := TwinName(name, |names|);
        }
        names := names + [name];
        byName := byName[name := e.body];
      }
      i := i + 1;
    }
    assert extensions[..i] == extensions;
    return Slots(names, byName, psk);
  }

  // ---- what comes out ----

  /** The list without its first padding extension, the one rewritten as requested. */
  function DropFirstPadding(kept: seq<Extension>): seq<Extension> {
    if kept == [] then []
    else if kept[0].kind == PADDING then kept[1..]
    else [kept[0]] + DropFirstPadding(kept[1..])
  }

  lemma {:induction false} DropFirstAt(kept: seq<Extension>, k: nat)
    requires FirstPadding(kept, k)
    ensures DropFirstPadding(kept) == kept[..k] + kept[k + 1..]
  {
    if k > 0 {
      assert FirstPadding(kept[1..], k - 1);
      DropFirstAt(kept[1..], k - 1);
      assert kept[1..][..k - 1] == kept[1..k] && kept[1..][k..] == kept[k + 1..];
      assert [kept[0]] + kept[1..k] == kept[..k];
    }
  }

  lemma {:induction false} NothingToDrop(kept: seq<Extension>)
    requires forall k :: 0 <= k < |kept| ==> kept[k].kind != PADDING
    ensures DropFirstPadding(kept) == kept
  {
    if kept != [] {
      NothingToDrop(kept[1..]);
    }
  }

  lemma EmitsItsExtension(t: Table, extensions: seq<Extension>, pad: int, k: nat)
    requires Sound(t)
    requires var slots := Collect(t, extensions); k < |slots.names| && slots.names[k] != "padding"
    ensures k < |Without(extensions, PSK)|
    ensures Emitter(t, Collect(t, extensions).bodies, pad)(Collect(t, extensions).names[k])
         == [Without(extensions, PSK)[k]]
  {
    CollectNames(t, extensions);
    var slots, kept := Collect(t, extensions), Without(extensions, PSK);
    NameMeansKind(t, slots.names[k], kept[k].kind, k);
  }

  /** Where the padding goes when nothing is shuffled: in place of the first padding extension, or
      at the end of the list. */
  function Refilled(kept: seq<Extension>, pad: int): seq<Extension> {
    if kept == [] then PadPart(pad)
    else if kept[0].kind == PADDING then PadPart(pad) + kept[1..]
    else [kept[0]] + Refilled(kept[1..], pad)
  }

  lemma {:induction false} RefilledAt(kept: seq<Extension>, pad: int, k: nat)
    requires k <= |kept|
    requires forall j :: 0 <= j < k ==> kept[j].kind != PADDING
    requires k < |kept| ==> kept[k].kind == PADDING
    ensures Refilled(kept, pad) == kept[..k] + PadPart(pad) + if k < |kept| then kept[k + 1..] else []
  {
    if k > 0 {
      RefilledAt(kept[1..], pad, k - 1);
      assert kept[1..][..k - 1] == kept[1..k];
      assert [kept[0]] + kept[1..k] == kept[..k];
      if k < |kept| {
        assert kept[1..][k..] == kept[k + 1..];
      }
    }
  }

  lemma {:induction false} FirstPaddingOf(kept: seq<Extension>) returns (k: nat)
    ensures k <= |kept|
    ensures forall j :: 0 <= j < k ==> kept[j].kind != PADDING
    ensures k < |kept| ==> FirstPadding(kept, k)
  {
    k := 0;
    while k < |kept| && kept[k].kind != PADDING
      invariant k <= |kept|
      invariant forall j :: 0 <= j < k ==> kept[j].kind != PADDING
    {
      k := k + 1;
    }
  }

  lemma RefillByName(f: string -> seq<Extension>, names: seq<string>, kept: seq<Extension>, pad: int, k: nat)
    requires |names| == |kept| && k <= |kept|
    requires forall j :: 0 <= j < |names| && j != k ==> f(names[j]) == [kept[j]]
    requires f("padding") == PadPart(pad)
    requires k < |kept| ==> names[k] == "padding"
    ensures FlatMap(f, if k < |kept| then names else names + ["padding"])
         == kept[..k] + PadPart(pad) + if k < |kept| then kept[k + 1..] else []
  {
    if k < |kept| {
      ReplaceAt(f, names, kept, k);
    } else {
      AppendLast(f, names, kept, "padding");
      assert kept[..k] == kept;
    }
  }

  lemma ReplaceAt(f: string -> seq<Extension>, names: seq<string>, kept: seq<Extension>, k: nat)
    requires |names| == |kept| && k < |kept|
    requires forall j :: 0 <= j < |names| && j != k ==> f(names[j]) == [kept[j]]
    ensures FlatMap(f, names) == kept[..k] + f(names[k]) + kept[k + 1..]
  {
    FlatMapSingletons(f, names[k + 1..], kept[k + 1..]);
    SplitAround(f, names, kept[..k], k);
  }

  lemma AppendLast(f: string -> seq<Extension>, names: seq<string>, kept: seq<Extension>, last: string)
    requires |names| == |kept|
    requires forall j :: 0 <= j < |names| ==> f(names[j]) == [kept[j]]
    ensures FlatMap(f, names + [last]) == kept + f(last)
  {
    FlatMapAppend(f, names, [last]);
    FlatMapSingletons(f, names, kept);
    FlatMapOne(f, last);
  }

  lemma SplitAround(f: string -> seq<Extension>, names: seq<string>, before: seq<Extension>, k: nat)
    requires k < |names| && |before| == k
    requires forall j :: 0 <= j < k ==> f(names[j]) == [before[j]]
    ensures FlatMap(f, names) == before + f(names[k]) + FlatMap(f, names[k + 1..])
  {
    FlatMapAt(f, names, k);
    FlatMapSingletons(f, names[..k], before);
  }

  /** The plain name "padding" is taken by the first padding extension and by nothing else. */
  lemma PaddingNameIsFirst(t: Table, extensions: seq<Extension>, k: nat)
    requires Sound(t)
    requires var kept := Without(extensions, PSK);
             && k <= |kept| && (forall j :: 0 <= j < k ==> kept[j].kind != PADDING)
             && (k < |kept| ==> FirstPadding(kept, k))
    ensures |Collect(t, extensions).names| == |Without(extensions, PSK)|
    ensures forall j :: 0 <= j < |Collect(t, extensions).names| ==>
              (Collect(t, extensions).names[j] == "padding" <==> j == k)
  {
    CollectNames(t, extensions);
    var names, kept := Collect(t, extensions).names, Without(extensions, PSK);
    forall j | 0 <= j < |names|
      ensures names[j] == "padding" <==> j == k
    {
      if names[j] == "padding" {
        NameMeansKind(t, names[j], kept[j].kind, j);
      }
    }
  }

  lemma OthersEmitThemselves(t: Table, extensions: seq<Extension>, pad: int, k: nat, slots: Slots,
                             kept: seq<Extension>, f: string -> seq<Extension>)
    requires Sound(t)
    requires slots == Collect(t, extensions) && kept == Without(extensions, PSK) && |slots.names| == |kept|
    requires forall j :: 0 <= j < |slots.names| ==> (slots.names[j] == "padding" <==> j == k)
    requires f == Emitter(t, slots.bodies, pad)
    ensures forall j :: 0 <= j < |slots.names| && j != k ==> f(slots.names[j]) == [kept[j]]
  {
    forall j | 0 <= j < |slots.names| && j != k
      ensures f(slots.names[j]) == [kept[j]]
    {
      EmitsItsExtension(t, extensions, pad, j);
    }
  }

  lemma PaddedNames(names: seq<string>, k: nat)
    requires k <= |names| && forall j :: 0 <= j < |names| ==> (names[j] == "padding" <==> j == k)
    ensures Padded(names) == if k < |names| then names else names + ["padding"]
    ensures k < |names| ==> names[k] == "padding"
  {
  }

  lemma PadEmitted(t: Table, bodies: map<string, bytes>, pad: int, f: string -> seq<Extension>)
    requires f == Emitter(t, bodies, pad)
    ensures f("padding") == PadPart(pad)
  {
  }

  /** Without a shuffle the extensions keep their order and bodies. */
  lemma UnshuffledKeepsOrder(t: Table, extensions: seq<Extension>, pad: int)
    requires Sound(t)
    ensures Middle(t, extensions, pad, None) == Refilled(Without(extensions, PSK), pad)
  {
    var slots, kept := Collect(t, extensions), Without(extensions, PSK);
    var f := Emitter(t, slots.bodies, pad);
    var k := FirstPaddingOf(kept);
    PaddingNameIsFirst(t, extensions, k);
    OthersEmitThemselves(t, extensions, pad, k, slots, kept, f);
    RefilledAt(kept, pad, k);
    PadEmitted(t, slots.bodies, pad, f);
    PaddedNames(slots.names, k);
    RefillByName(f, slots.names, kept, pad, k);
  }

  /** Every seed: the middle holds each kept extension once with its body unchanged, the first
      padding extension replaced by the requested padding. */
  lemma MiddleContents(t: Table, extensions: seq<Extension>, pad: int, shuffleSeed: Option<int>)
    requires Sound(t)
    ensures multiset(Middle(t, extensions, pad, shuffleSeed))
         == multiset(DropFirstPadding(Without(extensions, PSK))) + multiset(PadPart(pad))
  {
    var slots, kept := Collect(t, extensions), Without(extensions, PSK);
    var padded := Padded(slots.names);
    OrderedKeepsElements(padded, shuffleSeed);
    FlatMapIgnoresOrder(Emitter(t, slots.bodies, pad), Ordered(padded, shuffleSeed), padded);
    UnshuffledKeepsOrder(t, extensions, pad);
    RefilledContents(kept, pad);
  }

  lemma RefilledContents(kept: seq<Extension>, pad: int)
    ensures multiset(Refilled(kept, pad)) == multiset(DropFirstPadding(kept)) + multiset(PadPart(pad))
  {
    var k := FirstPaddingOf(kept);
    RefilledAt(kept, pad, k);
    if k < |kept| {
      DropFirstAt(kept, k);
      AroundContents(kept[..k], PadPart(pad), kept[k + 1..]);
    } else {
      NothingToDrop(kept);
      assert kept[..k] == kept && kept + PadPart(pad) + [] == kept + PadPart(pad);
    }
  }

  lemma AroundContents(a: seq<Extension>, b: seq<Extension>, c: seq<Extension>)
    ensures multiset(a + b + c) == multiset(a + c) + multiset(b)
  {
  }

  // ---- the exact condition under which rewriting is a permutation plus the named additions ----

  /** All non-padding extensions, the requested padding, and GREASE when asked for and absent. */
  function Promised(extensions: seq<Extension>, pad: int, grease: bool): seq<Extension> {
    Without(extensions, PADDING) + GreasePart(grease, extensions) + PadPart(pad)
  }

  lemma {:induction false} LastPskKept(t: Table, extensions: seq<Extension>)
    ensures PskPart(Collect(t, extensions).psk) == LastOf(OfKind(extensions, PSK))
  {
    if extensions != [] {
      var init := extensions[..|extensions| - 1];
      var e := extensions[|extensions| - 1];
      assert extensions == init + [e];
      LastPskKept(t, init);
      SnocKinds(init, e, PSK);
    }
  }

  function LastOf(list: seq<Extension>): seq<Extension> {
    if list == [] then [] else [list[|list| - 1]]
  }

  lemma {:induction false} KindsSplit(extensions: seq<Extension>, kind: u16)
    ensures multiset(extensions) == multiset(Without(extensions, kind)) + multiset(OfKind(extensions, kind))
    ensures OfKind(Without(extensions, kind), kind) == []
  {
    if extensions != [] {
      var e, rest := extensions[0], extensions[1..];
      KindsSplit(rest, kind);
      assert extensions == [e] + rest;
      assert multiset(extensions) == multiset{e} + multiset(rest);
      ConsKinds(e, Without(rest, kind), kind);
    }
  }

  lemma {:induction false} KindsCommute(extensions: seq<Extension>, a: u16, b: u16)
    requires a != b
    ensures OfKind(Without(extensions, b), a) == OfKind(extensions, a)
    ensures Without(Without(extensions, b), a) == Without(Without(extensions, a), b)
  {
    if extensions != [] {
      var e, rest := extensions[0], extensions[1..];
      KindsCommute(rest, a, b);
      ConsKinds(e, Without(rest, b), a);
      ConsKinds(e, Without(rest, a), b);
    }
  }

  lemma {:induction false} OfKindIsFilter(extensions: seq<Extension>, kind: u16, f: Extension -> seq<Extension>)
    requires forall e :: f(e) == if e.kind == kind then [e] else []
    ensures OfKind(extensions, kind) == FlatMap(f, extensions)
  {
    if extensions != [] {
      OfKindIsFilter(extensions[1..], kind, f);
    }
  }

  lemma SameKinds(a: seq<Extension>, b: seq<Extension>, kind: u16)
    requires multiset(a) == multiset(b)
    ensures |OfKind(a, kind)| == |OfKind(b, kind)|
  {
    var f := (e: Extension) => if e.kind == kind then [e] else [];
    OfKindIsFilter(a, kind, f);
    OfKindIsFilter(b, kind, f);
    FlatMapIgnoresOrder(f, a, b);
    assert |multiset(OfKind(a, kind))| == |multiset(OfKind(b, kind))|;
  }

  lemma ConsKinds(e: Extension, rest: seq<Extension>, kind: u16)
    ensures OfKind([e] + rest, kind) == if e.kind == kind then [e] + OfKind(rest, kind) else OfKind(rest, kind)
    ensures Without([e] + rest, kind) == if e.kind == kind then Without(rest, kind) else [e] + Without(rest, kind)
  {
    assert ([e] + rest)[1..] == rest;
  }

  lemma {:induction false} DropFirstCounts(kept: seq<Extension>)
    ensures Without(DropFirstPadding(kept), PADDING) == Without(kept, PADDING)
    ensures |OfKind(DropFirstPadding(kept), PADDING)| == Max(0, |OfKind(kept, PADDING)| - 1)
    ensures OfKind(DropFirstPadding(kept), PSK) == OfKind(kept, PSK)
  {
    if kept != [] {
      var e, rest := kept[0], kept[1..];
      assert kept == [e] + rest;
      ConsKinds(e, rest, PADDING);
      ConsKinds(e, rest, PSK);
      if e.kind != PADDING {
        DropFirstCounts(rest);
        ConsKinds(e, DropFirstPadding(rest), PADDING);
        ConsKinds(e, DropFirstPadding(rest), PSK);
      }
    }
  }

  lemma {:induction false} NoneMeansAll(extensions: seq<Extension>, kind: u16)
    requires OfKind(extensions, kind) == []
    ensures Without(extensions, kind) == extensions
  {
    if extensions != [] {
      var e, rest := extensions[0], extensions[1..];
      assert extensions == [e] + rest;
      ConsKinds(e, rest, kind);
      NoneMeansAll(rest, kind);
    }
  }

  /** The output's pre_shared_key and padding entries, counted. */
  lemma RewrittenCounts(t: Table, extensions: seq<Extension>, pad: int, grease: bool, shuffleSeed: Option<int>)
    requires Sound(t)
    ensures var out := Rewritten(t, extensions, pad, grease, shuffleSeed);
            && |OfKind(out, PSK)| == Min(1, |OfKind(extensions, PSK)|)
            && |OfKind(out, PADDING)| == |PadPart(pad)| + Max(0, |OfKind(extensions, PADDING)| - 1)
  {
    var kept := Without(extensions, PSK);
    var middle := Middle(t, extensions, pad, shuffleSeed);
    var first := GreasePart(grease, extensions);
    var last := PskPart(Collect(t, extensions).psk);
    MiddleContents(t, extensions, pad, shuffleSeed);
    LastPskKept(t, extensions);
    KindsSplit(extensions, PSK);
    KindsCommute(extensions, PADDING, PSK);
    DropFirstCounts(kept);
    CountAround(first, middle, last, kept, pad, PSK);
    CountAround(first, middle, last, kept, pad, PADDING);
    SinglesOfKind(last, PSK);
    SinglesOfKind(last, PADDING);
    SinglesOfKind(PadPart(pad), PSK);
    SinglesOfKind(PadPart(pad), PADDING);
  }

  lemma CountAround(first: seq<Extension>, middle: seq<Extension>, last: seq<Extension>,
                    kept: seq<Extension>, pad: int, kind: u16)
    requires multiset(middle) == multiset(DropFirstPadding(kept)) + multiset(PadPart(pad))
    requires |first| <= 1 && (first != [] ==> first[0].kind != kind)
    ensures |OfKind(first + middle + last, kind)|
         == |OfKind(DropFirstPadding(kept), kind)| + |OfKind(PadPart(pad), kind)| + |OfKind(last, kind)|
  {
    SameKinds(middle, DropFirstPadding(kept) + PadPart(pad), kind);
    KindsAppend(DropFirstPadding(kept), PadPart(pad), kind);
    KindsAppend(first + middle, last, kind);
    KindsAppend(first, middle, kind);
    SinglesOfKind(first, kind);
  }

  lemma SinglesOfKind(part: seq<Extension>, kind: u16)
    requires |part| <= 1
    ensures OfKind(part, kind) == if part != [] && part[0].kind == kind then part else []
  {
    if part != [] {
      var none: seq<Extension> := [];
      assert part[1..] == none && part == [part[0]] + none;
    }
  }

  /** Rewriting is a permutation plus the named additions exactly when the hello carries at most one
      padding and at most one pre_shared_key extension. A second padding extension is kept under a
      numbered name, and of several pre_shared_key extensions only the last survives. */
  lemma RewriteIsPermutationIff(t: Table, extensions: seq<Extension>, pad: int, grease: bool, shuffleSeed: Option<int>)
    requires Sound(t)
    ensures multiset(Rewritten(t, extensions, pad, grease, shuffleSeed)) == multiset(Promised(extensions, pad, grease))
       <==> |OfKind(extensions, PADDING)| <= 1 && |OfKind(extensions, PSK)| <= 1
  {
    if |OfKind(extensions, PADDING)| <= 1 && |OfKind(extensions, PSK)| <= 1 {
      WellFormedRewrite(t, extensions, pad, grease, shuffleSeed);
    } else {
      DoubledNotPermuted(t, extensions, pad, grease, shuffleSeed);
    }
  }

  lemma DoubledNotPermuted(t: Table, extensions: seq<Extension>, pad: int, grease: bool, shuffleSeed: Option<int>)
    requires Sound(t)
    requires |OfKind(extensions, PADDING)| > 1 || |OfKind(extensions, PSK)| > 1
    ensures multiset(Rewritten(t, extensions, pad, grease, shuffleSeed)) != multiset(Promised(extensions, pad, grease))
  {
    RewrittenCounts(t, extensions, pad, grease, shuffleSeed);
    PromisedCounts(extensions, pad, grease);
    CountsDiffer(Rewritten(t, extensions, pad, grease, shuffleSeed), Promised(extensions, pad, grease));
  }

  lemma CountsDiffer(out: seq<Extension>, promised: seq<Extension>)
    requires |OfKind(out, PADDING)| != |OfKind(promised, PADDING)| || |OfKind(out, PSK)| != |OfKind(promised, PSK)|
    ensures multiset(out) != multiset(promised)
  {
    if multiset(out) == multiset(promised) {
      SameKinds(out, promised, PADDING);
      SameKinds(out, promised, PSK);
    }
  }

  lemma PromisedCounts(extensions: seq<Extension>, pad: int, grease: bool)
    ensures |OfKind(Promised(extensions, pad, grease), PSK)| == |OfKind(extensions, PSK)|
    ensures |OfKind(Promised(extensions, pad, grease), PADDING)| == |PadPart(pad)|
  {
    var core, first, fill := Without(extensions, PADDING), GreasePart(grease, extensions), PadPart(pad);
    KindsSplit(extensions, PADDING);
    KindsCommute(extensions, PSK, PADDING);
    PartsOfKind(core, first, fill, PSK);
    PartsOfKind(core, first, fill, PADDING);
    SinglesOfKind(fill, PSK);
    SinglesOfKind(fill, PADDING);
  }

  lemma PartsOfKind(core: seq<Extension>, first: seq<Extension>, fill: seq<Extension>, kind: u16)
    requires |first| <= 1 && (first != [] ==> first[0].kind != kind)
    ensures OfKind(core + first + fill, kind) == OfKind(core, kind) + OfKind(fill, kind)
  {
    KindsAppend(core + first, fill, kind);
    KindsAppend(core, first, kind);
    SinglesOfKind(first, kind);
  }

  lemma WellFormedRewrite(t: Table, extensions: seq<Extension>, pad: int, grease: bool, shuffleSeed: Option<int>)
    requires Sound(t)
    requires |OfKind(extensions, PADDING)| <= 1 && |OfKind(extensions, PSK)| <= 1
    ensures multiset(Rewritten(t, extensions, pad, grease, shuffleSeed)) == multiset(Promised(extensions, pad, grease))
  {
    var kept, psks := Without(extensions, PSK), OfKind(extensions, PSK);
    LastPskKept(t, extensions);
    assert LastOf(psks) == psks;
    MiddleContents(t, extensions, pad, shuffleSeed);
    DropIsWithout(extensions);
    KindsCommute(extensions, PSK, PADDING);
    KindsSplit(Without(extensions, PADDING), PSK);
    Regroup(GreasePart(grease, extensions), Middle(t, extensions, pad, shuffleSeed), psks,
            Without(kept, PADDING), PadPart(pad), Without(extensions, PADDING));
  }

  lemma Regroup(first: seq<Extension>, middle: seq<Extension>, last: seq<Extension>,
                core: seq<Extension>, fill: seq<Extension>, all: seq<Extension>)
    requires multiset(middle) == multiset(core) + multiset(fill)
    requires multiset(all) == multiset(core) + multiset(last)
    ensures multiset(first + middle + last) == multiset(all + first + fill)
  {
    assert multiset(first + middle + last) == multiset(first) + multiset(middle) + multiset(last);
    assert multiset(all + first + fill) == multiset(all) + multiset(first) + multiset(fill);
  }

  lemma DropIsWithout(extensions: seq<Extension>)
    requires |OfKind(extensions, PADDING)| <= 1
    ensures DropFirstPadding(Without(extensions, PSK)) == Without(Without(extensions, PSK), PADDING)
  {
    var kept := Without(extensions, PSK);
    KindsCommute(extensions, PADDING, PSK);
    DropFirstCounts(kept);
    NoneMeansAll(DropFirstPadding(kept), PADDING);
  }

  // ---- the same facts for the app's own name table ----

  function Rewrite(extensions: seq<Extension>, pad: int, grease: bool, shuffleSeed: Option<int>): seq<Extension> {
    Rewritten(ExtNames(), extensions, pad, grease, shuffleSeed)
  }

  /** Main result on rewriting: GREASE comes first when it is added, a pre_shared_key comes last and
      only there, and the whole is the promised multiset exactly when nothing is doubled. */
  lemma RewritePromise(extensions: seq<Extension>, pad: int, grease: bool, shuffleSeed: Option<int>)
    ensures var out := Rewrite(extensions, pad, grease, shuffleSeed);
            && (multiset(out) == multiset(Promised(extensions, pad, grease))
                <==> |OfKind(extensions, PADDING)| <= 1 && |OfKind(extensions, PSK)| <= 1)
            && (grease && !HasKind(extensions, GREASE_A) ==> out != [] && out[0] == Extension(GREASE_A, [0]))
            && |OfKind(out, PSK)| == Min(1, |OfKind(extensions, PSK)|)
            && (OfKind(extensions, PSK) != [] ==>
                  out != [] && out[|out| - 1] == OfKind(extensions, PSK)[|OfKind(extensions, PSK)| - 1])
  {
    ExtNamesSound();
    RewriteIsPermutationIff(ExtNames(), extensions, pad, grease, shuffleSeed);
    RewrittenCounts(ExtNames(), extensions, pad, grease, shuffleSeed);
    RewrittenEnds(ExtNames(), extensions, pad, grease, shuffleSeed);
  }

  /** What stands first and last. */
  lemma RewrittenEnds(t: Table, extensions: seq<Extension>, pad: int, grease: bool, shuffleSeed: Option<int>)
    ensures var out := Rewritten(t, extensions, pad, grease, shuffleSeed);
            var keys := OfKind(extensions, PSK);
            && (grease && !HasKind(extensions, GREASE_A) ==> out != [] && out[0] == Extension(GREASE_A, [0]))
            && (keys != [] ==> out != [] && out[|out| - 1] == keys[|keys| - 1])
  {
    LastPskKept(t, extensions);
  }

  /** The order of the survivors is untouched when no shuffle is asked for. */
  lemma RewriteKeepsOrder(extensions: seq<Extension>, pad: int, grease: bool)
    ensures Rewrite(extensions, pad, grease, None)
         == GreasePart(grease, extensions) + Refilled(Without(extensions, PSK), pad)
            + PskPart(Collect(ExtNames(), extensions).psk)
  {
    ExtNamesSound();
    UnshuffledKeepsOrder(ExtNames(), extensions, pad);
  }

  lemma TwoPaddings(first: bytes, second: bytes)
    ensures var extensions := [Extension(PADDING, first), Extension(PADDING, second)];
            OfKind(extensions, PADDING) == extensions && OfKind(extensions, PSK) == []
  {
    var extensions := [Extension(PADDING, first), Extension(PADDING, second)];
    var tail := [Extension(PADDING, second)];
    assert extensions == [Extension(PADDING, first)] + tail;
    ConsKinds(extensions[0], tail, PADDING);
    ConsKinds(extensions[0], tail, PSK);
    SinglesOfKind(tail, PADDING);
    SinglesOfKind(tail, PSK);
  }

  /** Two padding extensions and none requested: one of them survives. */
  lemma DoubledPaddingSurvives(first: bytes, second: bytes)
    ensures var extensions := [Extension(PADDING, first), Extension(PADDING, second)];
            && multiset(Rewrite(extensions, 0, false, None)) != multiset(Promised(extensions, 0, false))
            && |OfKind(Rewrite(extensions, 0, false, None), PADDING)| == 1
  {
    var extensions := [Extension(PADDING, first), Extension(PADDING, second)];
    TwoPaddings(first, second);
    ExtNamesSound();
    RewritePromise(extensions, 0, false, None);
    RewrittenCounts(ExtNames(), extensions, 0, false, None);
  }
}
