/** The write-ahead protocol behind `WindowsProxy`: three registry values, one restore file, one lock
    shared by all processes. Every durable write is one action, and a crash may fall between any two. */
module ProxyJournal {
  import opened Bytes
  import opened ExtensionNames

  // ---- the registry ----

  datatype Name = ProxyEnable | ProxyServer | ProxyOverride
  datatype Value = Num(n: int) | Text(s: string)

  const REG_SZ: int := 1
  const REG_DWORD: int := 4

  datatype Entry = Missing | Present(value: Value, kind: int)
  datatype Registry = Registry(enable: Entry, server: Entry, bypass: Entry)

  function Write(reg: Registry, name: Name, entry: Entry): Registry {
    match name
    case ProxyEnable => reg.(enable := entry)
    case ProxyServer => reg.(server := entry)
    case ProxyOverride => reg.(bypass := entry)
  }

  const OFF: Entry := Present(Num(0), REG_DWORD)
  const ON: Entry := Present(Num(1), REG_DWORD)

  /** Anything but an absent value or zero may switch the proxy on. */
  predicate TurnsOn(enable: Entry) { enable.Present? && enable.value != Num(0) }

  // ---- the restore file ----

  /** A process incarnation: pid together with its creation time. */
  type Pid = nat
  /** 0 stands for the empty token. */
  type Token = nat
  const NO_TOKEN: Token := 0

  datatype Owner = Owner(pid: Pid, token: Token)
  datatype RawEntry = Malformed | RawMissing | RawPresent(value: Value, kind: Option<int>)
  datatype RawState =
    | V2(owner: Option<Owner>, entries: map<Name, RawEntry>)
    | Legacy(flat: map<Name, Option<Value>>)
    | NotADict
  datatype Disk = NoFile | Unreadable | Content(raw: RawState)

  datatype State = State(owner: Option<Owner>, values: map<Name, Entry>, corrupt: bool)

  function DefaultKind(name: Name): int { if name == ProxyEnable then REG_DWORD else REG_SZ }

  function NormalEntry(name: Name, raw: RawEntry): Entry
    requires raw != Malformed
  {
    if raw.RawMissing? then Missing
    else Present(raw.value, if raw.kind.Some? then raw.kind.value else DefaultKind(name))
  }

  function LegacyEntry(name: Name, raw: Option<Value>): Entry {
    if raw.None? then Missing else Present(raw.value, DefaultKind(name))
  }

  function WithEnable(values: map<Name, Entry>): map<Name, Entry> {
    if ProxyEnable in values then values else values[ProxyEnable := OFF]
  }

  /** `_normalize_state`. */
  function Normalize(raw: RawState): State {
    match raw
    case V2(owner, entries) =>
      State(owner, WithEnable(map n | n in entries && entries[n] != Malformed :: NormalEntry(n, entries[n])), false)
    case Legacy(flat) =>
      State(None, WithEnable(map n | n in flat :: LegacyEntry(n, flat[n])), false)
    case NotADict => State(None, WithEnable(map[]), false)
  }

  /** `_load_state`: an unreadable file counts as an empty one, marked corrupt. */
  function Load(disk: Disk): Option<State> {
    match disk
    case NoFile => None
    case Unreadable => Some(Normalize(Legacy(map[])).(corrupt := true))
    case Content(raw) => Some(Normalize(raw))
  }

  function TokenOf(state: State): Token {
    if state.owner.Some? then state.owner.value.token else NO_TOKEN
  }

  function ValuesOf(reg: Registry): map<Name, Entry> {
    map[ProxyEnable := reg.enable, ProxyServer := reg.server, ProxyOverride := reg.bypass]
  }

  function RawOf(entry: Entry): RawEntry {
    if entry.Missing? then RawMissing else RawPresent(entry.value, Some(entry.kind))
  }

  function Saved(owner: Owner, reg: Registry): Disk {
    Content(V2(Some(owner), map[ProxyEnable := RawOf(reg.enable), ProxyServer := RawOf(reg.server),
                                ProxyOverride := RawOf(reg.bypass)]))
  }

  /** Reading a snapshot back gives the owner and exactly the three entries that were saved. */
  lemma SnapshotReads(owner: Owner, reg: Registry)
    ensures Load(Saved(owner, reg)) == Some(State(Some(owner), ValuesOf(reg), false))
  {
    var s := Load(Saved(owner, reg)).value;
    assert s.values == ValuesOf(reg);
  }

  // ---- durable state and single writes ----

  /** Who wrote a value last: the user (or a restore of the user's value), or one call that writes
      the app's own values. */
  datatype Origin = User | App(call: nat)

  datatype Durable = Durable(reg: Registry, disk: Disk, serverBy: Origin, bypassBy: Origin)

  datatype Action =
    | Put(name: Name, entry: Entry, who: Origin)
    | Save(owner: Owner)
    | Unlink(token: Token)

  function Exec(a: Action, d: Durable): Durable {
    match a
    case Put(name, entry, who) =>
      d.(reg := Write(d.reg, name, entry),
         serverBy := if name == ProxyServer then who else d.serverBy,
         bypassBy := if name == ProxyOverride then who else d.bypassBy)
    case Save(owner) => d.(disk := Saved(owner, d.reg))
    case Unlink(token) =>
      var latest := Load(d.disk);
      if latest.None? || latest.value.corrupt || token == NO_TOKEN || TokenOf(latest.value) == token
      then d.(disk := NoFile) else d
  }

  function Perform(job: seq<Action>, d: Durable): Durable {
    if job == [] then d else Perform(job[1..], Exec(job[0], d))
  }

  // ---- the write sequences ----

  function RestoreEntry(values: map<Name, Entry>, name: Name): seq<Action> {
    if name in values then [Put(name, values[name], User)] else []
  }

  /** `_disable_locked`, once it has decided what to restore: off first, then the two texts, then the
      switch, and only then the file goes away. */
  function RestoreJob(state: State): seq<Action> {
    [Put(ProxyEnable, OFF, User)]
    + RestoreEntry(state.values, ProxyServer) + RestoreEntry(state.values, ProxyOverride)
    + RestoreEntry(state.values, ProxyEnable) + [Unlink(TokenOf(state))]
  }

  /** The local ports the app listens on and the addresses that bypass it. */
  datatype Setup = Setup(socks: nat, http: nat, bypass: string)

  /** The text written to ProxyServer. */
  function ServerText(socks: nat, http: nat): string {
    "http=127.0.0.1:" + Decimal(http) + ";https=127.0.0.1:" + Decimal(http) + ";socks=127.0.0.1:" + Decimal(socks)
  }

  /** `_write_app_proxy_values`. */
  function AppJob(call: nat, setup: Setup, enabled: bool): seq<Action> {
    [Put(ProxyEnable, OFF, App(call)),
     Put(ProxyServer, Present(Text(ServerText(setup.socks, setup.http)), REG_SZ), App(call)),
     Put(ProxyOverride, Present(Text(setup.bypass), REG_SZ), App(call))]
    + if enabled then [Put(ProxyEnable, ON, App(call))] else []
  }

  // ---- decisions ----

  /** `_previous` and `_state_token` of one WindowsProxy object. */
  datatype Memory = Memory(previous: Option<State>, token: Token)
  const FORGOTTEN: Memory := Memory(None, NO_TOKEN)

  function MemoryOf(state: State): Memory { Memory(Some(state), TokenOf(state)) }

  predicate ExactMemory(mem: Memory) { mem.previous.Some? && !mem.previous.value.corrupt }

  /** The ownership tests and the choice of source in `_disable_locked`; None means nothing is done. */
  function RestoreChoice(mem: Memory, disk: Disk, self: Pid): Option<State> {
    var onDisk := Load(disk);
    var fromMemory := onDisk.Some? && onDisk.value.corrupt && ExactMemory(mem);
    var judged := if fromMemory then None else onDisk;
    if judged.Some? && mem.token != NO_TOKEN && TokenOf(judged.value) != mem.token then None
    else if judged.Some? && mem.token == NO_TOKEN && judged.value.owner.Some? && judged.value.owner.value.pid != self
    then None
    else if fromMemory then mem.previous
    else if onDisk.Some? then onDisk
    else mem.previous
  }

  /** `_owned_pending_state`: the state this object may go on using, or None. */
  function OwnedPending(mem: Memory, disk: Disk, self: Pid): Option<State> {
    var onDisk := Load(disk);
    var state := if onDisk.Some? && onDisk.value.corrupt && mem.previous.Some? then mem.previous else onDisk;
    if state.None? || state.value.owner.None? || state.value.owner.value.pid != self then None
    else if mem.token != NO_TOKEN && TokenOf(state.value) != mem.token then None
    else state
  }

  /** May `recover_stale` without an expected owner take over this state? */
  predicate Stale(state: State, alive: set<Pid>, otherApp: bool) {
    if state.owner.Some? then state.owner.value.pid !in alive else !otherApp
  }

  /** `_enable_locked` up to the registry writes; None when it raises. */
  function EnableJob(disk: Disk, alive: set<Pid>, otherApp: bool, owner: Owner, call: nat, setup: Setup, enabled: bool)
    : Option<seq<Action>>
  {
    var existing := Load(disk);
    var anew := [Save(owner)] + AppJob(call, setup, enabled);
    if existing.None? then Some(anew)
    else if !Stale(existing.value, alive, otherApp) then None
    else
      var choice := RestoreChoice(MemoryOf(existing.value), disk, owner.pid);
      if choice.None? then None else Some(RestoreJob(choice.value) + anew)
  }

  datatype Op =
    | Enable(setup: Setup)
    | Resume(setup: Setup)
    | Suspend
    | SuspendForTun(setup: Setup)
    | Disable

  /** What a call writes under the lock, and what the object remembers when it starts writing. */
  datatype Call = Refused | Writes(job: seq<Action>, adopted: Memory)

  function CallOf(op: Op, mem: Memory, disk: Disk, alive: set<Pid>, otherApp: bool, owner: Owner, call: nat): Call {
    var pending := OwnedPending(mem, disk, owner.pid);
    match op
    case Disable =>
      var choice := RestoreChoice(mem, disk, owner.pid);
      if choice.None? then Refused else Writes(RestoreJob(choice.value), mem)
    case Suspend =>
      if pending.None? then Refused else Writes([Put(ProxyEnable, OFF, App(call))], MemoryOf(pending.value))
    case Enable(setup) => FreshCall(disk, alive, otherApp, owner, call, setup, true, mem)
    case Resume(setup) =>
      if pending.None? then FreshCall(disk, alive, otherApp, owner, call, setup, true, mem)
      else Writes(AppJob(call, setup, true), MemoryOf(pending.value))
    case SuspendForTun(setup) =>
      if pending.None? then FreshCall(disk, alive, otherApp, owner, call, setup, false, mem)
      else Writes(AppJob(call, setup, false), MemoryOf(pending.value))
  }

  function FreshCall(disk: Disk, alive: set<Pid>, otherApp: bool, owner: Owner, call: nat, setup: Setup,
                     enabled: bool, mem: Memory): Call {
    var job := EnableJob(disk, alive, otherApp, owner, call, setup, enabled);
    if job.None? then Refused else Writes(job.value, mem)
  }

  /** What one durable write does to the memory of the object that makes it; `last` is the last of its call. */
  function Remembering(a: Action, last: bool, op: Op, d: Durable, mem: Memory): Memory {
    if a.Save? then MemoryOf(State(Some(a.owner), ValuesOf(d.reg), false))
    else if last && op.Disable? then FORGOTTEN
    else mem
  }

  /** What the object remembers when all writes of a call are done. */
  function MemoryAfter(job: seq<Action>, op: Op, d: Durable, mem: Memory): Memory
    decreases |job|
  {
    if job == [] then mem
    else MemoryAfter(job[1..], op, Exec(job[0], d), Remembering(job[0], |job| == 1, op, d, mem))
  }

  /** The writes `_enable_locked` makes before its own snapshot: none, or the recovery of a stale one. */
  function ClearingJob(disk: Disk, self: Pid): seq<Action> {
    match Load(disk)
    case None => []
    case Some(existing) =>
      var choice := RestoreChoice(MemoryOf(existing), disk, self);
      if choice.None? then [] else RestoreJob(choice.value)
  }

  /** What an object remembers after `_enable_locked`: the registry as it was when the snapshot was taken. */
  function EnableMemory(d: Durable, owner: Owner): Memory {
    MemoryOf(State(Some(owner), ValuesOf(Perform(ClearingJob(d.disk, owner.pid), d).reg), false))
  }

  lemma EnableJobParts(disk: Disk, alive: set<Pid>, otherApp: bool, owner: Owner, call: nat, setup: Setup,
                       enabled: bool)
    ensures var existing := Load(disk);
            EnableJob(disk, alive, otherApp, owner, call, setup, enabled)
            == if existing.None? || (Stale(existing.value, alive, otherApp)
                                     && RestoreChoice(MemoryOf(existing.value), disk, owner.pid).Some?)
               then Some(ClearingJob(disk, owner.pid) + ([Save(owner)] + AppJob(call, setup, enabled)))
               else None
  {
    var none: seq<Action> := [];
    assert none + ([Save(owner)] + AppJob(call, setup, enabled)) == [Save(owner)] + AppJob(call, setup, enabled);
  }

  predicate NoSave(job: seq<Action>) { forall k :: 0 <= k < |job| ==> !job[k].Save? }

  /** Only a saved snapshot changes what an object remembers, unless the call is a disable. */
  lemma {:induction false} NoSaveNoMemory(job: seq<Action>, op: Op, d: Durable, mem: Memory)
    requires NoSave(job) && !op.Disable?
    ensures MemoryAfter(job, op, d, mem) == mem
    decreases |job|
  {
    if job != [] {
      NoSaveNoMemory(job[1..], op, Exec(job[0], d), mem);
    }
  }

  lemma {:induction false} MemoryOfSave(before: seq<Action>, owner: Owner, rest: seq<Action>, op: Op, d: Durable,
                                        mem: Memory)
    requires NoSave(before) && NoSave(rest) && !op.Disable?
    ensures MemoryAfter(before + ([Save(owner)] + rest), op, d, mem)
         == MemoryOf(State(Some(owner), ValuesOf(Perform(before, d).reg), false))
    decreases |before|
  {
    var job := before + ([Save(owner)] + rest);
    if before == [] {
      assert job == [Save(owner)] + rest && job[1..] == rest;
      NoSaveNoMemory(rest, op, Exec(Save(owner), d), MemoryOf(State(Some(owner), ValuesOf(d.reg), false)));
    } else {
      assert job[0] == before[0] && job[1..] == before[1..] + ([Save(owner)] + rest);
      MemoryOfSave(before[1..], owner, rest, op, Exec(before[0], d), mem);
    }
  }

  /** A call that enables ends with its own snapshot remembered. */
  lemma EnableRemembers(d: Durable, alive: set<Pid>, otherApp: bool, owner: Owner, call: nat, setup: Setup,
                        enabled: bool, op: Op, mem: Memory)
    requires !op.Disable?
    requires EnableJob(d.disk, alive, otherApp, owner, call, setup, enabled).Some?
    ensures var job := EnableJob(d.disk, alive, otherApp, owner, call, setup, enabled).value;
            && job == ClearingJob(d.disk, owner.pid) + ([Save(owner)] + AppJob(call, setup, enabled))
            && MemoryAfter(job, op, d, mem) == EnableMemory(d, owner)
  {
    MemoryOfSave(ClearingJob(d.disk, owner.pid), owner, AppJob(call, setup, enabled), op, d, mem);
  }

  /** A disable ends with nothing remembered. */
  lemma {:induction false} DisableForgets(job: seq<Action>, d: Durable, mem: Memory)
    requires NoSave(job) && job != []
    ensures MemoryAfter(job, Disable, d, mem) == FORGOTTEN
    decreases |job|
  {
    if |job| > 1 {
      DisableForgets(job[1..], Exec(job[0], d), mem);
    } else {
      assert job[1..] == [];
    }
  }

  // ---- what must hold at every instant ----

  /** No file: the registry holds the user's values. A file: it is readable and holds the user's. */
  predicate WriteAhead(u: Registry, d: Durable) {
    if d.disk.NoFile? then d.reg == u
    else Load(d.disk).value.values == ValuesOf(u) && !Load(d.disk).value.corrupt
  }

  /** While the proxy is on, both texts are the user's or both come from one call. */
  predicate Untorn(u: Registry, d: Durable) {
    && (TurnsOn(d.reg.enable) ==> d.serverBy == d.bypassBy)
    && (d.serverBy == User ==> d.reg.server == u.server)
    && (d.bypassBy == User ==> d.reg.bypass == u.bypass)
  }

  /** A file that names its owner carries that owner's token; without one nobody could recover it. */
  predicate Claimable(disk: Disk) {
    disk != NoFile && Load(disk).value.owner.Some? ==> TokenOf(Load(disk).value) != NO_TOKEN
  }

  predicate Safe(u: Registry, d: Durable) { WriteAhead(u, d) && Untorn(u, d) && Claimable(d.disk) }

  /** Safe before, between and after all writes of the job. */
  predicate SafeRun(u: Registry, d: Durable, job: seq<Action>)
    decreases |job|
  {
    Safe(u, d) && (job == [] || SafeRun(u, Exec(job[0], d), job[1..]))
  }

  lemma {:induction false} SafeRunAppend(u: Registry, d: Durable, a: seq<Action>, b: seq<Action>)
    requires SafeRun(u, d, a) && SafeRun(u, Perform(a, d), b)
    ensures SafeRun(u, d, a + b)
    ensures Perform(a + b, d) == Perform(b, Perform(a, d))
    decreases |a|
  {
    if a == [] {
      assert a + b == b;
    } else {
      assert (a + b)[1..] == a[1..] + b;
      SafeRunAppend(u, Exec(a[0], d), a[1..], b);
    }
  }

  lemma SafeRunStep(u: Registry, d: Durable, job: seq<Action>)
    requires SafeRun(u, d, job) && job != []
    ensures Safe(u, Exec(job[0], d)) && SafeRun(u, Exec(job[0], d), job[1..])
  {
    var d1 := Exec(job[0], d);
    assert SafeRun(u, d1, job[1..]);
  }

  lemma {:induction false} SafeRunEnds(u: Registry, d: Durable, job: seq<Action>)
    requires SafeRun(u, d, job)
    ensures Safe(u, Perform(job, d))
    decreases |job|
  {
    if job != [] {
      SafeRunEnds(u, Exec(job[0], d), job[1..]);
    }
  }

  // ---- each job is safe where it is used ----

  predicate HoldsUser(u: Registry, state: State) { state.values == ValuesOf(u) && !state.corrupt }

  lemma FiveWrites(state: State, u: Registry)
    requires state.values == ValuesOf(u)
    ensures RestoreJob(state) == [Put(ProxyEnable, OFF, User), Put(ProxyServer, u.server, User),
                                  Put(ProxyOverride, u.bypass, User), Put(ProxyEnable, u.enable, User),
                                  Unlink(TokenOf(state))]
  {
    assert state.values[ProxyServer] == u.server && state.values[ProxyOverride] == u.bypass;
    assert state.values[ProxyEnable] == u.enable;
  }

  /** Restoring from the file is safe at every write and ends with the user's three entries, no file. */
  lemma RestoreFromFile(u: Registry, d: Durable)
    requires Safe(u, d) && d.disk != NoFile
    ensures var job := RestoreJob(Load(d.disk).value);
            && SafeRun(u, d, job)
            && Perform(job, d) == Durable(u, NoFile, User, User)
  {
    var state := Load(d.disk).value;
    FiveWrites(state, u);
    var job := RestoreJob(state);
    var d1 := Exec(job[0], d);
    var d2 := Exec(job[1], d1);
    var d3 := Exec(job[2], d2);
    var d4 := Exec(job[3], d3);
    var d5 := Exec(job[4], d4);
    assert d4.reg == u && d5 == Durable(u, NoFile, User, User);
    Unroll5(u, d, job, d1, d2, d3, d4, d5);
  }

  lemma Unroll5(u: Registry, d: Durable, job: seq<Action>, d1: Durable, d2: Durable, d3: Durable, d4: Durable,
                d5: Durable)
    requires |job| == 5
    requires d1 == Exec(job[0], d) && d2 == Exec(job[1], d1) && d3 == Exec(job[2], d2)
    requires d4 == Exec(job[3], d3) && d5 == Exec(job[4], d4)
    requires Safe(u, d) && Safe(u, d1) && Safe(u, d2) && Safe(u, d3) && Safe(u, d4) && Safe(u, d5)
    ensures SafeRun(u, d, job) && Perform(job, d) == d5
  {
    var e1, e2, e3, e4, e5 := job[1..], job[2..], job[3..], job[4..], job[5..];
    assert e1[1..] == e2 && e2[1..] == e3 && e3[1..] == e4 && e4[1..] == e5 && e5 == [];
    assert SafeRun(u, d5, e5) && Perform(e5, d5) == d5;
    assert SafeRun(u, d4, e4) && Perform(e4, d4) == d5;
    assert SafeRun(u, d3, e3) && Perform(e3, d3) == d5;
    assert SafeRun(u, d2, e2) && Perform(e2, d2) == d5;
    assert SafeRun(u, d1, e1) && Perform(e1, d1) == d5;
  }

  /** While a file holds the user's values, the app may write its own, in this order. */
  lemma AppWritesSafe(u: Registry, d: Durable, call: nat, setup: Setup, enabled: bool)
    requires Safe(u, d) && d.disk != NoFile
    ensures SafeRun(u, d, AppJob(call, setup, enabled))
    ensures Perform(AppJob(call, setup, enabled), d).disk == d.disk
  {
    var job := AppJob(call, setup, enabled);
    var d1 := Exec(job[0], d);
    var d2 := Exec(job[1], d1);
    var d3 := Exec(job[2], d2);
    var e1, e2, e3 := job[1..], job[2..], job[3..];
    assert e1[1..] == e2 && e2[1..] == e3;
    assert Safe(u, d1) && Safe(u, d2) && Safe(u, d3);
    if enabled {
      assert e3 == [job[3]] && e3[1..] == [];
      var d4 := Exec(job[3], d3);
      assert Safe(u, d4) && d4.disk == d.disk;
      assert Perform(e3[1..], d4) == d4 && Perform(e3, d3) == d4;
    } else {
      assert e3 == [];
    }
    assert SafeRun(u, d3, e3) && Perform(e3, d3).disk == d.disk;
    assert SafeRun(u, d2, e2) && Perform(e2, d2).disk == d.disk;
    assert SafeRun(u, d1, e1) && Perform(e1, d1).disk == d.disk;
  }

  lemma SuspendSafe(u: Registry, d: Durable, who: Origin)
    requires Safe(u, d) && d.disk != NoFile
    ensures SafeRun(u, d, [Put(ProxyEnable, OFF, who)])
  {
    var job := [Put(ProxyEnable, OFF, who)];
    assert job[1..] == [];
    assert Safe(u, Exec(job[0], d));
  }

  /** Saving first makes the app's writes safe. */
  lemma FreshJobSafe(u: Registry, d: Durable, owner: Owner, call: nat, setup: Setup, enabled: bool)
    requires Safe(u, d) && d.disk == NoFile && owner.token != NO_TOKEN
    ensures SafeRun(u, d, [Save(owner)] + AppJob(call, setup, enabled))
  {
    var app := AppJob(call, setup, enabled);
    var job := [Save(owner)] + app;
    SnapshotReads(owner, d.reg);
    AppWritesSafe(u, Exec(Save(owner), d), call, setup, enabled);
    assert job[1..] == app;
  }

  lemma EnableSafe(u: Registry, d: Durable, alive: set<Pid>, otherApp: bool, owner: Owner, call: nat, setup: Setup,
                   enabled: bool)
    requires Safe(u, d) && owner.token != NO_TOKEN
    requires EnableJob(d.disk, alive, otherApp, owner, call, setup, enabled).Some?
    ensures SafeRun(u, d, EnableJob(d.disk, alive, otherApp, owner, call, setup, enabled).value)
  {
    var anew := [Save(owner)] + AppJob(call, setup, enabled);
    if d.disk == NoFile {
      FreshJobSafe(u, d, owner, call, setup, enabled);
    } else {
      var state := Load(d.disk).value;
      assert RestoreChoice(MemoryOf(state), d.disk, owner.pid) == Some(state);
      RestoreFromFile(u, d);
      var clean := Perform(RestoreJob(state), d);
      assert Safe(u, clean);
      FreshJobSafe(u, clean, owner, call, setup, enabled);
      SafeRunAppend(u, d, RestoreJob(state), anew);
    }
  }

  /** What every object remembers, if anything, is the user's values. */
  predicate RemembersUser(u: Registry, mem: Memory) {
    mem.previous.Some? ==> HoldsUser(u, mem.previous.value)
  }

  /** The one unjournaled restore: no file left, but this object still remembers values. A caller can
      test it before calling disable. */
  predicate FromMemoryOnly(mem: Memory, disk: Disk) { disk == NoFile && mem.previous.Some? }

  /** A disable call is harmless at every write exactly when it does not restore from memory alone,
      or when the switch it would turn off is the number 0 already. */
  lemma DisableSafeIff(u: Registry, d: Durable, mem: Memory, self: Pid)
    requires Safe(u, d) && RemembersUser(u, mem)
    requires RestoreChoice(mem, d.disk, self).Some?
    ensures SafeRun(u, d, RestoreJob(RestoreChoice(mem, d.disk, self).value))
       <==> !FromMemoryOnly(mem, d.disk) || d.reg.enable == OFF
  {
    var choice := RestoreChoice(mem, d.disk, self).value;
    if d.disk != NoFile {
      assert choice == Load(d.disk).value;
      RestoreFromFile(u, d);
    } else {
      assert choice == mem.previous.value;
      MemoryOnlyRestore(u, d, choice);
    }
  }

  lemma MemoryOnlyRestore(u: Registry, d: Durable, state: State)
    requires Safe(u, d) && d.disk == NoFile && HoldsUser(u, state)
    ensures SafeRun(u, d, RestoreJob(state)) <==> d.reg.enable == OFF
  {
    FiveWrites(state, u);
    var job := RestoreJob(state);
    var d1 := Exec(job[0], d);
    assert job[1..] != job;
    if d.reg.enable == OFF {
      var d2 := Exec(job[1], d1);
      var d3 := Exec(job[2], d2);
      var d4 := Exec(job[3], d3);
      var d5 := Exec(job[4], d4);
      assert d1.reg == u && d2.reg == u && d3.reg == u && d4.reg == u && d5.reg == u;
      assert d4.disk == NoFile && d5.disk == NoFile;
      Unroll5(u, d, job, d1, d2, d3, d4, d5);
    } else {
      assert d1.reg != u && d1.disk == NoFile;
      assert !Safe(u, d1);
    }
  }

  // ---- the states a job passes through ----

  function Trace(job: seq<Action>, d: Durable): seq<Durable>
    decreases |job|
  {
    if job == [] then [] else [Exec(job[0], d)] + Trace(job[1..], Exec(job[0], d))
  }

  lemma {:induction false} TraceSnoc(job: seq<Action>, a: Action, d: Durable)
    ensures Trace(job + [a], d) == Trace(job, d) + [Exec(a, Perform(job, d))]
    ensures Perform(job + [a], d) == Exec(a, Perform(job, d))
    decreases |job|
  {
    var all := job + [a];
    if job == [] {
      assert all == [a] && all[1..] == [];
    } else {
      assert all[1..] == job[1..] + [a];
      TraceSnoc(job[1..], a, Exec(job[0], d));
    }
  }

  lemma {:induction false} TraceAppend(a: seq<Action>, b: seq<Action>, d: Durable)
    ensures Trace(a + b, d) == Trace(a, d) + Trace(b, Perform(a, d))
    ensures Perform(a + b, d) == Perform(b, Perform(a, d))
    decreases |a|
  {
    if a == [] {
      assert a + b == b;
    } else {
      assert (a + b)[1..] == a[1..] + b;
      TraceAppend(a[1..], b, Exec(a[0], d));
    }
  }

  lemma TraceOfThree(a: seq<Action>, b: seq<Action>, c: seq<Action>, d: Durable)
    ensures Perform(a + (b + c), d) == Perform(c, Perform(b, Perform(a, d)))
    ensures Trace(a + (b + c), d) == Trace(a, d) + Trace(b, Perform(a, d)) + Trace(c, Perform(b, Perform(a, d)))
  {
    TraceAppend(a, b + c, d);
    TraceAppend(b, c, Perform(a, d));
  }

  /** A safe job leaves every state it passes through safe. */
  lemma {:induction false} TraceSafe(u: Registry, d: Durable, job: seq<Action>)
    requires SafeRun(u, d, job)
    ensures forall k :: 0 <= k < |Trace(job, d)| ==> Safe(u, Trace(job, d)[k])
    decreases |job|
  {
    if job != [] {
      SafeRunStep(u, d, job);
      TraceSafe(u, Exec(job[0], d), job[1..]);
    }
  }
}
