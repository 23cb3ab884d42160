/** Several processes running `WindowsProxy` calls against one registry and one restore file: every
    interleaving the lock allows, with exceptions and process deaths between any two writes. */
module ProxyMachine {
  import opened Bytes
  import opened ProxyJournal

  datatype Instance = Instance(pid: Pid, mem: Memory)
  /** The object inside the lock and the writes it still has to do. */
  datatype Holder = Holder(inst: nat, job: seq<Action>, op: Op)
  datatype World = World(
    d: Durable, alive: set<Pid>, born: set<Pid>, insts: map<nat, Instance>,
    holder: Option<Holder>, nextToken: nat, nextCall: nat)

  /** The owner a strict `recover_stale` expects; the token is optional. */
  datatype Expected = Expected(pid: Pid, token: Option<Token>)

  datatype Event =
    | Spawn(pid: Pid)
    | Die(pid: Pid)
    | Open(inst: nat, pid: Pid)
    | LoadStale(inst: nat, pid: Pid, expected: Option<Expected>, otherApp: bool)
    | Begin(inst: nat, op: Op, otherApp: bool)
    | Advance
    | Raise

  /** The tests of `recover_stale`, made on a file it reads without the lock. */
  predicate MayRecover(state: State, expected: Option<Expected>, alive: set<Pid>, otherApp: bool) {
    match expected
    case Some(e) =>
      && state.owner.Some? && state.owner.value.pid == e.pid
      && (e.token.Some? ==> state.owner.value.token == e.token.value)
    case None => Stale(state, alive, otherApp)
  }

  predicate Enabled(w: World, e: Event) {
    match e
    case Spawn(pid) => pid !in w.born
    case Die(pid) => pid in w.alive
    case Open(inst, pid) => inst !in w.insts && pid in w.alive
    case LoadStale(inst, pid, expected, otherApp) =>
      && inst !in w.insts && pid in w.alive
      && Load(w.d.disk).Some? && MayRecover(Load(w.d.disk).value, expected, w.alive, otherApp)
    case Begin(inst, op, otherApp) => inst in w.insts && w.insts[inst].pid in w.alive && w.holder.None?
    case Advance => w.holder.Some? && w.holder.value.job != [] && w.holder.value.inst in w.insts
    case Raise => w.holder.Some?
  }

  function Gone(w: World, pid: Pid): map<nat, Instance> {
    map i | i in w.insts && w.insts[i].pid != pid :: w.insts[i]
  }

  function Next(w: World, e: Event): World
    requires Enabled(w, e)
  {
    match e
    case Spawn(pid) => w.(alive := w.alive + {pid}, born := w.born + {pid})
    case Die(pid) =>
      var holds := w.holder.Some? && w.holder.value.inst in w.insts && w.insts[w.holder.value.inst].pid == pid;
      w.(alive := w.alive - {pid}, insts := Gone(w, pid), holder := if holds then None else w.holder)
    case Open(inst, pid) => w.(insts := w.insts[inst := Instance(pid, FORGOTTEN)])
    case LoadStale(inst, pid, expected, otherApp) =>
      w.(insts := w.insts[inst := Instance(pid, MemoryOf(Load(w.d.disk).value))])
    case Begin(inst, op, otherApp) =>
      var self := w.insts[inst];
      var owner := Owner(self.pid, w.nextToken + 1);
      var call := CallOf(op, self.mem, w.d.disk, w.alive, otherApp, owner, w.nextCall);
      var counted := w.(nextToken := w.nextToken + 1, nextCall := w.nextCall + 1);
      (match call
       case Refused => counted
       case Writes(job, adopted) =>
         counted.(holder := Some(Holder(inst, job, op)),
                  insts := w.insts[inst := Instance(self.pid, adopted)]))
    case Advance =>
      var h := w.holder.value;
      var self := w.insts[h.inst];
      w.(d := Exec(h.job[0], w.d),
         insts := w.insts[h.inst := Instance(self.pid, Remembering(h.job[0], |h.job| == 1, h.op, w.d, self.mem))],
         holder := if |h.job| == 1 then None else Some(h.(job := h.job[1..])))
    case Raise => w.(holder := None)
  }

  // ---- the invariant ----

  ghost predicate Inv(u: Registry, w: World) {
    && Safe(u, w.d)
    && (forall i :: i in w.insts ==> RemembersUser(u, w.insts[i].mem))
    && (w.holder.Some? ==> w.holder.value.job != [] && SafeRun(u, w.d, w.holder.value.job))
  }

  /** The caller's guard: a disable call restores from memory alone only when the switch is off. */
  predicate Journaled(w: World, e: Event)
    requires Enabled(w, e)
  {
    e.Begin? && e.op.Disable? ==>
      !FromMemoryOnly(w.insts[e.inst].mem, w.d.disk) || w.d.reg.enable == OFF
  }

  lemma CallSafe(u: Registry, d: Durable, op: Op, mem: Memory, alive: set<Pid>, otherApp: bool, owner: Owner, call: nat)
    requires Safe(u, d) && RemembersUser(u, mem) && owner.token != NO_TOKEN
    requires op.Disable? ==> !FromMemoryOnly(mem, d.disk) || d.reg.enable == OFF
    ensures var c := CallOf(op, mem, d.disk, alive, otherApp, owner, call);
            c.Writes? ==> c.job != [] && SafeRun(u, d, c.job) && RemembersUser(u, c.adopted)
  {
    var pending := OwnedPending(mem, d.disk, owner.pid);
    if pending.Some? {
      assert d.disk != NoFile && pending == Load(d.disk);
    }
    match op {
      case Disable =>
        if RestoreChoice(mem, d.disk, owner.pid).Some? {
          DisableSafeIff(u, d, mem, owner.pid);
        }
      case Suspend =>
        if pending.Some? {
          SuspendSafe(u, d, App(call));
        }
      case Enable(setup) => FreshCallSafe(u, d, mem, alive, otherApp, owner, call, setup, true);
      case Resume(setup) =>
        if pending.Some? {
          AppWritesSafe(u, d, call, setup, true);
        } else {
          FreshCallSafe(u, d, mem, alive, otherApp, owner, call, setup, true);
        }
      case SuspendForTun(setup) =>
        if pending.Some? {
          AppWritesSafe(u, d, call, setup, false);
        } else {
          FreshCallSafe(u, d, mem, alive, otherApp, owner, call, setup, false);
        }
    }
  }

  lemma FreshCallSafe(u: Registry, d: Durable, mem: Memory, alive: set<Pid>, otherApp: bool, owner: Owner, call: nat,
                      setup: Setup, enabled: bool)
    requires Safe(u, d) && RemembersUser(u, mem) && owner.token != NO_TOKEN
    ensures var c := FreshCall(d.disk, alive, otherApp, owner, call, setup, enabled, mem);
            c.Writes? ==> c.job != [] && SafeRun(u, d, c.job) && RemembersUser(u, c.adopted)
  {
    if EnableJob(d.disk, alive, otherApp, owner, call, setup, enabled).Some? {
      EnableSafe(u, d, alive, otherApp, owner, call, setup, enabled);
    }
  }

  /** After a snapshot is saved, what it and the object hold is the user's values. */
  lemma SavedIsUsers(u: Registry, d: Durable, owner: Owner)
    requires Safe(u, d) && Safe(u, Exec(Save(owner), d))
    ensures RemembersUser(u, MemoryOf(State(Some(owner), ValuesOf(d.reg), false)))
  {
    SnapshotReads(owner, d.reg);
  }

  lemma BeginKeepsInv(u: Registry, w: World, inst: nat, op: Op, otherApp: bool)
    requires Inv(u, w) && Enabled(w, Begin(inst, op, otherApp)) && Journaled(w, Begin(inst, op, otherApp))
    ensures Inv(u, Next(w, Begin(inst, op, otherApp)))
  {
    var self := w.insts[inst];
    CallSafe(u, w.d, op, self.mem, w.alive, otherApp, Owner(self.pid, w.nextToken + 1), w.nextCall);
  }

  /** Every guarded step, by any process, keeps the invariant. */
  lemma StepKeepsInv(u: Registry, w: World, e: Event)
    requires Inv(u, w) && Enabled(w, e) && Journaled(w, e)
    ensures Inv(u, Next(w, e))
  {
    match e {
      case Begin(inst, op, otherApp) => BeginKeepsInv(u, w, inst, op, otherApp);
      case Advance => AdvanceKeepsInv(u, w);
      case _ =>
    }
  }

  lemma AdvanceKeepsInv(u: Registry, w: World)
    requires Inv(u, w) && Enabled(w, Advance)
    ensures Inv(u, Next(w, Advance))
  {
    var h := w.holder.value;
    SafeRunStep(u, w.d, h.job);
    if h.job[0].Save? {
      SavedIsUsers(u, w.d, h.job[0].owner);
    }
  }

  // ---- runs ----

  ghost predicate Runs(w: World, events: seq<Event>)
    decreases |events|
  {
    events == [] || (Enabled(w, events[0]) && Runs(Next(w, events[0]), events[1..]))
  }

  ghost function After(w: World, events: seq<Event>): World
    requires Runs(w, events)
    decreases |events|
  {
    if events == [] then w else After(Next(w, events[0]), events[1..])
  }

  ghost predicate JournaledRun(w: World, events: seq<Event>)
    requires Runs(w, events)
    decreases |events|
  {
    events == [] || (Journaled(w, events[0]) && JournaledRun(Next(w, events[0]), events[1..]))
  }

  /** Main result: in every run whose disable calls respect the guard, at every instant, crashes
      included, the restore file is written ahead of the registry. */
  lemma {:induction false} EveryInstantSafe(u: Registry, w: World, events: seq<Event>, k: nat)
    requires Inv(u, w) && Runs(w, events) && JournaledRun(w, events) && k <= |events|
    ensures Runs(w, events[..k]) && Inv(u, After(w, events[..k]))
    ensures WriteAhead(u, After(w, events[..k]).d)
    decreases k
  {
    if k > 0 {
      StepKeepsInv(u, w, events[0]);
      EveryInstantSafe(u, Next(w, events[0]), events[1..], k - 1);
      assert events[..k][1..] == events[1..][..k - 1];
    }
  }

  lemma {:induction false} RunsAppend(w: World, a: seq<Event>, b: seq<Event>)
    requires Runs(w, a) && Runs(After(w, a), b)
    ensures Runs(w, a + b) && After(w, a + b) == After(After(w, a), b)
    decreases |a|
  {
    if a == [] {
      assert a + b == b;
    } else {
      assert (a + b)[1..] == a[1..] + b;
      RunsAppend(Next(w, a[0]), a[1..], b);
    }
  }

  lemma RunsOne(w: World, e: Event)
    requires Enabled(w, e)
    ensures Runs(w, [e]) && After(w, [e]) == Next(w, e)
  {
    var one := [e];
    var none := one[1..];
    assert none == [];
    assert Runs(Next(w, e), none) && After(Next(w, e), none) == Next(w, e);
  }

  function Advances(n: nat): (events: seq<Event>)
    ensures |events| == n
  {
    seq(n, _ => Advance)
  }

  lemma {:induction false} AdvancesPerform(w: World, n: nat)
    requires w.holder.Some? && w.holder.value.inst in w.insts && n <= |w.holder.value.job|
    ensures Runs(w, Advances(n))
    ensures After(w, Advances(n)).d == Perform(w.holder.value.job[..n], w.d)
    ensures var w' := After(w, Advances(n));
            && w'.alive == w.alive && w'.born == w.born && w'.insts.Keys == w.insts.Keys
            && (forall i :: i in w.insts ==> w'.insts[i].pid == w.insts[i].pid)
            && (forall i :: i in w.insts && i != w.holder.value.inst ==> w'.insts[i] == w.insts[i])
            && (n == |w.holder.value.job| ==> n > 0 ==> w'.holder.None?)
            && (w'.holder.Some? ==> w'.holder.value.inst == w.holder.value.inst)
    decreases n
  {
    if n > 0 {
      var job := w.holder.value.job;
      var w1 := Next(w, Advance);
      assert Advances(n)[1..] == Advances(n - 1);
      assert job[..n][1..] == job[1..][..n - 1];
      if |job| == 1 {
        assert Advances(0) == [];
        assert job[..1][1..] == [];
      } else {
        AdvancesPerform(w1, n - 1);
      }
    }
  }

  // ---- recovery ----

  lemma RecoveryStarts(w: World, pid: Pid, inst: nat) returns (w2: World)
    requires w.holder.None? && w.d.disk != NoFile
    requires Stale(Load(w.d.disk).value, w.alive, false) && !Load(w.d.disk).value.corrupt
    requires Claimable(w.d.disk) && pid in w.alive && inst !in w.insts
    ensures var start := [LoadStale(inst, pid, None, false), Begin(inst, Disable, false)];
            Runs(w, start) && After(w, start) == w2
    ensures w2.d == w.d && w2.holder == Some(Holder(inst, RestoreJob(Load(w.d.disk).value), Disable))
    ensures w2.alive == w.alive && w2.born == w.born
    ensures w2.insts.Keys == w.insts.Keys + {inst} && w2.insts[inst].pid == pid
    ensures forall i :: i in w.insts ==> w2.insts[i] == w.insts[i]
  {
    var state := Load(w.d.disk).value;
    var start := [LoadStale(inst, pid, None, false), Begin(inst, Disable, false)];
    var w1 := Next(w, start[0]);
    assert RestoreChoice(MemoryOf(state), w.d.disk, pid) == Some(state);
    w2 := Next(w1, start[1]);
    RunsOne(w, start[0]);
    RunsOne(w1, start[1]);
    RunsAppend(w, [start[0]], [start[1]]);
    assert start == [start[0]] + [start[1]];
  }

  /** A process that finds the restore file of a dead owner recovers it: one load, one call, and the
      writes of that call put back exactly the user's three entries and remove the file. */
  lemma RecoveryCompletes(u: Registry, w: World, pid: Pid, inst: nat)
    requires Inv(u, w) && w.holder.None? && w.d.disk != NoFile
    requires Stale(Load(w.d.disk).value, w.alive, false)
    requires pid in w.alive && inst !in w.insts
    ensures var events := [LoadStale(inst, pid, None, false), Begin(inst, Disable, false)] + Advances(5);
            && Runs(w, events)
            && After(w, events).d == Durable(u, NoFile, User, User)
            && After(w, events).holder.None?
            && After(w, events).alive == w.alive
            && forall k :: k in w.insts ==> k in After(w, events).insts && After(w, events).insts[k] == w.insts[k]
  {
    var start := [LoadStale(inst, pid, None, false), Begin(inst, Disable, false)];
    var w2 := RecoveryStarts(w, pid, inst);
    FiveWrites(Load(w.d.disk).value, u);
    RestoreFromFile(u, w.d);
    var job := RestoreJob(Load(w.d.disk).value);
    assert job[..5] == job;
    AdvancesPerform(w2, 5);
    RunsAppend(w, start, Advances(5));
  }

  lemma {:induction false} PrefixSafe(u: Registry, d: Durable, job: seq<Action>, n: nat)
    requires SafeRun(u, d, job) && n <= |job|
    ensures Safe(u, Perform(job[..n], d))
    decreases n
  {
    if n > 0 {
      assert job[..n][1..] == job[1..][..n - 1];
      PrefixSafe(u, Exec(job[0], d), job[1..], n - 1);
    }
  }

  /** Until its last write a restore leaves the file alone. */
  lemma RestorePrefixKeepsFile(u: Registry, d: Durable, n: nat)
    requires Safe(u, d) && d.disk != NoFile && n <= |RestoreJob(Load(d.disk).value)|
    ensures |RestoreJob(Load(d.disk).value)| == 5
    ensures Perform(RestoreJob(Load(d.disk).value)[..n], d).disk == if n == 5 then NoFile else d.disk
  {
    FiveWrites(Load(d.disk).value, u);
    RestoreFromFile(u, d);
    var job := RestoreJob(Load(d.disk).value);
    if n == 5 {
      assert job[..5] == job;
    } else {
      PutsKeepFile(job[..n], d);
    }
  }

  lemma {:induction false} PutsKeepFile(job: seq<Action>, d: Durable)
    requires forall k :: 0 <= k < |job| ==> job[k].Put?
    ensures Perform(job, d).disk == d.disk
    decreases |job|
  {
    if job != [] {
      PutsKeepFile(job[1..], Exec(job[0], d));
    }
  }

  /** One recovery that dies after `n` of its writes: spawned, loaded, begun, advanced, dead. */
  function AttemptEvents(pid: Pid, inst: nat, n: nat): seq<Event> {
    [Spawn(pid), LoadStale(inst, pid, None, false), Begin(inst, Disable, false)] + Advances(n) + [Die(pid)]
  }

  lemma AttemptStarts(w: World, pid: Pid, inst: nat) returns (w3: World)
    requires w.holder.None? && w.d.disk != NoFile
    requires Stale(Load(w.d.disk).value, w.alive + {pid}, false) && !Load(w.d.disk).value.corrupt
    requires Claimable(w.d.disk) && pid !in w.born && inst !in w.insts
    ensures var start := [Spawn(pid), LoadStale(inst, pid, None, false), Begin(inst, Disable, false)];
            Runs(w, start) && After(w, start) == w3
    ensures w3.d == w.d && w3.holder == Some(Holder(inst, RestoreJob(Load(w.d.disk).value), Disable))
    ensures w3.alive == w.alive + {pid} && w3.born == w.born + {pid}
    ensures w3.insts.Keys == w.insts.Keys + {inst} && w3.insts[inst].pid == pid
    ensures forall i :: i in w.insts ==> w3.insts[i] == w.insts[i]
  {
    var w1 := Next(w, Spawn(pid));
    var first := [Spawn(pid)];
    RunsOne(w, Spawn(pid));
    w3 := RecoveryStarts(w1, pid, inst);
    var rest := [LoadStale(inst, pid, None, false), Begin(inst, Disable, false)];
    RunsAppend(w, first, rest);
    assert first + rest == [Spawn(pid), LoadStale(inst, pid, None, false), Begin(inst, Disable, false)];
  }

  lemma AttemptRuns(u: Registry, w: World, pid: Pid, inst: nat, n: nat)
    requires Inv(u, w) && w.holder.None? && w.d.disk != NoFile && n <= 5
    requires Stale(Load(w.d.disk).value, w.alive + {pid}, false)
    requires pid !in w.born && pid !in w.alive && inst !in w.insts
    ensures var job := RestoreJob(Load(w.d.disk).value);
            var events := AttemptEvents(pid, inst, n);
            && |job| == 5 && Runs(w, events)
            && var w1 := After(w, events);
               && w1.d == Perform(job[..n], w.d) && w1.holder.None?
               && w1.alive == w.alive && w1.born == w.born + {pid}
               && (forall i :: i in w1.insts ==> i != inst && i in w.insts && w1.insts[i] == w.insts[i])
  {
    var w3 := AttemptStarts(w, pid, inst);
    FiveWrites(Load(w.d.disk).value, u);
    AdvancesPerform(w3, n);
    var start := [Spawn(pid), LoadStale(inst, pid, None, false), Begin(inst, Disable, false)];
    RunsAppend(w, start, Advances(n));
    AttemptDies(After(w3, Advances(n)), pid, inst);
    RunsAppend(w, start + Advances(n), [Die(pid)]);
  }

  lemma AttemptDies(w: World, pid: Pid, inst: nat)
    requires pid in w.alive && inst in w.insts && w.insts[inst].pid == pid
    requires w.holder.Some? ==> w.holder.value.inst == inst
    ensures Runs(w, [Die(pid)])
    ensures var w1 := After(w, [Die(pid)]);
            && w1.d == w.d && w1.holder.None? && w1.alive == w.alive - {pid} && w1.born == w.born
            && (forall i :: i in w1.insts ==> i != inst && i in w.insts && w1.insts[i] == w.insts[i])
  {
    RunsOne(w, Die(pid));
  }

  /** Recoveries by processes `pids`, one after the other, each dying after some of its writes. */
  function CrashEvents(pids: seq<Pid>, inst: nat, cuts: seq<nat>): seq<Event>
    requires |pids| == |cuts|
    decreases |cuts|
  {
    if cuts == [] then [] else AttemptEvents(pids[0], inst, cuts[0]) + CrashEvents(pids[1..], inst, cuts[1..])
  }

  predicate NewPids(w: World, pids: seq<Pid>) {
    && (forall k :: 0 <= k < |pids| ==> pids[k] !in w.born && pids[k] !in w.alive)
    && (forall j, k :: 0 <= j < k < |pids| ==> pids[j] != pids[k])
  }

  /** There is a file, and its owner, if it names one, died and will not come back. */
  predicate OwnerGone(w: World) {
    && w.d.disk != NoFile
    && var owner := Load(w.d.disk).value.owner;
       owner.Some? ==> owner.value.pid in w.born && owner.value.pid !in w.alive
  }

  lemma AttemptKeeps(u: Registry, w: World, pid: Pid, inst: nat, n: nat)
    requires Inv(u, w) && w.holder.None? && OwnerGone(w) && inst !in w.insts && n < 5
    requires pid !in w.born && pid !in w.alive
    ensures Runs(w, AttemptEvents(pid, inst, n))
    ensures var w1 := After(w, AttemptEvents(pid, inst, n));
            && Inv(u, w1) && w1.holder.None? && OwnerGone(w1) && inst !in w1.insts
            && w1.alive == w.alive && w1.born == w.born + {pid}
  {
    AttemptRuns(u, w, pid, inst, n);
    RestorePrefixKeepsFile(u, w.d, n);
    RestoreFromFile(u, w.d);
    PrefixSafe(u, w.d, RestoreJob(Load(w.d.disk).value), n);
  }

  lemma {:induction false} CrashesRun(u: Registry, w: World, pids: seq<Pid>, inst: nat, cuts: seq<nat>)
    requires Inv(u, w) && w.holder.None? && OwnerGone(w) && inst !in w.insts
    requires |pids| == |cuts| && NewPids(w, pids) && (forall k :: 0 <= k < |cuts| ==> cuts[k] < 5)
    ensures Runs(w, CrashEvents(pids, inst, cuts))
    ensures var w1 := After(w, CrashEvents(pids, inst, cuts));
            && Inv(u, w1) && w1.holder.None? && OwnerGone(w1) && inst !in w1.insts
            && w1.alive == w.alive && w1.born == w.born + set p | p in pids
    decreases |cuts|
  {
    if cuts != [] {
      var events := AttemptEvents(pids[0], inst, cuts[0]);
      AttemptKeeps(u, w, pids[0], inst, cuts[0]);
      var w1 := After(w, events);
      var rest := pids[1..];
      forall k | 0 <= k < |rest|
        ensures rest[k] !in w1.born && rest[k] !in w1.alive
      {
        assert rest[k] == pids[k + 1];
      }
      CrashesRun(u, w1, rest, inst, cuts[1..]);
      RunsAppend(w, events, CrashEvents(rest, inst, cuts[1..]));
      assert pids == [pids[0]] + rest;
    }
  }

  /** Recovery may die at any write, any number of times, each time in another process: the next one that
      gets through ends with exactly the user's three entries and no file. */
  lemma RecoverySurvivesCrashes(u: Registry, w: World, pids: seq<Pid>, cuts: seq<nat>, last: Pid, inst: nat)
    requires Inv(u, w) && w.holder.None? && OwnerGone(w) && inst !in w.insts
    requires |pids| == |cuts| && NewPids(w, pids + [last]) && (forall k :: 0 <= k < |cuts| ==> cuts[k] < 5)
    ensures var events := CrashEvents(pids, inst, cuts) + AttemptEvents(last, inst, 5);
            Runs(w, events) && After(w, events).d == Durable(u, NoFile, User, User)
  {
    NewPidsSplit(w, pids, last);
    CrashesRun(u, w, pids, inst, cuts);
    var w1 := After(w, CrashEvents(pids, inst, cuts));
    AttemptCompletes(u, w1, last, inst);
    RunsAppend(w, CrashEvents(pids, inst, cuts), AttemptEvents(last, inst, 5));
  }

  lemma NewPidsSplit(w: World, pids: seq<Pid>, last: Pid)
    requires NewPids(w, pids + [last])
    ensures NewPids(w, pids) && last !in w.born && last !in w.alive && last !in pids
  {
    var all := pids + [last];
    assert all[|pids|] == last;
    forall j, k | 0 <= j < k < |pids|
      ensures pids[j] != pids[k]
    {
      assert all[j] != all[k];
    }
    forall k | 0 <= k < |pids|
      ensures pids[k] !in w.born && pids[k] !in w.alive && pids[k] != last
    {
      assert all[k] == pids[k];
    }
  }

  lemma AttemptCompletes(u: Registry, w: World, pid: Pid, inst: nat)
    requires Inv(u, w) && w.holder.None? && OwnerGone(w) && inst !in w.insts
    requires pid !in w.born && pid !in w.alive
    ensures Runs(w, AttemptEvents(pid, inst, 5))
    ensures After(w, AttemptEvents(pid, inst, 5)).d == Durable(u, NoFile, User, User)
  {
    AttemptRuns(u, w, pid, inst, 5);
    RestoreFromFile(u, w.d);
    var job := RestoreJob(Load(w.d.disk).value);
    assert job[..5] == job;
  }

  // ---- the guard is exact ----

  /** A disable call about to start keeps every instant safe if and only if it respects the guard. */
  lemma DisableGuardExact(u: Registry, w: World, inst: nat, otherApp: bool)
    requires Inv(u, w) && Enabled(w, Begin(inst, Disable, otherApp))
    requires Next(w, Begin(inst, Disable, otherApp)).holder.Some?
    ensures SafeRun(u, w.d, Next(w, Begin(inst, Disable, otherApp)).holder.value.job)
       <==> Journaled(w, Begin(inst, Disable, otherApp))
  {
    DisableSafeIff(u, w.d, w.insts[inst].mem, w.insts[inst].pid);
  }

  /** A recovery that loaded one snapshot leaves a newer one alone: the token no longer matches. */
  lemma NewerSnapshotUntouched(loaded: State, disk: Disk, self: Pid)
    requires TokenOf(loaded) != NO_TOKEN
    requires disk != NoFile && !Load(disk).value.corrupt && TokenOf(Load(disk).value) != TokenOf(loaded)
    ensures RestoreChoice(MemoryOf(loaded), disk, self) == None
  {
  }

  // ---- what happens without the guard ----

  /** Two processes load the same stale snapshot before either takes the lock. The first recovers; the
      second, finding no file, restores from memory, and dies after its first write: the file is gone
      and the user's switch is lost. */
  lemma RacingRecoveriesLoseProxy(u: Registry, w: World, p: Pid, q: Pid, i: nat, j: nat) returns (events: seq<Event>)
    requires Inv(u, w) && w.holder.None? && w.d.disk != NoFile && u.enable != OFF
    requires Stale(Load(w.d.disk).value, w.alive, false)
    requires p in w.alive && q in w.alive && i !in w.insts && j !in w.insts && i != j
    ensures events == [LoadStale(j, q, None, false), LoadStale(i, p, None, false), Begin(i, Disable, false)]
                      + Advances(5) + [Begin(j, Disable, false), Advance, Die(q)]
    ensures Runs(w, events)
    ensures After(w, events).d.disk == NoFile && After(w, events).d.reg == u.(enable := OFF)
  {
    var state := Load(w.d.disk).value;
    var first := [LoadStale(j, q, None, false)];
    var w1 := Next(w, first[0]);
    RunsOne(w, first[0]);
    StepKeepsInv(u, w, first[0]);
    var recovery := [LoadStale(i, p, None, false), Begin(i, Disable, false)] + Advances(5);
    RecoveryCompletes(u, w1, p, i);
    RunsAppend(w, first, recovery);
    var w2 := After(w1, recovery);
    var last := [Begin(j, Disable, false), Advance, Die(q)];
    LateRestore(u, w2, state, q, j, last);
    RunsAppend(w, first + recovery, last);
    events := first + recovery + last;
    assert events == [LoadStale(j, q, None, false), LoadStale(i, p, None, false), Begin(i, Disable, false)]
                     + Advances(5) + last;
  }

  lemma LateRestore(u: Registry, w: World, state: State, q: Pid, j: nat, last: seq<Event>)
    requires w.d == Durable(u, NoFile, User, User) && w.holder.None?
    requires j in w.insts && w.insts[j] == Instance(q, MemoryOf(state)) && q in w.alive
    requires HoldsUser(u, state)
    requires last == [Begin(j, Disable, false), Advance, Die(q)]
    ensures Runs(w, last)
    ensures After(w, last).d.disk == NoFile && After(w, last).d.reg == u.(enable := OFF)
  {
    FiveWrites(state, u);
    var w1 := Next(w, last[0]);
    assert w1.holder == Some(Holder(j, RestoreJob(state), Disable));
    var w2 := Next(w1, last[1]);
    var w3 := Next(w2, last[2]);
    var t1, t2, t3 := last[1..], last[2..], last[3..];
    assert t1[1..] == t2 && t2[1..] == t3 && t3 == [];
    assert Runs(w3, t3) && After(w3, t3) == w3;
    assert Runs(w2, t2) && After(w2, t2) == w3;
    assert Runs(w1, t1) && After(w1, t1) == w3;
  }
}
