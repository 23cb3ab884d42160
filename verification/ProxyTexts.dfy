/** What every run of `WindowsProxy` keeps, guarded or not: no torn proxy is ever on, and of the user's three
    entries only the ProxyEnable switch can ever be lost. */
module ProxyTexts {
  import opened Bytes
  import opened ProxyJournal
  import opened ProxyMachine

  /** A remembered or saved state holds all three entries, and the two texts are the user's. */
  predicate HoldsTexts(u: Registry, state: State) {
    && !state.corrupt
    && ProxyEnable in state.values && ProxyServer in state.values && ProxyOverride in state.values
    && state.values[ProxyServer] == u.server && state.values[ProxyOverride] == u.bypass
  }

  /** Untorn; without a file both texts are the user's, with one the file holds them. */
  predicate Kept(u: Registry, d: Durable) {
    && Untorn(u, d)
    && (d.disk.NoFile? ==> d.serverBy == User && d.bypassBy == User)
    && (!d.disk.NoFile? ==> HoldsTexts(u, Load(d.disk).value))
  }

  /** Kept before, between and after all writes of the job. */
  predicate KeptRun(u: Registry, d: Durable, job: seq<Action>)
    decreases |job|
  {
    Kept(u, d) && (job == [] || KeptRun(u, Exec(job[0], d), job[1..]))
  }

  predicate RemembersTexts(u: Registry, mem: Memory) { mem.previous.Some? ==> HoldsTexts(u, mem.previous.value) }

  ghost predicate KeptInv(u: Registry, w: World) {
    && Kept(u, w.d)
    && (forall i :: i in w.insts ==> RemembersTexts(u, w.insts[i].mem))
    && (w.holder.Some? ==> w.holder.value.job != [] && KeptRun(u, w.d, w.holder.value.job))
  }

  // ---- the jobs ----

  lemma {:induction false} KeptRunAppend(u: Registry, d: Durable, a: seq<Action>, b: seq<Action>)
    requires KeptRun(u, d, a) && KeptRun(u, Perform(a, d), b)
    ensures KeptRun(u, d, a + b)
    decreases |a|
  {
    if a == [] {
      assert a + b == b;
    } else {
      assert (a + b)[1..] == a[1..] + b;
      KeptRunAppend(u, Exec(a[0], d), a[1..], b);
    }
  }

  /** The five writes of a restore. */
  lemma RestoreWrites(u: Registry, state: State)
    requires HoldsTexts(u, state)
    ensures RestoreJob(state) == [Put(ProxyEnable, OFF, User), Put(ProxyServer, u.server, User),
                                  Put(ProxyOverride, u.bypass, User), Put(ProxyEnable, state.values[ProxyEnable], User),
                                  Unlink(TokenOf(state))]
  {
  }

  /** A restore keeps the texts whether it comes from the file or from memory alone. */
  lemma RestoreKept(u: Registry, d: Durable, state: State)
    requires Kept(u, d) && HoldsTexts(u, state)
    ensures KeptRun(u, d, RestoreJob(state))
    ensures var end := Perform(RestoreJob(state), d);
            && end.reg == u.(enable := state.values[ProxyEnable]) && end.serverBy == User && end.bypassBy == User
            && (d.disk.NoFile? || TokenOf(Load(d.disk).value) == TokenOf(state) ==> end.disk == NoFile)
  {
    RestoreWrites(u, state);
    var job := RestoreJob(state);
    var d1 := Exec(job[0], d);
    var d2 := Exec(job[1], d1);
    var d3 := Exec(job[2], d2);
    var d4 := Exec(job[3], d3);
    var d5 := Exec(job[4], d4);
    var e1, e2, e3, e4, e5 := job[1..], job[2..], job[3..], job[4..], job[5..];
    assert e1[1..] == e2 && e2[1..] == e3 && e3[1..] == e4 && e4[1..] == e5 && e5 == [];
    assert KeptRun(u, d5, e5) && Perform(e5, d5) == d5;
    assert KeptRun(u, d4, e4) && Perform(e4, d4) == d5;
    assert KeptRun(u, d3, e3) && Perform(e3, d3) == d5;
    assert KeptRun(u, d2, e2) && Perform(e2, d2) == d5;
    assert KeptRun(u, d1, e1) && Perform(e1, d1) == d5;
  }

  lemma AppWritesKept(u: Registry, d: Durable, call: nat, setup: Setup, enabled: bool)
    requires Kept(u, d) && d.disk != NoFile
    ensures KeptRun(u, d, AppJob(call, setup, enabled))
  {
    var job := AppJob(call, setup, enabled);
    var d1 := Exec(job[0], d);
    var d2 := Exec(job[1], d1);
    var d3 := Exec(job[2], d2);
    var e1, e2, e3 := job[1..], job[2..], job[3..];
    assert e1[1..] == e2 && e2[1..] == e3;
    if enabled {
      assert e3 == [job[3]] && e3[1..] == [];
      var d4 := Exec(job[3], d3);
      assert KeptRun(u, d4, e3[1..]);
    } else {
      assert e3 == [];
    }
    assert KeptRun(u, d3, e3);
    assert KeptRun(u, d2, e2);
    assert KeptRun(u, d1, e1);
  }

  lemma FreshJobKept(u: Registry, d: Durable, owner: Owner, call: nat, setup: Setup, enabled: bool)
    requires Kept(u, d) && d.disk == NoFile
    ensures KeptRun(u, d, [Save(owner)] + AppJob(call, setup, enabled))
    ensures HoldsTexts(u, State(Some(owner), ValuesOf(d.reg), false))
  {
    var app := AppJob(call, setup, enabled);
    SnapshotReads(owner, d.reg);
    AppWritesKept(u, Exec(Save(owner), d), call, setup, enabled);
    assert ([Save(owner)] + app)[1..] == app;
  }

  lemma EnableKept(u: Registry, d: Durable, alive: set<Pid>, otherApp: bool, owner: Owner, call: nat, setup: Setup,
                   enabled: bool)
    requires Kept(u, d)
    requires EnableJob(d.disk, alive, otherApp, owner, call, setup, enabled).Some?
    ensures KeptRun(u, d, EnableJob(d.disk, alive, otherApp, owner, call, setup, enabled).value)
  {
    if d.disk == NoFile {
      FreshJobKept(u, d, owner, call, setup, enabled);
    } else {
      var state := Load(d.disk).value;
      assert RestoreChoice(MemoryOf(state), d.disk, owner.pid) == Some(state);
      RestoreKept(u, d, state);
      var clean := Perform(RestoreJob(state), d);
      FreshJobKept(u, clean, owner, call, setup, enabled);
      KeptRunAppend(u, d, RestoreJob(state), [Save(owner)] + AppJob(call, setup, enabled));
    }
  }

  // ---- the calls and the steps ----

  /** No guard: a disable call may restore from memory alone. */
  lemma CallKept(u: Registry, d: Durable, op: Op, mem: Memory, alive: set<Pid>, otherApp: bool, owner: Owner, call: nat)
    requires Kept(u, d) && RemembersTexts(u, mem)
    ensures var c := CallOf(op, mem, d.disk, alive, otherApp, owner, call);
            c.Writes? ==> c.job != [] && KeptRun(u, d, c.job) && RemembersTexts(u, c.adopted)
  {
    var pending := OwnedPending(mem, d.disk, owner.pid);
    if pending.Some? {
      assert d.disk != NoFile && pending == Load(d.disk);
    }
    match op {
      case Disable =>
        var choice := RestoreChoice(mem, d.disk, owner.pid);
        if choice.Some? {
          RestoreKept(u, d, choice.value);
        }
      case Suspend =>
        if pending.Some? {
          var job := [Put(ProxyEnable, OFF, App(call))];
          assert job[1..] == [] && Kept(u, Exec(job[0], d));
        }
      case Enable(setup) => FreshCallKept(u, d, mem, alive, otherApp, owner, call, setup, true);
      case Resume(setup) =>
        if pending.Some? {
          AppWritesKept(u, d, call, setup, true);
        } else {
          FreshCallKept(u, d, mem, alive, otherApp, owner, call, setup, true);
        }
      case SuspendForTun(setup) =>
        if pending.Some? {
          AppWritesKept(u, d, call, setup, false);
        } else {
          FreshCallKept(u, d, mem, alive, otherApp, owner, call, setup, false);
        }
    }
  }

  lemma FreshCallKept(u: Registry, d: Durable, mem: Memory, alive: set<Pid>, otherApp: bool, owner: Owner, call: nat,
                      setup: Setup, enabled: bool)
    requires Kept(u, d) && RemembersTexts(u, mem)
    ensures var c := FreshCall(d.disk, alive, otherApp, owner, call, setup, enabled, mem);
            c.Writes? ==> c.job != [] && KeptRun(u, d, c.job) && RemembersTexts(u, c.adopted)
  {
    if EnableJob(d.disk, alive, otherApp, owner, call, setup, enabled).Some? {
      EnableKept(u, d, alive, otherApp, owner, call, setup, enabled);
    }
  }

  /** What a Save in the middle of a kept run remembers holds the user's texts. */
  lemma SavedHoldsTexts(u: Registry, d: Durable, owner: Owner)
    requires Kept(u, Exec(Save(owner), d))
    ensures RemembersTexts(u, MemoryOf(State(Some(owner), ValuesOf(d.reg), false)))
  {
    SnapshotReads(owner, d.reg);
  }

  lemma BeginKeeps(u: Registry, w: World, inst: nat, op: Op, otherApp: bool)
    requires KeptInv(u, w) && Enabled(w, Begin(inst, op, otherApp))
    ensures KeptInv(u, Next(w, Begin(inst, op, otherApp)))
  {
    var self := w.insts[inst];
    CallKept(u, w.d, op, self.mem, w.alive, otherApp, Owner(self.pid, w.nextToken + 1), w.nextCall);
  }

  lemma AdvanceKeeps(u: Registry, w: World)
    requires KeptInv(u, w) && Enabled(w, Advance)
    ensures KeptInv(u, Next(w, Advance))
  {
    var h := w.holder.value;
    var d1 := Exec(h.job[0], w.d);
    assert KeptRun(u, d1, h.job[1..]);
    if h.job[0].Save? {
      SavedHoldsTexts(u, w.d, h.job[0].owner);
    }
  }

  /** Every step of every process, with no guard at all. */
  lemma StepKeeps(u: Registry, w: World, e: Event)
    requires KeptInv(u, w) && Enabled(w, e)
    ensures KeptInv(u, Next(w, e))
  {
    match e {
      case Begin(inst, op, otherApp) => BeginKeeps(u, w, inst, op, otherApp);
      case Advance => AdvanceKeeps(u, w);
      case _ =>
    }
  }

  // ---- runs ----

  lemma {:induction false} RunKeeps(u: Registry, w: World, events: seq<Event>, k: nat)
    requires KeptInv(u, w) && Runs(w, events) && k <= |events|
    ensures Runs(w, events[..k]) && KeptInv(u, After(w, events[..k]))
    decreases k
  {
    if k > 0 {
      StepKeeps(u, w, events[0]);
      RunKeeps(u, Next(w, events[0]), events[1..], k - 1);
      assert events[..k][1..] == events[1..][..k - 1];
    }
  }

  /** A world before the app's first call: the registry is the user's, nothing is saved or remembered. */
  predicate Untouched(u: Registry, w: World) {
    w.d == Durable(u, NoFile, User, User) && w.insts == map[] && w.holder.None?
  }

  /** Main result, for every run without exception: at every single write, after every raise and death, a
      proxy that is on has both texts from the user or both from one call. */
  lemma NeverTorn(u: Registry, w: World, events: seq<Event>, k: nat)
    requires Untouched(u, w) || KeptInv(u, w)
    requires Runs(w, events) && k <= |events|
    ensures Runs(w, events[..k]) && Untorn(u, After(w, events[..k]).d)
  {
    RunKeeps(u, w, events, k);
  }

  /** In every run, races included, only the switch can be lost: without a file the two texts are the
      user's, and a file holds the user's three entries except perhaps the switch. */
  lemma OnlySwitchLost(u: Registry, w: World, events: seq<Event>, k: nat)
    requires Untouched(u, w) || KeptInv(u, w)
    requires Runs(w, events) && k <= |events|
    ensures Runs(w, events[..k])
    ensures var d := After(w, events[..k]).d;
            if d.disk.NoFile? then d.reg == u.(enable := d.reg.enable)
            else && ProxyEnable in Load(d.disk).value.values && !Load(d.disk).value.corrupt
                 && var restored := Perform(RestoreJob(Load(d.disk).value), d);
                    && restored.disk == NoFile
                    && restored.reg == u.(enable := Load(d.disk).value.values[ProxyEnable])
  {
    RunKeeps(u, w, events, k);
    var d := After(w, events[..k]).d;
    if !d.disk.NoFile? {
      RestoreKept(u, d, Load(d.disk).value);
    }
  }
}
