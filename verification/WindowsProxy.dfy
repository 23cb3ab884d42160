/** The class `WindowsProxy` itself, against a host that records every durable state it passes through. */
module WindowsProxies {
  import opened Bytes
  import opened ProxyJournal
  import opened ProxyMachine

  /** The three registry values and the restore file. */
  class Host {
    var reg: Registry
    var disk: Disk
    ghost var serverBy: Origin
    ghost var bypassBy: Origin
    ghost var trail: seq<Durable>

    ghost function Now(): Durable
      reads this
    {
      Durable(reg, disk, serverBy, bypassBy)
    }

    /** The writes of `job`, one by one, are all that happened since the state `before`. */
    ghost predicate Wrote(job: seq<Action>, before: Durable, earlier: seq<Durable>)
      reads this
    {
      Now() == Perform(job, before) && trail == earlier + Trace(job, before)
    }

    /** SetValueEx, or DeleteValue when the entry is missing. */
    method SetValue(name: Name, entry: Entry, ghost who: Origin)
      modifies this
      ensures Now() == Exec(Put(name, entry, who), old(Now()))
      ensures trail == old(trail) + [Now()]
    {
      reg := Write(reg, name, entry);
      if name == ProxyServer {
        serverBy := who;
      } else if name == ProxyOverride {
        bypassBy := who;
      }
      trail := trail + [Now()];
    }

    /** `_write_state` of a fresh snapshot: the file is replaced in one step. */
    method SaveState(owner: Owner)
      modifies this
      ensures Now() == Exec(Save(owner), old(Now()))
      ensures trail == old(trail) + [Now()]
    {
      disk := Saved(owner, reg);
      trail := trail + [Now()];
    }

    /** The end of `_disable_locked`: re-read the file and remove it if it is still this snapshot. */
    method RemoveState(token: Token)
      modifies this
      ensures Now() == Exec(Unlink(token), old(Now()))
      ensures trail == old(trail) + [Now()]
    {
      var latest := Load(disk);
      if latest.None? || latest.value.corrupt || token == NO_TOKEN || TokenOf(latest.value) == token {
        disk := NoFile;
      }
      trail := trail + [Now()];
    }
  }

  class WindowsProxy {
    const host: Host
    const pid: Pid
    var previous: Option<State>
    var stateToken: Token

    constructor (host: Host, pid: Pid)
      ensures this.host == host && this.pid == pid && Memo() == FORGOTTEN
    {
      this.host, this.pid := host, pid;
      previous, stateToken := None, NO_TOKEN;
    }

    ghost function Memo(): Memory
      reads this
    {
      Memory(previous, stateToken)
    }

    /** The call did exactly what the machine says of it: its writes one by one, and what is remembered. */
    ghost predicate Performed(op: Op, alive: set<Pid>, otherApp: bool, token: Token, call: nat, ok: bool,
                              before: Durable, earlier: seq<Durable>, mem: Memory)
      reads this, host
    {
      var c := CallOf(op, mem, before.disk, alive, otherApp, Owner(pid, token), call);
      && ok == c.Writes?
      && host.Wrote(if ok then c.job else [], before, earlier)
      && Memo() == if ok then MemoryAfter(c.job, op, before, c.adopted) else mem
    }

    method OwnedPendingState() returns (state: Option<State>)
      modifies this
      ensures state == OwnedPending(old(Memo()), host.disk, pid)
      ensures Memo() == if state.Some? then MemoryOf(state.value) else old(Memo())
    {
      state := Load(host.disk);
      if state.Some? && state.value.corrupt && previous.Some? {
        state := previous;
      }
      if state.None? {
        return;
      }
      var owner := state.value.owner;
      if owner.None? || owner.value.pid != pid {
        return None;
      }
      var token := owner.value.token;
      if stateToken != NO_TOKEN && token != stateToken {
        return None;
      }
      previous := state;
      stateToken := token;
    }

    method WriteAppProxyValues(setup: Setup, enabled: bool, ghost call: nat)
      modifies host
      ensures host.Wrote(AppJob(call, setup, enabled), old(host.Now()), old(host.trail))
    {
      ghost var d, t := host.Now(), host.trail;
      ghost var job := AppJob(call, setup, enabled);
      ghost var none: seq<Action> := [];
      host.SetValue(ProxyEnable, OFF, App(call));
      TraceSnoc(none, job[0], d);
      host.SetValue(ProxyServer, Present(Text(ServerText(setup.socks, setup.http)), REG_SZ), App(call));
      TraceSnoc(none + [job[0]], job[1], d);
      host.SetValue(ProxyOverride, Present(Text(setup.bypass), REG_SZ), App(call));
      TraceSnoc(none + [job[0]] + [job[1]], job[2], d);
      assert none + [job[0]] + [job[1]] + [job[2]] == job[..3];
      if enabled {
        host.SetValue(ProxyEnable, ON, App(call));
        TraceSnoc(job[..3], job[3], d);
        assert job[..3] + [job[3]] == job;
      } else {
        assert job[..3] == job;
      }
    }

    method RestoreOne(values: map<Name, Entry>, name: Name)
      modifies host
      ensures host.Wrote(RestoreEntry(values, name), old(host.Now()), old(host.trail))
    {
      ghost var none: seq<Action> := [];
      if name in values {
        TraceSnoc(none, Put(name, values[name], User), host.Now());
        host.SetValue(name, values[name], User);
        assert none + RestoreEntry(values, name) == RestoreEntry(values, name);
      }
    }

    /** `_disable_locked`. */
    method DisableLocked() returns (ok: bool)
      modifies this, host
      ensures var choice := RestoreChoice(old(Memo()), old(host.disk), pid);
              if choice.None? then !ok && Memo() == old(Memo()) && host.Wrote([], old(host.Now()), old(host.trail))
              else ok && Memo() == FORGOTTEN
                   && host.Wrote(RestoreJob(choice.value), old(host.Now()), old(host.trail))
    {
      var onDisk := Load(host.disk);
      var diskCorrupt := onDisk.Some? && onDisk.value.corrupt;
      var memoryIsExact := previous.Some? && !previous.value.corrupt;
      var ownership := if diskCorrupt && memoryIsExact then None else onDisk;
      if ownership.Some? && stateToken != NO_TOKEN {
        if TokenOf(ownership.value) != stateToken {
          return false;
        }
      } else if ownership.Some? {
        var owner := ownership.value.owner;
        if owner.Some? && owner.value.pid != pid {
          return false;
        }
      }
      var state := if diskCorrupt && memoryIsExact then previous else if onDisk.Some? then onDisk else previous;
      if state.None? {
        return false;
      }
      RestoreValues(state.value);
      previous, stateToken := None, NO_TOKEN;
      return true;
    }

    method RestoreValues(state: State)
      modifies host
      ensures host.Wrote(RestoreJob(state), old(host.Now()), old(host.trail))
    {
      ghost var d := host.Now();
      ghost var none: seq<Action> := [];
      ghost var off, gone := [Put(ProxyEnable, OFF, User)], [Unlink(TokenOf(state))];
      host.SetValue(ProxyEnable, OFF, User);
      TraceSnoc(none, off[0], d);
      assert none + off == off;
      RestoreThree(state.values);
      ghost var e := host.Now();
      host.RemoveState(TokenOf(state));
      TraceSnoc(none, gone[0], e);
      assert none + gone == gone;
      TraceOfThree(off, RestoreEntries(state.values), gone, d);
      RestoreJobParts(state);
    }

    /** The two texts, then the switch. */
    method RestoreThree(values: map<Name, Entry>)
      modifies host
      ensures host.Wrote(RestoreEntries(values), old(host.Now()), old(host.trail))
    {
      ghost var d := host.Now();
      RestoreOne(values, ProxyServer);
      RestoreOne(values, ProxyOverride);
      RestoreOne(values, ProxyEnable);
      TraceOfThree(RestoreEntry(values, ProxyServer), RestoreEntry(values, ProxyOverride),
                   RestoreEntry(values, ProxyEnable), d);
    }

    static ghost function RestoreEntries(values: map<Name, Entry>): seq<Action> {
      RestoreEntry(values, ProxyServer) + (RestoreEntry(values, ProxyOverride) + RestoreEntry(values, ProxyEnable))
    }

    static lemma RestoreJobParts(state: State)
      ensures RestoreJob(state)
           == [Put(ProxyEnable, OFF, User)] + (RestoreEntries(state.values) + [Unlink(TokenOf(state))])
    {
    }

    /** The start of `_enable_locked`: a snapshot that is there must be stale and is recovered first. */
    method ClearStale(alive: set<Pid>, otherApp: bool) returns (ok: bool)
      modifies host
      ensures var existing := Load(old(host.disk));
              ok == (existing.None? || (Stale(existing.value, alive, otherApp)
                                        && RestoreChoice(MemoryOf(existing.value), old(host.disk), pid).Some?))
      ensures host.Wrote(if ok then ClearingJob(old(host.disk), pid) else [], old(host.Now()), old(host.trail))
    {
      var existing := Load(host.disk);
      if existing.None? {
        return true;
      }
      var owner := existing.value.owner;
      if owner.Some? && owner.value.pid in alive {
        return false;
      }
      if owner.None? && otherApp {
        return false;
      }
      var helper := new WindowsProxy(host, pid);
      helper.previous, helper.stateToken := existing, TokenOf(existing.value);
      ok := helper.DisableLocked();
    }

    /** The snapshot of `_enable_locked`: the file first, then the object's own copy. */
    method TakeSnapshot(token: Token)
      modifies this, host
      ensures host.Wrote([Save(Owner(pid, token))], old(host.Now()), old(host.trail))
      ensures Memo() == MemoryOf(State(Some(Owner(pid, token)), ValuesOf(old(host.reg)), false))
    {
      ghost var none: seq<Action> := [];
      TraceSnoc(none, Save(Owner(pid, token)), host.Now());
      assert none + [Save(Owner(pid, token))] == [Save(Owner(pid, token))];
      var values := ValuesOf(host.reg);
      host.SaveState(Owner(pid, token));
      previous := Some(State(Some(Owner(pid, token)), values, false));
      stateToken := token;
    }

    /** `_enable_locked`; false stands for the two RuntimeErrors. */
    method EnableLocked(setup: Setup, enabled: bool, alive: set<Pid>, otherApp: bool, token: Token, ghost call: nat)
      returns (ok: bool)
      modifies this, host
      ensures var job := EnableJob(old(host.disk), alive, otherApp, Owner(pid, token), call, setup, enabled);
              && ok == job.Some?
              && host.Wrote(if ok then job.value else [], old(host.Now()), old(host.trail))
      ensures Memo() == if ok then EnableMemory(old(host.Now()), Owner(pid, token)) else old(Memo())
    {
      ghost var d := host.Now();
      ghost var app := AppJob(call, setup, enabled);
      ok := ClearStale(alive, otherApp);
      if !ok {
        return;
      }
      TakeSnapshot(token);
      WriteAppProxyValues(setup, enabled, call);
      TraceOfThree(ClearingJob(d.disk, pid), [Save(Owner(pid, token))], app, d);
      EnableJobParts(d.disk, alive, otherApp, Owner(pid, token), call, setup, enabled);
    }

    method Resume(setup: Setup, alive: set<Pid>, otherApp: bool, token: Token, ghost call: nat) returns (ok: bool)
      modifies this, host
      ensures Performed(ProxyJournal.Resume(setup), alive, otherApp, token, call, ok,
                        old(host.Now()), old(host.trail), old(Memo()))
    {
      ghost var d, mem := host.Now(), Memo();
      var state := OwnedPendingState();
      if state.None? {
        ok := EnableLocked(setup, true, alive, otherApp, token, call);
        if ok {
          EnableRemembers(d, alive, otherApp, Owner(pid, token), call, setup, true, ProxyJournal.Resume(setup), mem);
        }
        return;
      }
      WriteAppProxyValues(setup, true, call);
      NoSaveNoMemory(AppJob(call, setup, true), ProxyJournal.Resume(setup), d, Memo());
      return true;
    }

    method Suspend(alive: set<Pid>, otherApp: bool, token: Token, ghost call: nat) returns (ok: bool)
      modifies this, host
      ensures Performed(ProxyJournal.Suspend, alive, otherApp, token, call, ok,
                        old(host.Now()), old(host.trail), old(Memo()))
    {
      ghost var d := host.Now();
      var state := OwnedPendingState();
      if state.None? {
        return false;
      }
      ghost var none: seq<Action> := [];
      ghost var job := [Put(ProxyEnable, OFF, App(call))];
      TraceSnoc(none, job[0], d);
      assert none + job == job;
      host.SetValue(ProxyEnable, OFF, App(call));
      NoSaveNoMemory(job, ProxyJournal.Suspend, d, Memo());
      return true;
    }

    method SuspendForTun(setup: Setup, alive: set<Pid>, otherApp: bool, token: Token, ghost call: nat)
      returns (ok: bool)
      modifies this, host
      ensures Performed(ProxyJournal.SuspendForTun(setup), alive, otherApp, token, call, ok,
                        old(host.Now()), old(host.trail), old(Memo()))
    {
      ghost var d, mem := host.Now(), Memo();
      var state := OwnedPendingState();
      if state.None? {
        ok := EnableLocked(setup, false, alive, otherApp, token, call);
        if ok {
          EnableRemembers(d, alive, otherApp, Owner(pid, token), call, setup, false,
                          ProxyJournal.SuspendForTun(setup), mem);
        }
        return;
      }
      WriteAppProxyValues(setup, false, call);
      NoSaveNoMemory(AppJob(call, setup, false), ProxyJournal.SuspendForTun(setup), d, Memo());
      return true;
    }

    method Enable(setup: Setup, alive: set<Pid>, otherApp: bool, token: Token, ghost call: nat) returns (ok: bool)
      modifies this, host
      ensures Performed(ProxyJournal.Enable(setup), alive, otherApp, token, call, ok,
                        old(host.Now()), old(host.trail), old(Memo()))
    {
      ghost var d, mem := host.Now(), Memo();
      ok := EnableLocked(setup, true, alive, otherApp, token, call);
      if ok {
        EnableRemembers(d, alive, otherApp, Owner(pid, token), call, setup, true, ProxyJournal.Enable(setup), mem);
      }
    }

    /** `disable`: the machine's call with the same writes and the same memory. */
    method Disable(alive: set<Pid>, otherApp: bool, token: Token, ghost call: nat) returns (ok: bool)
      modifies this, host
      ensures Performed(ProxyJournal.Disable, alive, otherApp, token, call, ok,
                        old(host.Now()), old(host.trail), old(Memo()))
    {
      ghost var d, mem := host.Now(), Memo();
      ok := DisableLocked();
      if ok {
        DisableForgets(RestoreJob(RestoreChoice(mem, d.disk, pid).value), d, mem);
      }
    }

    /** The first half of `recover_stale`, outside the lock: an object that remembers what it read. */
    static method OpenStale(host: Host, self: Pid, expected: Option<Expected>, alive: set<Pid>, otherApp: bool)
      returns (helper: WindowsProxy?)
      ensures var found := Load(host.disk);
              if found.None? || !MayRecover(found.value, expected, alive, otherApp) then helper == null
              else helper != null && fresh(helper) && helper.host == host && helper.pid == self
                   && helper.Memo() == MemoryOf(found.value)
    {
      var state := Load(host.disk);
      if state.None? || !MayRecover(state.value, expected, alive, otherApp) {
        return null;
      }
      helper := new WindowsProxy(host, self);
      helper.previous, helper.stateToken := state, TokenOf(state.value);
    }

    /** `recover_stale` when no other process gets in between its two halves. */
    static method RecoverStale(host: Host, self: Pid, expected: Option<Expected>, alive: set<Pid>, otherApp: bool)
      returns (ok: bool)
      modifies host
      ensures var found := Load(old(host.disk));
              if found.None? || !MayRecover(found.value, expected, alive, otherApp)
              then !ok && host.Wrote([], old(host.Now()), old(host.trail))
              else
                var choice := RestoreChoice(MemoryOf(found.value), old(host.disk), self);
                ok == choice.Some?
                && host.Wrote(if ok then RestoreJob(choice.value) else [], old(host.Now()), old(host.trail))
    {
      var helper := OpenStale(host, self, expected, alive, otherApp);
      if helper == null {
        return false;
      }
      ok := helper.DisableLocked();
    }
  }
}
