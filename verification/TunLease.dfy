/** The TUN lease of `Engine`: who started sing-box, who wants it, and who has to stop it. */
module TunLease {
  import opened Bytes

  const GATEWAY: string := "gateway"

  /** The fields the lease methods read and write. `split` says that gateway networks are set. */
  datatype Tun = Tun(
    leases: set<string>, ownsTun: bool, restoreProxy: bool, proxyOn: bool,
    running: bool, split: bool, engineUp: bool)

  /** How launching sing-box goes: it comes up, it fails before a process exists, or it fails with a
      process that then does or does not stop. */
  datatype Launch = ComesUp | FailsEarly | FailsLate(stops: bool)

  /** New fields, and whether the call returned normally. */
  datatype Outcome = Outcome(s: Tun, ok: bool)

  // ---- the methods as functions ----

  function StopTun(s: Tun, stops: bool): Outcome {
    if !s.running then Outcome(s, true)
    else if stops then Outcome(s.(running := false, split := false), true)
    else Outcome(s, false)
  }

  function EnableTun(s: Tun, networks: bool, launch: Launch): Outcome {
    if !s.engineUp then Outcome(s, false)
    else if s.running then Outcome(if GATEWAY in s.leases then s.(ownsTun := false) else s, true)
    else
      var up := s.(running := true, split := networks);
      match launch
      case ComesUp => Outcome(up, true)
      case FailsEarly => Outcome(s, false)
      case FailsLate(stops) => Outcome(StopTun(up, stops).s, false)
  }

  function DisableTun(s: Tun, stops: bool): Outcome {
    if GATEWAY in s.leases then Outcome(s.(ownsTun := true), true) else StopTun(s, stops)
  }

  /** The part of acquire_tun inside `try`. */
  function TryAcquire(s: Tun, restore: bool, networks: bool, launch: Launch, suspends: bool, cancelled: bool): Outcome {
    var up := if s.running then Outcome(s, true) else EnableTun(s, networks, launch);
    if !up.ok then up
    else if restore && !suspends then Outcome(up.s.(proxyOn := false), false)
    else Outcome(if restore then up.s.(proxyOn := false) else up.s, !cancelled)
  }

  function AcquireTun(s: Tun, owner: string, networks: bool, launch: Launch, suspends: bool, cancelled: bool,
                      stops: bool, resumes: bool): Outcome {
    if owner == "" then Outcome(s, false)
    else if owner in s.leases then Outcome(s, true)
    else if !s.engineUp then Outcome(s, false)
    else
      var restore := owner == GATEWAY && s.proxyOn && !networks;
      var tried := TryAcquire(s, restore, networks, launch, suspends, cancelled);
      if tried.ok then
        var held := tried.s.(leases := tried.s.leases + {owner});
        Outcome(if owner == GATEWAY then held.(ownsTun := !s.running, restoreProxy := restore) else held, true)
      else
        var undone := if s.running then tried.s else StopTun(tried.s, stops).s;
        Outcome(if restore && undone.engineUp && !undone.running && resumes then undone.(proxyOn := true) else undone,
                false)
  }

  function ReleaseTun(s: Tun, owner: string, stops: bool, resumes: bool): Outcome {
    if owner !in s.leases then Outcome(s, true)
    else
      var owns := owner == GATEWAY && s.ownsTun;
      var restore := owner == GATEWAY && s.restoreProxy;
      var left := s.(leases := s.leases - {owner});
      var cleared := if owner == GATEWAY then left.(ownsTun := false, restoreProxy := false) else left;
      var stopped := if owns && cleared.leases == {} then StopTun(cleared, stops) else Outcome(cleared, true);
      if !stopped.ok then stopped
      else if restore && stopped.s.engineUp && !stopped.s.running && !stopped.s.proxyOn then
        (if resumes then Outcome(stopped.s.(proxyOn := true), true) else Outcome(stopped.s, false))
      else stopped
  }

  /** A cancellation noticed after the switch raises with the fields already changed. */
  function EnableSystemProxy(s: Tun, works: bool, cancelled: bool): Outcome {
    if !s.engineUp then Outcome(s, false)
    else if GATEWAY in s.leases && !s.split then
      (if works then Outcome(s.(restoreProxy := true, proxyOn := false), !cancelled) else Outcome(s, false))
    else if s.proxyOn then Outcome(s, !cancelled)
    else if works then Outcome(s.(proxyOn := true), !cancelled)
    else Outcome(s, false)
  }

  function DisableSystemProxy(s: Tun, pending: bool, works: bool): Outcome {
    var s1 := if GATEWAY in s.leases then s.(restoreProxy := false) else s;
    if s1.proxyOn || pending then Outcome(s1.(proxyOn := false), works) else Outcome(s1, true)
  }

  /** Whether a restore of the system proxy is pending before and after `disable`, and whether that raises. */
  datatype Restore = Restore(before: bool, after: bool, works: bool)

  /** `_stop_locked`, the lease part: the gateway lease ends, the TUN is stopped and the proxy restored; the
      proxy counts as on while a restore is still pending. */
  function StopEngine(s: Tun, stops: bool, proxy: Restore): Outcome {
    var left := s.(leases := s.leases - {GATEWAY}, ownsTun := false, restoreProxy := false);
    var stopped := StopTun(left, stops);
    if left.proxyOn || proxy.before
    then Outcome(stopped.s.(engineUp := false, proxyOn := proxy.after), stopped.ok && proxy.works)
    else Outcome(stopped.s.(engineUp := false), stopped.ok)
  }

  // ---- runs ----

  datatype Event =
    | StartEngine
    | UserEnable(admitted: bool, networks: bool, launch: Launch)
    | UserDisable(admitted: bool, stops: bool)
    | Acquire(admitted: bool, owner: string, networks: bool, launch: Launch, suspends: bool, cancelled: bool,
              stops: bool, resumes: bool)
    | Release(admitted: bool, owner: string, stops: bool, resumes: bool)
    | ProxyOn(admitted: bool, works: bool, cancelled: bool)
    | ProxyOff(admitted: bool, pending: bool, works: bool)
    | Stop(stops: bool, proxy: Restore)

  /** The checks at the entry of a call pass: its run is the current one and it is not cancelled yet. */
  predicate Admitted(e: Event) { e.StartEngine? || e.Stop? || e.admitted }

  function Do(s: Tun, e: Event): Outcome {
    if Admitted(e) then Perform(s, e) else Outcome(s, false)
  }

  function Perform(s: Tun, e: Event): Outcome {
    match e
    case StartEngine => Outcome(s.(engineUp := true), true)
    case UserEnable(_, networks, launch) => EnableTun(s, networks, launch)
    case UserDisable(_, stops) => DisableTun(s, stops)
    case Acquire(_, owner, networks, launch, suspends, cancelled, stops, resumes) =>
      AcquireTun(s, owner, networks, launch, suspends, cancelled, stops, resumes)
    case Release(_, owner, stops, resumes) => ReleaseTun(s, owner, stops, resumes)
    case ProxyOn(_, works, cancelled) => EnableSystemProxy(s, works, cancelled)
    case ProxyOff(_, pending, works) => DisableSystemProxy(s, pending, works)
    case Stop(stops, proxy) => StopEngine(s, stops, proxy)
  }

  /** What the user asked for last, counting only calls that succeeded; stopping the engine asks for
      no TUN. */
  function Wanted(before: bool, s: Tun, e: Event): bool {
    match e
    case UserEnable(_, _, _) => if Do(s, e).ok then true else before
    case UserDisable(_, _) => if Do(s, e).ok then false else before
    case Stop(_, _) => false
    case _ => before
  }

  /** sing-box stops when it is told to. */
  predicate Stops(e: Event) {
    match e
    case UserEnable(_, _, launch) => launch.FailsLate? ==> launch.stops
    case UserDisable(_, stops) => stops
    case Acquire(_, _, _, launch, _, _, stops, _) => stops && (launch.FailsLate? ==> launch.stops)
    case Release(_, _, stops, _) => stops
    case Stop(stops, _) => stops
    case _ => true
  }

  /** Only the gateway takes leases, as everywhere in the app. */
  predicate GatewayOnly(e: Event) {
    match e
    case Acquire(_, owner, _, _, _, _, _, _) => owner == GATEWAY || owner == ""
    case _ => true
  }

  function RunState(s: Tun, events: seq<Event>): Tun
    decreases |events|
  {
    if events == [] then s else RunState(Do(s, events[0]).s, events[1..])
  }

  function RunWanted(before: bool, s: Tun, events: seq<Event>): bool
    decreases |events|
  {
    if events == [] then before else RunWanted(Wanted(before, s, events[0]), Do(s, events[0]).s, events[1..])
  }

  /** The flags belong to the gateway lease. */
  predicate FlagsLeased(s: Tun) { GATEWAY !in s.leases ==> !s.ownsTun && !s.restoreProxy }

  /** A failed or successful try touches neither leases nor flags, except that it may clear ownership. */
  lemma TryKeepsLeases(s: Tun, restore: bool, networks: bool, launch: Launch, suspends: bool, cancelled: bool)
    ensures var tried := TryAcquire(s, restore, networks, launch, suspends, cancelled).s;
            tried.leases == s.leases && tried.restoreProxy == s.restoreProxy && (tried.ownsTun ==> s.ownsTun)
  {
  }

  lemma AcquireKeepsFlagsLeased(s: Tun, owner: string, networks: bool, launch: Launch, suspends: bool,
                                cancelled: bool, stops: bool, resumes: bool)
    requires FlagsLeased(s)
    ensures FlagsLeased(AcquireTun(s, owner, networks, launch, suspends, cancelled, stops, resumes).s)
  {
    var restore := owner == GATEWAY && s.proxyOn && !networks;
    TryKeepsLeases(s, restore, networks, launch, suspends, cancelled);
  }

  lemma UserKeepsFlagsLeased(s: Tun, networks: bool, launch: Launch, stops: bool)
    requires FlagsLeased(s)
    ensures FlagsLeased(EnableTun(s, networks, launch).s) && FlagsLeased(DisableTun(s, stops).s)
  {
  }

  lemma ReleaseKeepsFlagsLeased(s: Tun, owner: string, stops: bool, resumes: bool)
    requires FlagsLeased(s)
    ensures FlagsLeased(ReleaseTun(s, owner, stops, resumes).s)
  {
  }

  lemma FlagsStayLeased(s: Tun, e: Event)
    requires FlagsLeased(s)
    ensures FlagsLeased(Do(s, e).s)
  {
    match e {
      case UserEnable(_, networks, launch) => UserKeepsFlagsLeased(s, networks, launch, true);
      case UserDisable(_, stops) => UserKeepsFlagsLeased(s, true, FailsEarly, stops);
      case Acquire(_, owner, networks, launch, suspends, cancelled, stops, resumes) =>
        AcquireKeepsFlagsLeased(s, owner, networks, launch, suspends, cancelled, stops, resumes);
      case Release(_, owner, stops, resumes) => ReleaseKeepsFlagsLeased(s, owner, stops, resumes);
      case _ =>
    }
  }

  /** In every run at all, failures and foreign leases included, `_gateway_owns_tun` and
      `_gateway_restore_proxy` are set only while the gateway holds a lease. */
  lemma {:induction false} FlagsOnlyWhileLeased(s: Tun, events: seq<Event>)
    requires FlagsLeased(s)
    ensures FlagsLeased(RunState(s, events))
    decreases |events|
  {
    if events != [] {
      FlagsStayLeased(s, events[0]);
      FlagsOnlyWhileLeased(Do(s, events[0]).s, events[1..]);
    }
  }

  /** Intent and reality: without a lease they agree; under the gateway's lease the TUN is up and the
      ownership flag records that the user does not want it. */
  predicate FollowsUser(s: Tun, wanted: bool) {
    && FlagsLeased(s)
    && (GATEWAY !in s.leases ==> s.running == wanted)
    && (GATEWAY in s.leases ==> s.running && s.ownsTun == !wanted)
  }

  /** What a call must meet to leave the TUN with the user: everything here can be read off the fields and
      the way sing-box behaves, before or without the result. */
  predicate LeavesIntent(s: Tun, wanted: bool, e: Event) {
    !Admitted(e) ||
    match e
    case UserEnable(_, _, launch) => s.engineUp && !s.running ==> launch != FailsLate(false)
    case Acquire(_, owner, networks, launch, suspends, cancelled, stops, _) =>
      StartsTun(s, owner) ==> AcquireHarmless(s, owner, networks, launch, suspends, cancelled, stops)
    case Release(_, owner, stops, _) =>
      owner == GATEWAY && GATEWAY in s.leases ==> wanted || (s.leases == {GATEWAY} && stops)
    case Stop(stops, _) => s.running ==> stops
    case _ => true
  }

  /** An acquire that gets as far as launching sing-box. */
  predicate StartsTun(s: Tun, owner: string) { owner != "" && owner !in s.leases && s.engineUp && !s.running }

  /** Such an acquire: a foreign lease must fail and be undone, the gateway's may hold. */
  predicate AcquireHarmless(s: Tun, owner: string, networks: bool, launch: Launch, suspends: bool, cancelled: bool,
                            stops: bool)
  {
    match launch
    case FailsEarly => true
    case FailsLate(undone) => undone || stops
    case ComesUp => if Holds(s, owner, networks, suspends, cancelled) then owner == GATEWAY else stops
  }

  /** After sing-box came up nothing else goes wrong. */
  predicate Holds(s: Tun, owner: string, networks: bool, suspends: bool, cancelled: bool) {
    !cancelled && (owner == GATEWAY && s.proxyOn && !networks ==> suspends)
  }

  lemma LastLease(leases: set<string>)
    requires GATEWAY in leases
    ensures leases - {GATEWAY} == {} <==> leases == {GATEWAY}
  {
    if leases != {GATEWAY} {
      var x :| x in leases && x != GATEWAY;
      assert x in leases - {GATEWAY};
    }
  }

  /** An acquire without a launch leaves intent and reality alone. */
  lemma QuietAcquire(s: Tun, wanted: bool, owner: string, networks: bool, launch: Launch, suspends: bool,
                     cancelled: bool, stops: bool, resumes: bool)
    requires FollowsUser(s, wanted) && !StartsTun(s, owner)
    ensures FollowsUser(AcquireTun(s, owner, networks, launch, suspends, cancelled, stops, resumes).s, wanted)
  {
    AcquireKeepsFlagsLeased(s, owner, networks, launch, suspends, cancelled, stops, resumes);
  }

  /** What an acquire with a launch leaves, by the way the launch goes. */
  lemma FailedLaunch(s: Tun, owner: string, networks: bool, launch: Launch, suspends: bool, cancelled: bool,
                     stops: bool, resumes: bool)
    requires StartsTun(s, owner) && !launch.ComesUp?
    ensures var left := AcquireTun(s, owner, networks, launch, suspends, cancelled, stops, resumes).s;
            && left.leases == s.leases && left.ownsTun == s.ownsTun
            && (left.running <==> launch == FailsLate(false) && !stops)
  {
  }

  lemma GoodLaunch(s: Tun, owner: string, networks: bool, suspends: bool, cancelled: bool, stops: bool, resumes: bool)
    requires StartsTun(s, owner)
    ensures var left := AcquireTun(s, owner, networks, ComesUp, suspends, cancelled, stops, resumes).s;
            if Holds(s, owner, networks, suspends, cancelled)
            then left.leases == s.leases + {owner} && left.running && left.ownsTun == (owner == GATEWAY || s.ownsTun)
            else left.leases == s.leases && left.ownsTun == s.ownsTun && left.running == !stops
  {
  }

  lemma AcquireExact(s: Tun, wanted: bool, owner: string, networks: bool, launch: Launch, suspends: bool,
                     cancelled: bool, stops: bool, resumes: bool)
    requires FollowsUser(s, wanted) && StartsTun(s, owner)
    ensures FollowsUser(AcquireTun(s, owner, networks, launch, suspends, cancelled, stops, resumes).s, wanted)
       <==> AcquireHarmless(s, owner, networks, launch, suspends, cancelled, stops)
  {
    AcquireKeepsFlagsLeased(s, owner, networks, launch, suspends, cancelled, stops, resumes);
    if launch.ComesUp? {
      GoodLaunch(s, owner, networks, suspends, cancelled, stops, resumes);
    } else {
      FailedLaunch(s, owner, networks, launch, suspends, cancelled, stops, resumes);
    }
  }

  lemma ReleaseFollows(s: Tun, wanted: bool, owner: string, stops: bool, resumes: bool)
    requires FollowsUser(s, wanted)
    ensures FollowsUser(ReleaseTun(s, owner, stops, resumes).s, wanted)
       <==> (owner == GATEWAY && GATEWAY in s.leases ==> wanted || (s.leases == {GATEWAY} && stops))
  {
    ReleaseKeepsFlagsLeased(s, owner, stops, resumes);
    if GATEWAY in s.leases { LastLease(s.leases); }
  }

  lemma EnableFollows(s: Tun, wanted: bool, networks: bool, launch: Launch)
    requires FollowsUser(s, wanted)
    ensures var out := EnableTun(s, networks, launch);
            FollowsUser(out.s, wanted || out.ok) <==> (s.engineUp && !s.running ==> launch != FailsLate(false))
  {
  }

  lemma DisableFollows(s: Tun, wanted: bool, stops: bool)
    requires FollowsUser(s, wanted)
    ensures var out := DisableTun(s, stops);
            FollowsUser(out.s, wanted && !out.ok)
  {
  }

  lemma ProxyFollows(s: Tun, wanted: bool, works: bool, other: bool)
    requires FollowsUser(s, wanted)
    ensures FollowsUser(EnableSystemProxy(s, works, other).s, wanted)
    ensures FollowsUser(DisableSystemProxy(s, other, works).s, wanted)
  {
  }

  lemma StopFollows(s: Tun, wanted: bool, stops: bool, proxy: Restore)
    requires FollowsUser(s, wanted)
    ensures FollowsUser(StopEngine(s, stops, proxy).s, false) <==> (s.running ==> stops)
  {
  }

  lemma AcquireFollows(s: Tun, wanted: bool, owner: string, networks: bool, launch: Launch, suspends: bool,
                       cancelled: bool, stops: bool, resumes: bool)
    requires FollowsUser(s, wanted)
    ensures FollowsUser(AcquireTun(s, owner, networks, launch, suspends, cancelled, stops, resumes).s, wanted)
       <==> (StartsTun(s, owner) ==> AcquireHarmless(s, owner, networks, launch, suspends, cancelled, stops))
  {
    if StartsTun(s, owner) {
      AcquireExact(s, wanted, owner, networks, launch, suspends, cancelled, stops, resumes);
    } else {
      QuietAcquire(s, wanted, owner, networks, launch, suspends, cancelled, stops, resumes);
    }
  }

  /** The exact condition, call by call: the TUN goes on following the user if and only if the call meets it. */
  lemma StepExact(s: Tun, wanted: bool, e: Event)
    requires FollowsUser(s, wanted)
    ensures FollowsUser(Do(s, e).s, Wanted(wanted, s, e)) <==> LeavesIntent(s, wanted, e)
  {
    match e {
      case StartEngine =>
      case UserEnable(_, networks, launch) => EnableFollows(s, wanted, networks, launch);
      case UserDisable(_, stops) => DisableFollows(s, wanted, stops);
      case Acquire(_, owner, networks, launch, suspends, cancelled, stops, resumes) =>
        AcquireFollows(s, wanted, owner, networks, launch, suspends, cancelled, stops, resumes);
      case Release(_, owner, stops, resumes) => ReleaseFollows(s, wanted, owner, stops, resumes);
      case ProxyOn(_, works, cancelled) => ProxyFollows(s, wanted, works, cancelled);
      case ProxyOff(_, pending, works) => ProxyFollows(s, wanted, works, pending);
      case Stop(stops, proxy) => StopFollows(s, wanted, stops, proxy);
    }
  }

  predicate IntentRun(s: Tun, wanted: bool, events: seq<Event>)
    decreases |events|
  {
    events == []
    || (LeavesIntent(s, wanted, events[0]) && IntentRun(Do(s, events[0]).s, Wanted(wanted, s, events[0]), events[1..]))
  }

  /** Main result: in every run whose calls meet the condition, foreign leases and failed stops included,
      whenever the gateway holds no lease the TUN is running exactly when the user's last own call enabled it. */
  lemma {:induction false} TunFollowsUser(s: Tun, wanted: bool, events: seq<Event>)
    requires FollowsUser(s, wanted) && IntentRun(s, wanted, events)
    ensures FollowsUser(RunState(s, events), RunWanted(wanted, s, events))
    ensures GATEWAY !in RunState(s, events).leases ==>
              RunState(s, events).running == RunWanted(wanted, s, events)
    decreases |events|
  {
    if events != [] {
      StepExact(s, wanted, events[0]);
      TunFollowsUser(Do(s, events[0]).s, Wanted(wanted, s, events[0]), events[1..]);
    }
  }

  /** While only the gateway takes leases and sing-box stops when told, every call meets the condition. */
  lemma {:induction false} OrdinaryRun(s: Tun, wanted: bool, events: seq<Event>)
    requires FollowsUser(s, wanted) && s.leases <= {GATEWAY}
    requires forall k :: 0 <= k < |events| ==> Stops(events[k]) && GatewayOnly(events[k])
    ensures IntentRun(s, wanted, events)
    decreases |events|
  {
    if events != [] {
      OrdinaryStep(s, wanted, events[0]);
      StepExact(s, wanted, events[0]);
      OrdinaryRun(Do(s, events[0]).s, Wanted(wanted, s, events[0]), events[1..]);
    }
  }

  lemma OrdinaryStep(s: Tun, wanted: bool, e: Event)
    requires FollowsUser(s, wanted) && s.leases <= {GATEWAY} && Stops(e) && GatewayOnly(e)
    ensures LeavesIntent(s, wanted, e) && Do(s, e).s.leases <= {GATEWAY}
  {
    match e {
      case Acquire(_, owner, networks, launch, suspends, cancelled, stops, resumes) =>
        TryKeepsLeases(s, owner == GATEWAY && s.proxyOn && !networks, networks, launch, suspends, cancelled);
      case _ =>
    }
  }

  /** The exact condition at a release: it leaves the TUN as the user wants it if and only if the user
      wants it on, or this is the last lease and sing-box stops. */
  lemma ReleaseExact(s: Tun, wanted: bool, stops: bool, resumes: bool)
    requires FollowsUser(s, wanted) && GATEWAY in s.leases
    ensures ReleaseTun(s, GATEWAY, stops, resumes).s.running == wanted
       <==> wanted || (s.leases == {GATEWAY} && stops)
  {
    LastLease(s.leases);
  }

  /** A first lease, by anyone: the TUN goes on following the user if and only if the lease is the gateway's
      or the user wants the TUN; released again, if and only if the user wants it or the gateway's stop works. */
  lemma FirstLeaseExact(s: Tun, wanted: bool, owner: string, networks: bool, launch: Launch, suspends: bool,
                        cancelled: bool, undoes: bool, resumes: bool, stops: bool, resumesLater: bool)
    requires FollowsUser(s, wanted) && s.leases == {} && owner != ""
    requires AcquireTun(s, owner, networks, launch, suspends, cancelled, undoes, resumes).ok
    ensures var held := AcquireTun(s, owner, networks, launch, suspends, cancelled, undoes, resumes).s;
            && (FollowsUser(held, wanted) <==> owner == GATEWAY || wanted)
            && (ReleaseTun(held, owner, stops, resumesLater).s.running == wanted
                <==> wanted || (owner == GATEWAY && stops))
  {
    assert {} + {owner} == {owner} && {owner} - {owner} == {};
  }

  /** Acquiring and releasing undo each other: the TUN runs as before, and the system proxy is on as before
      unless it was suspended while the TUN was already running. */
  lemma ReleaseUndoesAcquire(s: Tun, networks: bool, launch: Launch, suspends: bool)
    requires s.leases == {} && FlagsLeased(s)
    requires AcquireTun(s, GATEWAY, networks, launch, suspends, false, true, true).ok
    ensures var held := AcquireTun(s, GATEWAY, networks, launch, suspends, false, true, true).s;
            var freed := ReleaseTun(held, GATEWAY, true, true);
            && held.running && held.leases == {GATEWAY} && held.ownsTun == !s.running
            && freed.ok && freed.s.leases == {} && freed.s.running == s.running && FlagsLeased(freed.s)
            && (freed.s.proxyOn == s.proxyOn <==> !(s.running && s.proxyOn && !networks))
  {
    assert {} + {GATEWAY} == {GATEWAY} && {GATEWAY} - {GATEWAY} == {};
  }

  /** A failed acquisition takes no lease and, when sing-box stops as told, leaves the TUN as it was; the
      system proxy is as before if and only if it was not suspended, or the TUN is down and it resumes. */
  lemma FailedAcquireUndone(s: Tun, owner: string, networks: bool, launch: Launch, suspends: bool,
                            cancelled: bool, resumes: bool)
    requires launch.FailsLate? ==> launch.stops
    requires !AcquireTun(s, owner, networks, launch, suspends, cancelled, true, resumes).ok
    ensures var left := AcquireTun(s, owner, networks, launch, suspends, cancelled, true, resumes).s;
            && left.leases == s.leases && left.running == s.running && left.restoreProxy == s.restoreProxy
            && (left.proxyOn == s.proxyOn
                <==> owner != GATEWAY || !s.engineUp || !s.proxyOn || networks
                     || (!s.running && (!launch.ComesUp? || resumes)))
  {
    var restore := owner == GATEWAY && s.proxyOn && !networks;
    TryKeepsLeases(s, restore, networks, launch, suspends, cancelled);
  }

  /** A lease under any other name starts the TUN and never stops it. */
  lemma ForeignLeaseLeaks(owner: string)
    requires owner != "" && owner != GATEWAY
    ensures var idle := Tun({}, false, false, false, false, false, true);
            var run := [Acquire(true, owner, false, ComesUp, true, false, true, true),
                        Release(true, owner, true, true)];
            && RunState(idle, run).running && RunState(idle, run).leases == {}
            && !RunWanted(false, idle, run)
  {
    var idle := Tun({}, false, false, false, false, false, true);
    var run := [Acquire(true, owner, false, ComesUp, true, false, true, true), Release(true, owner, true, true)];
    var s1 := Do(idle, run[0]).s;
    assert s1.leases == {owner} && s1.running;
    var s2 := Do(s1, run[1]).s;
    assert s2.leases == {} && s2.running;
    assert run[1..] == [run[1]] && run[1..][1..] == [];
    assert RunState(s1, run[1..]) == s2;
    assert !RunWanted(false, s1, run[1..]);
  }
}
