/** The lease methods of `Engine` on its own fields. Each call does what the run model says of it, and the class
    invariant, that the TUN follows the user, survives a call exactly when the call meets its condition. */
module TunEngine {
  import opened TunLease

  class Engine {
    var leases: set<string>
    var ownsTun: bool
    var restoreProxy: bool
    var proxyOn: bool
    var running: bool
    var split: bool
    var engineUp: bool
    /** What the user's own calls asked for last. */
    ghost var wanted: bool

    constructor ()
      ensures Fields() == Tun({}, false, false, false, false, false, false) && !wanted && Valid()
    {
      leases, ownsTun, restoreProxy, proxyOn := {}, false, false, false;
      running, split, engineUp := false, false, false;
      wanted := false;
    }

    ghost function Fields(): Tun
      reads this
    {
      Tun(leases, ownsTun, restoreProxy, proxyOn, running, split, engineUp)
    }

    ghost predicate Valid()
      reads this
    {
      FollowsUser(Fields(), wanted)
    }

    /** The call was event `e` of a run: fields, result and the user's wish are those of the model, and the
        invariant, if it held, holds if and only if the call meets its condition. */
    ghost predicate Did(e: Event, ok: bool, before: Tun, wish: bool)
      reads this
    {
      && Outcome(Fields(), ok) == Do(before, e)
      && wanted == Wanted(wish, before, e)
      && (FollowsUser(before, wish) ==> (Valid() <==> LeavesIntent(before, wish, e)))
    }

    method StopTunLocked(stops: bool) returns (ok: bool)
      modifies this
      ensures Outcome(Fields(), ok) == StopTun(old(Fields()), stops) && wanted == old(wanted)
    {
      if running && !stops {
        return false;
      }
      if running {
        running, split := false, false;
      }
      return true;
    }

    /** `enable_tun`, also on the way to a lease. */
    method StartTun(networks: bool, launch: Launch) returns (ok: bool)
      modifies this
      ensures Outcome(Fields(), ok) == TunLease.EnableTun(old(Fields()), networks, launch) && wanted == old(wanted)
    {
      if !engineUp {
        return false;
      }
      if running {
        if GATEWAY in leases {
          ownsTun := false;
        }
        return true;
      }
      if launch == FailsEarly {
        return false;
      }
      running, split := true, networks;
      if launch.FailsLate? {
        ok := StopTunLocked(launch.stops);
        return false;
      }
      return true;
    }

    /** The user's own `enable_tun`. */
    method EnableTun(admitted: bool, networks: bool, launch: Launch) returns (ok: bool)
      modifies this
      ensures Did(UserEnable(admitted, networks, launch), ok, old(Fields()), old(wanted))
    {
      ghost var s, wish := Fields(), wanted;
      if admitted {
        ok := StartTun(networks, launch);
      } else {
        ok := false;
      }
      wanted := wanted || ok;
      if FollowsUser(s, wish) { StepExact(s, wish, UserEnable(admitted, networks, launch)); }
    }

    method DisableTun(admitted: bool, stops: bool) returns (ok: bool)
      modifies this
      ensures Did(UserDisable(admitted, stops), ok, old(Fields()), old(wanted))
    {
      ghost var s, wish := Fields(), wanted;
      if admitted {
        ok := HandOver(stops);
      } else {
        ok := false;
      }
      wanted := wanted && !ok;
      if FollowsUser(s, wish) { StepExact(s, wish, UserDisable(admitted, stops)); }
    }

    /** The body of `disable_tun`. */
    method HandOver(stops: bool) returns (ok: bool)
      modifies this
      ensures Outcome(Fields(), ok) == TunLease.DisableTun(old(Fields()), stops) && wanted == old(wanted)
    {
      if GATEWAY in leases {
        ownsTun := true;
        return true;
      }
      ok := StopTunLocked(stops);
    }

    method AcquireTun(admitted: bool, owner: string, networks: bool, launch: Launch, suspends: bool, cancelled: bool,
                      stops: bool, resumes: bool) returns (ok: bool)
      modifies this
      ensures Did(Acquire(admitted, owner, networks, launch, suspends, cancelled, stops, resumes), ok,
                  old(Fields()), old(wanted))
    {
      ghost var s, wish := Fields(), wanted;
      if admitted {
        ok := TakeLease(owner, networks, launch, suspends, cancelled, stops, resumes);
      } else {
        ok := false;
      }
      if FollowsUser(s, wish) {
        StepExact(s, wish, Acquire(admitted, owner, networks, launch, suspends, cancelled, stops, resumes));
      }
    }

    /** The `try` of `acquire_tun`. */
    method TryLease(restore: bool, networks: bool, launch: Launch, suspends: bool, cancelled: bool) returns (ok: bool)
      modifies this
      ensures Outcome(Fields(), ok) == TryAcquire(old(Fields()), restore, networks, launch, suspends, cancelled)
      ensures wanted == old(wanted)
    {
      if !running {
        ok := StartTun(networks, launch);
        if !ok {
          return;
        }
      }
      if restore {
        proxyOn := false;
        if !suspends {
          return false;
        }
      }
      return !cancelled;
    }

    /** The `except` of `acquire_tun`; a stop that fails is swallowed. */
    method UndoLease(wasRunning: bool, restore: bool, stops: bool, resumes: bool)
      modifies this
      ensures var undone := if wasRunning then old(Fields()) else StopTun(old(Fields()), stops).s;
              Fields() == if restore && undone.engineUp && !undone.running && resumes then undone.(proxyOn := true)
                          else undone
      ensures wanted == old(wanted)
    {
      if !wasRunning {
        var swallowed := StopTunLocked(stops);
      }
      if restore && engineUp && !running && resumes {
        proxyOn := true;
      }
    }

    /** The body of `acquire_tun`. */
    method TakeLease(owner: string, networks: bool, launch: Launch, suspends: bool, cancelled: bool,
                     stops: bool, resumes: bool) returns (ok: bool)
      modifies this
      ensures Outcome(Fields(), ok)
           == TunLease.AcquireTun(old(Fields()), owner, networks, launch, suspends, cancelled, stops, resumes)
      ensures wanted == old(wanted)
    {
      if owner == "" {
        return false;
      }
      if owner in leases {
        return true;
      }
      if !engineUp {
        return false;
      }
      var wasRunning := running;
      var restore := owner == GATEWAY && proxyOn && !networks;
      ok := TryLease(restore, networks, launch, suspends, cancelled);
      if !ok {
        UndoLease(wasRunning, restore, stops, resumes);
        return false;
      }
      HoldLease(owner, wasRunning, restore);
    }

    method HoldLease(owner: string, wasRunning: bool, restore: bool)
      modifies this
      ensures var held := old(Fields()).(leases := old(leases) + {owner});
              Fields() == if owner == GATEWAY then held.(ownsTun := !wasRunning, restoreProxy := restore) else held
      ensures wanted == old(wanted)
    {
      leases := leases + {owner};
      if owner == GATEWAY {
        ownsTun := !wasRunning;
        restoreProxy := restore;
      }
    }

    method ReleaseTun(admitted: bool, owner: string, stops: bool, resumes: bool) returns (ok: bool)
      modifies this
      ensures Did(Release(admitted, owner, stops, resumes), ok, old(Fields()), old(wanted))
    {
      ghost var s, wish := Fields(), wanted;
      if admitted {
        ok := DropLease(owner, stops, resumes);
      } else {
        ok := false;
      }
      if FollowsUser(s, wish) { StepExact(s, wish, Release(admitted, owner, stops, resumes)); }
    }

    /** The body of `release_tun`. */
    method DropLease(owner: string, stops: bool, resumes: bool) returns (ok: bool)
      modifies this
      ensures Outcome(Fields(), ok) == TunLease.ReleaseTun(old(Fields()), owner, stops, resumes)
      ensures wanted == old(wanted)
    {
      if owner !in leases {
        return true;
      }
      var owns := owner == GATEWAY && ownsTun;
      var restore := owner == GATEWAY && restoreProxy;
      leases := leases - {owner};
      if owner == GATEWAY {
        ownsTun, restoreProxy := false, false;
      }
      if owns && leases == {} {
        ok := StopTunLocked(stops);
        if !ok {
          return;
        }
      }
      if restore && engineUp && !running && !proxyOn {
        if !resumes {
          return false;
        }
        proxyOn := true;
      }
      return true;
    }

    method EnableSystemProxy(admitted: bool, works: bool, cancelled: bool) returns (ok: bool)
      modifies this
      ensures Did(ProxyOn(admitted, works, cancelled), ok, old(Fields()), old(wanted))
    {
      ghost var s, wish := Fields(), wanted;
      if admitted {
        ok := SwitchProxyOn(works, cancelled);
      } else {
        ok := false;
      }
      if FollowsUser(s, wish) { StepExact(s, wish, ProxyOn(admitted, works, cancelled)); }
    }

    /** The body of `enable_system_proxy`. */
    method SwitchProxyOn(works: bool, cancelled: bool) returns (ok: bool)
      modifies this
      ensures Outcome(Fields(), ok) == TunLease.EnableSystemProxy(old(Fields()), works, cancelled)
      ensures wanted == old(wanted)
    {
      if !engineUp {
        return false;
      }
      if GATEWAY in leases && !split {
        if !works {
          return false;
        }
        restoreProxy, proxyOn := true, false;
        return !cancelled;
      }
      if !proxyOn {
        if !works {
          return false;
        }
        proxyOn := true;
      }
      return !cancelled;
    }

    method DisableSystemProxy(admitted: bool, pending: bool, works: bool) returns (ok: bool)
      modifies this
      ensures Did(ProxyOff(admitted, pending, works), ok, old(Fields()), old(wanted))
    {
      ghost var s, wish := Fields(), wanted;
      if admitted {
        ok := SwitchProxyOff(pending, works);
      } else {
        ok := false;
      }
      if FollowsUser(s, wish) { StepExact(s, wish, ProxyOff(admitted, pending, works)); }
    }

    /** The body of `disable_system_proxy`. */
    method SwitchProxyOff(pending: bool, works: bool) returns (ok: bool)
      modifies this
      ensures Outcome(Fields(), ok) == TunLease.DisableSystemProxy(old(Fields()), pending, works)
      ensures wanted == old(wanted)
    {
      if GATEWAY in leases {
        restoreProxy := false;
      }
      if proxyOn || pending {
        proxyOn := false;
        return works;
      }
      return true;
    }

    method StopLocked(stops: bool, proxy: Restore) returns (ok: bool)
      modifies this
      ensures Did(Stop(stops, proxy), ok, old(Fields()), old(wanted))
    {
      ghost var s, wish := Fields(), wanted;
      ok := EndEngine(stops, proxy);
      wanted := false;
      if FollowsUser(s, wish) { StepExact(s, wish, Stop(stops, proxy)); }
    }

    /** The body of `_stop_locked`. */
    method EndEngine(stops: bool, proxy: Restore) returns (ok: bool)
      modifies this
      ensures Outcome(Fields(), ok) == StopEngine(old(Fields()), stops, proxy) && wanted == old(wanted)
    {
      leases := leases - {GATEWAY};
      ownsTun, restoreProxy := false, false;
      ok := StopTunLocked(stops);
      engineUp := false;
      if proxyOn || proxy.before {
        ok := ok && proxy.works;
        proxyOn := proxy.after;
      }
    }
  }
}
