/** The device methods of `GatewayManager` on its own fields, each tied to the function it implements. */
module DeviceManager {
  import opened Bytes
  import opened DeviceTable

  class Manager {
    var devices: map<Address, Mac>
    var names: map<Address, string>
    var lastSeen: map<Address, real>
    var file: Option<File>
    var active: bool
    var stopping: bool
    var stopSet: bool
    var token: nat

    ghost function Fields(): Table
      reads this
    {
      Table(devices, names, lastSeen, file, active, stopping, stopSet, token)
    }

    constructor ()
      ensures Fields() == Table(map[], map[], map[], None, false, false, false, 0)
    {
      devices, names, lastSeen, file := map[], map[], map[], None;
      active, stopping, stopSet, token := false, false, false, 0;
    }

    /** The end of `start`. */
    method Activate(newToken: nat, site: Site, found: map<Address, Mac>, now: real)
      modifies this
      ensures Fields() == Activated(newToken, site, found, now)
    {
      file := Some(File(newToken, site, found, map[]));
      token := newToken;
      devices := found;
      names := map[];
      lastSeen := map a | a in found :: now;
      active, stopping, stopSet := true, false, false;
    }

    /** `_record_device`; an address or a MAC that does not parse is None. */
    method RecordDevice(rawAddress: Option<Address>, rawMac: Option<Mac>, now: real) returns (changed: bool)
      modifies this
      ensures Fields() == if rawAddress.None? || rawMac.None? then old(Fields())
                          else Record(old(Fields()), rawAddress.value, rawMac.value, now)
      ensures changed ==> rawAddress.Some? && rawMac.Some? && Get(old(devices), rawAddress.value) != rawMac
      ensures changed <==> devices != old(devices)
    {
      if rawAddress.None? || rawMac.None? {
        return false;
      }
      var key, mac := rawAddress.value, rawMac.value;
      if !active || stopping || stopSet || file.None? || file.value.token != token {
        return false;
      }
      if !Allowed(file.value.site, key, mac) {
        return false;
      }
      changed := key !in devices || devices[key] != mac;
      ghost var before := devices;
      devices := devices[key := mac];
      assert changed ==> Get(devices, key) != Get(before, key);
      lastSeen := lastSeen[key := now];
      if changed {
        file := Some(file.value.(devices := devices));
      }
    }

    /** The second locked part of `_record_device_name`, after it recorded the sighting. */
    method NameDevice(address: Address, mac: Mac, name: string) returns (changed: bool)
      modifies this
      ensures Fields() == SetName(old(Fields()), address, mac, name)
    {
      if !active || stopping || stopSet || file.None? || file.value.token != token
         || address !in devices || devices[address] != mac {
        return false;
      }
      if address in names && names[address] == name {
        return false;
      }
      names := names[address := name];
      names := map k | k in names && k in devices :: names[k];
      file := Some(file.value.(names := names));
      return true;
    }

    /** The first critical section of `_refresh_devices`. */
    method BeginSection() returns (s: Option<Snapshot>)
      ensures s == BeginRefresh(Fields())
    {
      if !active || stopping || file.None? || file.value.token != token {
        return None;
      }
      return Some(Snapshot(token, devices, lastSeen, file.value.site));
    }

    /** The second critical section of `_refresh_devices`, after the part that needs no lock. */
    method MergeSection(s: Snapshot, discovered: map<Address, Mac>, now: real, cutoff: real) returns (merged: bool)
      modifies this
      ensures Fields() == Merge(old(Fields()), s, discovered, now, cutoff)
      ensures merged <==> Merges(old(Fields()), s.token)
    {
      var found := KeepPrevious(s, discovered, now, cutoff);
      var seen := KeepStamps(s, discovered, found, now, cutoff);
      merged := StoreSection(s.token, found, seen, cutoff);
    }

    method StoreSection(expected: nat, found: map<Address, Mac>, seen: map<Address, real>, cutoff: real)
      returns (merged: bool)
      modifies this
      ensures merged <==> Merges(old(Fields()), expected)
      ensures Fields() == MergeWith(old(Fields()), expected, found, seen, cutoff)
    {
      if !active || stopping || stopSet || file.None? || file.value.token != expected {
        return false;
      }
      devices, lastSeen := TakeNewer(devices, lastSeen, found, seen, cutoff);
      names := NamesOf(names, devices);
      file := Some(file.value.(devices := devices, names := names));
      return true;
    }

    static method KeepStamps(s: Snapshot, discovered: map<Address, Mac>, found: map<Address, Mac>,
                             now: real, cutoff: real)
      returns (seen: map<Address, real>)
      ensures seen == CandidateSeen(s, discovered, found, now, cutoff)
    {
      var stamped := Stamped(s, discovered, now);
      assert stamped.Keys == s.lastSeen.Keys + discovered.Keys;
      seen := map a | a in stamped && a in found && stamped[a] >= cutoff :: stamped[a];
    }

    static function Stamped(s: Snapshot, discovered: map<Address, Mac>, now: real): (stamped: map<Address, real>)
      ensures stamped.Keys == s.lastSeen.Keys + discovered.Keys
      ensures forall a :: SeenOr0(stamped, a) == StampedAt(s, discovered, now, a)
    {
      s.lastSeen + map a | a in discovered :: now
    }

    /** The loop over the devices known before discovery. */
    method KeepPrevious(s: Snapshot, discovered: map<Address, Mac>, now: real, cutoff: real)
      returns (found: map<Address, Mac>)
      ensures found == Candidates(s, discovered, now, cutoff)
    {
      var seen := Stamped(s, discovered, now);
      found := discovered;
      var pending := s.previous.Keys;
      while pending != {}
        invariant pending <= s.previous.Keys
        invariant forall x :: Get(found, x) == if x in pending && x !in discovered then None
                                               else KeptMac(s, discovered, now, cutoff, x)
        decreases |pending|
      {
        var a :| a in pending;
        pending := pending - {a};
        assert a in found <==> Get(found, a).Some?;
        if InNetwork(s.site, a) && SeenOr0(seen, a) >= cutoff && a !in found {
          found := found[a := s.previous[a]];
        }
      }
      KeptAll(s, discovered, now, cutoff, found);
    }

    /** What the candidates hold for one address. */
    static function KeptMac(s: Snapshot, discovered: map<Address, Mac>, now: real, cutoff: real,
                            x: Address): Option<Mac>
    {
      if x in discovered then Some(discovered[x])
      else if Kept(s, discovered, now, cutoff, x) then Some(s.previous[x])
      else None
    }

    /** What the loop leaves is the specified map. */
    static lemma KeptAll(s: Snapshot, discovered: map<Address, Mac>, now: real, cutoff: real, found: map<Address, Mac>)
      requires forall x :: Get(found, x) == KeptMac(s, discovered, now, cutoff, x)
      ensures found == Candidates(s, discovered, now, cutoff)
    {
      var candidates := Candidates(s, discovered, now, cutoff);
      forall x
        ensures Get(found, x) == Get(candidates, x)
      {
        CandidateMac(s, discovered, now, cutoff, candidates, x);
      }
      SameMap(found, candidates);
    }

    static lemma CandidateMac(s: Snapshot, discovered: map<Address, Mac>, now: real, cutoff: real,
                              candidates: map<Address, Mac>, x: Address)
      requires candidates == Candidates(s, discovered, now, cutoff)
      ensures Get(candidates, x) == KeptMac(s, discovered, now, cutoff, x)
    {
    }

    /** The loop over the devices recorded meanwhile. */
    static method TakeNewer(current: map<Address, Mac>, stamps: map<Address, real>,
                            found0: map<Address, Mac>, seen0: map<Address, real>, cutoff: real)
      returns (found: map<Address, Mac>, seen: map<Address, real>)
      ensures found == MergedDevices(found0, seen0, current, stamps, cutoff)
      ensures seen == MergedSeen(seen0, current, stamps, cutoff)
    {
      found, seen := found0, seen0;
      var pending := current.Keys;
      while pending != {}
        invariant pending <= current.Keys
        invariant forall x :: Get(found, x) == if x !in pending && Newer(current, stamps, seen0, cutoff, x)
                                               then Some(current[x]) else Get(found0, x)
        invariant forall x :: Get(seen, x) == if x !in pending && Newer(current, stamps, seen0, cutoff, x)
                                              then Some(SeenOr0(stamps, x)) else Get(seen0, x)
        decreases |pending|
      {
        var a :| a in pending;
        pending := pending - {a};
        var last := SeenOr0(stamps, a);
        assert Get(seen, a) == Get(seen0, a);
        if last > SeenOr0(seen, a) && last >= cutoff {
          found := found[a := current[a]];
          seen := seen[a := last];
        }
      }
      Extensional(found, seen, found0, seen0, current, stamps, cutoff);
    }

    /** Maps that agree with the merge address by address are the merge. */
    static lemma Extensional(found: map<Address, Mac>, seen: map<Address, real>, found0: map<Address, Mac>,
                             seen0: map<Address, real>, current: map<Address, Mac>, stamps: map<Address, real>,
                             cutoff: real)
      requires forall x :: Get(found, x) == if Newer(current, stamps, seen0, cutoff, x)
                                            then Some(current[x]) else Get(found0, x)
      requires forall x :: Get(seen, x) == if Newer(current, stamps, seen0, cutoff, x)
                                           then Some(SeenOr0(stamps, x)) else Get(seen0, x)
      ensures found == MergedDevices(found0, seen0, current, stamps, cutoff)
      ensures seen == MergedSeen(seen0, current, stamps, cutoff)
    {
      var devices := MergedDevices(found0, seen0, current, stamps, cutoff);
      var merged := MergedSeen(seen0, current, stamps, cutoff);
      forall x
        ensures Get(found, x) == Get(devices, x) && Get(seen, x) == Get(merged, x)
      {
        MergedAt(found0, seen0, current, stamps, cutoff, x);
      }
      SameMap(found, devices);
      SameMap(seen, merged);
    }

    static lemma SameMap<V>(m: map<Address, V>, n: map<Address, V>)
      requires forall x :: Get(m, x) == Get(n, x)
      ensures m == n
    {
      forall x
        ensures x in m <==> x in n
        ensures x in m && x in n ==> m[x] == n[x]
      {
        assert Get(m, x) == Get(n, x);
      }
      assert m.Keys == n.Keys;
    }
  }
}
