/** The device table of `GatewayManager`: sightings and names recorded by other threads while a slow
    discovery runs outside the lock between two critical sections. */
module DeviceTable {
  import opened Bytes

  type Address = nat
  type Mac = string

  /** The LAN as the state file describes it. */
  datatype Site = Site(
    base: Address, size: nat, address: Address, gateway: Address, blocked: set<Mac>)

  /** The parts of the state file that matter here. */
  datatype File = File(token: nat, site: Site, devices: map<Address, Mac>, names: map<Address, string>)

  datatype Table = Table(
    devices: map<Address, Mac>, names: map<Address, string>, lastSeen: map<Address, real>,
    file: Option<File>, active: bool, stopping: bool, stopSet: bool, token: nat)

  predicate InNetwork(site: Site, a: Address) { site.base <= a < site.base + site.size }

  /** 224.0.0.0/4. */
  predicate IsMulticast(a: Address) { a / 0x1000_0000 == 14 }

  predicate Allowed(site: Site, a: Address, mac: Mac) {
    && InNetwork(site, a) && a != site.base && a != site.base + site.size - 1
    && a != site.address && a != site.gateway && !IsMulticast(a) && mac !in site.blocked
  }

  /** Active, not stopping, and the file on disk is this activation's. */
  predicate IsOpen(t: Table) {
    t.active && !t.stopping && !t.stopSet && t.file.Some? && t.file.value.token == t.token
  }

  function Get<V>(m: map<Address, V>, a: Address): Option<V> { if a in m then Some(m[a]) else None }

  function SeenOr0(m: map<Address, real>, a: Address): real { if a in m then m[a] else 0.0 }

  // ---- the critical sections as functions ----

  /** `_record_device`, its locked part. The stamp was read before the lock was taken. */
  function Record(t: Table, a: Address, mac: Mac, now: real): Table {
    if !IsOpen(t) || !Allowed(t.file.value.site, a, mac) then t
    else
      var devices := t.devices[a := mac];
      t.(devices := devices,
         lastSeen := t.lastSeen[a := now],
         file := if Get(t.devices, a) != Some(mac) then Some(t.file.value.(devices := devices)) else t.file)
  }

  /** `_record_device_name`, its second locked part. */
  function SetName(t: Table, a: Address, mac: Mac, name: string): Table {
    if !IsOpen(t) || Get(t.devices, a) != Some(mac) || Get(t.names, a) == Some(name) then t
    else
      var all := t.names[a := name];
      var names := map k | k in all && k in t.devices :: all[k];
      t.(names := names, file := Some(t.file.value.(names := names)))
  }

  /** What the first critical section of `_refresh_devices` copies. */
  datatype Snapshot = Snapshot(token: nat, previous: map<Address, Mac>, lastSeen: map<Address, real>, site: Site)

  function BeginRefresh(t: Table): Option<Snapshot> {
    if t.active && !t.stopping && t.file.Some? && t.file.value.token == t.token
    then Some(Snapshot(t.token, t.devices, t.lastSeen, t.file.value.site))
    else None
  }

  /** Sightings after discovery: everything discovered was seen now. */
  function StampedAt(s: Snapshot, discovered: map<Address, Mac>, now: real, a: Address): real {
    if a in discovered then now else SeenOr0(s.lastSeen, a)
  }

  predicate Kept(s: Snapshot, discovered: map<Address, Mac>, now: real, cutoff: real, a: Address) {
    a in s.previous && InNetwork(s.site, a) && StampedAt(s, discovered, now, a) >= cutoff
  }

  function Candidates(s: Snapshot, discovered: map<Address, Mac>, now: real, cutoff: real): map<Address, Mac> {
    (map a | a in s.previous && Kept(s, discovered, now, cutoff, a) :: s.previous[a]) + discovered
  }

  function CandidateSeen(s: Snapshot, discovered: map<Address, Mac>, found: map<Address, Mac>,
                         now: real, cutoff: real): map<Address, real>
  {
    map a | a in s.lastSeen.Keys + discovered.Keys && a in found && StampedAt(s, discovered, now, a) >= cutoff
          :: StampedAt(s, discovered, now, a)
  }

  /** A sighting recorded while discovery ran that is newer than what the merge has. */
  predicate Newer(current: map<Address, Mac>, stamps: map<Address, real>, seen: map<Address, real>,
                  cutoff: real, a: Address)
  {
    a in current && SeenOr0(stamps, a) > SeenOr0(seen, a) && SeenOr0(stamps, a) >= cutoff
  }

  function MergedDevices(found: map<Address, Mac>, seen: map<Address, real>, current: map<Address, Mac>,
                         stamps: map<Address, real>, cutoff: real): map<Address, Mac>
  {
    found + map a | a in current && Newer(current, stamps, seen, cutoff, a) :: current[a]
  }

  function MergedSeen(seen: map<Address, real>, current: map<Address, Mac>,
                      stamps: map<Address, real>, cutoff: real): map<Address, real>
  {
    seen + map a | a in current && Newer(current, stamps, seen, cutoff, a) :: SeenOr0(stamps, a)
  }

  /** Same activation, nothing is stopping: the merge goes through. */
  predicate Merges(t: Table, token: nat) {
    t.active && !t.stopping && !t.stopSet && t.file.Some? && t.file.value.token == token
  }

  function NamesOf(names: map<Address, string>, devices: map<Address, Mac>): map<Address, string> {
    map a | a in names && a in devices :: names[a]
  }

  /** The write-back at the end of the second critical section. */
  function Store(t: Table, devices: map<Address, Mac>, seen: map<Address, real>): Table
    requires t.file.Some?
  {
    var names := NamesOf(t.names, devices);
    t.(devices := devices, lastSeen := seen, names := names,
       file := Some(t.file.value.(devices := devices, names := names)))
  }

  /** The second critical section, for devices and stamps computed before the lock. */
  function MergeWith(t: Table, token: nat, found: map<Address, Mac>, seen: map<Address, real>, cutoff: real): Table {
    if !Merges(t, token) then t
    else Store(t, MergedDevices(found, seen, t.devices, t.lastSeen, cutoff),
                  MergedSeen(seen, t.devices, t.lastSeen, cutoff))
  }

  /** `_refresh_devices` after discovery. */
  function Merge(t: Table, s: Snapshot, discovered: map<Address, Mac>, now: real, cutoff: real): Table {
    var found := Candidates(s, discovered, now, cutoff);
    MergeWith(t, s.token, found, CandidateSeen(s, discovered, found, now, cutoff), cutoff)
  }

  // ---- the invariant ----

  /** While active on its own file: one last sighting per device, names only for devices, every device
      on the LAN, and the file says the same as memory. */
  predicate Consistent(t: Table) {
    t.active && t.file.Some? && t.file.value.token == t.token ==>
      && t.lastSeen.Keys == t.devices.Keys
      && t.names.Keys <= t.devices.Keys
      && t.file.value.devices == t.devices && t.file.value.names == t.names
      && (forall a :: a in t.devices ==> InNetwork(t.file.value.site, a))
  }

  /** The end of `start`: the devices that were found first, all seen now, no names, and the file on disk. */
  function Activated(token: nat, site: Site, devices: map<Address, Mac>, now: real): Table {
    var file := File(token, site, devices, map[]);
    Table(devices, map[], map a | a in devices :: now, Some(file), true, false, false, token)
  }

  lemma ActivatedConsistent(token: nat, site: Site, devices: map<Address, Mac>, now: real)
    requires forall a :: a in devices ==> InNetwork(site, a)
    ensures Consistent(Activated(token, site, devices, now)) && IsOpen(Activated(token, site, devices, now))
  {
  }

  lemma RecordConsistent(t: Table, a: Address, mac: Mac, now: real)
    requires Consistent(t)
    ensures Consistent(Record(t, a, mac, now))
  {
  }

  lemma SetNameConsistent(t: Table, a: Address, mac: Mac, name: string)
    requires Consistent(t)
    ensures Consistent(SetName(t, a, mac, name))
  {
  }

  /** What discovery may report: `_filter_devices` keeps LAN addresses only. */
  predicate OnLan(s: Snapshot, discovered: map<Address, Mac>) {
    forall a :: a in discovered ==> InNetwork(s.site, a)
  }

  /** A snapshot of the current activation. */
  predicate Current(t: Table, s: Snapshot) {
    && t.file.Some? && t.token == s.token
    && (t.file.value.token == s.token ==> t.file.value.site == s.site)
    && s.lastSeen.Keys == s.previous.Keys
    && (forall a :: a in s.previous ==> InNetwork(s.site, a))
  }

  /** What the candidates say of one address. */
  function CandidateStamp(s: Snapshot, discovered: map<Address, Mac>, now: real, cutoff: real,
                          a: Address): Option<real>
  {
    if a in discovered then Some(now)
    else if a in s.lastSeen && s.lastSeen[a] >= cutoff then Some(s.lastSeen[a])
    else None
  }

  lemma CandidateAt(s: Snapshot, discovered: map<Address, Mac>, found: map<Address, Mac>, seen: map<Address, real>,
                    now: real, cutoff: real, a: Address)
    requires found == Candidates(s, discovered, now, cutoff)
    requires seen == CandidateSeen(s, discovered, found, now, cutoff)
    requires s.lastSeen.Keys == s.previous.Keys && cutoff <= now
    requires forall x :: x in s.previous ==> InNetwork(s.site, x)
    ensures Get(seen, a) == CandidateStamp(s, discovered, now, cutoff, a)
    ensures a in found <==> CandidateStamp(s, discovered, now, cutoff, a).Some?
  {
    assert a in s.lastSeen <==> a in s.previous;
  }

  /** The merged maps, one address at a time. */
  lemma MergedAt(found: map<Address, Mac>, seen: map<Address, real>, current: map<Address, Mac>,
                 stamps: map<Address, real>, cutoff: real, a: Address)
    ensures Get(MergedDevices(found, seen, current, stamps, cutoff), a)
         == if Newer(current, stamps, seen, cutoff, a) then Some(current[a]) else Get(found, a)
    ensures Get(MergedSeen(seen, current, stamps, cutoff), a)
         == if Newer(current, stamps, seen, cutoff, a) then Some(SeenOr0(stamps, a)) else Get(seen, a)
  {
  }

  /** Storing aligned maps keeps the table consistent. */
  lemma StoreConsistent(t: Table, devices: map<Address, Mac>, seen: map<Address, real>)
    requires t.file.Some? && seen.Keys == devices.Keys
    requires forall a :: a in devices ==> InNetwork(t.file.value.site, a)
    ensures Consistent(Store(t, devices, seen))
  {
  }

  lemma MergeConsistent(t: Table, s: Snapshot, discovered: map<Address, Mac>, now: real, cutoff: real)
    requires Consistent(t) && Current(t, s) && OnLan(s, discovered) && cutoff <= now
    ensures Consistent(Merge(t, s, discovered, now, cutoff))
  {
    if Merges(t, s.token) {
      var found := Candidates(s, discovered, now, cutoff);
      var seen := CandidateSeen(s, discovered, found, now, cutoff);
      var devices := MergedDevices(found, seen, t.devices, t.lastSeen, cutoff);
      var stamps := MergedSeen(seen, t.devices, t.lastSeen, cutoff);
      forall a
        ensures a in stamps <==> a in devices
        ensures a in devices ==> InNetwork(s.site, a)
      {
        CandidateAt(s, discovered, found, seen, now, cutoff, a);
        MergedAt(found, seen, t.devices, t.lastSeen, cutoff, a);
        assert Get(devices, a).Some? <==> a in devices;
      }
      StoreConsistent(t, devices, stamps);
    }
  }

  // ---- what the merge keeps ----

  /** The newest sighting any of the three sources has of an address. */
  function Freshest(t: Table, s: Snapshot, discovered: map<Address, Mac>, now: real, a: Address): Option<real> {
    Later(Later(Get(s.lastSeen, a), if a in discovered then Some(now) else None), Get(t.lastSeen, a))
  }

  function Later(x: Option<real>, y: Option<real>): Option<real> {
    if x.None? then y else if y.None? then x else if x.value < y.value then y else x
  }

  predicate Positive(m: map<Address, real>) { forall a :: a in m ==> m[a] > 0.0 }

  /** One address of the merge, on its stamps alone. */
  lemma FreshestWins(t: Table, token: nat, found: map<Address, Mac>, seen: map<Address, real>,
                     candidate: Option<real>, freshest: Option<real>, cutoff: real, a: Address)
    requires Merges(t, token) && t.lastSeen.Keys == t.devices.Keys
    requires Get(seen, a) == candidate && (a in found <==> candidate.Some?)
    requires candidate.Some? ==> candidate.value >= cutoff && candidate.value > 0.0
    requires a in t.lastSeen ==> t.lastSeen[a] > 0.0
    requires freshest.Some? && freshest.value >= cutoff ==> Later(candidate, Get(t.lastSeen, a)) == freshest
    requires freshest.None? || freshest.value < cutoff ==>
               candidate.None? && (a !in t.lastSeen || t.lastSeen[a] < cutoff)
    ensures var out := MergeWith(t, token, found, seen, cutoff);
            && (a in out.devices <==> freshest.Some? && freshest.value >= cutoff)
            && (a in out.devices ==> Get(out.lastSeen, a) == freshest)
  {
    MergedAt(found, seen, t.devices, t.lastSeen, cutoff, a);
    assert Get(MergedDevices(found, seen, t.devices, t.lastSeen, cutoff), a).Some?
      <==> a in MergedDevices(found, seen, t.devices, t.lastSeen, cutoff);
  }

  /** Dropping a candidate that is too old does not change which stamp is freshest. */
  lemma StaleCandidate(before: Option<real>, found: Option<real>, current: Option<real>, candidate: Option<real>,
                       cutoff: real)
    requires before.Some? && found.Some? ==> before.value <= found.value
    requires found.Some? ==> found.value >= cutoff
    requires candidate == if found.Some? then found
                          else if before.Some? && before.value >= cutoff then before else None
    ensures var freshest := Later(Later(before, found), current);
            if freshest.Some? && freshest.value >= cutoff then Later(candidate, current) == freshest
            else candidate.None? && (current.None? || current.value < cutoff)
  {
  }

  /** Exactly the devices whose freshest sighting is within the time to live survive, stamped with it. */
  lemma MergeKeepsFresh(t: Table, s: Snapshot, discovered: map<Address, Mac>, now: real, cutoff: real, a: Address)
    requires Merges(t, s.token) && t.lastSeen.Keys == t.devices.Keys && cutoff <= now
    requires s.lastSeen.Keys == s.previous.Keys && forall x :: x in s.previous ==> InNetwork(s.site, x)
    requires Positive(t.lastSeen) && Positive(s.lastSeen) && now > 0.0
    requires a in s.lastSeen && a in discovered ==> s.lastSeen[a] <= now
    ensures var f := Freshest(t, s, discovered, now, a);
            var out := Merge(t, s, discovered, now, cutoff);
            && (a in out.devices <==> f.Some? && f.value >= cutoff)
            && (a in out.devices ==> Get(out.lastSeen, a) == f)
  {
    var found := Candidates(s, discovered, now, cutoff);
    var seen := CandidateSeen(s, discovered, found, now, cutoff);
    var candidate := CandidateStamp(s, discovered, now, cutoff, a);
    CandidateAt(s, discovered, found, seen, now, cutoff, a);
    StaleCandidate(Get(s.lastSeen, a), if a in discovered then Some(now) else None, Get(t.lastSeen, a),
                   candidate, cutoff);
    FreshestWins(t, s.token, found, seen, candidate, Freshest(t, s, discovered, now, a), cutoff, a);
  }

  // ---- interleaved runs ----

  datatype Event = Saw(address: Address, mac: Mac, now: real) | Named(address: Address, mac: Mac, name: string)

  function Do(t: Table, e: Event): Table {
    match e
    case Saw(a, mac, now) => Record(t, a, mac, now)
    case Named(a, mac, name) => SetName(t, a, mac, name)
  }

  function RunTable(t: Table, events: seq<Event>): Table
    decreases |events|
  {
    if events == [] then t else RunTable(Do(t, events[0]), events[1..])
  }

  /** This event is a sighting of `a` that the table accepts. */
  predicate Sights(t: Table, e: Event, a: Address) {
    e.Saw? && e.address == a && IsOpen(t) && Allowed(t.file.value.site, a, e.mac)
  }

  /** The newest accepted sighting of `a` in a run, counted from what the table knew before. */
  function LastSighting(t: Table, events: seq<Event>, a: Address): Option<real>
    decreases |events|
  {
    if events == [] then Get(t.lastSeen, a)
    else
      var rest := LastSighting(Do(t, events[0]), events[1..], a);
      if Sights(t, events[0], a) then Later(Later(Get(t.lastSeen, a), Some(events[0].now)), rest)
      else rest
  }

  /** Sightings are recorded in the order of their stamps: a caller can compare before it writes. */
  predicate InOrder(t: Table, e: Event) {
    e.Saw? && e.address in t.lastSeen ==> t.lastSeen[e.address] <= e.now
  }

  predicate AllInOrder(t: Table, events: seq<Event>)
    decreases |events|
  {
    events == [] || (InOrder(t, events[0]) && AllInOrder(Do(t, events[0]), events[1..]))
  }

  predicate AllPositive(events: seq<Event>) {
    forall k :: 0 <= k < |events| && events[k].Saw? ==> events[k].now > 0.0
  }

  lemma {:induction false} RunKeeps(t: Table, events: seq<Event>)
    requires Consistent(t) && Positive(t.lastSeen) && AllPositive(events)
    ensures var t' := RunTable(t, events);
            && Consistent(t') && Positive(t'.lastSeen)
            && t'.active == t.active && t'.stopping == t.stopping && t'.stopSet == t.stopSet && t'.token == t.token
            && (t.file.None? ==> t'.file.None?)
            && (t.file.Some? ==> t'.file.Some? && t'.file.value.token == t.file.value.token
                                 && t'.file.value.site == t.file.value.site)
    decreases |events|
  {
    if events != [] {
      match events[0] {
        case Saw(a, mac, now) => RecordConsistent(t, a, mac, now);
        case Named(a, mac, name) => SetNameConsistent(t, a, mac, name);
      }
      RunKeeps(Do(t, events[0]), events[1..]);
    }
  }

  /** With stamps in order the table's own stamp is the newest sighting. */
  lemma {:induction false} TableRemembersLast(t: Table, events: seq<Event>, a: Address)
    requires AllInOrder(t, events)
    ensures Get(RunTable(t, events).lastSeen, a) == LastSighting(t, events, a)
    ensures a in t.lastSeen ==> a in RunTable(t, events).lastSeen && t.lastSeen[a] <= RunTable(t, events).lastSeen[a]
    decreases |events|
  {
    if events != [] {
      TableRemembersLast(Do(t, events[0]), events[1..], a);
    }
  }

  /** The stamp of the last accepted sighting of `a` in a run, which need not be the newest. */
  function LastWritten(t: Table, events: seq<Event>, a: Address): Option<real>
    decreases |events|
  {
    if events == [] then None
    else
      var rest := LastWritten(Do(t, events[0]), events[1..], a);
      if rest.Some? then rest else if Sights(t, events[0], a) then Some(events[0].now) else None
  }

  lemma {:induction false} TableKeepsLastWrite(t: Table, events: seq<Event>, a: Address)
    ensures Get(RunTable(t, events).lastSeen, a)
         == if LastWritten(t, events, a).Some? then LastWritten(t, events, a) else Get(t.lastSeen, a)
    decreases |events|
  {
    if events != [] {
      TableKeepsLastWrite(Do(t, events[0]), events[1..], a);
    }
  }

  /** The refresh of a table that ran on during discovery. */
  function Refreshed(t: Table, events: seq<Event>, discovered: map<Address, Mac>, now: real, cutoff: real): Table
    requires IsOpen(t)
  {
    Merge(RunTable(t, events), BeginRefresh(t).value, discovered, now, cutoff)
  }

  /** Everything `Refreshed` may assume: a consistent open table and stamps that are real clock readings. */
  predicate Sane(t: Table, events: seq<Event>, discovered: map<Address, Mac>, now: real, cutoff: real) {
    && Consistent(t) && IsOpen(t) && cutoff <= now && now > 0.0
    && Positive(t.lastSeen) && AllPositive(events)
    && (forall x :: x in t.lastSeen ==> t.lastSeen[x] <= now)
    && (forall x :: x in discovered ==> InNetwork(t.file.value.site, x))
  }

  /** Main result, exact for every interleaving: however many sightings and names are recorded while one
      discovery runs, the merge keeps a device exactly when the newest of its stamp before, its discovery
      and its last recorded sighting is within the time to live, and stamps it so. */
  lemma RefreshExact(t: Table, events: seq<Event>, discovered: map<Address, Mac>, now: real, cutoff: real, a: Address)
    requires Sane(t, events, discovered, now, cutoff)
    ensures var out := Refreshed(t, events, discovered, now, cutoff);
            var newest := Later(Later(Get(t.lastSeen, a), if a in discovered then Some(now) else None),
                                LastWritten(t, events, a));
            && (a in out.devices <==> newest.Some? && newest.value >= cutoff)
            && (a in out.devices ==> Get(out.lastSeen, a) == newest)
  {
    RunKeeps(t, events);
    TableKeepsLastWrite(t, events, a);
    MergeKeepsFresh(RunTable(t, events), BeginRefresh(t).value, discovered, now, cutoff, a);
  }

  /** The MAC of the last accepted sighting of `a` in a run. */
  function LastMac(t: Table, events: seq<Event>, a: Address): Option<Mac>
    decreases |events|
  {
    if events == [] then None
    else
      var rest := LastMac(Do(t, events[0]), events[1..], a);
      if rest.Some? then rest else if Sights(t, events[0], a) then Some(events[0].mac) else None
  }

  lemma {:induction false} TableKeepsLastMac(t: Table, events: seq<Event>, a: Address)
    ensures Get(RunTable(t, events).devices, a)
         == if LastMac(t, events, a).Some? then LastMac(t, events, a) else Get(t.devices, a)
    decreases |events|
  {
    if events != [] {
      TableKeepsLastMac(Do(t, events[0]), events[1..], a);
    }
  }

  /** Whose MAC a surviving device has: the one recorded while discovery ran if that sighting is newer than
      what the merge had, else the discovered one, else the one before. */
  lemma MergeTakesMac(t: Table, s: Snapshot, discovered: map<Address, Mac>, now: real, cutoff: real, a: Address)
    requires Merges(t, s.token)
    ensures var found := Candidates(s, discovered, now, cutoff);
            var seen := CandidateSeen(s, discovered, found, now, cutoff);
            Get(Merge(t, s, discovered, now, cutoff).devices, a)
            == if Newer(t.devices, t.lastSeen, seen, cutoff, a) then Some(t.devices[a])
               else if a in discovered then Some(discovered[a])
               else if Kept(s, discovered, now, cutoff, a) then Some(s.previous[a])
               else None
  {
    var found := Candidates(s, discovered, now, cutoff);
    var seen := CandidateSeen(s, discovered, found, now, cutoff);
    MergedAt(found, seen, t.devices, t.lastSeen, cutoff, a);
  }

  /** A device seen again while discovery ran keeps the MAC of its last recorded sighting, unless discovery
      ended later and found it. */
  lemma RefreshMac(t: Table, events: seq<Event>, discovered: map<Address, Mac>, now: real, cutoff: real, a: Address)
    requires Sane(t, events, discovered, now, cutoff)
    requires LastWritten(t, events, a).Some? && LastWritten(t, events, a).value >= cutoff
    requires a in t.lastSeen ==> t.lastSeen[a] < LastWritten(t, events, a).value
    ensures LastMac(t, events, a).Some?
    ensures Get(Refreshed(t, events, discovered, now, cutoff).devices, a)
         == if a in discovered && now >= LastWritten(t, events, a).value then Some(discovered[a])
            else LastMac(t, events, a)
  {
    var s := BeginRefresh(t).value;
    var t1 := RunTable(t, events);
    var found := Candidates(s, discovered, now, cutoff);
    RunKeeps(t, events);
    TableKeepsLastWrite(t, events, a);
    TableKeepsLastMac(t, events, a);
    SightedTogether(t, events, a);
    CandidateAt(s, discovered, found, CandidateSeen(s, discovered, found, now, cutoff), now, cutoff, a);
    MergeTakesMac(t1, s, discovered, now, cutoff, a);
  }

  lemma {:induction false} SightedTogether(t: Table, events: seq<Event>, a: Address)
    ensures LastMac(t, events, a).Some? <==> LastWritten(t, events, a).Some?
    ensures AllPositive(events) && LastWritten(t, events, a).Some? ==> LastWritten(t, events, a).value > 0.0
    decreases |events|
  {
    if events != [] {
      SightedTogether(Do(t, events[0]), events[1..], a);
    }
  }

  /** Sightings, names and file are consistent after the refresh. */
  lemma RefreshConsistent(t: Table, events: seq<Event>, discovered: map<Address, Mac>, now: real, cutoff: real)
    requires Sane(t, events, discovered, now, cutoff)
    ensures Consistent(Refreshed(t, events, discovered, now, cutoff))
  {
    RunKeeps(t, events);
    MergeConsistent(RunTable(t, events), BeginRefresh(t).value, discovered, now, cutoff);
  }

  /** The newest sighting of a device there is: recorded before or during the discovery, or discovered. */
  function LastSeen(t: Table, events: seq<Event>, discovered: map<Address, Mac>, now: real, a: Address): Option<real> {
    Later(LastSighting(t, events, a), if a in discovered then Some(now) else None)
  }

  /** Every stamp the merge looks at is a sighting, so none of them is newer than the newest. */
  lemma {:induction false} StampsAreSightings(t: Table, events: seq<Event>, a: Address)
    ensures LastWritten(t, events, a).Some? ==>
              LastSighting(t, events, a).Some? && LastWritten(t, events, a).value <= LastSighting(t, events, a).value
    ensures LastWritten(t, events, a).None? ==> LastSighting(t, events, a) == Get(t.lastSeen, a)
    ensures a in t.lastSeen ==>
              LastSighting(t, events, a).Some? && t.lastSeen[a] <= LastSighting(t, events, a).value
    decreases |events|
  {
    if events != [] {
      StampsAreSightings(Do(t, events[0]), events[1..], a);
    }
  }

  /** No interleaving keeps a device whose last sighting is older than the time to live. */
  lemma RefreshKeepsNoneOlder(t: Table, events: seq<Event>, discovered: map<Address, Mac>, now: real, cutoff: real,
                              a: Address)
    requires Sane(t, events, discovered, now, cutoff)
    requires a in Refreshed(t, events, discovered, now, cutoff).devices
    ensures LastSeen(t, events, discovered, now, a).Some? && LastSeen(t, events, discovered, now, a).value >= cutoff
  {
    RefreshExact(t, events, discovered, now, cutoff, a);
    StampsAreSightings(t, events, a);
  }

  /** The exact condition: a device's fate is the right one if and only if its last sighting is stale, or it
      was discovered, or its stamp before or its last recorded sighting is within the time to live. */
  lemma RefreshFateExact(t: Table, events: seq<Event>, discovered: map<Address, Mac>, now: real, cutoff: real,
                         a: Address)
    requires Sane(t, events, discovered, now, cutoff)
    ensures var last := LastSeen(t, events, discovered, now, a);
            var deserves := last.Some? && last.value >= cutoff;
            (a in Refreshed(t, events, discovered, now, cutoff).devices <==> deserves)
            <==> !deserves || a in discovered
                 || (a in t.lastSeen && t.lastSeen[a] >= cutoff)
                 || (LastWritten(t, events, a).Some? && LastWritten(t, events, a).value >= cutoff)
  {
    RefreshExact(t, events, discovered, now, cutoff, a);
    StampsAreSightings(t, events, a);
  }

  /** With stamps in order, the last sighting written is the newest one: no device whose last sighting is
      within the time to live is lost. */
  lemma RefreshKeepsTheFresh(t: Table, events: seq<Event>, discovered: map<Address, Mac>, now: real, cutoff: real,
                             a: Address)
    requires Sane(t, events, discovered, now, cutoff) && AllInOrder(t, events)
    ensures var out := Refreshed(t, events, discovered, now, cutoff);
            var last := Later(LastSighting(t, events, a), if a in discovered then Some(now) else None);
            && (a in out.devices <==> last.Some? && last.value >= cutoff)
            && (a in out.devices ==> Get(out.lastSeen, a) == last)
  {
    RefreshExact(t, events, discovered, now, cutoff, a);
    TableKeepsLastWrite(t, events, a);
    TableRemembersLast(t, events, a);
  }

  /** Where that fails: the stamp is read before the lock, so an older sighting can be recorded after a
      newer one. The table then forgets the newer stamp, and a refresh drops a device seen within the
      time to live. */
  lemma LateWriterDropsDevice(t: Table, a: Address, mac: Mac, newer: real, older: real, now: real, cutoff: real)
    requires Sane(t, [Saw(a, mac, newer), Saw(a, mac, older)], map[], now, cutoff)
    requires Allowed(t.file.value.site, a, mac) && a !in t.lastSeen && older < cutoff <= newer <= now
    ensures var events := [Saw(a, mac, newer), Saw(a, mac, older)];
            && LastSighting(t, events, a) == Some(newer)
            && a !in Refreshed(t, events, map[], now, cutoff).devices
  {
    var events := [Saw(a, mac, newer), Saw(a, mac, older)];
    var t1 := Do(t, events[0]);
    var t2 := Do(t1, events[1]);
    assert events[1..] == [events[1]] && events[1..][1..] == [];
    assert LastSighting(t2, events[1..][1..], a) == Some(older);
    assert LastSighting(t1, events[1..], a) == Some(newer);
    assert LastWritten(t2, events[1..][1..], a) == None;
    assert LastWritten(t1, events[1..], a) == Some(older);
    RefreshExact(t, events, map[], now, cutoff, a);
  }
}
