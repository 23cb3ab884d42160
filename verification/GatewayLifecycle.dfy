/** `GatewayManager.start`, `stop` and `recover` as one machine: the application, its watchdogs and later
    launches share the Windows forwarding settings and one state file, and may die between any two steps.
    Each recover, and the restoring section of each stop, is one step with several outcomes. */
module GatewayLifecycle {
  import opened Bytes

  /** The router value, three flags of each of the two adapters, and the firewall rule. */
  type Settings = s: seq<int> | |s| == 8 witness [0, 0, 0, 0, 0, 0, 0, 0]

  /** A process identity is never used twice: it is a number with its creation time. */
  type Pid = nat
  type Token = nat

  datatype File = File(token: Token, owner: Pid, snapshot: Settings)

  /** Where `start` stands; it holds the manager's lock from `Checked` until `Idle` or `Active`. */
  datatype Stage =
    | Idle
    | Checked
    | Snapped(token: Token, snapshot: Settings)
    | Written(token: Token, snapshot: Settings)
    | Applied(token: Token, snapshot: Settings)
    | Failing(token: Token, snapshot: Settings)
    | Undone(token: Token)
    | Active(token: Token)

  /** What the first section of `stop` read. */
  datatype Stop = Stop(token: Token, copy: Option<File>)
  datatype App = App(pid: Pid, stage: Stage, stop: Option<Stop>)

  /** `original` is what the user last chose: it only changes when the user changes it. */
  datatype World = World(
    settings: Settings, original: Settings, file: Option<File>, app: Option<App>,
    nextPid: Pid, nextToken: Token, issued: map<Token, Pid>)

  /** `Half` restores but dies before it removes the file; `Torn` only gets the listed settings written. */
  datatype Recovery = Complete | Half | Torn(done: set<nat>)
  datatype Ending = Clean | NotReleased | Failed(done: set<nat>) | Died(done: set<nat>)

  /** The restore script writes one setting after another. */
  function Mix(settings: Settings, snapshot: Settings, done: set<nat>): (r: Settings)
    ensures forall i :: 0 <= i < 8 ==> r[i] == if i in done then snapshot[i] else settings[i]
    ensures settings == snapshot ==> r == snapshot
  {
    var r := seq(8, i requires 0 <= i < 8 => if i in done then snapshot[i] else settings[i]);
    assert settings == snapshot ==> r == snapshot;
    r
  }

  datatype Event =
    | Launch
    | Crash
    | UserEdits(chosen: Settings)
    | StartCheck(how: Recovery)
    | TakeSnapshot
    | WriteState
    | Apply(left: Settings, ok: bool)
    | StartFails
    | UndoApply(ok: bool, done: set<nat>)
    | RemoveAfterUndo
    | Activate
    | StopBegins
    | StopEnds(ending: Ending)
    | OwnRecover(how: Recovery)
    | SecondLaunch(how: Recovery)
    | Watchdog(token: Token, how: Recovery)
    | ForeignRecover(expected: Option<Token>, how: Recovery)

  predicate Alive(w: World, pid: Pid) { w.app.Some? && w.app.value.pid == pid }

  predicate Unlocked(w: World) {
    w.app.Some? && (w.app.value.stage.Idle? || w.app.value.stage.Active?)
  }

  function Move(w: World, stage: Stage): World
    requires w.app.Some?
  {
    w.(app := Some(w.app.value.(stage := stage)))
  }

  /** What the code allows, with one application at a time and nobody else changing settings in between. */
  predicate Enabled(w: World, e: Event) {
    match e
    case Launch => w.app.None?
    case Crash => w.app.Some?
    case UserEdits(_) => w.file.None? && (w.app.None? || (w.app.value.stage.Idle? && w.app.value.stop.None?))
    case StartCheck(_) => w.app.Some? && w.app.value.stage.Idle?
    case TakeSnapshot => w.app.Some? && w.app.value.stage.Checked?
    case WriteState => w.app.Some? && w.app.value.stage.Snapped?
    case Apply(_, _) => w.app.Some? && w.app.value.stage.Written?
    case StartFails =>
      w.app.Some? && (var s := w.app.value.stage; s.Checked? || s.Snapped? || s.Written? || s.Applied?)
    case UndoApply(_, _) => w.app.Some? && w.app.value.stage.Failing?
    case RemoveAfterUndo => w.app.Some? && w.app.value.stage.Undone?
    case Activate => w.app.Some? && w.app.value.stage.Applied?
    case StopBegins => Unlocked(w) && w.app.value.stop.None?
    case StopEnds(_) => Unlocked(w) && w.app.value.stop.Some?
    case OwnRecover(_) => Unlocked(w) && w.app.value.stop.None?
    case SecondLaunch(_) => true
    case Watchdog(token, _) => token in w.issued && !Alive(w, w.issued[token])
    case ForeignRecover(_, _) => true
  }

  /** The restoring part of `recover` on the file it read. */
  function Recovered(w: World, how: Recovery): World
    requires w.file.Some?
  {
    match how
    case Complete => w.(settings := w.file.value.snapshot, file := None)
    case Half => w.(settings := w.file.value.snapshot)
    case Torn(done) => w.(settings := Mix(w.settings, w.file.value.snapshot, done))
  }

  function Removed(file: Option<File>, token: Token): Option<File> {
    if file.Some? && file.value.token == token then None else file
  }

  function DoStart(w: World, how: Recovery): World
    requires w.app.Some?
  {
    if w.file.None? then Move(w, Checked)
    else if Alive(w, w.file.value.owner) then w
    else
      var w1 := Recovered(w, how);
      if w1.file.None? then Move(w1, Checked) else w1
  }

  function DoStopBegins(w: World): World
    requires w.app.Some?
  {
    var stage := w.app.value.stage;
    if w.file.None? && !stage.Active? then w
    else
      var token := if stage.Active? then stage.token else w.file.value.token;
      w.(app := Some(w.app.value.(stop := Some(Stop(token, w.file)))))
  }

  /** The file as it is now, or else as the first section read it. */
  function StopState(w: World): Option<File>
    requires w.app.Some? && w.app.value.stop.Some?
  {
    if w.file.Some? then w.file else w.app.value.stop.value.copy
  }

  function DoStopEnds(w: World, ending: Ending): World
    requires w.app.Some? && w.app.value.stop.Some?
  {
    var token := w.app.value.stop.value.token;
    var state := StopState(w);
    var back := w.(app := Some(w.app.value.(stop := None)));
    if state.None? then Move(back, Idle)
    else if state.value.token != token then back
    else
      var idle := Move(back, Idle);
      match ending
      case Clean => idle.(settings := state.value.snapshot, file := Removed(w.file, token))
      case NotReleased => idle.(settings := state.value.snapshot, file := state)
      case Failed(done) => idle.(settings := Mix(w.settings, state.value.snapshot, done), file := state)
      case Died(done) => w.(settings := Mix(w.settings, state.value.snapshot, done), app := None)
  }

  function DoRecover(w: World, expected: Option<Token>, force: bool, how: Recovery): World {
    if w.file.None? then w
    else if expected.Some? && w.file.value.token != expected.value then w
    else if !force && Alive(w, w.file.value.owner) then w
    else Recovered(w, how)
  }

  function Next(w: World, e: Event): World
    requires Enabled(w, e)
  {
    match e
    case Launch => w.(app := Some(App(w.nextPid, Idle, None)), nextPid := w.nextPid + 1)
    case Crash => w.(app := None)
    case UserEdits(chosen) => w.(settings := chosen, original := chosen)
    case StartCheck(how) => DoStart(w, how)
    case TakeSnapshot =>
      Move(w, Snapped(w.nextToken, w.settings))
        .(nextToken := w.nextToken + 1, issued := w.issued[w.nextToken := w.app.value.pid])
    case WriteState =>
      var s := w.app.value.stage;
      Move(w, Written(s.token, s.snapshot)).(file := Some(File(s.token, w.app.value.pid, s.snapshot)))
    case Apply(left, ok) =>
      var s := w.app.value.stage;
      Move(w, if ok then Applied(s.token, s.snapshot) else Failing(s.token, s.snapshot)).(settings := left)
    case StartFails =>
      var s := w.app.value.stage;
      Move(w, if s.Checked? then Idle else Failing(s.token, s.snapshot))
    case UndoApply(ok, done) =>
      var s := w.app.value.stage;
      if ok then Move(w, Undone(s.token)).(settings := s.snapshot)
      else Move(w, Idle).(settings := Mix(w.settings, s.snapshot, done))
    case RemoveAfterUndo => Move(w, Idle).(file := Removed(w.file, w.app.value.stage.token))
    case Activate =>
      var s := w.app.value.stage;
      Move(w, Active(s.token)).(file := Some(File(s.token, w.app.value.pid, s.snapshot)))
    case StopBegins => DoStopBegins(w)
    case StopEnds(ending) => DoStopEnds(w, ending)
    case OwnRecover(how) =>
      var w1 := DoRecover(w, None, true, how);
      if w.file.Some? && w1.file.None? then Move(w1, Idle) else w1
    case SecondLaunch(how) => DoRecover(w, None, false, how)
    case Watchdog(token, how) => DoRecover(w, Some(token), true, how)
    case ForeignRecover(expected, how) => DoRecover(w, expected, true, how)
  }

  // ---- the invariant ----

  /** The law: settings that may differ from the user's are covered by a file that holds the user's. */
  predicate WriteAhead(w: World) {
    && (w.file.Some? ==> w.file.value.snapshot == w.original)
    && (w.file.None? ==> w.settings == w.original)
  }

  predicate Registered(issued: map<Token, Pid>, file: File) {
    file.token in issued && issued[file.token] == file.owner
  }

  /** The file is this run's own. */
  predicate Holds(w: World, token: Token) {
    w.app.Some? && w.file.Some? && w.file.value.token == token && w.file.value.owner == w.app.value.pid
  }

  predicate Mine(w: World, token: Token) {
    w.app.Some? && token in w.issued && w.issued[token] == w.app.value.pid
  }

  predicate StageInv(w: World)
    requires w.app.Some?
  {
    match w.app.value.stage
    case Idle => true
    case Checked => w.file.None?
    case Snapped(t, s) => w.file.None? && s == w.original && Mine(w, t)
    case Written(t, s) => Holds(w, t) && s == w.original
    case Applied(t, s) => (w.file.None? || Holds(w, t)) && s == w.original && Mine(w, t)
    case Failing(t, s) => s == w.original && Mine(w, t) && (w.file.None? || Holds(w, t))
    case Undone(t) => w.settings == w.original && (w.file.None? || Holds(w, t))
    case Active(t) => (w.file.None? || Holds(w, t)) && Mine(w, t)
  }

  predicate StopInv(w: World)
    requires w.app.Some? && w.app.value.stop.Some?
  {
    var stop := w.app.value.stop.value;
    stop.copy.Some? ==>
      && stop.copy.value.token == stop.token
      && stop.copy.value.snapshot == w.original && Registered(w.issued, stop.copy.value)
  }

  predicate Inv(w: World) {
    && WriteAhead(w)
    && (w.file.Some? ==> Registered(w.issued, w.file.value))
    && (forall t :: t in w.issued ==> t < w.nextToken && w.issued[t] < w.nextPid)
    && (w.app.Some? ==> w.app.value.pid < w.nextPid && StageInv(w))
    && (w.app.Some? && w.app.value.stop.Some? ==> StopInv(w))
  }

  /** The step the code does not protect itself against: a forced recover, made in another process, of the
      file a start has just written and not yet applied. The program never makes one, but `recover` allows it. */
  predicate Guarded(w: World, e: Event)
    requires Enabled(w, e)
  {
    match e
    case ForeignRecover(expected, _) =>
      w.app.Some? && w.app.value.stage.Written? ==> expected.Some? && expected.value != w.app.value.stage.token
    case _ => true
  }

  /** A recovery at any moment but the one between write and apply keeps the invariant. */
  lemma RecoveredKeeps(w: World, how: Recovery)
    requires Inv(w) && w.file.Some? && (w.app.Some? ==> !w.app.value.stage.Written?)
    ensures Inv(Recovered(w, how))
  {
  }

  lemma StartStepKeeps(w: World, e: Event)
    requires Inv(w) && Enabled(w, e)
    requires e.StartCheck? || e.TakeSnapshot? || e.WriteState? || e.Apply? || e.Activate?
    ensures Inv(Next(w, e))
  {
    if e.StartCheck? && w.file.Some? && !Alive(w, w.file.value.owner) {
      RecoveredKeeps(w, e.how);
    }
  }

  lemma UndoStepKeeps(w: World, e: Event)
    requires Inv(w) && Enabled(w, e) && (e.StartFails? || e.UndoApply? || e.RemoveAfterUndo?)
    ensures Inv(Next(w, e))
  {
  }

  lemma StopBeginsKeeps(w: World)
    requires Inv(w) && Enabled(w, StopBegins)
    ensures Inv(Next(w, StopBegins))
  {
  }

  lemma StopEndsKeeps(w: World, ending: Ending)
    requires Inv(w) && Enabled(w, StopEnds(ending))
    ensures Inv(DoStopEnds(w, ending))
  {
  }

  lemma StepKeepsInv(w: World, e: Event)
    requires Inv(w) && Enabled(w, e) && Guarded(w, e)
    ensures Inv(Next(w, e))
  {
    match e {
      case Launch =>
      case Crash =>
      case UserEdits(_) =>
      case StartFails => UndoStepKeeps(w, e);
      case UndoApply(_, _) => UndoStepKeeps(w, e);
      case RemoveAfterUndo => UndoStepKeeps(w, e);
      case StopBegins => StopBeginsKeeps(w);
      case StopEnds(ending) => StopEndsKeeps(w, ending);
      case OwnRecover(how) =>
      case SecondLaunch(how) =>
        if DoRecover(w, None, false, how) != w { RecoveredKeeps(w, how); }
      case Watchdog(token, how) =>
        if DoRecover(w, Some(token), true, how) != w { RecoveredKeeps(w, how); }
      case ForeignRecover(expected, how) =>
        if DoRecover(w, expected, true, how) != w { RecoveredKeeps(w, how); }
      case _ => StartStepKeeps(w, e);
    }
  }

  // ---- runs ----

  predicate Run(trace: seq<World>, events: seq<Event>) {
    && |trace| == |events| + 1
    && (forall k :: 0 <= k < |events| ==>
          Enabled(trace[k], events[k]) && Guarded(trace[k], events[k]) && trace[k + 1] == Next(trace[k], events[k]))
  }

  predicate Fresh(w: World) {
    w.file.None? && w.app.None? && w.settings == w.original && w.issued == map[]
  }

  /** Main result: at every instant of every run, settings other than the user's are covered by a file that
      holds the user's, and what a start reads as the originals are the user's own. */
  lemma {:induction false} EveryInstantCovered(trace: seq<World>, events: seq<Event>, k: nat)
    requires Run(trace, events) && Fresh(trace[0]) && k < |trace|
    ensures Inv(trace[k])
    ensures trace[k].settings != trace[k].original ==>
              trace[k].file.Some? && trace[k].file.value.snapshot == trace[k].original
    ensures trace[k].app.Some? && trace[k].app.value.stage.Snapped? ==>
              trace[k].app.value.stage.snapshot == trace[k].original
    decreases k
  {
    if k > 0 {
      EveryInstantCovered(trace, events, k - 1);
      StepKeepsInv(trace[k - 1], events[k - 1]);
    }
  }

  /** The file only goes away when the settings are the user's again. */
  lemma RemovedOnlyRestored(w: World, e: Event)
    requires Inv(w) && Enabled(w, e) && w.file.Some? && Next(w, e).file.None?
    ensures Next(w, e).settings == w.original && Next(w, e).original == w.original
  {
    if Guarded(w, e) {
      StepKeepsInv(w, e);
    }
  }

  /** A dead owner's recovery that tears any number of times and then completes ends with the user's settings. */
  function Recoveries(w: World, hows: seq<Recovery>): World
    decreases |hows|
  {
    if hows == [] then w else Recoveries(DoRecover(w, None, false, hows[0]), hows[1..])
  }

  lemma {:induction false} RecoverySurvivesFailures(w: World, hows: seq<Recovery>)
    requires Inv(w) && w.app.None?
    ensures var w1 := DoRecover(Recoveries(w, hows), None, false, Complete);
            w1.settings == w.original && w1.file.None? && w1.original == w.original
    decreases |hows|
  {
    if hows != [] {
      if w.file.Some? { RecoveredKeeps(w, hows[0]); }
      RecoverySurvivesFailures(DoRecover(w, None, false, hows[0]), hows[1..]);
    }
  }

  /** A watchdog left over from another run never touches the state of the live one. */
  lemma WatchdogSparesLiveRun(w: World, token: Token, how: Recovery)
    requires Inv(w) && Enabled(w, Watchdog(token, how)) && w.file.Some? && Alive(w, w.file.value.owner)
    ensures Next(w, Watchdog(token, how)) == w
  {
  }

  // ---- the guard is exact ----

  /** A forced recover from elsewhere, at any stage, is followed only by covered steps if and only if it meets
      the guard. */
  lemma ForeignRecoverExact(w: World, expected: Option<Token>)
    requires Inv(w)
    ensures var w1 := Next(w, ForeignRecover(expected, Complete));
            (WriteAhead(w1) && forall e :: Enabled(w1, e) && Guarded(w1, e) ==> WriteAhead(Next(w1, e)))
            <==> Guarded(w, ForeignRecover(expected, Complete))
  {
    var e0 := ForeignRecover(expected, Complete);
    var w1 := Next(w, e0);
    if Guarded(w, e0) {
      StepKeepsInv(w, e0);
      forall e | Enabled(w1, e) && Guarded(w1, e)
        ensures WriteAhead(Next(w1, e))
      {
        StepKeepsInv(w1, e);
      }
    } else {
      var left: Settings := w.original[0 := w.original[0] + 1];
      assert left[0] != w.original[0];
      var apply := Apply(left, true);
      assert Enabled(w1, apply) && Guarded(w1, apply);
      assert w1.file.None? && Next(w1, apply).settings != w1.original;
    }
  }

  /** The failing run itself: a start is between its write and its apply when another process forces a
      recover; the apply then changes settings that no file covers. */
  lemma ForcedRecoverUncovers(w: World, left: Settings) returns (trace: seq<World>, events: seq<Event>)
    requires Fresh(w) && left != w.original
    ensures events == [Launch, StartCheck(Complete), TakeSnapshot, WriteState, ForeignRecover(None, Complete),
                       Apply(left, true)]
    ensures |trace| == 7 && trace[0] == w
    ensures forall k :: 0 <= k < 6 ==> Enabled(trace[k], events[k]) && trace[k + 1] == Next(trace[k], events[k])
    ensures trace[6].settings == left && trace[6].original == w.original && trace[6].file.None?
  {
    var w1 := Next(w, Launch);
    var w2 := Next(w1, StartCheck(Complete));
    var w3 := Next(w2, TakeSnapshot);
    var w4 := Next(w3, WriteState);
    var w5 := Next(w4, ForeignRecover(None, Complete));
    var w6 := Next(w5, Apply(left, true));
    trace := [w, w1, w2, w3, w4, w5, w6];
    events := [Launch, StartCheck(Complete), TakeSnapshot, WriteState, ForeignRecover(None, Complete),
               Apply(left, true)];
  }
}
