/** The process supervisor of the executor quiddity (plugins/executor/executor.cpp): one child at a
    time, launched, asked to stop, reaped by a periodic monitor and possibly launched again. */
module Executor {

  type Pid = p: nat | 0 < p witness 1

  datatype Label = Audio | Video | Custom

  /** What the operating system answers to a launch: the words cannot be expanded, the spawn fails, or
      there is a new child. */
  datatype Launch = BadWords | SpawnFails | Spawned(pid: Pid)

  /** pid is 0 when there is no child. */
  datatype Fields = Fields(
    pid: nat, restart: bool, userStopped: bool, started: bool,
    command: string, autostart: bool, restartOnChange: bool, periodic: bool,
    audio: string, video: string, custom: string)

  const IDLE := Fields(0, false, false, false, "", false, false, false, "", "", "")

  /** What a callback does to the outside. */
  datatype Event =
    | Launched(pid: Pid, relaunch: bool, periodic: bool)
    | StopSent(to: nat)
    | RestartAsked
    | Collected(of: nat)

  datatype Outcome = Outcome(f: Fields, ok: bool, events: seq<Event>)

  function Start(f: Fields, launch: Launch, relaunch: bool := false): Outcome {
    if f.pid != 0 || f.command == "" then Outcome(f, false, [])
    else match launch
      case BadWords => Outcome(f, false, [])
      case SpawnFails => Outcome(f.(userStopped := false), false, [])
      case Spawned(p) => Outcome(f.(userStopped := false, pid := p), true, [Launched(p, relaunch, f.periodic)])
  }

  function Stop(f: Fields): Outcome {
    if f.pid != 0 then Outcome(f.(userStopped := true), true, [StopSent(f.pid)])
    else Outcome(f, true, [])
  }

  /** The setter of the `started` property. */
  function SetStarted(f: Fields, value: bool, launch: Launch): Outcome {
    if f.started == value then Outcome(f, true, [])
    else
      var o := if value then Start(f, launch) else Stop(f);
      if o.ok then o.(f := o.f.(started := value)) else o
  }

  function SetPath(f: Fields, follower: Label, path: string): Fields {
    match follower
    case Audio => f.(audio := path)
    case Video => f.(video := path)
    case Custom => f.(custom := path)
  }

  /** Stop the child and have the monitor launch it again, unless that is under way already. */
  function AskRestart(f: Fields): Outcome {
    if f.restartOnChange && !f.restart then
      var o := Stop(f);
      Outcome(o.f.(restart := true), true, o.events + [RestartAsked])
    else Outcome(f, true, [])
  }

  function Connect(f: Fields, follower: Label, path: string, launch: Launch): Outcome {
    Connected(SetPath(f, follower, path), launch)
  }

  /** Once the path is stored. */
  function Connected(g: Fields, launch: Launch): Outcome {
    if g.pid != 0 then AskRestart(g)
    else if g.autostart then Start(g, launch)
    else Outcome(g, true, [])
  }

  function Disconnect(f: Fields, follower: Label): Outcome { Disconnected(SetPath(f, follower, "")) }

  /** Once the path is cleared. */
  function Disconnected(g: Fields): Outcome {
    if g.pid == 0 then Outcome(g, true, [])
    else if NoPath(g) then Stop(g)
    else AskRestart(g)
  }

  predicate NoPath(f: Fields) { f.video == "" && f.audio == "" && f.custom == "" }

  predicate Relaunches(f: Fields) {
    (f.periodic && !f.userStopped) || f.restart
  }

  /** What the monitor does once `waitpid` has given it the child. */
  function Reap(f: Fields, launch: Launch): Outcome {
    var g := f.(pid := 0);
    if Relaunches(g) then
      var o := Start(g, launch, true);
      o.(f := o.f.(restart := false))
    else SetStarted(g, false, launch)
  }

  function AfterReap(f: Fields, launch: Launch): Fields { Reap(f, launch).f }

  // ---- The supervisor among signals and children

  datatype Child = Child(exited: bool, asked: bool)  // asked: SIGTERM sent

  /** Where the monitor is; signals and exits come at any point, the other callbacks only at Resting. */
  datatype Monitor = Resting | Reaped | Cleared | Relaunched

  /** children: launched and not yet waited for. signal: a SIGCHLD not yet handled. */
  datatype System = System(
    f: Fields, children: map<nat, Child>, childDead: bool, signal: bool, at: Monitor, log: seq<Event>)

  const BOOT := System(IDLE, map[], false, false, Resting, [])

  datatype Op =
    | DoSetStarted(value: bool, launch: Launch)
    | DoConnect(follower: Label, path: string, launch: Launch)
    | DoDisconnect(follower: Label)
    | Configure(command: string, autostart: bool, restartOnChange: bool, periodic: bool)
    | ChildExits(pid: nat)
    | StraySignal
    | HandleSignal                 // signal_cb
    | WaitChild                    // child_dead is 1 and waitpid returns the child
    | ClearChild                   // child_dead = 0, child_pid_ = 0
    | Decide(launch: Launch)       // start() or started := false
    | ClearRestart                 // restart_ = false

  predicate FreshLaunch(s: System, launch: Launch) {
    launch.Spawned? ==> launch.pid !in s.children
  }

  predicate Enabled(s: System, op: Op) {
    match op
    case DoSetStarted(_, launch) => s.at.Resting? && FreshLaunch(s, launch)
    case DoConnect(_, _, launch) => s.at.Resting? && FreshLaunch(s, launch)
    case DoDisconnect(_) => s.at.Resting?
    case Configure(_, _, _, _) => s.at.Resting?
    case ChildExits(p) => p in s.children && !s.children[p].exited
    case StraySignal => true
    case HandleSignal => s.signal
    case WaitChild =>
      s.at.Resting? && s.f.pid > 0 && s.childDead && s.f.pid in s.children && s.children[s.f.pid].exited
    case ClearChild => s.at.Reaped?
    case Decide(launch) => s.at.Cleared? && FreshLaunch(s, launch)
    case ClearRestart => s.at.Relaunched?
  }

  function AfterEvent(children: map<nat, Child>, e: Event): map<nat, Child> {
    match e
    case Launched(p, _, _) => children[p := Child(false, false)]
    case StopSent(p) => if p in children then children[p := children[p].(asked := true)] else children
    case _ => children
  }

  function AfterEvents(children: map<nat, Child>, events: seq<Event>): map<nat, Child>
    decreases events
  {
    if events == [] then children else AfterEvents(AfterEvent(children, events[0]), events[1..])
  }

  function Apply(s: System, o: Outcome): System {
    s.(f := o.f, children := AfterEvents(s.children, o.events), log := s.log + o.events)
  }

  function Step(s: System, op: Op): System
    requires Enabled(s, op)
  {
    match op
    case DoSetStarted(value, launch) => Apply(s, SetStarted(s.f, value, launch))
    case DoConnect(follower, path, launch) => Apply(s, Connect(s.f, follower, path, launch))
    case DoDisconnect(follower) => Apply(s, Disconnect(s.f, follower))
    case Configure(command, autostart, restartOnChange, periodic) =>
      var f := s.f.(command := command, autostart := autostart, restartOnChange := restartOnChange);
      s.(f := f.(periodic := periodic))
    case ChildExits(p) => s.(children := s.children[p := s.children[p].(exited := true)], signal := true)
    case StraySignal => s.(signal := true)
    case HandleSignal => s.(signal := false, childDead := true)
    case WaitChild => s.(children := s.children - {s.f.pid}, at := Reaped)
    case ClearChild =>
      s.(childDead := false, f := s.f.(pid := 0), at := Cleared, log := s.log + [Collected(s.f.pid)])
    case Decide(launch) =>
      if Relaunches(s.f) then Apply(s, Start(s.f, launch, true)).(at := Relaunched)
      else Apply(s, SetStarted(s.f, false, launch)).(at := Resting)
    case ClearRestart => s.(f := s.f.(restart := false), at := Resting)
  }

  /** A SIGTERM has been sent since the last launch. */
  function StoppedSinceLaunch(log: seq<Event>): bool {
    if log == [] then false
    else match log[|log| - 1]
      case Launched(_, _, _) => false
      case StopSent(_) => true
      case _ => StoppedSinceLaunch(log[..|log| - 1])
  }

  /** A connection change has asked for a restart since the last launch. */
  function RestartSinceLaunch(log: seq<Event>): bool {
    if log == [] then false
    else match log[|log| - 1]
      case Launched(_, _, _) => false
      case RestartAsked => true
      case _ => RestartSinceLaunch(log[..|log| - 1])
  }

  predicate Justified(log: seq<Event>, k: nat)
    requires k < |log|
  {
    log[k].Launched? && log[k].relaunch ==>
      RestartSinceLaunch(log[..k]) || (log[k].periodic && !StoppedSinceLaunch(log[..k]))
  }

  ghost predicate AllJustified(log: seq<Event>) {
    forall k :: 0 <= k < |log| ==> Justified(log, k)
  }

  predicate ChildrenOk(s: System) {
    match s.at
    case Resting => s.children.Keys == if s.f.pid == 0 then {} else {s.f.pid}
    case Relaunched => s.children.Keys == if s.f.pid == 0 then {} else {s.f.pid}
    case Reaped => s.children == map[] && s.f.pid != 0
    case Cleared => s.children == map[] && s.f.pid == 0
  }

  predicate NoExitLost(s: System) {
    forall p :: p in s.children && s.children[p].exited ==> s.childDead || s.signal
  }

  predicate FlagsOk(s: System) {
    && (s.f.pid in s.children ==> s.f.userStopped == s.children[s.f.pid].asked)
    && (s.at.Resting? && s.f.restart ==> s.f.pid in s.children && s.children[s.f.pid].asked)
  }

  predicate LogOk(s: System) {
    match s.at
    case Resting =>
      && (s.f.pid != 0 ==> s.f.userStopped == StoppedSinceLaunch(s.log))
      && (s.f.pid != 0 ==> s.f.restart == RestartSinceLaunch(s.log))
    case Relaunched =>
      && (s.f.pid != 0 ==> s.f.userStopped == StoppedSinceLaunch(s.log) == RestartSinceLaunch(s.log) == false)
    case _ =>
      && s.f.userStopped == StoppedSinceLaunch(s.log)
      && s.f.restart == RestartSinceLaunch(s.log)
  }

  ghost predicate Inv(s: System) {
    ChildrenOk(s) && NoExitLost(s) && FlagsOk(s) && LogOk(s) && AllJustified(s.log)
  }

  lemma {:induction false} BootIsFine()
    ensures Inv(BOOT)
  {
  }

  lemma {:induction false} Extend(log: seq<Event>, e: Event)
    requires e.Launched? && e.relaunch ==> RestartSinceLaunch(log) || (e.periodic && !StoppedSinceLaunch(log))
    ensures StoppedSinceLaunch(log + [e]) == if e.Launched? then false else e.StopSent? || StoppedSinceLaunch(log)
    ensures RestartSinceLaunch(log + [e]) == if e.Launched? then false else e.RestartAsked? || RestartSinceLaunch(log)
    ensures AllJustified(log) ==> AllJustified(log + [e])
  {
    assert (log + [e])[..|log|] == log;
    forall k | 0 <= k < |log| + 1 && AllJustified(log) ensures Justified(log + [e], k) {
      if k < |log| {
        assert Justified(log, k);
        assert (log + [e])[..k] == log[..k];
      }
    }
  }

  lemma {:induction false} ApplyOne(s: System, o: Outcome, e: Event)
    requires o.events == [e]
    ensures Apply(s, o) == s.(f := o.f, children := AfterEvent(s.children, e), log := s.log + [e])
  {
    assert o.events[1..] == [];
    assert AfterEvents(s.children, o.events) == AfterEvents(AfterEvent(s.children, o.events[0]), []);
  }

  lemma {:induction false} ApplyTwo(s: System, o: Outcome, a: Event, b: Event)
    requires o.events == [a, b]
    ensures Apply(s, o) ==
      s.(f := o.f, children := AfterEvent(AfterEvent(s.children, a), b), log := s.log + [a] + [b])
  {
    hide AfterEvent;
    assert o.events[1..] == [b] && o.events[1..][1..] == [];
    var asked := AfterEvent(s.children, a);
    assert AfterEvents(s.children, o.events) == AfterEvents(asked, o.events[1..]);
    assert AfterEvents(asked, [b]) == AfterEvents(AfterEvent(asked, [b][0]), [b][1..]);
    assert s.log + o.events == s.log + [a] + [b];
  }

  lemma {:induction false} ApplyNone(s: System, o: Outcome)
    requires o.events == []
    ensures Apply(s, o) == s.(f := o.f)
  {
    assert s.log + [] == s.log;
  }

  /** Only pid_, restart_ and user_stopped_ matter to the invariant. */
  lemma {:induction false} OtherFieldsDoNotMatter(s: System, f: Fields)
    requires Inv(s) && f.pid == s.f.pid && f.restart == s.f.restart && f.userStopped == s.f.userStopped
    ensures Inv(s.(f := f))
  {
  }

  lemma {:induction false} LaunchKeepsInv(s: System, launch: Launch, relaunch: bool)
    requires Inv(s) && FreshLaunch(s, launch)
    requires if relaunch then s.at.Cleared? && Relaunches(s.f) else s.at.Resting?
    ensures Inv(Apply(s, Start(s.f, launch, relaunch)).(at := if relaunch then Relaunched else Resting))
  {
    var o := Start(s.f, launch, relaunch);
    if o.events == [] {
      ApplyNone(s, o);
    } else {
      ApplyOne(s, o, o.events[0]);
      Extend(s.log, o.events[0]);
    }
  }

  lemma {:induction false} StopKeepsInv(s: System)
    requires Inv(s) && s.at.Resting?
    ensures Inv(Apply(s, Stop(s.f)))
  {
    if s.f.pid == 0 {
      ApplyNone(s, Stop(s.f));
    } else {
      ApplyOne(s, Stop(s.f), StopSent(s.f.pid));
      Extend(s.log, StopSent(s.f.pid));
    }
  }

  lemma {:induction false} RestartKeepsInv(s: System)
    requires Inv(s) && s.at.Resting? && s.f.pid != 0
    ensures Inv(Apply(s, AskRestart(s.f)))
  {
    if s.f.restartOnChange && !s.f.restart {
      var stopped := Apply(s, Stop(s.f));
      StopKeepsInv(s);
      ApplyOne(s, Stop(s.f), StopSent(s.f.pid));
      ApplyTwo(s, AskRestart(s.f), StopSent(s.f.pid), RestartAsked);
      AskedKeepsInv(stopped);
      hide Inv, Apply;
    } else {
      ApplyNone(s, AskRestart(s.f));
    }
  }

  lemma {:induction false} AskedKeepsInv(s: System)
    requires Inv(s) && s.at.Resting? && s.f.pid != 0 && s.f.userStopped
    ensures Inv(s.(f := s.f.(restart := true), log := s.log + [RestartAsked]))
  {
    Extend(s.log, RestartAsked);
    hide AllJustified;
  }

  lemma {:induction false} SetStartedKeepsInv(s: System, value: bool, launch: Launch)
    requires Inv(s) && s.at.Resting? && FreshLaunch(s, launch)
    ensures Inv(Apply(s, SetStarted(s.f, value, launch)))
  {
    var o := SetStarted(s.f, value, launch);
    if s.f.started == value {
      ApplyNone(s, o);
    } else {
      var plain := if value then Start(s.f, launch) else Stop(s.f);
      if value {
        LaunchKeepsInv(s, launch, false);
      } else {
        StopKeepsInv(s);
      }
      OtherFieldsDoNotMatter(Apply(s, plain), o.f);
    }
  }

  lemma {:induction false} PathOnly(f: Fields, follower: Label, path: string)
    ensures var g := SetPath(f, follower, path);
      && (g.pid, g.restart, g.userStopped, g.started) == (f.pid, f.restart, f.userStopped, f.started)
      && g.restartOnChange == f.restartOnChange && g.autostart == f.autostart
  {
  }

  lemma {:induction false} ChangeKeepsInv(s: System, op: Op)
    requires Inv(s) && Enabled(s, op) && (op.DoConnect? || op.DoDisconnect?)
    ensures Inv(Step(s, op))
  {
    hide Inv, AskRestart, Stop, Start, AfterEvents, SetPath;
    var g := SetPath(s.f, op.follower, if op.DoConnect? then op.path else "");
    PathOnly(s.f, op.follower, if op.DoConnect? then op.path else "");
    var t := s.(f := g);
    OtherFieldsDoNotMatter(s, g);
    if g.pid == 0 {
      ApplyNone(t, Outcome(g, true, []));
    }
    if g.pid != 0 {
      RestartKeepsInv(t);
      StopKeepsInv(t);
    } else if op.DoConnect? {
      LaunchKeepsInv(t, op.launch, false);
    }
  }

  lemma {:induction false} StepKeepsInv(s: System, op: Op)
    requires Inv(s) && Enabled(s, op)
    ensures Inv(Step(s, op))
  {
    match op
    case DoSetStarted(value, launch) => SetStartedKeepsInv(s, value, launch);
    case DoConnect(_, _, _) => ChangeKeepsInv(s, op);
    case DoDisconnect(_) => ChangeKeepsInv(s, op);
    case Decide(launch) =>
      if Relaunches(s.f) {
        LaunchKeepsInv(s, launch, true);
      } else {
        ApplyNone(s, SetStarted(s.f, false, launch));
      }
    case ClearChild => Extend(s.log, Collected(s.f.pid));
    case _ =>
  }

  ghost predicate ValidRun(s: System, ops: seq<Op>)
    decreases ops
  {
    ops != [] ==> Enabled(s, ops[0]) && ValidRun(Step(s, ops[0]), ops[1..])
  }

  ghost function Exec(s: System, ops: seq<Op>): System
    requires ValidRun(s, ops)
    decreases ops
  {
    if ops == [] then s else Exec(Step(s, ops[0]), ops[1..])
  }

  lemma {:induction false} InvAlong(s: System, ops: seq<Op>)
    requires Inv(s) && ValidRun(s, ops)
    ensures Inv(Exec(s, ops))
    decreases ops
  {
    if ops != [] {
      StepKeepsInv(s, ops[0]);
      InvAlong(Step(s, ops[0]), ops[1..]);
    }
  }

  /** In every reachable state at most one child is unreaped; a pending restart means there is one and
      it has been asked to stop; and a child that has exited has raised `child_dead`, or its SIGCHLD
      is still to be handled, relaunches included. */
  lemma {:induction false} ReachableStates(ops: seq<Op>)
    requires ValidRun(BOOT, ops)
    ensures var s := Exec(BOOT, ops);
      && |s.children| <= 1
      && (s.at.Resting? && s.f.restart ==> s.f.pid in s.children && s.children[s.f.pid].asked)
      && (forall p :: p in s.children ==> p == s.f.pid && s.children[p].asked == s.f.userStopped)
      && (forall p :: p in s.children && s.children[p].exited ==> s.childDead || s.signal)
  {
    BootIsFine();
    InvAlong(BOOT, ops);
    var s := Exec(BOOT, ops);
    if s.f.pid in s.children {
      assert s.children.Keys == {s.f.pid};
    }
    assert |s.children| == |s.children.Keys|;
  }

  /** Every launch the monitor makes follows a restart asked for since the launch before, or is one of
      a periodic command that nobody has stopped since then. */
  lemma {:induction false} RelaunchesAreJustified(ops: seq<Op>, k: nat)
    requires ValidRun(BOOT, ops) && k < |Exec(BOOT, ops).log|
    ensures var log := Exec(BOOT, ops).log;
      log[k].Launched? && log[k].relaunch ==>
        RestartSinceLaunch(log[..k]) || (log[k].periodic && !StoppedSinceLaunch(log[..k]))
  {
    BootIsFine();
    InvAlong(BOOT, ops);
    assert Justified(Exec(BOOT, ops).log, k);
  }

  /** And the other way round: having collected a child, the monitor tries to launch it again exactly
      then. A stop asked for after a restart does not cancel it. */
  lemma {:induction false} MonitorRelaunchesIff(ops: seq<Op>, launch: Launch)
    requires ValidRun(BOOT, ops)
    ensures var s := Exec(BOOT, ops);
      Enabled(s, Decide(launch)) ==>
        (Step(s, Decide(launch)).at.Relaunched? <==>
          RestartSinceLaunch(s.log) || (s.f.periodic && !StoppedSinceLaunch(s.log)))
  {
    BootIsFine();
    InvAlong(BOOT, ops);
  }

  // ---- What each callback must do, in any reachable state

  /** The path of one follower is set; those of the others stay, and so do the settings. */
  ghost predicate OnlyPath(f: Fields, g: Fields, follower: Label, path: string) {
    && g.audio == (if follower.Audio? then path else f.audio)
    && g.video == (if follower.Video? then path else f.video)
    && g.custom == (if follower.Custom? then path else f.custom)
    && SameSettings(f, g) && g.started == f.started
  }

  ghost predicate SameSettings(f: Fields, g: Fields) {
    && g.command == f.command && g.autostart == f.autostart
    && g.restartOnChange == f.restartOnChange && g.periodic == f.periodic
  }

  ghost predicate SamePaths(f: Fields, g: Fields) {
    g.audio == f.audio && g.video == f.video && g.custom == f.custom
  }

  /** The child is sent SIGTERM, once. */
  ghost predicate Stopped(s: System, t: System) {
    && s.f.pid != 0 && t.f.pid == s.f.pid && t.f.userStopped && t.f.restart == s.f.restart
    && t.log == s.log + [StopSent(s.f.pid)]
    && t.children == s.children[s.f.pid := Child(s.f.pid in s.children && s.children[s.f.pid].exited, true)]
  }

  /** It is sent SIGTERM so as to be launched again. */
  ghost predicate Restarting(s: System, t: System) {
    && s.f.pid != 0 && t.f.pid == s.f.pid && t.f.userStopped && t.f.restart
    && t.log == s.log + [StopSent(s.f.pid), RestartAsked]
    && t.children == s.children[s.f.pid := Child(s.f.pid in s.children && s.children[s.f.pid].exited, true)]
  }

  /** No child is launched or asked anything. */
  ghost predicate LeftAlone(s: System, t: System) {
    t.f.pid == s.f.pid && t.f.restart == s.f.restart && t.log == s.log && t.children == s.children
  }

  /** There is one new child. */
  ghost predicate LaunchedOne(s: System, t: System, pid: Pid, relaunch: bool) {
    && s.f.pid == 0 && t.f.pid == pid && !t.f.userStopped && t.f.restart == s.f.restart
    && t.log == s.log + [Launched(pid, relaunch, s.f.periodic)] && t.children == s.children[pid := Child(false, false)]
  }

  lemma {:induction false} StopsTheChild(s: System)
    requires Inv(s) && s.at.Resting? && s.f.pid != 0
    ensures Stopped(s, Apply(s, Stop(s.f))) && Apply(s, Stop(s.f)).f == s.f.(userStopped := true)
  {
    ApplyOne(s, Stop(s.f), StopSent(s.f.pid));
    assert s.f.pid in s.children.Keys;
  }

  lemma {:induction false} RestartsOrNot(s: System)
    requires Inv(s) && s.at.Resting? && s.f.pid != 0
    ensures var t := Apply(s, AskRestart(s.f));
      && t.f.(userStopped := s.f.userStopped, restart := s.f.restart) == s.f
      && if s.f.restartOnChange && !RestartSinceLaunch(s.log) then Restarting(s, t) else LeftAlone(s, t)
  {
    var o := AskRestart(s.f);
    if o.events == [] {
      ApplyNone(s, o);
    } else {
      ApplyTwo(s, o, StopSent(s.f.pid), RestartAsked);
      assert s.f.pid in s.children.Keys;
    }
  }

  lemma {:induction false} LaunchesOrNot(s: System, launch: Launch, relaunch: bool)
    ensures var t := Apply(s, Start(s.f, launch, relaunch));
      && t.f.(pid := s.f.pid, userStopped := s.f.userStopped) == s.f
      && (t.f.userStopped <==> s.f.userStopped && (s.f.pid != 0 || s.f.command == "" || launch.BadWords?))
      && if s.f.pid == 0 && s.f.command != "" && launch.Spawned? then LaunchedOne(s, t, launch.pid, relaunch)
         else LeftAlone(s, t)
  {
    var o := Start(s.f, launch, relaunch);
    if o.events == [] {
      ApplyNone(s, o);
    } else {
      ApplyOne(s, o, o.events[0]);
    }
  }

  lemma {:induction false} PathIsSet(f: Fields, follower: Label, path: string)
    ensures var g := SetPath(f, follower, path);
      OnlyPath(f, g, follower, path) && g.pid == f.pid && g.restart == f.restart && g.userStopped == f.userStopped
  {
  }

  /** What is said of a step after the path has been set holds of the whole step. */
  lemma {:induction false} FromPathOn(s: System, g: System, t: System, follower: Label, path: string, pid: Pid)
    requires g == s.(f := SetPath(s.f, follower, path))
    requires t.f.(pid := g.f.pid, userStopped := g.f.userStopped, restart := g.f.restart) == g.f
    ensures OnlyPath(s.f, t.f, follower, path) && SamePaths(g.f, t.f)
    ensures LeftAlone(g, t) ==> LeftAlone(s, t)
    ensures Stopped(g, t) ==> Stopped(s, t)
    ensures Restarting(g, t) ==> Restarting(s, t)
    ensures LaunchedOne(g, t, pid, false) ==> LaunchedOne(s, t, pid, false)
  {
    PathIsSet(s.f, follower, path);
  }

  lemma {:induction false} SameApply(s: System, f: Fields, o: Outcome)
    ensures Apply(s.(f := f), o) == Apply(s, o)
  {
  }

  /** What the callback does after clearing its path. */
  ghost predicate StopsOrRestarts(g: System, t: System) {
    if g.f.pid == 0 then LeftAlone(g, t)
    else if g.f.audio == "" && g.f.video == "" && g.f.custom == "" then Stopped(g, t)
    else if g.f.restartOnChange && !RestartSinceLaunch(g.log) then Restarting(g, t)
    else LeftAlone(g, t)
  }

  lemma {:induction false} DisconnectedIs(g: System)
    requires Inv(g) && g.at.Resting?
    ensures var t := Apply(g, Disconnected(g.f));
      && t.f.(pid := g.f.pid, userStopped := g.f.userStopped, restart := g.f.restart) == g.f
      && StopsOrRestarts(g, t)
  {
    hide Inv, AskRestart, Stop, RestartSinceLaunch, Stopped, Restarting, AfterEvents;
    if g.f.pid != 0 {
      StopsTheChild(g);
      RestartsOrNot(g);
    } else {
      ApplyNone(g, Disconnected(g.f));
    }
  }

  lemma {:induction false} DisconnectFrom(s: System, follower: Label)
    requires Inv(s) && s.at.Resting?
    ensures var t := Apply(s, Disconnect(s.f, follower));
      && OnlyPath(s.f, t.f, follower, "")
      && if s.f.pid == 0 then LeftAlone(s, t)
         else if t.f.audio == "" && t.f.video == "" && t.f.custom == "" then Stopped(s, t)
         else if s.f.restartOnChange && !RestartSinceLaunch(s.log) then Restarting(s, t)
         else LeftAlone(s, t)
  {
    hide Inv, Apply, SetPath, Disconnected, RestartSinceLaunch, OnlyPath, Stopped, Restarting, LeftAlone;
    var g := s.(f := SetPath(s.f, follower, ""));
    PathIsSet(s.f, follower, "");
    OtherFieldsDoNotMatter(s, g.f);
    SameApply(s, g.f, Disconnect(s.f, follower));
    DisconnectedIs(g);
    FromPathOn(s, g, Apply(s, Disconnect(s.f, follower)), follower, "", 1);
    SettingsOf(s.f, follower, "");
  }

  lemma {:induction false} SettingsOf(f: Fields, follower: Label, path: string)
    ensures SameSettings(f, SetPath(f, follower, path))
  {
  }

  /** A disconnect clears its path. When no path is left, a child is asked to stop by that very step and no restart is
      asked; with a path left, a restart is asked exactly when there is a child, it is wanted, and none is pending. */
  lemma {:induction false} DisconnectMeans(ops: seq<Op>, follower: Label)
    requires ValidRun(BOOT, ops) && Exec(BOOT, ops).at.Resting?
    ensures var s := Exec(BOOT, ops);
      var t := Step(s, DoDisconnect(follower));
      && OnlyPath(s.f, t.f, follower, "")
      && if s.f.pid == 0 then LeftAlone(s, t)
         else if t.f.audio == "" && t.f.video == "" && t.f.custom == "" then Stopped(s, t)
         else if s.f.restartOnChange && !RestartSinceLaunch(s.log) then Restarting(s, t)
         else LeftAlone(s, t)
  {
    hide Inv, Apply, Disconnect, OnlyPath, LeftAlone, Restarting, Stopped;
    BootIsFine();
    InvAlong(BOOT, ops);
    DisconnectFrom(Exec(BOOT, ops), follower);
  }

  lemma {:induction false} ConnectedIs(g: System, launch: Launch)
    requires Inv(g) && g.at.Resting?
    ensures var t := Apply(g, Connected(g.f, launch));
      && t.f.(pid := g.f.pid, userStopped := g.f.userStopped, restart := g.f.restart) == g.f
      && if g.f.pid == 0 then
           if g.f.autostart && g.f.command != "" && launch.Spawned? then LaunchedOne(g, t, launch.pid, false)
           else LeftAlone(g, t)
         else if g.f.restartOnChange && !RestartSinceLaunch(g.log) then Restarting(g, t)
         else LeftAlone(g, t)
  {
    hide Inv, AskRestart, Start, RestartSinceLaunch, LaunchedOne, Restarting, AfterEvents;
    if g.f.pid != 0 {
      RestartsOrNot(g);
    } else if g.f.autostart {
      LaunchesOrNot(g, launch, false);
    } else {
      ApplyNone(g, Connected(g.f, launch));
    }
  }

  lemma {:induction false} ConnectFrom(s: System, follower: Label, path: string, launch: Launch)
    requires Inv(s) && s.at.Resting?
    ensures var t := Apply(s, Connect(s.f, follower, path, launch));
      && OnlyPath(s.f, t.f, follower, path)
      && if s.f.pid == 0 then
           if s.f.autostart && s.f.command != "" && launch.Spawned? then LaunchedOne(s, t, launch.pid, false)
           else LeftAlone(s, t)
         else if s.f.restartOnChange && !RestartSinceLaunch(s.log) then Restarting(s, t)
         else LeftAlone(s, t)
  {
    hide Inv, Apply, SetPath, Connected, RestartSinceLaunch, OnlyPath, LaunchedOne, Restarting, LeftAlone;
    var g := s.(f := SetPath(s.f, follower, path));
    PathIsSet(s.f, follower, path);
    OtherFieldsDoNotMatter(s, g.f);
    SameApply(s, g.f, Connect(s.f, follower, path, launch));
    ConnectedIs(g, launch);
    FromPathOn(s, g, Apply(s, Connect(s.f, follower, path, launch)), follower, path,
               if launch.Spawned? then launch.pid else 1);
    SettingsOf(s.f, follower, path);
  }

  /** A connect stores its path. With a child, a restart is asked exactly when it is wanted and none is pending; without
      one, a child is launched exactly when that is set, there is a command, and the spawn succeeds. */
  lemma {:induction false} ConnectMeans(ops: seq<Op>, follower: Label, path: string, launch: Launch)
    requires ValidRun(BOOT, ops) && Enabled(Exec(BOOT, ops), DoConnect(follower, path, launch))
    ensures var s := Exec(BOOT, ops);
      var t := Step(s, DoConnect(follower, path, launch));
      && OnlyPath(s.f, t.f, follower, path)
      && if s.f.pid == 0 then
           if s.f.autostart && s.f.command != "" && launch.Spawned? then LaunchedOne(s, t, launch.pid, false)
           else LeftAlone(s, t)
         else if s.f.restartOnChange && !RestartSinceLaunch(s.log) then Restarting(s, t)
         else LeftAlone(s, t)
  {
    hide Inv, Apply, Connect, OnlyPath, LeftAlone, Restarting, LaunchedOne;
    BootIsFine();
    InvAlong(BOOT, ops);
    ConnectFrom(Exec(BOOT, ops), follower, path, launch);
  }

  /** Setting `started` to what it is does nothing. Otherwise true launches a child, unless there is one, no command, or
      a failure, and is stored only then; false asks a child to stop and is stored. A start that gets as far as the
      spawn ends the stop of the user. */
  lemma {:induction false} SetStartedMeans(ops: seq<Op>, value: bool, launch: Launch)
    requires ValidRun(BOOT, ops) && Enabled(Exec(BOOT, ops), DoSetStarted(value, launch))
    ensures var s := Exec(BOOT, ops);
      var t := Step(s, DoSetStarted(value, launch));
      && SamePaths(s.f, t.f) && SameSettings(s.f, t.f)
      && if s.f.started == value then t == s
         else if !value then !t.f.started && (if s.f.pid != 0 then Stopped(s, t) else LeftAlone(s, t))
         else if s.f.pid == 0 && s.f.command != "" && launch.Spawned?
           then t.f.started && LaunchedOne(s, t, launch.pid, false)
         else !t.f.started && LeftAlone(s, t)
    ensures var s := Exec(BOOT, ops);
      value && !s.f.started ==>
        (Step(s, DoSetStarted(value, launch)).f.userStopped <==>
          s.f.userStopped && (s.f.pid != 0 || s.f.command == "" || launch.BadWords?))
  {
    hide Inv, Start, Stop, AfterEvents;
    BootIsFine();
    InvAlong(BOOT, ops);
    var s := Exec(BOOT, ops);
    var o := SetStarted(s.f, value, launch);
    ApplyNone(s, Outcome(s.f, true, []));
    if s.f.started != value {
      OtherFields(s, if value then Start(s.f, launch) else Stop(s.f), o);
      StoresOrNot(s.f, value, launch);
      if value {
        LaunchesOrNot(s, launch, false);
      } else if s.f.pid != 0 {
        StopsTheChild(s);
      } else {
        NothingToStop(s);
      }
    }
  }

  lemma {:induction false} NothingToStop(s: System)
    requires s.f.pid == 0
    ensures Apply(s, Stop(s.f)) == s
  {
    ApplyNone(s, Stop(s.f));
  }

  lemma {:induction false} StoresOrNot(f: Fields, value: bool, launch: Launch)
    requires f.started != value
    ensures var plain := if value then Start(f, launch) else Stop(f);
      SetStarted(f, value, launch).f == if plain.ok then plain.f.(started := value) else plain.f
    ensures Stop(f).ok && (Start(f, launch).ok <==> f.pid == 0 && f.command != "" && launch.Spawned?)
  {
  }

  lemma {:induction false} OtherFields(s: System, p: Outcome, o: Outcome)
    requires o.events == p.events
    ensures Apply(s, o) == Apply(s, p).(f := o.f)
  {
  }

  /** Once a child is collected, the monitor either launches the next one or tries to, and leaves `started` alone, or it
      clears `started`; which of the two, the log says. */
  lemma {:induction false} DecideMeans(ops: seq<Op>, launch: Launch)
    requires ValidRun(BOOT, ops) && Enabled(Exec(BOOT, ops), Decide(launch))
    ensures var s := Exec(BOOT, ops);
      var t := Step(s, Decide(launch));
      && s.f.pid == 0 && SamePaths(s.f, t.f) && SameSettings(s.f, t.f)
      && if RestartSinceLaunch(s.log) || (s.f.periodic && !StoppedSinceLaunch(s.log)) then
           && t.f.started == s.f.started && t.at.Relaunched? && !Step(t, ClearRestart).f.restart
           && (if s.f.command != "" && launch.Spawned? then LaunchedOne(s, t, launch.pid, true) else LeftAlone(s, t))
         else !t.f.started && t.at.Resting? && LeftAlone(s, t)
  {
    BootIsFine();
    InvAlong(BOOT, ops);
    var s := Exec(BOOT, ops);
    LaunchesOrNot(s, launch, true);
    ApplyNone(s, SetStarted(s.f, false, launch));
  }

  // ---- The monitor's tick

  /** From any reachable state in which the child has exited and the monitor rests, at most one signal
      delivery away, the next tick collects the child. */
  lemma {:induction false} ExitIsCollected(s: System)
    requires Inv(s) && s.at.Resting? && s.f.pid in s.children && s.children[s.f.pid].exited
    ensures Enabled(s, WaitChild) || (Enabled(s, HandleSignal) && Enabled(Step(s, HandleSignal), WaitChild))
  {
  }

  /** The monitor's three phases, without a signal in between, make its whole tick. */
  lemma {:induction false} PhasesMakeTick(s: System, launch: Launch)
    requires s.at.Reaped? && s.children == map[]
    ensures var decided := Step(Step(s, ClearChild), Decide(launch));
      && AfterReap(s.f, launch) == (if Relaunches(s.f) then Step(decided, ClearRestart).f else decided.f)
      && decided.log == s.log + [Collected(s.f.pid)] + Reap(s.f, launch).events
  {
  }

  // ---- The quiddity itself

  class Executor {
    var childPid: nat
    var restart: bool
    var userStopped: bool
    var started: bool
    var commandLine: string
    var autostart: bool
    var restartOnChange: bool
    var periodic: bool
    var shmpathAudio: string
    var shmpathVideo: string
    var shmpath: string
    var childDead: bool           // static in the source
    var events: seq<Event>        // launches and signals sent, restarts asked

    function F(): Fields
      reads this
    {
      Fields(childPid, restart, userStopped, started, commandLine, autostart, restartOnChange, periodic,
             shmpathAudio, shmpathVideo, shmpath)
    }

    constructor ()
      ensures F() == IDLE && !childDead && events == []
    {
      childPid, restart, userStopped, started := 0, false, false, false;
      commandLine, autostart, restartOnChange, periodic := "", false, false, false;
      shmpathAudio, shmpathVideo, shmpath := "", "", "";
      childDead, events := false, [];
    }

    method SignalCb()
      modifies `childDead
      ensures childDead
    {
      childDead := true;
    }

    method StartProcess(launch: Launch, relaunch: bool) returns (ok: bool)
      modifies `childPid, `userStopped, `events
      ensures Executor.Done(old(F()), old(events), F(), events, ok, Start(old(F()), launch, relaunch))
    {
      if childPid != 0 {
        return false;
      }
      if commandLine == "" {
        return false;
      }
      if launch.BadWords? {
        return false;
      }
      userStopped := false;
      if launch.SpawnFails? {
        return false;
      }
      childPid := launch.pid;
      events := events + [Launched(launch.pid, relaunch, periodic)];
      return true;
    }

    method StopProcess() returns (ok: bool)
      modifies `userStopped, `events
      ensures Done(old(F()), old(events), F(), events, ok, Stop(old(F())))
    {
      if childPid != 0 {
        userStopped := true;
        events := events + [StopSent(childPid)];
      }
      return true;
    }

    method SetStartedProperty(value: bool, launch: Launch) returns (ok: bool)
      modifies `childPid, `userStopped, `started, `events
      ensures Done(old(F()), old(events), F(), events, ok, SetStarted(old(F()), value, launch))
    {
      if started == value {
        return true;
      }
      if value {
        ok := StartProcess(launch, false);
      } else {
        ok := StopProcess();
      }
      if !ok {
        return false;
      }
      started := value;
    }

    method OnShmdataConnect(path: string, follower: Label, launch: Launch) returns (ok: bool)
      modifies this
      ensures Done(old(F()), old(events), F(), events, ok, Connect(old(F()), follower, path, launch))
      ensures childDead == old(childDead)
    {
      AssignPath(follower, path);
      if childPid != 0 {
        ok := RestartIfAsked();
        return ok;
      } else {
        if autostart {
          ok := StartProcess(launch, false);
          return ok;
        }
      }
      return true;
    }

    method OnShmdataDisconnect(follower: Label) returns (ok: bool)
      modifies this
      ensures Done(old(F()), old(events), F(), events, ok, Disconnect(old(F()), follower))
      ensures childDead == old(childDead)
    {
      AssignPath(follower, "");
      if childPid != 0 {
        if shmpathVideo == "" && shmpathAudio == "" && shmpath == "" {
          ok := StopProcess();
          return ok;
        }
        ok := RestartIfAsked();
        return ok;
      }
      return true;
    }

    method AssignPath(follower: Label, path: string)
      modifies `shmpathVideo, `shmpathAudio, `shmpath
      ensures F() == SetPath(old(F()), follower, path)
    {
      match follower {
        case Video => shmpathVideo := path;
        case Audio => shmpathAudio := path;
        case Custom => shmpath := path;
      }
    }

    method RestartIfAsked() returns (ok: bool)
      modifies `userStopped, `restart, `events
      ensures Done(old(F()), old(events), F(), events, ok, AskRestart(old(F())))
    {
      if restartOnChange {
        if !restart {
          var _ := StopProcess();
          restart := true;
          events := events + [RestartAsked];
        }
      }
      return true;
    }

    /** waited: whether `waitpid` returns the child. */
    method MonitorProcess(waited: bool, launch: Launch)
      modifies this
      ensures F() == if old(childPid > 0 && childDead) && waited then AfterReap(old(F()), launch) else old(F())
      ensures events ==
        old(events) + if old(childPid > 0 && childDead) && waited then Reap(old(F()), launch).events else []
      ensures childDead == (old(childDead) && !(old(childPid > 0) && waited))
    {
      if childPid > 0 {
        if childDead {
          if waited {
            ChildCollected(launch);
          }
        }
      }
    }

    method ChildCollected(launch: Launch)
      modifies this
      ensures F() == AfterReap(old(F()), launch) && !childDead
      ensures events == old(events) + Reap(old(F()), launch).events
    {
      childDead := false;
      childPid := 0;
      if (periodic && !userStopped) || restart {
        var _ := StartProcess(launch, true);
        restart := false;
      } else {
        var _ := SetStartedProperty(false, launch);
      }
    }

    /** The fields, events and result after a callback are those of `o`. */
    static predicate Done(f0: Fields, events0: seq<Event>, f: Fields, events: seq<Event>, ok: bool, o: Outcome) {
      f == o.f && events == events0 + o.events && ok == o.ok
    }
  }
}
