/** The render loop and the life of the windows it draws (plugins/glfw/glfw-renderer.cpp,
    plugins/glfw/glfwvideo.cpp): a render thread that takes a copy of every window's tasks under
    `creation_window_mutex_`, and windows that come, queue tasks and are destroyed meanwhile.

    A locked region is one step, except a render pass: it keeps `creation_window_mutex_` while it
    runs its batch, and other threads go on queueing tasks. */
module RenderLoop {

  type Window = nat
  type Task = nat
  type Tasks = map<Window, seq<Task>>

  /** Broken: the constructor gave up (`is_valid_` is false). Closing: `ongoing_destruction_` is set.
      Detached: past the unsubscription, which a broken window skips. Destroyed: GL elements gone.
      Gone: the destructor is over. */
  datatype Phase = Absent | Live | Broken | Closing | Detached | Destroyed | Gone

  /** The renderer's own state: `rendering_tasks_` and, during a pass, the popped copy. */
  datatype State = State(
    phase: map<Window, Phase>,
    setUp: set<Window>,       // windows whose constructor got to its end
    tasks: Tasks,
    ready: bool,              // the render thread has seen instance_counter_ not zero
    pass: bool,               // and holds creation_window_mutex_
    batch: Tasks,             // popped windows not dealt with yet, the current one included
    checked: multiset<Window>,// adders between the test of ongoing_destruction_ and the enqueue
    instances: int,           // instance_counter_
    added: Tasks,             // every task ever enqueued, per window
    ran: Tasks)               // every task ever run, per window

  const START := State(map[], {}, map[], false, false, map[], multiset{}, 0, map[], map[])

  function PhaseOf(s: State, w: Window): Phase {
    if w in s.phase then s.phase[w] else Absent
  }

  function TasksOf(m: Tasks, w: Window): seq<Task> {
    if w in m then m[w] else []
  }

  /** `rendering_tasks_[window].push_back(task)`, for each of the tasks. */
  function Pushed(m: Tasks, w: Window, ts: seq<Task>): Tasks {
    m[w := TasksOf(m, w) + ts]
  }

  /** `rendering_tasks_` once its lambdas have been popped. */
  function Cleared(m: Tasks): Tasks {
    map w | w in m :: []
  }

  datatype Op =
    | Construct(w: Window, valid: bool, initial: seq<Task>)
    | AddTask(w: Window, t: Task)        // test and enqueue as one step
    | Check(w: Window)                   // the test alone ...
    | Enqueue(w: Window, t: Task)        // ... and the enqueue that follows it later
    | BeginDestruction(w: Window)        // ongoing_destruction_ = true
    | Unsubscribe(w: Window)
    | DestroyGl(w: Window)
    | CountDown(w: Window)               // --instance_counter_
    | SeeWindows                         // the test of instance_counter_, not under the lock
    | BeginPass
    | RunTask(w: Window)
    | NextWindow(w: Window)              // done with the first window of the batch
    | EndPass

  predicate Enabled(s: State, op: Op) {
    match op
    case Construct(w, _, _) => PhaseOf(s, w) == Absent && !s.pass
    case AddTask(w, _) => PhaseOf(s, w) != Absent
    case Check(w) => PhaseOf(s, w) != Absent
    case Enqueue(w, _) => s.checked[w] > 0
    case BeginDestruction(w) => PhaseOf(s, w) == Live || PhaseOf(s, w) == Broken
    case Unsubscribe(w) => PhaseOf(s, w) == Closing
    case DestroyGl(w) => PhaseOf(s, w) == Detached && !s.pass
    case CountDown(w) => PhaseOf(s, w) == Destroyed
    case SeeWindows => !s.ready && !s.pass && s.instances != 0
    case BeginPass => s.ready && !s.pass
    case RunTask(w) => s.pass && First(s.batch, w) && s.batch[w] != []
    case NextWindow(w) => s.pass && First(s.batch, w) && s.batch[w] == []
    case EndPass => s.pass && s.batch == map[]
  }

  /** Maps are walked in key order. */
  predicate First(m: Tasks, w: Window) {
    w in m && forall v :: v in m ==> w <= v
  }

  /** `if (!ongoing_destruction_)` */
  predicate Accepting(s: State, w: Window) {
    PhaseOf(s, w) == Live || PhaseOf(s, w) == Broken
  }

  function Queue(s: State, w: Window, ts: seq<Task>): State {
    s.(tasks := Pushed(s.tasks, w, ts), added := Pushed(s.added, w, ts))
  }

  function Step(s: State, op: Op): State
    requires Enabled(s, op)
  {
    match op
    case Construct(w, valid, initial) =>
      if valid then
        Queue(s, w, initial).(phase := s.phase[w := Live], setUp := s.setUp + {w}, instances := s.instances + 1)
      else s.(phase := s.phase[w := Broken])
    case AddTask(w, t) => if Accepting(s, w) then Queue(s, w, [t]) else s
    case Check(w) => if Accepting(s, w) then s.(checked := s.checked + multiset{w}) else s
    case Enqueue(w, t) => Queue(s, w, [t]).(checked := s.checked - multiset{w})
    case BeginDestruction(w) =>
      s.(phase := s.phase[w := if PhaseOf(s, w) == Live then Closing else Detached])
    case Unsubscribe(w) => s.(phase := s.phase[w := Detached], tasks := s.tasks - {w})
    case DestroyGl(w) => s.(phase := s.phase[w := Destroyed])
    case CountDown(w) => s.(phase := s.phase[w := Gone], instances := s.instances - 1)
    case SeeWindows => s.(ready := true)
    case BeginPass => s.(ready := false, pass := true, batch := s.tasks, tasks := Cleared(s.tasks))
    case RunTask(w) =>
      s.(batch := s.batch[w := s.batch[w][1..]], ran := Pushed(s.ran, w, s.batch[w][..1]))
    case NextWindow(w) => s.(batch := s.batch - {w})
    case EndPass => s.(pass := false)
  }

  ghost predicate ValidRun(s: State, ops: seq<Op>)
    decreases ops
  {
    ops != [] ==> Enabled(s, ops[0]) && ValidRun(Step(s, ops[0]), ops[1..])
  }

  ghost function Exec(s: State, ops: seq<Op>): State
    requires ValidRun(s, ops)
    decreases ops
  {
    if ops == [] then s else Exec(Step(s, ops[0]), ops[1..])
  }

  lemma {:induction false} ExecAppend(s: State, a: seq<Op>, b: seq<Op>)
    requires ValidRun(s, a) && ValidRun(Exec(s, a), b)
    ensures ValidRun(s, a + b) && Exec(s, a + b) == Exec(Exec(s, a), b)
    decreases a
  {
    if a == [] {
      assert a + b == b;
    } else {
      ExecAppend(Step(s, a[0]), a[1..], b);
      assert (a + b)[1..] == a[1..] + b;
    }
  }

  lemma {:induction false} Then(s: State, ops: seq<Op>, op: Op) returns (more: seq<Op>)
    requires ValidRun(s, ops) && Enabled(Exec(s, ops), op)
    ensures ValidRun(s, more) && Exec(s, more) == Step(Exec(s, ops), op)
  {
    more := ops + [op];
    assert [op][1..] == [];
    ExecAppend(s, ops, [op]);
  }

  lemma {:induction false} NoOps(s: State)
    ensures ValidRun(s, []) && Exec(s, []) == s
  {
  }

  // ---- The render thread stays off destroyed windows

  predicate Dead(s: State, w: Window) {
    PhaseOf(s, w) == Destroyed || PhaseOf(s, w) == Gone
  }

  /** The render thread still has a destroyed window to draw. */
  predicate Touches(s: State, w: Window) {
    s.pass && w in s.batch && Dead(s, w)
  }

  predicate Idle(s: State) {
    !s.pass ==> s.batch == map[]
  }

  /** The adder tests and enqueues in one step, and nothing is queued for a window whose constructor
      gave up. */
  predicate Disciplined(s: State, op: Op) {
    match op
    case Check(_) => false
    case Enqueue(_, _) => false
    case AddTask(w, _) => PhaseOf(s, w) != Broken
    case _ => true
  }

  ghost predicate DisciplinedRun(s: State, ops: seq<Op>)
    requires ValidRun(s, ops)
    decreases ops
  {
    ops != [] ==> Disciplined(s, ops[0]) && DisciplinedRun(Step(s, ops[0]), ops[1..])
  }

  ghost predicate Safe(s: State) {
    && Idle(s)
    && (forall w :: w in s.tasks ==> PhaseOf(s, w) == Live || PhaseOf(s, w) == Closing)
    && (forall w :: w in s.batch ==> PhaseOf(s, w) in {Live, Closing, Detached})
  }

  lemma {:induction false} StepKeepsSafe(s: State, op: Op)
    requires Safe(s) && Enabled(s, op) && Disciplined(s, op)
    ensures Safe(Step(s, op))
  {
    hide TasksOf;
  }

  /** In every interleaving of render passes, task additions and window constructions and
      destructions, over any number of windows, a pass never has a destroyed window in its batch. */
  lemma {:induction false} NeverDrawsDestroyedWindow(s: State, ops: seq<Op>, w: Window)
    requires Safe(s) && ValidRun(s, ops) && DisciplinedRun(s, ops)
    ensures Safe(Exec(s, ops)) && !Touches(Exec(s, ops), w)
    decreases ops
  {
    if ops != [] {
      StepKeepsSafe(s, ops[0]);
      NeverDrawsDestroyedWindow(Step(s, ops[0]), ops[1..], w);
    }
  }

  lemma {:induction false} StartIsSafe()
    ensures Safe(START) && Conserved(START)
  {
  }

  /** So it is from the start, with the tasks of every subscribed window in order. */
  lemma {:induction false} RunsFromStart(ops: seq<Op>, w: Window)
    requires ValidRun(START, ops) && DisciplinedRun(START, ops)
    ensures var r := Exec(START, ops);
      && !Touches(r, w)
      && (Subscribed(r, w) ==> TasksOf(r.added, w) == TasksOf(r.ran, w) + TasksOf(r.batch, w) + TasksOf(r.tasks, w))
  {
    StartIsSafe();
    NeverDrawsDestroyedWindow(START, ops, w);
    TasksRunOnceInOrder(START, ops, w);
  }

  // ---- What happens when the test and the enqueue are two steps

  /** Something can still bring detached window w back to the render thread. */
  predicate Haunted(s: State, w: Window) {
    w in s.tasks || s.checked[w] > 0
  }

  ghost predicate AlwaysSafe(s: State, w: Window) {
    forall ops :: ValidRun(s, ops) ==> !Touches(Exec(s, ops), w)
  }

  ghost predicate Buried(s: State, w: Window) {
    && Idle(s) && !Haunted(s, w)
    && PhaseOf(s, w) in {Detached, Destroyed, Gone}
    && (Dead(s, w) ==> w !in s.batch)
  }

  lemma {:induction false} StepKeepsBuried(s: State, op: Op, w: Window)
    requires Buried(s, w) && Enabled(s, op)
    ensures Buried(Step(s, op), w)
  {
    hide TasksOf;
    if op.RunTask? {
      assert op.w in s.batch;
    }
  }

  lemma {:induction false} BuriedStaysBuried(s: State, ops: seq<Op>, w: Window)
    requires Buried(s, w) && ValidRun(s, ops)
    ensures Buried(Exec(s, ops), w)
    decreases ops
  {
    if ops != [] {
      StepKeepsBuried(s, ops[0], w);
      BuriedStaysBuried(Step(s, ops[0]), ops[1..], w);
    }
  }

  lemma {:induction false} FirstExists(m: Tasks)
    requires m != map[]
    ensures exists w :: First(m, w)
    decreases m.Keys
  {
    var v :| v in m;
    var rest := m - {v};
    if rest == map[] {
      forall u | u in m ensures u == v { assert u == v || u in rest; }
      assert First(m, v);
    } else {
      FirstExists(rest);
      var u :| First(rest, u);
      var w := if u < v then u else v;
      forall x | x in m ensures w <= x { if x != v { assert x in rest; } }
      assert First(m, w);
    }
  }

  ghost function Least(m: Tasks): (w: Window)
    requires m != map[]
    ensures First(m, w)
  {
    FirstExists(m);
    var w :| First(m, w);
    w
  }

  /** A pass can always be run to its end, whatever else is going on. */
  lemma {:induction false} PassEnds(s: State) returns (ops: seq<Op>)
    requires s.pass
    ensures ValidRun(s, ops)
    ensures Exec(s, ops) == s.(pass := false, batch := map[], ran := Exec(s, ops).ran)
    decreases |s.batch.Keys|, if s.batch == map[] then 0 else |s.batch[Least(s.batch)]|
  {
    hide Exec, ValidRun, TasksOf, Pushed;
    if s.batch == map[] {
      NoOps(Step(s, EndPass));
      ops := Before(s, EndPass, []);
    } else {
      var w := Least(s.batch);
      var op := if s.batch[w] == [] then NextWindow(w) else RunTask(w);
      PassGoesOn(s, w);
      var more := PassEnds(Step(s, op));
      ops := Before(s, op, more);
    }
  }

  lemma {:induction false} Before(s: State, op: Op, more: seq<Op>) returns (ops: seq<Op>)
    requires Enabled(s, op) && ValidRun(Step(s, op), more)
    ensures ValidRun(s, ops) && Exec(s, ops) == Exec(Step(s, op), more)
  {
    hide Step, Enabled;
    ops := [op] + more;
    assert ops[1..] == more;
  }

  /** Each step of a pass leaves fewer windows, or fewer tasks of the first one. */
  lemma {:induction false} PassGoesOn(s: State, w: Window)
    requires s.pass && First(s.batch, w)
    ensures s.batch[w] == [] ==> |(s.batch - {w}).Keys| < |s.batch.Keys|
    ensures s.batch[w] != [] ==> var after := s.batch[w := s.batch[w][1..]];
      after.Keys == s.batch.Keys && after != map[] && Least(after) == Least(s.batch) == w
  {
    if s.batch[w] == [] {
      assert (s.batch - {w}).Keys == s.batch.Keys - {w};
    } else {
      var after := s.batch[w := s.batch[w][1..]];
      assert w in after;
      assert after.Keys == s.batch.Keys;
      assert First(after, Least(after)) && First(s.batch, Least(s.batch));
    }
  }

  /** From a detached window that is still haunted, the render thread can be led to it after its GL
      elements are destroyed. */
  lemma {:induction false} HauntedIsReached(s: State, w: Window) returns (ops: seq<Op>)
    requires Idle(s) && PhaseOf(s, w) == Detached && Haunted(s, w)
    ensures ValidRun(s, ops) && Touches(Exec(s, ops), w)
  {
    hide Exec, ValidRun, First, TasksOf;
    NoOps(s);
    ops := [];
    if s.pass {
      ops := PassEnds(s);
    }
    if w !in s.tasks {
      ops := Then(s, ops, Enqueue(w, 0));
    }
    var rest := EntryIsReached(Exec(s, ops), w);
    ExecAppend(s, ops, rest);
    ops := ops + rest;
  }

  lemma {:induction false} EntryIsReached(s: State, w: Window) returns (ops: seq<Op>)
    requires !s.pass && PhaseOf(s, w) == Detached && w in s.tasks
    ensures ValidRun(s, ops) && Touches(Exec(s, ops), w)
  {
    hide Exec, ValidRun, First, TasksOf;
    NoOps(s);
    ops := Then(s, [], DestroyGl(w));
    if !s.ready {
      if s.instances == 0 {
        ops := Then(s, ops, CountDown(w));
      }
      ops := Then(s, ops, SeeWindows);
    }
    ops := Then(s, ops, BeginPass);
  }

  /** Exactly when a window that is past its unsubscription is out of reach for good: it has no entry
      left in the task map (a broken window is never unsubscribed) and no adder of it sits between
      its test of `ongoing_destruction_` and its enqueue. */
  lemma {:induction false} DetachedWindowSafeIff(s: State, w: Window)
    requires Idle(s) && PhaseOf(s, w) == Detached
    ensures AlwaysSafe(s, w) <==> w !in s.tasks && s.checked[w] == 0
  {
    if Haunted(s, w) {
      var ops := HauntedIsReached(s, w);
    } else {
      forall ops | ValidRun(s, ops) ensures !Touches(Exec(s, ops), w) {
        BuriedStaysBuried(s, ops, w);
      }
    }
  }

  /** The race itself, from the start: the test, then the destruction, then the late enqueue. */
  lemma {:induction false} LateEnqueueBreaksSafety() returns (ops: seq<Op>)
    ensures ValidRun(START, ops) && Touches(Exec(START, ops), 1)
  {
    ops := Then(START, [], Construct(1, true, []));
    ops := Then(START, ops, Check(1));
    ops := Then(START, ops, BeginDestruction(1));
    ops := Then(START, ops, Unsubscribe(1));
    var rest := HauntedIsReached(Exec(START, ops), 1);
    ExecAppend(START, ops, rest);
    ops := ops + rest;
  }

  // ---- When the render thread sees windows

  /** The windows that were counted up and are not yet counted down. */
  function Counted(s: State): set<Window> {
    set w | w in s.setUp && PhaseOf(s, w) != Gone
  }

  /** The windows that were counted down without ever having been counted up. */
  function Uncounted(s: State): set<Window> {
    set w | w in s.phase && w !in s.setUp && s.phase[w] == Gone
  }

  ghost predicate CountIs(s: State) {
    && s.instances == |Counted(s)| - |Uncounted(s)|
    && (forall w :: w in s.setUp ==> w in s.phase && s.phase[w] !in {Absent, Broken})
    && (forall w :: w in s.phase ==> s.phase[w] != Absent && (s.phase[w] in {Live, Closing} ==> w in s.setUp))
  }

  lemma {:induction false} SameCounts(s: State, t: State)
    requires t.setUp == s.setUp && t.phase.Keys == s.phase.Keys
    requires forall w :: w in s.phase ==> (t.phase[w] == Gone <==> s.phase[w] == Gone)
    ensures Counted(t) == Counted(s) && Uncounted(t) == Uncounted(s)
  {
  }

  lemma {:induction false} ConstructCounts(s: State, w: Window, valid: bool, initial: seq<Task>)
    requires CountIs(s) && Enabled(s, Construct(w, valid, initial))
    ensures CountIs(Step(s, Construct(w, valid, initial)))
  {
    hide Queue, First;
    var t := Step(s, Construct(w, valid, initial));
    assert w !in s.phase;
    assert Counted(t) == if valid then Counted(s) + {w} else Counted(s);
    assert Uncounted(t) == Uncounted(s);
  }

  lemma {:induction false} CountDownCounts(s: State, w: Window)
    requires CountIs(s) && Enabled(s, CountDown(w))
    ensures CountIs(Step(s, CountDown(w)))
  {
    var t := Step(s, CountDown(w));
    if w in s.setUp {
      assert Counted(t) == Counted(s) - {w} && w in Counted(s);
      assert Uncounted(t) == Uncounted(s);
    } else {
      assert Counted(t) == Counted(s);
      assert Uncounted(t) == Uncounted(s) + {w} && w !in Uncounted(s);
    }
  }

  lemma {:induction false} MoveCounts(s: State, w: Window, p: Phase)
    requires CountIs(s) && w in s.phase && s.phase[w] != Gone && p in {Closing, Detached, Destroyed}
    requires p == Closing ==> w in s.setUp
    ensures CountIs(s.(phase := s.phase[w := p]))
  {
    SameCounts(s, s.(phase := s.phase[w := p]));
  }

  lemma {:induction false} CountDependsOn(s: State, t: State)
    requires CountIs(s) && t.phase == s.phase && t.setUp == s.setUp && t.instances == s.instances
    ensures CountIs(t)
  {
    SameCounts(s, t);
  }

  lemma {:induction false} QuietCounts(s: State, op: Op)
    requires CountIs(s) && Enabled(s, op)
    requires !op.Construct? && !op.BeginDestruction? && !op.Unsubscribe? && !op.DestroyGl? && !op.CountDown?
    ensures CountIs(Step(s, op))
  {
    hide CountIs, Pushed, Cleared, First, PhaseOf;
    CountDependsOn(s, Step(s, op));
  }

  lemma {:induction false} StepKeepsCount(s: State, op: Op)
    requires CountIs(s) && Enabled(s, op)
    ensures CountIs(Step(s, op))
  {
    var live := op.BeginDestruction? && PhaseOf(s, op.w) == Live;
    assert live ==> op.w in s.setUp;
    hide CountIs, Pushed, Cleared, First;
    match op
    case Construct(w, valid, initial) => ConstructCounts(s, w, valid, initial);
    case BeginDestruction(w) => MoveCounts(s, w, if live then Closing else Detached);
    case Unsubscribe(w) =>
      MoveCounts(s, w, Detached);
      CountDependsOn(s.(phase := s.phase[w := Detached]), Step(s, op));
    case DestroyGl(w) => MoveCounts(s, w, Destroyed);
    case CountDown(w) => CountDownCounts(s, w);
    case _ => QuietCounts(s, op);
  }

  lemma {:induction false} CountAlong(s: State, ops: seq<Op>)
    requires CountIs(s) && ValidRun(s, ops)
    ensures CountIs(Exec(s, ops))
    decreases ops
  {
    if ops != [] {
      StepKeepsCount(s, ops[0]);
      CountAlong(Step(s, ops[0]), ops[1..]);
    }
  }

  /** In every run `instance_counter_` is the windows set up and not yet gone, less the windows that could not be set
      up and are gone: a destructor counts down whether or not the constructor got to counting up. */
  lemma {:induction false} InstancesAre(ops: seq<Op>)
    requires ValidRun(START, ops)
    ensures var r := Exec(START, ops); r.instances == |Counted(r)| - |Uncounted(r)|
  {
    assert Counted(START) == {} && Uncounted(START) == {};
    CountAlong(START, ops);
  }

  /** At the top of its loop the render thread turns round without a pass exactly when these two are as many, windows
      that are live notwithstanding. Without a failed window that is gone, a live window is always seen. */
  lemma {:induction false} NoPassIff(ops: seq<Op>, v: Window)
    requires ValidRun(START, ops)
    ensures var r := Exec(START, ops);
      !r.ready && !r.pass && PhaseOf(r, v) == Live ==>
        && (!Enabled(r, SeeWindows) <==> |Counted(r)| == |Uncounted(r)|)
        && (Uncounted(r) == {} ==> Enabled(r, SeeWindows))
  {
    InstancesAre(ops);
    assert Counted(START) == {} && Uncounted(START) == {};
    CountAlong(START, ops);
    var r := Exec(START, ops);
    if PhaseOf(r, v) == Live {
      assert v in Counted(r);
    }
  }

  /** A run in which it happens: a window that could not be set up comes and goes beside a live one. */
  lemma {:induction false} BrokenWindowStopsRendering() returns (ops: seq<Op>)
    ensures ValidRun(START, ops)
    ensures var r := Exec(START, ops);
      PhaseOf(r, 1) == Live && !r.ready && !r.pass && !Enabled(r, SeeWindows)
  {
    hide Exec, ValidRun, First, TasksOf, Pushed, Cleared;
    NoOps(START);
    ops := Then(START, [], Construct(1, true, []));
    ops := Then(START, ops, Construct(2, false, []));
    ops := Then(START, ops, BeginDestruction(2));
    ops := Then(START, ops, DestroyGl(2));
    ops := Then(START, ops, CountDown(2));
  }

  // ---- Every window is drawn

  /** Windows that are set up and not yet unsubscribed have an entry, be it empty. */
  ghost predicate AllEntered(s: State) {
    forall w :: PhaseOf(s, w) == Live || (PhaseOf(s, w) == Closing && w in s.setUp) ==> w in s.tasks
  }

  lemma {:induction false} StepKeepsEntered(s: State, op: Op)
    requires AllEntered(s) && Enabled(s, op)
    ensures AllEntered(Step(s, op))
  {
    hide First, TasksOf;
    match op
    case Construct(w, valid, initial) =>
    case AddTask(w, t) =>
    case Enqueue(w, t) =>
    case BeginDestruction(w) =>
    case Unsubscribe(w) =>
    case _ =>
  }

  lemma {:induction false} EnteredAlong(s: State, ops: seq<Op>)
    requires AllEntered(s) && ValidRun(s, ops)
    ensures AllEntered(Exec(s, ops))
    decreases ops
  {
    hide AllEntered, Step, Enabled;
    if ops != [] {
      StepKeepsEntered(s, ops[0]);
      EnteredAlong(Step(s, ops[0]), ops[1..]);
    }
  }

  /** In every run a pass gets every live window in its batch, with all the tasks pending for it, whether or not there
      are any; afterwards none is pending, and the window keeps its entry for the next pass. */
  lemma {:induction false} PassTakesAllWindows(ops: seq<Op>, w: Window)
    requires ValidRun(START, ops) && Enabled(Exec(START, ops), BeginPass)
    ensures var s := Exec(START, ops);
      var t := Step(s, BeginPass);
      && TasksOf(t.batch, w) == TasksOf(s.tasks, w) && TasksOf(t.tasks, w) == []
      && (PhaseOf(s, w) == Live ==> w in t.batch && w in t.tasks)
  {
    hide Exec, ValidRun;
    assert AllEntered(START);
    EnteredAlong(START, ops);
    StepKeepsEntered(Exec(START, ops), BeginPass);
  }

  /** The tasks of a window that a pass has run or still has to run. */
  function Due(s: State, w: Window): seq<Task> { TasksOf(s.ran, w) + TasksOf(s.batch, w) }

  lemma {:induction false} StepKeepsDue(s: State, op: Op, w: Window)
    requires Enabled(s, op) && !op.BeginPass?
    ensures Due(Step(s, op), w) == Due(s, w)
  {
    hide First, Pushed, Cleared, PhaseOf;
    match op
    case RunTask(v) => RunKeepsDue(s, v, w);
    case NextWindow(v) => assert TasksOf(s.batch - {v}, w) == TasksOf(s.batch, w);
    case _ => LeavesBatch(s, op);
  }

  lemma {:induction false} LeavesBatch(s: State, op: Op)
    requires Enabled(s, op) && !op.BeginPass? && !op.RunTask? && !op.NextWindow?
    ensures Step(s, op).batch == s.batch && Step(s, op).ran == s.ran
  {
    hide First, Pushed, Cleared, PhaseOf;
    match op
    case Construct(w, valid, initial) =>
    case AddTask(w, t) =>
    case Check(w) =>
    case Enqueue(w, t) =>
    case _ =>
  }

  lemma {:induction false} RunKeepsDue(s: State, v: Window, w: Window)
    requires Enabled(s, RunTask(v))
    ensures Due(Step(s, RunTask(v)), w) == Due(s, w)
  {
    var r := Step(s, RunTask(v));
    assert v in s.batch && s.batch[v] != [];
    hide First;
    if v == w {
      MoveOver(TasksOf(s.ran, w), s.batch[w], []);
      assert TasksOf(r.ran, w) == TasksOf(s.ran, w) + s.batch[w][..1] && TasksOf(r.batch, w) == s.batch[w][1..];
    } else {
      assert TasksOf(r.ran, w) == TasksOf(s.ran, w) && TasksOf(r.batch, w) == TasksOf(s.batch, w);
    }
  }

  predicate NoNewPass(ops: seq<Op>) { forall op :: op in ops ==> !op.BeginPass? }

  lemma {:induction false} DueAlong(s: State, ops: seq<Op>, w: Window)
    requires ValidRun(s, ops) && NoNewPass(ops)
    ensures Due(Exec(s, ops), w) == Due(s, w)
    decreases ops
  {
    hide Due, Step, Enabled;
    if ops != [] {
      assert ops[0] in ops && NoNewPass(ops[1..]);
      StepKeepsDue(s, ops[0], w);
      DueAlong(Step(s, ops[0]), ops[1..], w);
    }
  }

  /** Whatever happens meanwhile, unsubscriptions included, a pass that is over has run all the tasks it took of each
      window, in their order, and no others. */
  lemma {:induction false} PassRunsItsBatch(s: State, ops: seq<Op>, w: Window)
    requires ValidRun(s, ops) && NoNewPass(ops) && Enabled(Exec(s, ops), EndPass)
    ensures TasksOf(Exec(s, ops).ran, w) == TasksOf(s.ran, w) + TasksOf(s.batch, w)
  {
    DueAlong(s, ops, w);
    var r := Exec(s, ops);
    assert TasksOf(r.ran, w) + [] == TasksOf(r.ran, w);
  }

  // ---- Tasks are neither lost nor repeated

  predicate Subscribed(s: State, w: Window) {
    PhaseOf(s, w) in {Absent, Live, Broken, Closing}
  }

  predicate ConservedFor(s: State, w: Window) {
    Subscribed(s, w) ==> Balanced(s, w)
  }

  ghost predicate Conserved(s: State) {
    Idle(s) && forall w :: ConservedFor(s, w)
  }

  lemma {:induction false} StepConserves(s: State, op: Op, w: Window)
    requires Idle(s) && ConservedFor(s, w) && Enabled(s, op)
    ensures Idle(Step(s, op)) && ConservedFor(Step(s, op), w)
  {
    match op
    case Construct(v, valid, ts) => QueueStepConserves(s, op, w);
    case AddTask(v, t) => QueueStepConserves(s, op, w);
    case Enqueue(v, t) => QueueStepConserves(s, op, w);
    case RunTask(v) => if Subscribed(s, w) { RunKeeps(s, v, w); }
    case BeginPass => if Subscribed(s, w) { PopKeeps(s, w); }
    case _ => OtherStepConserves(s, op, w);
  }

  lemma {:induction false} QueueStepConserves(s: State, op: Op, w: Window)
    requires ConservedFor(s, w) && Enabled(s, op) && (op.Construct? || op.AddTask? || op.Enqueue?)
    ensures ConservedFor(Step(s, op), w)
  {
    if Subscribed(s, w) {
      match op
      case Construct(v, _, ts) => PushKeeps(s, v, ts, w);
      case AddTask(v, t) => PushKeeps(s, v, [t], w);
      case Enqueue(v, t) => PushKeeps(s, v, [t], w);
    }
  }

  lemma {:induction false} OtherStepConserves(s: State, op: Op, w: Window)
    requires ConservedFor(s, w) && Enabled(s, op)
    requires op.Check? || op.BeginDestruction? || op.Unsubscribe? || op.DestroyGl? || op.CountDown?
      || op.SeeWindows? || op.NextWindow? || op.EndPass?
    ensures ConservedFor(Step(s, op), w)
  {
    if Subscribed(Step(s, op), w) {
      assert Balanced(s, w);
    }
  }

  predicate Balanced(s: State, w: Window) {
    TasksOf(s.added, w) == TasksOf(s.ran, w) + TasksOf(s.batch, w) + TasksOf(s.tasks, w)
  }

  lemma {:induction false} PushKeeps(s: State, v: Window, ts: seq<Task>, w: Window)
    requires Balanced(s, w)
    ensures Balanced(Queue(s, v, ts), w)
  {
    PushedIs(s.added, v, ts, w);
    PushedIs(s.tasks, v, ts, w);
    hide TasksOf, Pushed;
    if v == w {
      var ran, current, pending := TasksOf(s.ran, w), TasksOf(s.batch, w), TasksOf(s.tasks, w);
      assert ran + current + pending + ts == ran + current + (pending + ts);
    }
  }

  lemma {:induction false} PushedIs(m: Tasks, v: Window, ts: seq<Task>, w: Window)
    ensures TasksOf(Pushed(m, v, ts), w) == if v == w then TasksOf(m, w) + ts else TasksOf(m, w)
  {
  }

  lemma {:induction false} RunKeeps(s: State, v: Window, w: Window)
    requires Balanced(s, w) && Enabled(s, RunTask(v))
    ensures Balanced(Step(s, RunTask(v)), w)
  {
    if v == w {
      var r := Step(s, RunTask(v));
      MoveOver(TasksOf(s.ran, w), s.batch[w], TasksOf(s.tasks, w));
      assert TasksOf(r.ran, w) == TasksOf(s.ran, w) + s.batch[w][..1];
      assert TasksOf(r.batch, w) == s.batch[w][1..];
    }
  }

  lemma {:induction false} MoveOver(ran: seq<Task>, current: seq<Task>, pending: seq<Task>)
    requires current != []
    ensures ran + current + pending == (ran + current[..1]) + current[1..] + pending
  {
    assert current == current[..1] + current[1..];
  }

  lemma {:induction false} PopKeeps(s: State, w: Window)
    requires Balanced(s, w) && Idle(s) && Enabled(s, BeginPass)
    ensures Balanced(Step(s, BeginPass), w)
  {
  }

  /** For every window up to its unsubscription, in any run, torn enqueues included: the tasks ever
      added are the tasks run, then the rest of the current batch, then those still pending. */
  lemma {:induction false} TasksRunOnceInOrder(s: State, ops: seq<Op>, w: Window)
    requires Conserved(s) && ValidRun(s, ops)
    ensures Conserved(Exec(s, ops))
    ensures var r := Exec(s, ops); Subscribed(r, w) ==>
      TasksOf(r.added, w) == TasksOf(r.ran, w) + TasksOf(r.batch, w) + TasksOf(r.tasks, w)
    decreases ops
  {
    if ops == [] {
      assert ConservedFor(s, w);
    } else {
      forall v ensures ConservedFor(Step(s, ops[0]), v) && Idle(Step(s, ops[0])) {
        StepConserves(s, ops[0], v);
      }
      assert Idle(Step(s, ops[0])) by { StepConserves(s, ops[0], w); }
      TasksRunOnceInOrder(Step(s, ops[0]), ops[1..], w);
    }
  }

  // ---- The renderer object

  predicate AllSucceed(ts: seq<Task>, succeeds: Task -> bool) {
    forall t :: t in ts ==> succeeds(t)
  }

  lemma {:induction false} FirstIsUnique(m: Tasks, v: Window, w: Window)
    requires First(m, v) && First(m, w)
    ensures v == w
  {
  }

  function Tagged(w: Window, ts: seq<Task>): seq<(Window, Task)> {
    seq(|ts|, i requires 0 <= i < |ts| => (w, ts[i]))
  }

  /** A whole batch in the order a pass runs it: windows in key order, tasks in queue order. */
  ghost function RunOrder(m: Tasks): seq<(Window, Task)>
    decreases m.Keys
  {
    if m == map[] then []
    else
      var w := Least(m);
      Tagged(w, m[w]) + RunOrder(m - {w})
  }

  /** The windows a pass draws: those without a failed task. */
  ghost function DrawnWindows(m: Tasks, succeeds: Task -> bool): seq<Window>
    decreases m.Keys
  {
    if m == map[] then []
    else
      var w := Least(m);
      (if AllSucceed(m[w], succeeds) then [w] else []) + DrawnWindows(m - {w}, succeeds)
  }

  lemma {:induction false} DrawnSucceed(m: Tasks, succeeds: Task -> bool)
    ensures var drawn := DrawnWindows(m, succeeds);
      && (forall w :: w in drawn <==> w in m && AllSucceed(m[w], succeeds))
      && (forall i, j :: 0 <= i < j < |drawn| ==> drawn[i] < drawn[j])
    decreases m.Keys
  {
    hide AllSucceed;
    if m != map[] {
      var w := Least(m);
      var rest := m - {w};
      var later := DrawnWindows(rest, succeeds);
      DrawnSucceed(rest, succeeds);
      assert forall v :: v in rest ==> w < v;
      forall i | 0 <= i < |later| ensures w < later[i] {
        assert later[i] in later;
      }
    }
  }

  /** A pass draws the windows all of whose tasks succeed, in key order. */
  lemma {:induction false} DrawnInOrder(m: Tasks, succeeds: Task -> bool)
    ensures var drawn := DrawnWindows(m, succeeds);
      && (forall w :: w in drawn <==> w in m && forall t :: t in m[w] ==> succeeds(t))
      && (forall i, j :: 0 <= i < j < |drawn| ==> drawn[i] < drawn[j])
  {
    hide DrawnWindows;
    DrawnSucceed(m, succeeds);
    assert forall w :: w in m ==> (AllSucceed(m[w], succeeds) <==> forall t :: t in m[w] ==> succeeds(t));
  }

  /** The tasks of one window in a log, in the order of the log. */
  function TasksIn(log: seq<(Window, Task)>, w: Window): seq<Task> {
    if log == [] then []
    else
      var n := |log| - 1;
      TasksIn(log[..n], w) + if log[n].0 == w then [log[n].1] else []
  }

  lemma {:induction false} TasksInSum(a: seq<(Window, Task)>, b: seq<(Window, Task)>, w: Window)
    ensures TasksIn(a + b, w) == TasksIn(a, w) + TasksIn(b, w)
    decreases |b|
  {
    if b == [] {
      assert a + b == a;
    } else {
      var n := |b| - 1;
      assert (a + b)[..|a + b| - 1] == a + b[..n];
      TasksInSum(a, b[..n], w);
    }
  }

  lemma {:induction false} TasksInTagged(v: Window, ts: seq<Task>, w: Window)
    ensures TasksIn(Tagged(v, ts), w) == if w == v then ts else []
    decreases |ts|
  {
    if ts != [] {
      var n := |ts| - 1;
      assert Tagged(v, ts)[..n] == Tagged(v, ts[..n]);
      TasksInTagged(v, ts[..n], w);
    }
  }

  /** What a pass over a batch has to log: for each window exactly its tasks, in the order of the queue, for no window
      any other, and windows one after the other in key order. */
  ghost predicate LogsBatch(ran: seq<(Window, Task)>, batch: Tasks) {
    && (forall w :: TasksIn(ran, w) == if w in batch then batch[w] else [])
    && (forall e :: e in ran ==> e.0 in batch)
    && (forall i, j :: 0 <= i < j < |ran| ==> ran[i].0 <= ran[j].0)
  }

  lemma {:induction false} RunOrderLogs(m: Tasks)
    ensures LogsBatch(RunOrder(m), m)
    decreases m.Keys
  {
    hide TasksIn, RunOrder, Tagged;
    if m == map[] {
      EmptyPass(_ => true);
      forall w ensures TasksIn([], w) == [] {
        TasksInTagged(w, [], w);
        TaggedAre(w, []);
      }
    } else {
      var w := Least(m);
      var first, rest := Tagged(w, m[w]), RunOrder(m - {w});
      RunOrderLogs(m - {w});
      PassStep(m, _ => true);
      TaggedAre(w, m[w]);
      forall v ensures TasksIn(RunOrder(m), v) == if v in m then m[v] else [] {
        TasksInTagged(w, m[w], v);
        TasksInSum(first, rest, v);
      }
      WindowsInOrder(first, rest, w);
    }
  }

  lemma {:induction false} WindowsInOrder(first: seq<(Window, Task)>, rest: seq<(Window, Task)>, w: Window)
    requires forall e :: e in first ==> e.0 == w
    requires forall e :: e in rest ==> w < e.0
    requires forall i, j :: 0 <= i < j < |rest| ==> rest[i].0 <= rest[j].0
    ensures forall i, j :: 0 <= i < j < |first + rest| ==> (first + rest)[i].0 <= (first + rest)[j].0
  {
    forall i, j | 0 <= i < j < |first + rest| ensures (first + rest)[i].0 <= (first + rest)[j].0 {
      assert i < |first| ==> first[i] in first;
      assert j >= |first| ==> rest[j - |first|] in rest;
      assert j < |first| ==> first[j] in first;
    }
  }

  lemma {:induction false} TaggedAre(w: Window, ts: seq<Task>)
    ensures forall e :: e in Tagged(w, ts) ==> e.0 == w
    ensures ts == [] ==> Tagged(w, ts) == []
  {
  }

  /** The windows left after the first one. */
  lemma {:induction false} PassStep(m: Tasks, succeeds: Task -> bool)
    requires m != map[]
    ensures var w := Least(m);
      && RunOrder(m) == Tagged(w, m[w]) + RunOrder(m - {w})
      && DrawnWindows(m, succeeds) ==
        (if AllSucceed(m[w], succeeds) then [w] else []) + DrawnWindows(m - {w}, succeeds)
  {
    hide AllSucceed, Tagged;
  }

  lemma {:induction false} EmptyPass(succeeds: Task -> bool)
    ensures RunOrder(map[]) == [] && DrawnWindows(map[], succeeds) == []
  {
  }

  class Renderer {
    var tasks: Tasks
    var log: seq<(Window, Task)>  // the tasks run so far

    method AddRenderingTask(window: Window, task: Task)
      modifies `tasks
      ensures tasks == Pushed(old(tasks), window, [task])
    {
      if window !in tasks {
        tasks := tasks[window := []];
      }
      tasks := tasks[window := tasks[window] + [task]];
    }

    method UnsubscribeFromRenderLoop(window: Window)
      modifies `tasks
      ensures tasks == old(tasks) - {window}
    {
      if window in tasks {
        tasks := tasks - {window};
      }
    }

    method PopRenderingTasks() returns (ret: Tasks)
      modifies `tasks
      ensures ret == old(tasks) && tasks == Cleared(old(tasks))
    {
      ret := tasks;
      var left := tasks.Keys;
      while left != {}
        invariant left <= tasks.Keys == ret.Keys
        invariant forall w :: w in ret ==> tasks[w] == if w in left then ret[w] else []
        decreases left
      {
        var w :| w in left;
        tasks := tasks[w := []];
        left := left - {w};
      }
    }

    /** The loops over the popped batch: windows in key order, every task of a window run even when
        one before it failed; only windows without a failed task are drawn. */
    method RenderPass(batch: Tasks, succeeds: Task -> bool) returns (drawn: seq<Window>)
      modifies `log
      ensures old(log) <= log && LogsBatch(log[|old(log)|..], batch)
      ensures drawn == DrawnWindows(batch, succeeds)
    {
      hide RunOrder, DrawnWindows, AllSucceed, Tagged, LogsBatch;
      drawn := [];
      var left := batch;
      while left != map[]
        invariant log + RunOrder(left) == old(log) + RunOrder(batch)
        invariant drawn + DrawnWindows(left, succeeds) == DrawnWindows(batch, succeeds)
        decreases left.Keys
      {
        var w := FirstWindow(left);
        FirstIsUnique(left, w, Least(left));
        PassStep(left, succeeds);
        var ok := RunTasks(w, left[w], succeeds);
        left := left - {w};
        if ok {
          drawn := drawn + [w];
        }
      }
      EmptyPass(succeeds);
      RunOrderLogs(batch);
      assert log == old(log) + RunOrder(batch);
      assert log[|old(log)|..] == RunOrder(batch);
    }

    method RunTasks(window: Window, tasks: seq<Task>, succeeds: Task -> bool) returns (ok: bool)
      modifies `log
      ensures log == old(log) + Tagged(window, tasks)
      ensures ok <==> AllSucceed(tasks, succeeds)
    {
      ok := true;
      for k := 0 to |tasks|
        invariant log == old(log) + Tagged(window, tasks)[..k]
        invariant ok <==> forall i :: 0 <= i < k ==> succeeds(tasks[i])
      {
        log := log + [(window, tasks[k])];
        if !succeeds(tasks[k]) {
          ok := false;
        }
      }
    }

    method FirstWindow(m: Tasks) returns (w: Window)
      requires m != map[]
      ensures First(m, w)
    {
      w :| w in m;
      var left := m.Keys;
      while left != {}
        invariant w in m && left <= m.Keys
        invariant forall v :: v in m && v !in left ==> w <= v
        decreases left
      {
        var v :| v in left;
        if v < w {
          w := v;
        }
        left := left - {v};
      }
    }
  }
}
