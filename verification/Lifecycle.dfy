/** The life of a session under concurrent stream, watch, diff and cancel callers,
    one shared-memory access at a time. */
module Lifecycle {
  import opened Types
  import opened Graphs

  datatype Initial = Idle | Running | Finished

  datatype Warm = Warm(graph: Graph, errors: seq<EvalError>, completed: bool, error: Option<string>)

  /** What a task has left to do.  `TrySetError` gives up when the state is locked. */
  datatype Op =
    | Publish(events: seq<Event>)
    | SetError(message: string)
    | TrySetError(message: string)
    | NotifyAll
    | FinishInitial

  /** Where a watcher is in its wait.  `seen` is the number of notifications sent
      before it registered: only later ones wake it. */
  datatype WaitPc = Check | Register | Read(seen: nat) | Parked(seen: nat)

  datatype Task =
    | Evaluate(streamed: seq<Event>, watch: bool)
    | Winding(ops: seq<Op>, thenWatch: bool)
    | Wait(pc: WaitPc)
    | Watching
    | Rerun(recorded: seq<Event>)
    | Ended

  /** `evaluations` counts the initial evaluations that started, `excuses` the
      calls outside a runtime that managed to leave an error, and `completeRuns`
      the logs of all evaluations that ran to their end. */
  datatype Session = Session(
    initial: Initial,
    cancel: bool,
    calls: nat,
    warm: Warm,
    tasks: seq<Task>,
    evaluations: nat,
    excuses: nat,
    completeRuns: set<seq<Event>>)

  const OPEN := Session(Idle, false, 0, Warm(map[], [], false, None), [], 0, 0, {})

  const NO_RUNTIME := "Session streams require an active Tokio runtime"

  datatype End = Complete | Interrupt | Break(message: string)

  datatype Action =
    | OpenStream(runtime: bool)
    | OpenWatch(runtime: bool)
    | Emit(task: nat, event: Event)
    | EndEvaluation(task: nat, end: End)
    | Proceed(task: nat, locked: bool)
    | Advance(task: nat)
    | Cancel
    | StartRerun
    | EndRerun(task: nat, end: End)

  predicate Can(s: Session, a: Action) {
    match a
    case OpenStream(_) => true
    case OpenWatch(_) => true
    case Emit(i, _) => i < |s.tasks| && (s.tasks[i].Evaluate? || s.tasks[i].Rerun?)
    case EndEvaluation(i, end) => i < |s.tasks| && s.tasks[i].Evaluate? && (end.Interrupt? ==> s.cancel)
    case Proceed(i, _) => i < |s.tasks| && s.tasks[i].Winding? && s.tasks[i].ops != []
    case Advance(i) =>
      i < |s.tasks| && s.tasks[i].Wait? && (s.tasks[i].pc.Parked? ==> s.tasks[i].pc.seen < s.calls)
    case Cancel => true
    case StartRerun => s.warm.completed
    case EndRerun(i, end) => i < |s.tasks| && s.tasks[i].Rerun? && (end.Interrupt? ==> s.cancel)
  }

  const NO_RUNTIME_OPS := [TrySetError(NO_RUNTIME), FinishInitial, NotifyAll]

  function Windup(streamed: seq<Event>, end: End): seq<Op> {
    match end
    case Complete => [Publish(streamed), NotifyAll, FinishInitial]
    case Interrupt => [NotifyAll, SetError("evaluation was cancelled"), NotifyAll, FinishInitial]
    case Break(m) => [SetError(m), NotifyAll, SetError(m), NotifyAll, FinishInitial]
  }

  function Published(events: seq<Event>): Warm {
    Warm(Recorded(events), RecordedErrors(events), true, None)
  }

  function WithTask(s: Session, i: nat, t: Task): Session
    requires i < |s.tasks|
  {
    s.(tasks := s.tasks[i := t])
  }

  function NewTask(s: Session, t: Task): Session {
    s.(tasks := s.tasks + [t])
  }

  /** `start_initial_evaluation`, then the spawn. */
  function Open(s: Session, runtime: bool, watch: bool): Session {
    var started := s.initial.Idle?;
    var claimed := if started then s.(initial := Running) else s;
    if !runtime then
      if started || watch then NewTask(claimed, Winding(NO_RUNTIME_OPS, false)) else claimed
    else if started then
      NewTask(claimed.(evaluations := s.evaluations + 1), Evaluate([], watch))
    else if watch then
      NewTask(claimed, Wait(Check))
    else
      claimed
  }

  function Perform(s: Session, op: Op, locked: bool): Session {
    match op
    case Publish(events) => s.(warm := Published(events))
    case SetError(m) => s.(warm := s.warm.(error := Some(m)))
    case TrySetError(m) =>
      if locked then s else s.(warm := s.warm.(error := Some(m)), excuses := s.excuses + 1)
    case NotifyAll => s.(calls := s.calls + 1)
    case FinishInitial => s.(initial := Finished)
  }

  /** A task that has wound up either goes on to watch or is over. */
  function Wound(ops: seq<Op>, thenWatch: bool): Task {
    if ops != [] then Winding(ops, thenWatch) else if thenWatch then Wait(Check) else Ended
  }

  function Waited(s: Session, pc: WaitPc): Task {
    match pc
    case Check => if s.cancel then Ended else Wait(Register)
    case Register => Wait(Read(s.calls))
    case Read(seen) =>
      if s.warm.completed then Watching else if s.warm.error.Some? then Ended else Wait(Parked(seen))
    case Parked(_) => Wait(Check)
  }

  function Step(s: Session, a: Action): Session
    requires Can(s, a)
  {
    match a
    case OpenStream(runtime) => Open(s, runtime, false)
    case OpenWatch(runtime) => Open(s, runtime, true)
    case Emit(i, e) =>
      WithTask(s, i, if s.tasks[i].Evaluate? then s.tasks[i].(streamed := s.tasks[i].streamed + [e])
                     else Rerun(s.tasks[i].recorded + [e]))
    case EndEvaluation(i, end) =>
      var t := s.tasks[i];
      WithTask(s, i, Winding(Windup(t.streamed, end), t.watch && end.Complete?))
      .(completeRuns := s.completeRuns + if end.Complete? then {t.streamed} else {})
    case Proceed(i, locked) =>
      var t := s.tasks[i];
      WithTask(Perform(s, t.ops[0], locked), i, Wound(t.ops[1..], t.thenWatch))
    case Advance(i) => WithTask(s, i, Waited(s, s.tasks[i].pc))
    case Cancel => NewTask(s.(cancel := true), Winding([NotifyAll], false))
    case StartRerun => NewTask(s, Rerun([]))
    case EndRerun(i, end) =>
      var t := s.tasks[i];
      if end.Complete? then
        WithTask(s, i, Ended).(warm := Published(t.recorded), completeRuns := s.completeRuns + {t.recorded})
      else WithTask(s, i, Ended)
  }

  // ---- What a waiting watcher relies on ------------------------------------

  /** The initial evaluation has an outcome that a reader can see. */
  predicate Told(w: Warm) {
    w.completed || w.error.Some?
  }

  predicate Writes(op: Op) {
    op.Publish? || op.SetError?
  }

  /** Some outcome will be written and then announced. */
  predicate Answers(ops: seq<Op>) {
    ops != [] && ((Writes(ops[0]) && NotifyAll in ops[1..]) || Answers(ops[1..]))
  }

  /** No write goes unannounced. */
  predicate Announces(ops: seq<Op>) {
    ops != [] ==> (Writes(ops[0]) || ops[0].TrySetError? ==> NotifyAll in ops[1..]) && Announces(ops[1..])
  }

  predicate WillAnswer(t: Task) {
    t.Evaluate? || (t.Winding? && Answers(t.ops))
  }

  predicate WillNotify(t: Task) {
    t.Winding? && NotifyAll in t.ops
  }

  ghost predicate SomeAnswer(s: Session) {
    exists i :: 0 <= i < |s.tasks| && WillAnswer(s.tasks[i])
  }

  ghost predicate SomeNotify(s: Session) {
    exists i :: 0 <= i < |s.tasks| && WillNotify(s.tasks[i])
  }

  /** Registered, and not notified since. */
  ghost predicate Asleep(s: Session, i: nat) {
    i < |s.tasks| && s.tasks[i] == Wait(Parked(s.calls))
  }

  /** The initial evaluation was claimed, but never started, and nobody managed to
      leave an error either. */
  predicate Unexcused(s: Session) {
    !s.initial.Idle? && s.evaluations == 0 && s.excuses == 0
  }

  ghost predicate OpsOk(s: Session, ops: seq<Op>) {
    && Announces(ops)
    && (forall k :: 0 <= k < |ops| && ops[k].Publish? ==> ops[k].events in s.completeRuns)
    && (forall k :: 0 <= k < |ops| && Writes(ops[k]) ==> s.evaluations > 0)
    && (forall k :: 0 <= k < |ops| && !ops[k].NotifyAll? ==> !s.initial.Idle?)
  }

  ghost predicate TaskOk(s: Session, t: Task) {
    match t
    case Evaluate(_, _) => s.evaluations > 0
    case Winding(ops, watch) => OpsOk(s, ops) && (watch ==> !s.initial.Idle?)
    case Wait(pc) => !s.initial.Idle? && (pc.Read? || pc.Parked? ==> pc.seen <= s.calls)
    case Watching => s.warm.completed
    case Rerun(_) => s.warm.completed
    case Ended => true
  }

  /** Readers see nothing before a run is complete, and then a complete run. */
  ghost predicate VisibleOk(s: Session) {
    if s.warm.completed then
      exists run :: run in s.completeRuns
                    && s.warm.graph == Recorded(run) && s.warm.errors == RecordedErrors(run)
    else s.warm.graph == map[] && s.warm.errors == []
  }

  ghost predicate Counts(s: Session) {
    && s.evaluations <= 1
    && (s.initial.Idle? ==> s.evaluations == 0 && s.excuses == 0)
    && (s.excuses > 0 ==> Told(s.warm))
    && (Told(s.warm) ==> s.evaluations > 0 || s.excuses > 0)
  }

  ghost predicate NoSleeper(s: Session) {
    forall i :: 0 <= i < |s.tasks| ==> s.tasks[i] != Wait(Parked(s.calls))
  }

  ghost predicate Waking(s: Session) {
    && (s.evaluations > 0 && !Told(s.warm) ==> SomeAnswer(s))
    && (Told(s.warm) ==> NoSleeper(s) || SomeNotify(s))
  }

  ghost predicate Inv(s: Session) {
    && (forall i :: 0 <= i < |s.tasks| ==> TaskOk(s, s.tasks[i]))
    && VisibleOk(s) && Counts(s) && Waking(s)
  }

  /** `t` still holds what an earlier state promised it. */
  ghost predicate Grown(s: Session, t: Session) {
    && t.evaluations >= s.evaluations && t.calls >= s.calls && s.completeRuns <= t.completeRuns
    && (t.initial.Idle? ==> s.initial.Idle?) && (s.warm.completed ==> t.warm.completed)
  }

  lemma {:induction false} TaskStays(s: Session, t: Session, task: Task)
    requires Grown(s, t) && TaskOk(s, task)
    ensures TaskOk(t, task)
  {
  }

  lemma {:induction false} TasksStay(s: Session, t: Session, i: nat, task: Task)
    requires Inv(s) && Grown(s, t) && i <= |s.tasks| && TaskOk(t, task)
    requires t.tasks == if i < |s.tasks| then s.tasks[i := task] else s.tasks + [task]
    ensures forall j :: 0 <= j < |t.tasks| ==> TaskOk(t, t.tasks[j])
  {
    forall j | 0 <= j < |t.tasks| ensures TaskOk(t, t.tasks[j]) {
      if j != i {
        TaskStays(s, t, s.tasks[j]);
      }
    }
  }

  /** The same warm state and notifications; the changed task promises at least what
      it did and does not fall asleep on a told state. */
  lemma {:induction false} WakingStays(s: Session, t: Session, i: nat, task: Task)
    requires Waking(s) && i <= |s.tasks| && Told(s.warm) == Told(t.warm) && s.calls == t.calls
    requires t.tasks == if i < |s.tasks| then s.tasks[i := task] else s.tasks + [task]
    requires t.evaluations > s.evaluations ==> WillAnswer(task)
    requires i < |s.tasks| && WillAnswer(s.tasks[i]) && !Told(s.warm) ==> WillAnswer(task)
    requires i < |s.tasks| && WillNotify(s.tasks[i]) && Told(s.warm) ==> WillNotify(task)
    requires Told(s.warm) ==> task != Wait(Parked(s.calls))
    ensures Waking(t)
  {
    if t.evaluations > 0 && !Told(t.warm) {
      if t.evaluations > s.evaluations {
        assert t.tasks[i] == task;
      } else {
        var j :| 0 <= j < |s.tasks| && WillAnswer(s.tasks[j]);
        assert WillAnswer(t.tasks[j]);
      }
    }
    if Told(t.warm) && SomeNotify(s) {
      var j :| 0 <= j < |s.tasks| && WillNotify(s.tasks[j]);
      assert WillNotify(t.tasks[j]);
    }
  }

  lemma {:induction false} WindupOk(s: Session, streamed: seq<Event>, end: End)
    requires s.evaluations > 0 && !s.initial.Idle? && (end.Complete? ==> streamed in s.completeRuns)
    ensures OpsOk(s, Windup(streamed, end)) && Answers(Windup(streamed, end))
  {
    WindupAnnounces(streamed, end);
  }

  lemma {:induction false} WindupAnnounces(streamed: seq<Event>, end: End)
    ensures Announces(Windup(streamed, end)) && Answers(Windup(streamed, end))
  {
    var last := [NotifyAll, FinishInitial];
    assert last[1..] == [FinishInitial] && Announces([FinishInitial]) && Announces(last);
    match end {
      case Complete =>
        assert Windup(streamed, end)[1..] == last;
      case Interrupt =>
        var write := SetError("evaluation was cancelled");
        OneMore(write, last);
        assert Windup(streamed, end) == [NotifyAll] + ([write] + last);
        assert Windup(streamed, end)[1..] == [write] + last;
      case Break(m) =>
        OneMore(SetError(m), last);
        var again := [NotifyAll] + ([SetError(m)] + last);
        assert again[1..] == [SetError(m)] + last;
        assert Windup(streamed, end) == [SetError(m)] + again;
        assert Windup(streamed, end)[1..] == again;
    }
  }

  lemma {:induction false} OneMore(write: Op, rest: seq<Op>)
    requires Writes(write) && Announces(rest) && NotifyAll in rest
    ensures Announces([write] + rest) && Answers([write] + rest)
  {
    assert ([write] + rest)[1..] == rest;
  }

  lemma {:induction false} NoRuntimeOpsOk(s: Session)
    requires !s.initial.Idle?
    ensures OpsOk(s, NO_RUNTIME_OPS)
  {
    assert NO_RUNTIME_OPS[1..] == [FinishInitial, NotifyAll];
    assert [FinishInitial, NotifyAll][1..] == [NotifyAll];
  }

  lemma {:induction false} OpenKeeps(s: Session, runtime: bool, watch: bool)
    requires Inv(s)
    ensures Inv(Open(s, runtime, watch))
  {
    var t := Open(s, runtime, watch);
    if t.tasks != s.tasks {
      var task := t.tasks[|s.tasks|];
      NoRuntimeOpsOk(t);
      TasksStay(s, t, |s.tasks|, task);
      WakingStays(s, t, |s.tasks|, task);
    }
  }

  lemma {:induction false} EndEvaluationKeeps(s: Session, i: nat, end: End)
    requires Inv(s) && Can(s, EndEvaluation(i, end))
    ensures Inv(Step(s, EndEvaluation(i, end)))
  {
    var t := Step(s, EndEvaluation(i, end));
    assert TaskOk(s, s.tasks[i]);
    WindupOk(t, s.tasks[i].streamed, end);
    TasksStay(s, t, i, t.tasks[i]);
    WakingStays(s, t, i, t.tasks[i]);
  }

  lemma {:induction false} NotifyKeeps(s: Session, i: nat)
    requires Inv(s) && Can(s, Proceed(i, false)) && s.tasks[i].ops[0].NotifyAll?
    ensures Inv(Step(s, Proceed(i, false)))
  {
    var t := Step(s, Proceed(i, false));
    var ops := s.tasks[i].ops;
    assert TaskOk(s, s.tasks[i]);
    TasksStay(s, t, i, t.tasks[i]);
    forall j | 0 <= j < |t.tasks| ensures t.tasks[j] != Wait(Parked(t.calls)) {
      if j != i {
        assert TaskOk(s, s.tasks[j]);
      }
    }
    if t.evaluations > 0 && !Told(t.warm) {
      var j :| 0 <= j < |s.tasks| && WillAnswer(s.tasks[j]);
      AnswerLater(s.tasks[i]);
      assert WillAnswer(t.tasks[j]);
    }
  }

  lemma {:induction false} AnswerLater(t: Task)
    requires t.Winding? && t.ops != [] && !Writes(t.ops[0])
    ensures WillAnswer(t) ==> WillAnswer(Wound(t.ops[1..], t.thenWatch))
  {
    var rest := t.ops[1..];
    if Answers(t.ops) {
      assert Answers(rest);
      assert Wound(rest, t.thenWatch).ops == rest;
    }
  }

  lemma {:induction false} WriteKeeps(s: Session, i: nat, locked: bool)
    requires Inv(s) && Can(s, Proceed(i, locked))
    requires var op := s.tasks[i].ops[0]; Writes(op) || (op.TrySetError? && !locked)
    ensures Inv(Step(s, Proceed(i, locked)))
  {
    var t := Step(s, Proceed(i, locked));
    var ops := s.tasks[i].ops;
    assert TaskOk(s, s.tasks[i]);
    assert Announces(ops[1..]);
    TasksStay(s, t, i, t.tasks[i]);
    assert WillNotify(t.tasks[i]);
    if ops[0].Publish? {
      assert ops[0].events in t.completeRuns;
    }
  }

  lemma {:induction false} OtherOpKeeps(s: Session, i: nat, locked: bool)
    requires Inv(s) && Can(s, Proceed(i, locked))
    requires var op := s.tasks[i].ops[0]; op.FinishInitial? || (op.TrySetError? && locked)
    ensures Inv(Step(s, Proceed(i, locked)))
  {
    var t := Step(s, Proceed(i, locked));
    assert TaskOk(s, s.tasks[i]);
    TasksStay(s, t, i, t.tasks[i]);
    AnswerLater(s.tasks[i]);
    WakingStays(s, t, i, t.tasks[i]);
  }

  lemma {:induction false} AdvanceKeeps(s: Session, i: nat)
    requires Inv(s) && Can(s, Advance(i))
    ensures Inv(Step(s, Advance(i)))
  {
    var t := Step(s, Advance(i));
    assert TaskOk(s, s.tasks[i]);
    TasksStay(s, t, i, t.tasks[i]);
    WakingStays(s, t, i, t.tasks[i]);
  }

  lemma {:induction false} RerunKeeps(s: Session, a: Action)
    requires Inv(s) && Can(s, a) && (a.EndRerun? || a.StartRerun? || a.Emit? || a.Cancel?)
    ensures Inv(Step(s, a))
  {
    var t := Step(s, a);
    var i := if a.StartRerun? || a.Cancel? then |s.tasks| else a.task;
    assert i < |s.tasks| ==> TaskOk(s, s.tasks[i]);
    TasksStay(s, t, i, t.tasks[i]);
    WakingStays(s, t, i, t.tasks[i]);
    if a.EndRerun? && a.end.Complete? {
      assert s.tasks[i].recorded in t.completeRuns;
    }
  }

  lemma {:induction false} StepKeeps(s: Session, a: Action)
    requires Inv(s) && Can(s, a)
    ensures Inv(Step(s, a))
  {
    match a {
      case OpenStream(runtime) => OpenKeeps(s, runtime, false);
      case OpenWatch(runtime) => OpenKeeps(s, runtime, true);
      case EndEvaluation(i, end) => EndEvaluationKeeps(s, i, end);
      case Proceed(i, locked) =>
        var op := s.tasks[i].ops[0];
        if op.NotifyAll? {
          NotifyKeeps(s, i);
        } else if Writes(op) || (op.TrySetError? && !locked) {
          WriteKeeps(s, i, locked);
        } else {
          OtherOpKeeps(s, i, locked);
        }
      case Advance(i) => AdvanceKeeps(s, i);
      case _ => RerunKeeps(s, a);
    }
  }

  // ---- Whole histories -----------------------------------------------------

  ghost predicate Legal(s: Session, actions: seq<Action>)
    decreases |actions|
  {
    actions != [] ==> Can(s, actions[0]) && Legal(Step(s, actions[0]), actions[1..])
  }

  ghost function After(s: Session, actions: seq<Action>): Session
    requires Legal(s, actions)
    decreases |actions|
  {
    if actions == [] then s else After(Step(s, actions[0]), actions[1..])
  }

  lemma {:induction false} RunKeeps(s: Session, actions: seq<Action>)
    requires Inv(s) && Legal(s, actions)
    ensures Inv(After(s, actions))
    decreases |actions|
  {
    if actions != [] {
      StepKeeps(s, actions[0]);
      RunKeeps(Step(s, actions[0]), actions[1..]);
    }
  }

  /** However streams and watches are opened, at most one initial evaluation ever
      starts. */
  lemma {:induction false} OneInitialEvaluation(actions: seq<Action>)
    requires Legal(OPEN, actions)
    ensures After(OPEN, actions).evaluations <= 1
  {
    RunKeeps(OPEN, actions);
  }

  /** The graph a query reads is empty until an evaluation completes and from then
      on the record of an evaluation that ran to its end: a cancelled or failed
      run's partial graph never shows. */
  lemma {:induction false} OnlyCompleteRunsShow(actions: seq<Action>)
    requires Legal(OPEN, actions)
    ensures var s := After(OPEN, actions);
      if s.warm.completed then
        exists run :: run in s.completeRuns
                      && s.warm.graph == Recorded(run) && s.warm.errors == RecordedErrors(run)
      else s.warm.graph == map[] && s.warm.errors == []
  {
    RunKeeps(OPEN, actions);
  }

  lemma {:induction false} CompletedSticks(s: Session, actions: seq<Action>)
    requires Legal(s, actions) && s.warm.completed
    ensures After(s, actions).warm.completed
    decreases |actions|
  {
    if actions != [] {
      CompletedSticks(Step(s, actions[0]), actions[1..]);
    }
  }

  /** No wakeup is lost.  While a watcher sleeps: if an outcome is visible, some task
      has yet to notify; if none is, some task will write one and then notify,
      unless the initial evaluation never started and no error could be left. */
  lemma {:induction false} NoLostWakeup(actions: seq<Action>, i: nat)
    requires Legal(OPEN, actions) && Asleep(After(OPEN, actions), i)
    ensures var s := After(OPEN, actions);
      if Told(s.warm) then SomeNotify(s) else SomeAnswer(s) || Unexcused(s)
  {
    RunKeeps(OPEN, actions);
    var s := After(OPEN, actions);
    assert TaskOk(s, s.tasks[i]);
  }

  /** Every task that still has to act is a watcher. */
  predicate OnlyWatchers(s: Session) {
    forall i :: 0 <= i < |s.tasks| ==> !s.tasks[i].Evaluate? && (s.tasks[i].Winding? ==> s.tasks[i].ops == [])
  }

  /** Once all evaluations and calls are over, an opened session has a visible
      outcome, and no watcher sleeps, if and only if an evaluation was started or
      an error was left in its place. */
  lemma {:induction false} QuietSessionIsTold(actions: seq<Action>, i: nat)
    requires Legal(OPEN, actions) && OnlyWatchers(After(OPEN, actions)) && !After(OPEN, actions).initial.Idle?
    ensures var s := After(OPEN, actions);
      && (Told(s.warm) <==> !Unexcused(s))
      && (Asleep(s, i) ==> Unexcused(s))
  {
    RunKeeps(OPEN, actions);
    var s := After(OPEN, actions);
    forall j | 0 <= j < |s.tasks| ensures !WillAnswer(s.tasks[j]) && !WillNotify(s.tasks[j]) {
      assert !s.tasks[j].Evaluate?;
    }
  }

  /** How far a watcher is from the end of its wait. */
  function Distance(t: Task): nat {
    if !t.Wait? then 0 else match t.pc case Parked(_) => 4 case Check => 3 case Register => 2 case Read(_) => 1
  }

  /** With a visible outcome, every step of a watcher that is awake brings it closer
      to the end of its wait: it never parks again. */
  lemma {:induction false} AwakeWatcherLeaves(s: Session, i: nat)
    requires i < |s.tasks| && s.tasks[i].Wait? && Told(s.warm) && !Asleep(s, i) && TaskOk(s, s.tasks[i])
    ensures Can(s, Advance(i)) && Distance(Step(s, Advance(i)).tasks[i]) < Distance(s.tasks[i])
    ensures Step(s, Advance(i)).warm == s.warm && Step(s, Advance(i)).calls == s.calls
  {
  }

  // ---- Where a wait leads --------------------------------------------------

  /** A wait ends in watching exactly at a read of a completed session; it ends without
      exactly at a check of a set flag, or at a read of an error in a session that has
      not completed. */
  lemma {:induction false} WaitEnds(s: Session, i: nat)
    requires Can(s, Advance(i))
    ensures var pc, t := s.tasks[i].pc, Step(s, Advance(i)).tasks[i];
      && (t == Watching <==> pc.Read? && s.warm.completed)
      && (t == Ended <==> (pc.Check? && s.cancel) || (pc.Read? && !s.warm.completed && s.warm.error.Some?))
      && (t == Watching || t == Ended || t.Wait?)
  {
  }

  /** Nobody watches a session whose initial evaluation has not completed. */
  lemma {:induction false} WatchersHaveGraph(actions: seq<Action>, i: nat)
    requires Legal(OPEN, actions)
    requires var s := After(OPEN, actions); i < |s.tasks| && s.tasks[i] == Watching
    ensures After(OPEN, actions).warm.completed
  {
    RunKeeps(OPEN, actions);
    var s := After(OPEN, actions);
    assert TaskOk(s, s.tasks[i]);
  }

  /** In a completed session that is not cancelled, a new watcher watches after three
      steps of its own. */
  lemma {:induction false} NewWatcherWatches(s: Session, i: nat)
    requires i < |s.tasks| && s.tasks[i] == Wait(Check) && s.warm.completed && !s.cancel
    ensures Alone(s, i, 3) == WithTask(s, i, Watching)
  {
    var s1 := Step(s, Advance(i));
    var s2 := Step(s1, Advance(i));
    assert Alone(s, i, 3) == Alone(s1, i, 2) == Alone(s2, i, 1);
    assert Alone(s2, i, 1) == Alone(Step(s2, Advance(i)), i, 0);
  }

  /** Whatever happens in between, a watcher of a completed session that is no longer
      waiting is watching, unless the session has been cancelled. */
  lemma {:induction false} CompletedWaitsWatch(s: Session, actions: seq<Action>, i: nat)
    requires Legal(s, actions) && s.warm.completed && !After(s, actions).cancel
    requires i < |s.tasks| && (s.tasks[i].Wait? || s.tasks[i] == Watching)
    ensures var t := After(s, actions); i < |t.tasks| && (t.tasks[i].Wait? || t.tasks[i] == Watching)
    decreases |actions|
  {
    if actions != [] {
      if s.cancel {
        CancelSticks(s, actions);
      }
      CompletedWaitsWatch(Step(s, actions[0]), actions[1..], i);
    }
  }

  lemma {:induction false} CancelSticks(s: Session, actions: seq<Action>)
    requires Legal(s, actions) && s.cancel
    ensures After(s, actions).cancel
    decreases |actions|
  {
    if actions != [] {
      CancelSticks(Step(s, actions[0]), actions[1..]);
    }
  }

  /** At some point of the run the flag is set, or an error stands in place of a graph. */
  ghost predicate GivesReason(s: Session, actions: seq<Action>)
    requires Legal(s, actions)
    decreases |actions|
  {
    || s.cancel
    || (!s.warm.completed && s.warm.error.Some?)
    || (actions != [] && GivesReason(Step(s, actions[0]), actions[1..]))
  }

  lemma {:induction false} WaitStep(s: Session, a: Action, i: nat)
    requires Can(s, a) && i < |s.tasks| && s.tasks[i].Wait?
    ensures i < |Step(s, a).tasks|
    ensures var t := Step(s, a).tasks[i];
      t.Wait? || t == Watching || (t == Ended && (s.cancel || (!s.warm.completed && s.warm.error.Some?)))
  {
    if a == Advance(i) {
      WaitEnds(s, i);
    } else {
      assert Step(s, a).tasks[i] == s.tasks[i];
    }
  }

  /** No watcher gives up without a reason. */
  lemma {:induction false} EndedWaitsHadReason(s: Session, actions: seq<Action>, i: nat)
    requires Legal(s, actions) && i < |s.tasks| && s.tasks[i].Wait?
    requires i < |After(s, actions).tasks| && After(s, actions).tasks[i] == Ended
    ensures GivesReason(s, actions)
    decreases |actions|
  {
    var next := Step(s, actions[0]);
    WaitStep(s, actions[0], i);
    if next.tasks[i].Wait? {
      EndedWaitsHadReason(next, actions[1..], i);
    } else if next.tasks[i] == Watching {
      WatchingStays(next, actions[1..], i);
    }
  }

  lemma {:induction false} WatchingStays(s: Session, actions: seq<Action>, i: nat)
    requires Legal(s, actions) && i < |s.tasks| && s.tasks[i] == Watching
    ensures i < |After(s, actions).tasks| && After(s, actions).tasks[i] == Watching
    decreases |actions|
  {
    if actions != [] {
      WatchingStays(Step(s, actions[0]), actions[1..], i);
    }
  }

  // ---- What opening and ending an evaluation do ----------------------------

  /** Whether the first call that opened a stream or a watch had a runtime. */
  function FirstOpen(actions: seq<Action>): Option<bool> {
    if actions == [] then None
    else if actions[0].OpenStream? || actions[0].OpenWatch? then Some(actions[0].runtime)
    else FirstOpen(actions[1..])
  }

  lemma {:induction false} LaterOpensStartNothing(s: Session, actions: seq<Action>)
    requires Legal(s, actions) && !s.initial.Idle?
    ensures !After(s, actions).initial.Idle? && After(s, actions).evaluations == s.evaluations
    decreases |actions|
  {
    if actions != [] {
      LaterOpensStartNothing(Step(s, actions[0]), actions[1..]);
    }
  }

  /** The first call to open a stream or a watch, and no other, starts the initial
      evaluation, provided it has a runtime; without one, none ever starts. */
  lemma {:induction false} FirstOpenEvaluates(s: Session, actions: seq<Action>)
    requires Inv(s) && s.initial.Idle? && Legal(s, actions)
    ensures var t := After(s, actions);
      && (t.initial.Idle? <==> FirstOpen(actions) == None)
      && t.evaluations == if FirstOpen(actions) == Some(true) then 1 else 0
    decreases |actions|
  {
    if actions != [] {
      var next := Step(s, actions[0]);
      if actions[0].OpenStream? || actions[0].OpenWatch? {
        LaterOpensStartNothing(next, actions[1..]);
      } else {
        assert actions[0].Proceed? ==> TaskOk(s, s.tasks[actions[0].task]);
        StepKeeps(s, actions[0]);
        FirstOpenEvaluates(next, actions[1..]);
      }
    }
  }

  /** The task an opening call leaves behind: the evaluation itself, a watcher that waits
      for one started by another call, or the report that there is no runtime. */
  lemma {:induction false} OpenedTask(s: Session, runtime: bool, watch: bool)
    ensures var t := Open(s, runtime, watch);
      && t.tasks == s.tasks + (
           if runtime && s.initial.Idle? then [Evaluate([], watch)]
           else if runtime && watch then [Wait(Check)]
           else if !runtime && (watch || s.initial.Idle?) then
             [Winding([TrySetError("Session streams require an active Tokio runtime"), FinishInitial, NotifyAll],
                      false)]
           else [])
      && t.warm == s.warm && t.cancel == s.cancel && t.calls == s.calls
  {
  }

  /** Task `i` winds up, undisturbed, in at most `n` steps. */
  ghost function WoundUp(s: Session, i: nat, n: nat): Session
    decreases n
  {
    if n == 0 || !Can(s, Proceed(i, false)) then s else WoundUp(Step(s, Proceed(i, false)), i, n - 1)
  }

  ghost function Performed(s: Session, ops: seq<Op>): Session
    decreases |ops|
  {
    if ops == [] then s else Performed(Perform(s, ops[0], false), ops[1..])
  }

  lemma {:induction false} PerformedMore(s: Session, op: Op, rest: seq<Op>)
    ensures Performed(s, [op] + rest) == Performed(Perform(s, op, false), rest)
  {
    assert ([op] + rest)[1..] == rest;
  }

  /** A task that winds up undisturbed performs what it has left, in order. */
  lemma {:induction false} WoundUpPerforms(s: Session, i: nat, ops: seq<Op>, thenWatch: bool, n: nat)
    requires i < |s.tasks| && s.tasks[i] == Wound(ops, thenWatch) && |ops| <= n
    ensures WoundUp(s, i, n) == WithTask(Performed(s, ops).(tasks := s.tasks), i, Wound([], thenWatch))
    decreases n
  {
    if ops != [] {
      var next := Step(s, Proceed(i, false));
      WoundUpPerforms(next, i, ops[1..], thenWatch, n - 1);
      PerformedTasks(Perform(s, ops[0], false), next, ops[1..]);
    }
  }

  /** What is performed does not depend on the tasks. */
  lemma {:induction false} PerformedTasks(s: Session, t: Session, ops: seq<Op>)
    requires t == s.(tasks := t.tasks)
    ensures Performed(t, ops) == Performed(s, ops).(tasks := t.tasks)
    decreases |ops|
  {
    if ops != [] {
      PerformedTasks(Perform(s, ops[0], false), Perform(t, ops[0], false), ops[1..]);
    }
  }

  lemma {:induction false} WindupPerforms(s: Session, streamed: seq<Event>, end: End)
    ensures var t := Performed(s, Windup(streamed, end));
      && t.initial == Finished && t.calls > s.calls
      && t == s.(initial := Finished, calls := t.calls, warm := t.warm)
      && (match end
          case Complete => t.warm == Warm(Recorded(streamed), RecordedErrors(streamed), true, None)
          case Interrupt => t.warm == s.warm.(error := Some("evaluation was cancelled"))
          case Break(m) => t.warm == s.warm.(error := Some(m)))
  {
    var last := [NotifyAll, FinishInitial];
    match end {
      case Complete =>
        PerformedMore(s, Publish(streamed), last);
        PerformedLast(Perform(s, Publish(streamed), false));
      case Interrupt =>
        var write := SetError("evaluation was cancelled");
        var s1 := Perform(s, NotifyAll, false);
        PerformedMore(s, NotifyAll, [write] + last);
        PerformedMore(s1, write, last);
        PerformedLast(Perform(s1, write, false));
      case Break(m) =>
        var write := SetError(m);
        var s1 := Perform(s, write, false);
        var s2 := Perform(s1, NotifyAll, false);
        assert Windup(streamed, end) == [write] + ([NotifyAll] + ([write] + last));
        PerformedMore(s, write, [NotifyAll] + ([write] + last));
        PerformedMore(s1, NotifyAll, [write] + last);
        PerformedMore(s2, write, last);
        PerformedLast(Perform(s2, write, false));
    }
  }

  lemma {:induction false} PerformedLast(s: Session)
    ensures Performed(s, [NotifyAll, FinishInitial]) == s.(calls := s.calls + 1, initial := Finished)
  {
    var none: seq<Op> := [];
    assert [NotifyAll] + [FinishInitial] == [NotifyAll, FinishInitial] && [FinishInitial] + none == [FinishInitial];
    PerformedMore(s, NotifyAll, [FinishInitial]);
    PerformedMore(Perform(s, NotifyAll, false), FinishInitial, none);
  }

  /** What an initial evaluation leaves behind once it has wound up: the record of its
      stream if it ran to its end, and otherwise the old graph with the reason.  Only a
      complete one goes on to watch. */
  lemma {:induction false} EvaluationLeaves(s: Session, i: nat, end: End)
    requires Can(s, EndEvaluation(i, end))
    ensures var t := WoundUp(Step(s, EndEvaluation(i, end)), i, 5);
      && t.initial == Finished && t.calls > s.calls
      && t.tasks == s.tasks[i := if end.Complete? && s.tasks[i].watch then Wait(Check) else Ended]
      && (match end
          case Complete =>
            t.warm == Warm(Recorded(s.tasks[i].streamed), RecordedErrors(s.tasks[i].streamed), true, None)
          case Interrupt => t.warm == s.warm.(error := Some("evaluation was cancelled"))
          case Break(m) => t.warm == s.warm.(error := Some(m)))
  {
    var t := s.tasks[i];
    var s1 := Step(s, EndEvaluation(i, end));
    WoundUpPerforms(s1, i, Windup(t.streamed, end), t.watch && end.Complete?, 5);
    WindupPerforms(s1, t.streamed, end);
  }

  /** A watch's evaluation replaces the graph with its own record, or leaves it alone. */
  lemma {:induction false} RerunLeaves(s: Session, i: nat, end: End)
    requires Can(s, EndRerun(i, end))
    ensures var t, run := Step(s, EndRerun(i, end)), s.tasks[i].recorded;
      && t.tasks == s.tasks[i := Ended] && t.initial == s.initial && t.calls == s.calls
      && t.warm == if end.Complete? then Warm(Recorded(run), RecordedErrors(run), true, None) else s.warm
  {
  }

  // ---- When a cancel reaches a watcher -------------------------------------

  /** Watcher `i` alone, for at most `n` steps of its own. */
  ghost function Alone(s: Session, i: nat, n: nat): Session
    decreases n
  {
    if n == 0 || !Can(s, Advance(i)) then s else Alone(Step(s, Advance(i)), i, n - 1)
  }

  ghost predicate Leaves(s: Session, i: nat, n: nat) {
    var t := Alone(s, i, n);
    i < |t.tasks| && !t.tasks[i].Wait?
  }

  /** A cancelled watcher that need not be woken again: it will check the flag, or it
      has been notified since it registered, or it will find an outcome. */
  ghost predicate Roused(s: Session, i: nat) {
    && s.cancel && i < |s.tasks|
    && (s.tasks[i].Wait? ==>
          var pc := s.tasks[i].pc;
          pc.Check? || ((pc.Read? || pc.Parked?) && pc.seen < s.calls) || (Told(s.warm) && !Asleep(s, i)))
  }

  /** How far a roused watcher is from the end of its wait. */
  function Remaining(t: Task): nat {
    if !t.Wait? then 0 else match t.pc case Register => 4 case Read(_) => 3 case Parked(_) => 2 case Check => 1
  }

  /** Whatever else happens in between, a roused watcher stays roused, can move as
      long as it waits, and each of its steps brings it closer to leaving. */
  lemma {:induction false} RousedLeaves(s: Session, i: nat, a: Action)
    requires Inv(s) && Roused(s, i) && Can(s, a)
    ensures Roused(Step(s, a), i)
    ensures s.tasks[i].Wait? ==> Can(s, Advance(i))
    ensures s.tasks[i].Wait? && a == Advance(i) ==> Remaining(Step(s, a).tasks[i]) < Remaining(s.tasks[i])
    ensures s.tasks[i].Wait? && a != Advance(i) ==> Step(s, a).tasks[i] == s.tasks[i]
  {
    assert TaskOk(s, s.tasks[i]);
    if a.Proceed? {
      assert TaskOk(s, s.tasks[a.task]);
    }
  }

  lemma {:induction false} RousedAlone(s: Session, i: nat, n: nat)
    requires Inv(s) && Roused(s, i) && Remaining(s.tasks[i]) <= n
    ensures i < |Alone(s, i, n).tasks| && !Alone(s, i, n).tasks[i].Wait?
    decreases n
  {
    if s.tasks[i].Wait? {
      RousedLeaves(s, i, Cancel);
      RousedLeaves(s, i, Advance(i));
      AdvanceKeeps(s, i);
      RousedAlone(Step(s, Advance(i)), i, n - 1);
    }
  }

  lemma {:induction false} UnrousedAlone(s: Session, i: nat, n: nat)
    requires i < |s.tasks| && TaskOk(s, s.tasks[i]) && s.cancel && s.tasks[i].Wait? && !Roused(s, i)
    ensures i < |Alone(s, i, n).tasks| && Alone(s, i, n).tasks[i].Wait?
    decreases n
  {
    if n > 0 && Can(s, Advance(i)) {
      UnrousedAlone(Step(s, Advance(i)), i, n - 1);
    }
  }

  /** With the flag set, a waiting watcher leaves by its own steps, and within five
      of them, exactly if it is roused. */
  lemma {:induction false} LeavesIffRoused(s: Session, i: nat)
    requires Inv(s) && s.cancel && i < |s.tasks| && s.tasks[i].Wait?
    ensures Leaves(s, i, 5) <==> Roused(s, i)
  {
    assert TaskOk(s, s.tasks[i]);
    if Roused(s, i) {
      RousedAlone(s, i, 5);
    } else {
      UnrousedAlone(s, i, 5);
    }
  }

  /** Once a session is cancelled, any notification makes every waiting watcher leave
      on its own, except one that has passed the check of the flag but has yet to
      register, and that only while there is no outcome to see. */
  lemma {:induction false} NotificationAfterCancel(actions: seq<Action>, c: nat, locked: bool, i: nat)
    requires Legal(OPEN, actions)
    requires var s := After(OPEN, actions);
      && s.cancel && Can(s, Proceed(c, locked)) && s.tasks[c].ops[0].NotifyAll?
      && i < |s.tasks| && s.tasks[i].Wait?
    ensures var s := After(OPEN, actions);
      Leaves(Step(s, Proceed(c, locked)), i, 5) <==> !s.tasks[i].pc.Register? || Told(s.warm)
  {
    RunKeeps(OPEN, actions);
    var s := After(OPEN, actions);
    StepKeeps(s, Proceed(c, locked));
    assert TaskOk(s, s.tasks[i]);
    LeavesIffRoused(Step(s, Proceed(c, locked)), i);
  }

  /** `cancel` sets the flag and notifies.  A watcher waiting at that moment leaves on
      its own if and only if it is not between its check and its registration, or
      has an outcome to see. */
  lemma {:induction false} CancelReachesWatcher(actions: seq<Action>, i: nat)
    requires Legal(OPEN, actions)
    requires var s := After(OPEN, actions); i < |s.tasks| && s.tasks[i].Wait?
    ensures var s := After(OPEN, actions);
      var flagged := Step(s, Cancel);
      && Can(flagged, Proceed(|s.tasks|, false))
      && (Leaves(Step(flagged, Proceed(|s.tasks|, false)), i, 5) <==> !s.tasks[i].pc.Register? || Told(s.warm))
  {
    RunKeeps(OPEN, actions);
    var s := After(OPEN, actions);
    var flagged := Step(s, Cancel);
    StepKeeps(s, Cancel);
    StepKeeps(flagged, Proceed(|s.tasks|, false));
    assert TaskOk(s, s.tasks[i]);
    LeavesIffRoused(Step(flagged, Proceed(|s.tasks|, false)), i);
  }

  // ---- Where a watcher can be left behind ----------------------------------

  ghost predicate Reaches(s: Session, t: Session) {
    exists actions :: Legal(s, actions) && After(s, actions) == t
  }

  lemma {:induction false} ReachesItself(s: Session)
    ensures Reaches(s, s)
  {
    var none: seq<Action> := [];
    assert Legal(s, none) && After(s, none) == s;
  }

  lemma {:induction false} ReachesFirst(s: Session, a: Action, t: Session, u: Session)
    requires Can(s, a) && Step(s, a) == t && Reaches(t, u)
    ensures Reaches(s, u)
  {
    var rest :| Legal(t, rest) && After(t, rest) == u;
    assert ([a] + rest)[1..] == rest;
    assert Legal(s, [a] + rest) && After(s, [a] + rest) == u;
  }

  /** A quiet session, cancelled or not, whose watcher `i` sleeps for want of any
      outcome. */
  ghost predicate Abandoned(s: Session, i: nat) {
    Asleep(s, i) && OnlyWatchers(s) && Unexcused(s) && !Told(s.warm)
  }

  /** Nothing but a further cancel or a failing `watch` call can wake it. */
  lemma {:induction false} AbandonedStays(s: Session, i: nat, a: Action)
    requires Abandoned(s, i) && Inv(s) && Can(s, a) && !a.Cancel? && a != OpenWatch(false)
    ensures Abandoned(Step(s, a), i)
  {
    forall j | 0 <= j < |s.tasks| ensures !s.tasks[j].Rerun? {
      assert TaskOk(s, s.tasks[j]);
    }
  }

  function Watched(initial: Initial, calls: nat, evaluations: nat, first: Task, second: Task): Session {
    OPEN.(initial := initial, calls := calls, evaluations := evaluations, tasks := [first, second])
  }

  /** Without an outcome or a cancel, a watcher checks, registers, reads and parks. */
  lemma {:induction false} Parks(s: Session)
    requires |s.tasks| > 1 && s.tasks[1] == Wait(Check) && !s.cancel && !Told(s.warm)
    ensures Reaches(s, WithTask(s, 1, Wait(Parked(s.calls))))
  {
    var s1, s2 := WithTask(s, 1, Wait(Register)), WithTask(s, 1, Wait(Read(s.calls)));
    var t := WithTask(s, 1, Wait(Parked(s.calls)));
    ReachesItself(t);
    ReachesFirst(s2, Advance(1), t, t);
    ReachesFirst(s1, Advance(1), s2, t);
    ReachesFirst(s, Advance(1), s1, t);
  }

  /** A `watch` call outside a runtime claims the initial evaluation, finds the state
      locked and leaves no error; then a second one starts to watch. */
  const UNEXCUSED_START := Watched(Finished, 1, 0, Ended, Wait(Check))

  lemma {:induction false} FailedWatchFirst(t: Session)
    requires Reaches(UNEXCUSED_START, t)
    ensures Reaches(OPEN, t)
  {
    var w0 := Winding(NO_RUNTIME_OPS, false);
    var s1 := OPEN.(initial := Running, tasks := [w0]);
    var s2 := Watched(Running, 0, 0, w0, Wait(Check));
    var s3 := Watched(Running, 0, 0, Winding([FinishInitial, NotifyAll], false), Wait(Check));
    var s4 := Watched(Finished, 0, 0, Winding([NotifyAll], false), Wait(Check));
    assert NO_RUNTIME_OPS[1..] == [FinishInitial, NotifyAll];
    assert [FinishInitial, NotifyAll][1..] == [NotifyAll];
    ReachesFirst(s4, Proceed(0, false), UNEXCUSED_START, t);
    ReachesFirst(s3, Proceed(0, false), s4, t);
    ReachesFirst(s2, Proceed(0, true), s3, t);
    ReachesFirst(s1, OpenWatch(true), s2, t);
    ReachesFirst(OPEN, OpenWatch(false), s1, t);
  }

  /** The exception is real: the second watcher sleeps with no outcome to come. */
  lemma {:induction false} WatcherCanBeAbandoned()
    ensures exists s :: Reaches(OPEN, s) && Abandoned(s, 1) && !s.cancel
  {
    var s := WithTask(UNEXCUSED_START, 1, Wait(Parked(1)));
    Parks(UNEXCUSED_START);
    FailedWatchFirst(s);
    assert Abandoned(s, 1);
  }

  /** A cancel need not help: one that lands between check and registration leaves
      such a watcher asleep, with the cancel over and nothing to wake it. */
  lemma {:induction false} CancelledWatcherCanBeAbandoned()
    ensures exists s :: Reaches(OPEN, s) && Abandoned(s, 1) && CancelMissed(s)
  {
    var s1 := WithTask(UNEXCUSED_START, 1, Wait(Register));
    var s2 := s1.(cancel := true, tasks := [Ended, Wait(Register), Winding([NotifyAll], false)]);
    var s3 := s1.(cancel := true, calls := 2, tasks := [Ended, Wait(Register), Ended]);
    var s4, s5 := WithTask(s3, 1, Wait(Read(2))), WithTask(s3, 1, Wait(Parked(2)));
    ReachesItself(s5);
    ReachesFirst(s4, Advance(1), s5, s5);
    ReachesFirst(s3, Advance(1), s4, s5);
    ReachesFirst(s2, Proceed(2, false), s3, s5);
    ReachesFirst(s1, Cancel, s2, s5);
    ReachesFirst(UNEXCUSED_START, Advance(1), s1, s5);
    FailedWatchFirst(s5);
  }

  /** Cancelled, yet asleep, with no notification under way. */
  ghost predicate CancelMissed(s: Session) {
    s.cancel && Asleep(s, 1) && !SomeNotify(s)
  }

  /** A stream starts the initial evaluation, and a watcher waits for it. */
  const EVALUATING_START := Watched(Running, 0, 1, Evaluate([], false), Wait(Check))

  lemma {:induction false} StreamFirst(t: Session)
    requires Reaches(EVALUATING_START, t)
    ensures Reaches(OPEN, t)
  {
    var s1 := OPEN.(initial := Running, evaluations := 1, tasks := [Evaluate([], false)]);
    ReachesFirst(s1, OpenWatch(true), EVALUATING_START, t);
    ReachesFirst(OPEN, OpenStream(true), s1, t);
  }

  /** With an evaluation under way, too, a cancel that lands between a watcher's check
      and its registration goes unseen; the end of that evaluation will wake it. */
  lemma {:induction false} CancelCanSlip()
    ensures exists s :: Reaches(OPEN, s) && CancelMissed(s) && SomeAnswer(s)
  {
    var s3 := WithTask(EVALUATING_START, 1, Wait(Register));
    var s4 := s3.(cancel := true, tasks := s3.tasks + [Winding([NotifyAll], false)]);
    var s5 := s3.(cancel := true, calls := 1, tasks := s3.tasks + [Ended]);
    var s6, s7 := WithTask(s5, 1, Wait(Read(1))), WithTask(s5, 1, Wait(Parked(1)));
    assert WillAnswer(s7.tasks[0]);
    ReachesItself(s7);
    ReachesFirst(s6, Advance(1), s7, s7);
    ReachesFirst(s5, Advance(1), s6, s7);
    ReachesFirst(s4, Proceed(2, false), s5, s7);
    ReachesFirst(s3, Cancel, s4, s7);
    ReachesFirst(EVALUATING_START, Advance(1), s3, s7);
    StreamFirst(s7);
  }
}
