/** Coordinator, worker tasks and connections together, shown to refine the step
    system in which answers are right. */
module Composed {
  import opened Types
  import opened Eval
  import opened Pool
  import opened Coordinator
  import opened Distributed
  import opened Failures
  import opened Guarantees
  import X = Exchange

  /** `tasks[w]` is worker w's task, with the connections it has opened. */
  datatype Net = Net(s: State, tasks: seq<X.Task>)

  /** A step of the coordinator or a request to cancel; a step of worker w's task or of
      the far end of one of its connections; a panic of a task. */
  datatype Move =
    | Central(a: Action)
    | InTask(w: nat, act: X.TaskAction, error: string)
    | Panics(w: nat, error: string)

  function Start(specs: seq<WorkerSpec>): Net {
    Net(Init(specs), seq(|specs|, _ => X.FRESH_TASK))
  }

  predicate Shaped(specs: seq<WorkerSpec>, n: Net) {
    |n.s.phase| == |n.s.work| == |n.s.held| == |n.tasks| == |specs|
  }

  /** Whether the status just to be read asks the task to restart its worker. */
  predicate Restarts(t: X.Task, remote: bool) {
    t.links != [] && X.Hears(X.Current(t), (r: X.Resp) => r.Status? && r.restart) && !remote
  }

  /** What a task's step is to the coordinator, if it is anything. */
  function Shadow(n: Net, w: nat, act: X.TaskAction, error: string): Option<Action>
    requires w < |n.s.phase| && w < |n.tasks|
  {
    var starting := n.s.phase[w] == Starting;
    match act
    case ConnectFails => Some(if starting then StartFailed(w, error) else RecoverFailed(w, error))
    case ReadReady => Some(if starting then Started(w) else Recovered(w))
    case TakeItem(_) => Some(Take(w))
    case ReadStatus(remote) => Some(Action.Answer(w, Restarts(n.tasks[w], remote)))
    case GiveUp(reason) => Some(FailItem(w, reason))
    case Decide => if n.tasks[w].cancel then Some(Recovered(w)) else None
    case _ => None
  }

  /** A task takes what is in its work channel, and waits while the result channel is
      full. */
  predicate Can(specs: seq<WorkerSpec>, n: Net, m: Move) {
    && Shaped(specs, n)
    && match m
       case Central(a) => (a.Coordinate? || a.RequestCancel?) && Enabled(specs, n.s, a)
       case InTask(w, act, error) =>
         && w < |specs| && !act.Cancel? && X.TaskCan(n.tasks[w], act)
         && (act.TakeItem? ==> n.s.work[w] == Some(act.path))
         && (act.ReadStatus? ==> act.remote == specs[w].kind.RemoteWorker?)
         && (Shadow(n, w, act, error).Some? ==> Enabled(specs, n.s, Shadow(n, w, act, error).value))
       case Panics(w, error) => w < |specs| && Enabled(specs, n.s, Panic(w, error))
  }

  /** The report a task has just made goes to the coordinator as it is. */
  function Hand(s: State, w: nat, report: X.Report, phase: Phase): State
    requires w < |s.phase|
  {
    s.(mail := s.mail + [Reply(w, report.item, report.event)], phase := s.phase[w := phase])
  }

  function LocalEffect(o: Oracle, specs: seq<WorkerSpec>, n: Net, w: nat, act: X.TaskAction, error: string): State
    requires Can(specs, n, InTask(w, act, error))
  {
    var t := X.TaskStep(o, n.tasks[w], act);
    if act.ReadStatus? then
      Hand(n.s, w, t.reports[|t.reports| - 1], if Restarts(n.tasks[w], act.remote) then Recovering else Blocked)
    else if act.GiveUp? then Hand(n.s, w, t.reports[|t.reports| - 1], Recovering)
    else
      var a := Shadow(n, w, act, error);
      if a.Some? then Apply(o, specs, n.s, a.value) else n.s
  }

  function Step(o: Oracle, specs: seq<WorkerSpec>, n: Net, m: Move): Net
    requires Can(specs, n, m)
  {
    match m
    case Central(a) =>
      Net(Apply(o, specs, n.s, a),
          if a.RequestCancel?
          then seq(|n.tasks|, w requires 0 <= w < |n.tasks| => X.TaskStep(o, n.tasks[w], X.Cancel))
          else n.tasks)
    case InTask(w, act, error) =>
      Net(LocalEffect(o, specs, n, w, act, error), n.tasks[w := X.TaskStep(o, n.tasks[w], act)])
    case Panics(w, error) =>
      Net(Apply(o, specs, n.s, Panic(w, error)), n.tasks[w := n.tasks[w].(phase := X.Over)])
  }

  // ---- The two halves fit --------------------------------------------------

  predicate PhasesFit(phase: Phase, t: X.Task) {
    match phase
    case Starting => t.phase.Connecting? || t.phase.Greeting?
    case Blocked => t.phase.Idle?
    case Evaluating(item) => (t.phase.AwaitAnswer? || t.phase.AwaitStatus?) && t.phase.path == item
    case Recovering => t.phase.Failed? || t.phase.Connecting? || t.phase.Greeting?
    case Gone => t.phase.Over?
  }

  ghost predicate Linked(o: Oracle, s: State, w: nat, t: X.Task)
    requires w < |s.phase|
  {
    PhasesFit(s.phase[w], t) && t.cancel == s.cancel && (s.phase[w] != Gone ==> X.TaskInv(o, t))
  }

  ghost predicate AllLinked(o: Oracle, specs: seq<WorkerSpec>, n: Net) {
    Shaped(specs, n) && forall w :: 0 <= w < |specs| ==> Linked(o, n.s, w, n.tasks[w])
  }

  /** What a move is to the coordinator, if it is anything. */
  function ShadowOf(n: Net, m: Move): Option<Action>
    requires m.InTask? ==> m.w < |n.s.phase| && m.w < |n.tasks|
  {
    match m
    case Central(a) => Some(a)
    case InTask(w, act, error) => Shadow(n, w, act, error)
    case Panics(w, error) => Some(Panic(w, error))
  }

  /** A task reports the evaluator's answer for the item it was given, so handing over
      its report is the step in which the worker answers right. */
  lemma {:induction false} HandsOverAnswer(
    o: Oracle, specs: seq<WorkerSpec>, n: Net, w: nat, remote: bool, error: string)
    requires w < |specs| && AllLinked(o, specs, n) && Can(specs, n, InTask(w, X.ReadStatus(remote), error))
    ensures LocalEffect(o, specs, n, w, X.ReadStatus(remote), error)
         == Apply(o, specs, n.s, Action.Answer(w, Restarts(n.tasks[w], remote)))
  {
    assert Linked(o, n.s, w, n.tasks[w]);
  }

  lemma {:induction false} HandsOverFailure(
    o: Oracle, specs: seq<WorkerSpec>, n: Net, w: nat, reason: string, error: string)
    requires w < |specs| && AllLinked(o, specs, n) && Can(specs, n, InTask(w, X.GiveUp(reason), error))
    ensures LocalEffect(o, specs, n, w, X.GiveUp(reason), error) == Apply(o, specs, n.s, FailItem(w, reason))
  {
    assert Linked(o, n.s, w, n.tasks[w]);
  }

  /** The coordinator's side of every move is its shadow. */
  lemma {:induction false} MoveIsShadow(o: Oracle, specs: seq<WorkerSpec>, n: Net, m: Move)
    requires AllLinked(o, specs, n) && Can(specs, n, m)
    ensures var a := ShadowOf(n, m);
      if a.Some? then Enabled(specs, n.s, a.value) && Step(o, specs, n, m).s == Apply(o, specs, n.s, a.value)
      else Step(o, specs, n, m).s == n.s
  {
    if m.InTask? && m.act.ReadStatus? {
      HandsOverAnswer(o, specs, n, m.w, m.act.remote, m.error);
    } else if m.InTask? && m.act.GiveUp? {
      HandsOverFailure(o, specs, n, m.w, m.act.error, m.error);
    }
  }

  lemma {:induction false} OwnPhase(o: Oracle, specs: seq<WorkerSpec>, n: Net, w: nat, act: X.TaskAction, error: string)
    requires AllLinked(o, specs, n) && Can(specs, n, InTask(w, act, error))
    ensures var a, t := Shadow(n, w, act, error), X.TaskStep(o, n.tasks[w], act);
      var s := if a.Some? then Apply(o, specs, n.s, a.value) else n.s;
      PhasesFit(s.phase[w], t) && t.cancel == s.cancel && (s.phase[w] != Gone ==> n.s.phase[w] != Gone)
  {
    assert Linked(o, n.s, w, n.tasks[w]);
  }

  lemma {:induction false} LocalKeepsOwn(
    o: Oracle, specs: seq<WorkerSpec>, n: Net, w: nat, act: X.TaskAction, error: string)
    requires AllLinked(o, specs, n) && Can(specs, n, InTask(w, act, error))
    ensures Linked(o, Step(o, specs, n, InTask(w, act, error)).s, w, X.TaskStep(o, n.tasks[w], act))
  {
    assert Linked(o, n.s, w, n.tasks[w]);
    MoveIsShadow(o, specs, n, InTask(w, act, error));
    OwnPhase(o, specs, n, w, act, error);
    if n.s.phase[w] != Gone {
      X.TaskStepKeeps(o, n.tasks[w], act);
    }
  }

  /** A worker's step touches no other worker's phase. */
  lemma {:induction false} OthersKeep(o: Oracle, specs: seq<WorkerSpec>, s: State, a: Action, w: nat, v: nat)
    requires Enabled(specs, s, a) && IsWorkerAction(a) && a.w == w && v < |specs| && v != w
    ensures Apply(o, specs, s, a).phase[v] == s.phase[v] && Apply(o, specs, s, a).cancel == s.cancel
  {
  }

  lemma {:induction false} LocalKeepsOther(
    o: Oracle, specs: seq<WorkerSpec>, n: Net, w: nat, act: X.TaskAction, error: string, v: nat)
    requires AllLinked(o, specs, n) && Can(specs, n, InTask(w, act, error)) && v < |specs| && v != w
    ensures Linked(o, Step(o, specs, n, InTask(w, act, error)).s, v, n.tasks[v])
  {
    var m := InTask(w, act, error);
    assert Linked(o, n.s, v, n.tasks[v]);
    if ShadowOf(n, m).Some? {
      MoveIsShadow(o, specs, n, m);
      OthersKeep(o, specs, n.s, ShadowOf(n, m).value, w, v);
    }
  }

  lemma {:induction false} LocalKeeps(
    o: Oracle, specs: seq<WorkerSpec>, n: Net, w: nat, act: X.TaskAction, error: string)
    requires AllLinked(o, specs, n) && Can(specs, n, InTask(w, act, error))
    ensures AllLinked(o, specs, Step(o, specs, n, InTask(w, act, error)))
  {
    var next := Step(o, specs, n, InTask(w, act, error));
    LocalKeepsOwn(o, specs, n, w, act, error);
    MoveIsShadow(o, specs, n, InTask(w, act, error));
    forall v | 0 <= v < |specs| ensures Linked(o, next.s, v, next.tasks[v]) {
      if v != w {
        LocalKeepsOther(o, specs, n, w, act, error, v);
      }
    }
  }

  lemma {:induction false} PanicKeeps(o: Oracle, specs: seq<WorkerSpec>, n: Net, w: nat, error: string)
    requires AllLinked(o, specs, n) && Can(specs, n, Panics(w, error))
    ensures AllLinked(o, specs, Step(o, specs, n, Panics(w, error)))
  {
    var next := Step(o, specs, n, Panics(w, error));
    forall v | 0 <= v < |specs| ensures Linked(o, next.s, v, next.tasks[v]) {
      assert Linked(o, n.s, v, n.tasks[v]);
      if v != w {
        OthersKeep(o, specs, n.s, Panic(w, error), w, v);
      }
    }
  }

  lemma {:induction false} CentralKeeps(o: Oracle, specs: seq<WorkerSpec>, n: Net, a: Action)
    requires AllLinked(o, specs, n) && Can(specs, n, Central(a))
    ensures AllLinked(o, specs, Step(o, specs, n, Central(a)))
  {
    var next := Step(o, specs, n, Central(a));
    assert next.s.phase == n.s.phase;
    forall v | 0 <= v < |specs| ensures Linked(o, next.s, v, next.tasks[v]) {
      assert Linked(o, n.s, v, n.tasks[v]);
      if a.RequestCancel? && n.s.phase[v] != Gone {
        X.TaskStepKeeps(o, n.tasks[v], X.Cancel);
      }
    }
  }

  lemma {:induction false} MoveKeeps(o: Oracle, specs: seq<WorkerSpec>, n: Net, m: Move)
    requires AllLinked(o, specs, n) && Can(specs, n, m)
    ensures AllLinked(o, specs, Step(o, specs, n, m))
  {
    match m {
      case Central(a) => CentralKeeps(o, specs, n, a);
      case InTask(w, act, error) => LocalKeeps(o, specs, n, w, act, error);
      case Panics(w, error) => PanicKeeps(o, specs, n, w, error);
    }
  }

  // ---- Whole runs ----------------------------------------------------------

  ghost predicate MovesLegal(o: Oracle, specs: seq<WorkerSpec>, n: Net, moves: seq<Move>)
    decreases |moves|
  {
    moves != [] ==> Can(specs, n, moves[0]) && MovesLegal(o, specs, Step(o, specs, n, moves[0]), moves[1..])
  }

  ghost function Moved(o: Oracle, specs: seq<WorkerSpec>, n: Net, moves: seq<Move>): Net
    requires MovesLegal(o, specs, n, moves)
    decreases |moves|
  {
    if moves == [] then n else Moved(o, specs, Step(o, specs, n, moves[0]), moves[1..])
  }

  /** No task gives up on an item. */
  predicate NobodyGivesUp(moves: seq<Move>) {
    forall i :: 0 <= i < |moves| ==> !(moves[i].InTask? && moves[i].act.GiveUp?)
  }

  /** What the tasks gave up on, and why. */
  ghost function GivenUp(o: Oracle, specs: seq<WorkerSpec>, n: Net, moves: seq<Move>): set<Failure>
    requires MovesLegal(o, specs, n, moves)
    decreases |moves|
  {
    if moves == [] then {}
    else
      var m := moves[0];
      (if m.InTask? && m.act.GiveUp? then {Failure(m.w, n.tasks[m.w].phase.path, m.act.error)} else {})
      + GivenUp(o, specs, Step(o, specs, n, m), moves[1..])
  }

  lemma {:induction false} ConsRun(o: Oracle, specs: seq<WorkerSpec>, s: State, a: Action, rest: seq<Action>)
    requires Enabled(specs, s, a) && Legal(o, specs, Apply(o, specs, s, a), rest)
    ensures Legal(o, specs, s, [a] + rest)
    ensures After(o, specs, s, [a] + rest) == After(o, specs, Apply(o, specs, s, a), rest)
    ensures FailuresOf(o, specs, s, [a] + rest) ==
              FailureAt(specs, s, a) + FailuresOf(o, specs, Apply(o, specs, s, a), rest)
    ensures !a.FailItem? && NoFailures(rest) ==> NoFailures([a] + rest)
  {
    assert ([a] + rest)[1..] == rest;
  }

  lemma {:induction false} GiveUpIsFailure(o: Oracle, specs: seq<WorkerSpec>, n: Net, m: Move)
    requires AllLinked(o, specs, n) && Can(specs, n, m)
    ensures m.InTask? && m.act.GiveUp? ==> ShadowOf(n, m).Some?
    ensures ShadowOf(n, m).Some? ==>
              FailureAt(specs, n.s, ShadowOf(n, m).value) ==
              if m.InTask? && m.act.GiveUp? then {Failure(m.w, n.tasks[m.w].phase.path, m.act.error)} else {}
  {
    if m.InTask? {
      assert Linked(o, n.s, m.w, n.tasks[m.w]);
    }
  }

  lemma {:induction false} MovesAreRun(o: Oracle, specs: seq<WorkerSpec>, n: Net, moves: seq<Move>)
    returns (actions: seq<Action>)
    requires AllLinked(o, specs, n) && MovesLegal(o, specs, n, moves)
    ensures Legal(o, specs, n.s, actions) && After(o, specs, n.s, actions) == Moved(o, specs, n, moves).s
    ensures NobodyGivesUp(moves) ==> NoFailures(actions)
    ensures FailuresOf(o, specs, n.s, actions) == GivenUp(o, specs, n, moves)
    decreases |moves|
  {
    actions := [];
    if moves != [] {
      var next := Step(o, specs, n, moves[0]);
      MoveIsShadow(o, specs, n, moves[0]);
      MoveKeeps(o, specs, n, moves[0]);
      actions := MovesAreRun(o, specs, next, moves[1..]);
      GiveUpIsFailure(o, specs, n, moves[0]);
      var a := ShadowOf(n, moves[0]);
      if a.Some? {
        ConsRun(o, specs, n.s, a.value, actions);
        actions := [a.value] + actions;
      }
    }
  }

  lemma {:induction false} StartLinked(o: Oracle, specs: seq<WorkerSpec>)
    ensures AllLinked(o, specs, Start(specs))
  {
  }

  /** To the coordinator, every run with real connections, late replies and all, is a
      run of the step system, and one without failures if no task gave up. */
  lemma {:induction false} ConnectionsRefine(o: Oracle, specs: seq<WorkerSpec>, moves: seq<Move>)
    returns (actions: seq<Action>)
    requires MovesLegal(o, specs, Start(specs), moves)
    ensures Legal(o, specs, Init(specs), actions)
    ensures After(o, specs, Init(specs), actions) == Moved(o, specs, Start(specs), moves).s
    ensures NobodyGivesUp(moves) ==> NoFailures(actions)
    ensures FailuresOf(o, specs, Init(specs), actions) == GivenUp(o, specs, Start(specs), moves)
  {
    StartLinked(o, specs);
    actions := MovesAreRun(o, specs, Start(specs), moves);
  }

  /** So a completed run in which no task gave up has emitted the simple walk, with
      what each worker really read and sent. */
  lemma {:induction false} ConnectedRunIsWalk(o: Oracle, specs: seq<WorkerSpec>, moves: seq<Move>)
    requires WellBehaved(o) && WellFormedPool(specs) && MovesLegal(o, specs, Start(specs), moves)
    requires NobodyGivesUp(moves) && Moved(o, specs, Start(specs), moves).s.c.outcome == Completed
    ensures multiset(Moved(o, specs, Start(specs), moves).s.c.log) == multiset(Walk(o, []))
  {
    var actions := ConnectionsRefine(o, specs, moves);
    CompletedRunIsWalk(o, specs, actions);
  }

  /** And every event emitted is the evaluator's answer for the path it reports on, or
      reports that a task gave up on that path, which task and why. */
  lemma {:induction false} ConnectedEventsGenuine(o: Oracle, specs: seq<WorkerSpec>, moves: seq<Move>, e: Event)
    requires WellBehaved(o) && WellFormedPool(specs) && MovesLegal(o, specs, Start(specs), moves)
    requires e in Moved(o, specs, Start(specs), moves).s.c.log
    ensures e == o(e.At())
            || exists f :: f in GivenUp(o, specs, Start(specs), moves) && f.item == e.At() && Reports(specs, f, e)
  {
    var actions := ConnectionsRefine(o, specs, moves);
    EmittedGenuine(o, specs, actions, e);
  }
}
