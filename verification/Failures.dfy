/** Where failure reports come from: each one names the worker, the path and the very
    error of an item that failed in the run. */
module Failures {
  import opened Types
  import opened Eval
  import opened Pool
  import opened Coordinator
  import opened Worklist
  import opened Distributed
  import opened Runs

  /** `worker` failed on `item` with `error`. */
  datatype Failure = Failure(worker: nat, item: Path, error: string)

  /** What an action adds to the failures of a run. */
  function FailureAt(specs: seq<WorkerSpec>, s: State, a: Action): set<Failure>
    requires Enabled(specs, s, a)
  {
    if a.FailItem? then {Failure(a.w, s.phase[a.w].item, a.error)} else {}
  }

  ghost function FailuresOf(o: Oracle, specs: seq<WorkerSpec>, s: State, actions: seq<Action>): set<Failure>
    requires Legal(o, specs, s, actions)
    decreases |actions|
  {
    if actions == [] then {}
    else FailureAt(specs, s, actions[0]) + FailuresOf(o, specs, Apply(o, specs, s, actions[0]), actions[1..])
  }

  /** `e` reports `f`: under the path's display name, with the worker's name and the
      error in its text, and not fatal. */
  predicate Reports(specs: seq<WorkerSpec>, f: Failure, e: Event) {
    && f.worker < |specs| && e.ErrorEvent? && !e.err.fatal
    && e.err.attrPath == f.item
    && e.err.attr == (if f.item == [] then "<root>" else JoinDots(f.item))
    && e.err.error == "worker " + specs[f.worker].name + " failed: " + f.error
  }

  /** `e` is the evaluator's answer, or reports one of `failures`. */
  ghost predicate Explained(o: Oracle, specs: seq<WorkerSpec>, failures: set<Failure>, e: Event) {
    e == o(e.At()) || exists f :: f in failures && Reports(specs, f, e)
  }

  predicate Accounted(failures: set<Failure>, m: Message) {
    m.Reply? && m.event.Err? ==> Failure(m.worker, m.item, m.event.error) in failures
  }

  ghost predicate AllExplained(o: Oracle, specs: seq<WorkerSpec>, failures: set<Failure>, s: State) {
    && (forall i :: 0 <= i < |s.c.log| ==> Explained(o, specs, failures, s.c.log[i]))
    && (forall k :: 0 <= k < |s.mail| ==> Accounted(failures, s.mail[k]))
  }

  lemma {:induction false} FailureEventReports(specs: seq<WorkerSpec>, f: Failure)
    requires f.worker < |specs|
    ensures Reports(specs, f, FailureEvent(specs[f.worker], f.item, f.error))
  {
    assert FailureText(specs[f.worker].name, f.error) == "worker " + specs[f.worker].name + " failed: " + f.error;
  }

  lemma {:induction false} CreditedExplained(o: Oracle, specs: seq<WorkerSpec>, failures: set<Failure>, m: Message)
    requires WellBehaved(o) && m.Reply? && m.worker < |specs| && Accounted(failures, m)
    requires m.event.Ok? ==> m.event.value == o(m.item)
    ensures Explained(o, specs, failures, EventOf(specs, m))
  {
    assert BehavesAt(o, m.item);
    if m.event.Err? {
      FailureEventReports(specs, Failure(m.worker, m.item, m.event.error));
    }
  }

  lemma {:induction false} ExplainedStays(
    o: Oracle, specs: seq<WorkerSpec>, failures: set<Failure>, more: set<Failure>, s: State)
    requires AllExplained(o, specs, failures, s) && failures <= more
    ensures AllExplained(o, specs, more, s)
  {
    forall i | 0 <= i < |s.c.log| ensures Explained(o, specs, more, s.c.log[i]) {
      assert Explained(o, specs, failures, s.c.log[i]);
    }
  }

  lemma {:induction false} CoordinateExplained(
    o: Oracle, specs: seq<WorkerSpec>, s: State, sinkOk: bool, failures: set<Failure>)
    requires WellBehaved(o) && Protocol(o, specs, s) && CoordinatorReady(specs, s)
    requires AllExplained(o, specs, failures, s)
    ensures AllExplained(o, specs, failures, CoordinatorStep(specs, s, sinkOk))
  {
    if Crediting(s) {
      assert MessageOk(o, specs, s, s.mail[0]);
      CreditedExplained(o, specs, failures, s.mail[0]);
    } else {
      BookkeepingStep(o, specs, s, sinkOk);
    }
  }

  lemma {:induction false} StepExplained(o: Oracle, specs: seq<WorkerSpec>, s: State, a: Action, failures: set<Failure>)
    requires WellBehaved(o) && Protocol(o, specs, s) && Enabled(specs, s, a)
    requires AllExplained(o, specs, failures, s)
    ensures AllExplained(o, specs, failures + FailureAt(specs, s, a), Apply(o, specs, s, a))
  {
    var more := failures + FailureAt(specs, s, a);
    ExplainedStays(o, specs, failures, more, s);
    if a.Coordinate? {
      CoordinateExplained(o, specs, s, a.sinkOk, more);
    }
  }

  lemma {:induction false} RunExplained(
    o: Oracle, specs: seq<WorkerSpec>, s: State, actions: seq<Action>, failures: set<Failure>)
    requires WellBehaved(o) && Good(o, specs, s) && Legal(o, specs, s, actions)
    requires AllExplained(o, specs, failures, s)
    ensures AllExplained(o, specs, failures + FailuresOf(o, specs, s, actions), After(o, specs, s, actions))
    decreases |actions|
  {
    if actions == [] {
      assert failures + {} == failures;
    } else {
      var next, more := Apply(o, specs, s, actions[0]), failures + FailureAt(specs, s, actions[0]);
      StepGood(o, specs, s, actions[0]);
      StepExplained(o, specs, s, actions[0], failures);
      RunExplained(o, specs, next, actions[1..], more);
      assert more + FailuresOf(o, specs, next, actions[1..]) == failures + FailuresOf(o, specs, s, actions);
    }
  }

  /** However a run ends, each event it emitted is the evaluator's answer for its path,
      or reports an item that failed in that run: its own path, the worker that had it
      and the error it failed with. */
  lemma {:induction false} EmittedExplained(o: Oracle, specs: seq<WorkerSpec>, actions: seq<Action>, e: Event)
    requires WellBehaved(o) && WellFormedPool(specs) && Legal(o, specs, Init(specs), actions)
    requires e in After(o, specs, Init(specs), actions).c.log
    ensures Explained(o, specs, FailuresOf(o, specs, Init(specs), actions), e)
  {
    InitGood(o, specs);
    RunExplained(o, specs, Init(specs), actions, {});
    var failures := FailuresOf(o, specs, Init(specs), actions);
    assert {} + failures == failures;
    var log := After(o, specs, Init(specs), actions).c.log;
    var i :| 0 <= i < |log| && log[i] == e;
  }
}
