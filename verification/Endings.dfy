/** Why runs end: each reason a run gives for ending early is something that happened
    in it.  A cancel was requested, a worker task failed with that very error, a sink
    refused an event, a worker was gone, or the value graph holds what the run names. */
module Endings {
  import opened Types
  import opened Eval
  import opened Pool
  import opened Coordinator
  import opened Worklist
  import opened Distributed
  import opened Runs

  /** `a` is the end of a worker task that failed with `error`. */
  predicate EndsTask(a: Action, error: string) {
    (a.StartFailed? || a.Panic? || a.RecoverFailed?) && a.error == error
  }

  ghost predicate SomeTaskEnded(seen: set<Action>, error: string) {
    exists a :: a in seen && EndsTask(a, error)
  }

  /** A reachable path at which there is a derivation for `system`, which nobody owns. */
  ghost predicate UnownedAt(o: Oracle, specs: seq<WorkerSpec>, p: Path, system: string) {
    && Reachable(o, p) && o(p).DerivationEvent? && o(p).drv.system == system
    && forall i :: 0 <= i < |specs| ==>
         && specs[i].kind.RemoteWorker? && specs[i].kind.remote.systems != []
         && system !in specs[i].kind.remote.systems
  }

  /** A reachable path at which the evaluator reports a fatal error. */
  ghost predicate FatalAt(o: Oracle, p: Path, error: string) {
    Reachable(o, p) && o(p).ErrorEvent? && o(p).err.fatal && o(p).err.error == error
  }

  ghost predicate Justified(o: Oracle, specs: seq<WorkerSpec>, seen: set<Action>, s: State) {
    match s.c.outcome
    case Running => true
    case Completed => true
    case Cancelled => RequestCancel in seen
    case Failed(fault) =>
      match fault
      case NoOwner(p, system) => UnownedAt(o, specs, p, system)
      case SinkFailed => Coordinate(false) in seen
      case SendFailed(w) => w < |s.phase| && s.phase[w] == Gone
      case TaskExited(error) => SomeTaskEnded(seen, error)
      case FatalEvent(error) => exists p :: FatalAt(o, p, error)
      case Stalled => false
      case Disconnected => false
  }

  ghost predicate Witnessed(seen: set<Action>, s: State) {
    && (s.cancel ==> RequestCancel in seen)
    && forall k :: 0 <= k < |s.mail| && s.mail[k].Exited? ==> SomeTaskEnded(seen, s.mail[k].error)
  }

  lemma {:induction false} StepWitnessed(
    o: Oracle, specs: seq<WorkerSpec>, s: State, a: Action, seen: set<Action>)
    requires Enabled(specs, s, a) && Witnessed(seen, s)
    ensures Witnessed(seen + {a}, Apply(o, specs, s, a))
  {
    var t := Apply(o, specs, s, a);
    forall k | 0 <= k < |t.mail| && t.mail[k].Exited? ensures SomeTaskEnded(seen + {a}, t.mail[k].error) {
      if t.mail[k] in s.mail {
        var b :| b in seen && EndsTask(b, t.mail[k].error);
        assert b in seen + {a};
      } else {
        assert EndsTask(a, t.mail[k].error);
      }
    }
  }

  /** What a reply that ends the run says about the value graph. */
  lemma {:induction false} VerdictJustified(o: Oracle, specs: seq<WorkerSpec>, w: nat, item: Path, event: Event)
    requires w < |specs| && Genuine(o, item, event) && Reachable(o, item)
    ensures var v := Verdict(specs[w], specs, item, event);
      v.fatal.Some? ==>
        || (v.emit && v.fatal.value.FatalEvent? && FatalAt(o, item, v.fatal.value.error))
        || (!v.emit && v.fatal.value.NoOwner?
            && UnownedAt(o, specs, v.fatal.value.path, v.fatal.value.system))
  {
    VerdictMeans(specs, w, item, event);
    if event.DerivationEvent? {
      CoveredMeans(specs, event.drv.system);
    }
  }

  lemma {:induction false} CreditOutcome(specs: seq<WorkerSpec>, s: State, sinkOk: bool)
    requires |s.phase| == |s.work| == |s.held| == |specs|
    requires CoordinatorReady(specs, s) && Crediting(s) && s.c.outcome == Running
    ensures var m := s.mail[0];
      var v := Verdict(specs[m.worker], specs, m.item, EventOf(specs, m));
      CoordinatorStep(specs, s, sinkOk).c.outcome ==
      if v.emit && !sinkOk then Failed(SinkFailed) else if v.fatal.Some? then Failed(v.fatal.value) else Running
  {
  }

  lemma {:induction false} CreditJustified(
    o: Oracle, specs: seq<WorkerSpec>, s: State, sinkOk: bool, seen: set<Action>)
    requires WellBehaved(o) && Inv(o, specs, s) && CoordinatorReady(specs, s) && Crediting(s)
    ensures Justified(o, specs, seen + {Coordinate(sinkOk)}, CoordinatorStep(specs, s, sinkOk))
  {
    var m := s.mail[0];
    assert MessageOk(o, specs, s, m);
    ReplyRefines(o, specs, s, sinkOk);
    ReplyGenuine(o, specs, s, m);
    DiscoveredReachable(o, LedgerOf(s), m.item);
    VerdictJustified(o, specs, m.worker, m.item, EventOf(specs, m));
    CreditOutcome(specs, s, sinkOk);
  }

  lemma {:induction false} DispatchJustified(
    o: Oracle, specs: seq<WorkerSpec>, s: State, sinkOk: bool, seen: set<Action>)
    requires Inv(o, specs, s) && CoordinatorReady(specs, s) && s.c.pc.Dispatching?
    ensures Justified(o, specs, seen, CoordinatorStep(specs, s, sinkOk))
  {
    if s.c.pc.left == 0 {
      EndDispatchNeverStalls(o, specs, s);
    }
  }

  lemma {:induction false} WaitJustified(
    o: Oracle, specs: seq<WorkerSpec>, s: State, sinkOk: bool, seen: set<Action>)
    requires Inv(o, specs, s) && CoordinatorReady(specs, s) && s.c.pc.Waiting? && !Crediting(s) && Witnessed(seen, s)
    ensures Justified(o, specs, seen, CoordinatorStep(specs, s, sinkOk))
  {
    if s.mail == [] {
      WaitingHasMail(o, specs, s);
    } else {
      assert MessageOk(o, specs, s, s.mail[0]);
    }
  }

  lemma {:induction false} JustifiedStays(
    o: Oracle, specs: seq<WorkerSpec>, seen: set<Action>, a: Action, s: State)
    requires Justified(o, specs, seen, s)
    ensures Justified(o, specs, seen + {a}, s)
  {
    if s.c.outcome.Failed? && s.c.outcome.fault.TaskExited? {
      var b :| b in seen && EndsTask(b, s.c.outcome.fault.error);
      assert b in seen + {a};
    }
  }

  lemma {:induction false} StepJustified(
    o: Oracle, specs: seq<WorkerSpec>, s: State, a: Action, seen: set<Action>)
    requires WellBehaved(o) && Inv(o, specs, s) && Enabled(specs, s, a) && Witnessed(seen, s)
    ensures Justified(o, specs, seen + {a}, Apply(o, specs, s, a))
  {
    if a.Coordinate? {
      if Crediting(s) {
        CreditJustified(o, specs, s, a.sinkOk, seen);
      } else {
        if s.c.pc.Dispatching? {
          DispatchJustified(o, specs, s, a.sinkOk, seen);
        } else if s.c.pc.Waiting? {
          WaitJustified(o, specs, s, a.sinkOk, seen);
        }
        JustifiedStays(o, specs, seen, a, Apply(o, specs, s, a));
      }
    } else {
      assert Apply(o, specs, s, a).c.outcome == Running;
    }
  }

  lemma {:induction false} RunJustified(
    o: Oracle, specs: seq<WorkerSpec>, s: State, actions: seq<Action>, seen: set<Action>)
    requires WellBehaved(o) && Good(o, specs, s) && Legal(o, specs, s, actions)
    requires Witnessed(seen, s) && Justified(o, specs, seen, s)
    ensures Justified(o, specs, seen + Happened(actions), After(o, specs, s, actions))
    decreases |actions|
  {
    if actions == [] {
      assert seen + Happened(actions) == seen;
    } else {
      var a, next := actions[0], Apply(o, specs, s, actions[0]);
      StepGood(o, specs, s, a);
      StepWitnessed(o, specs, s, a, seen);
      StepJustified(o, specs, s, a, seen);
      RunJustified(o, specs, next, actions[1..], seen + {a});
      HappenedFirst(actions, seen);
    }
  }

  function Happened(actions: seq<Action>): set<Action> {
    if actions == [] then {} else {actions[0]} + Happened(actions[1..])
  }

  lemma {:induction false} HappenedFirst(actions: seq<Action>, seen: set<Action>)
    requires actions != []
    ensures seen + {actions[0]} + Happened(actions[1..]) == seen + Happened(actions)
  {
  }

  lemma {:induction false} HappenedMeans(actions: seq<Action>, a: Action)
    ensures a in Happened(actions) <==> a in actions
  {
    if actions != [] {
      HappenedMeans(actions[1..], a);
    }
  }

  /** However a run ends, its reason is real: it was cancelled only on request; it gives
      a path and system for want of an owner only if that path is reachable and nobody
      owns that system; a sink only if the sink refused an event; a worker it could not
      send to only if that worker is gone; and an error text only if a worker task ended
      with that error; and for a fatal error only if the evaluator reports that one at a
      reachable path.  It never stalls and never loses all its workers unheard. */
  lemma {:induction false} RunEndsForAReason(o: Oracle, specs: seq<WorkerSpec>, actions: seq<Action>)
    requires WellBehaved(o) && WellFormedPool(specs) && Legal(o, specs, Init(specs), actions)
    ensures var s := After(o, specs, Init(specs), actions);
      && (s.c.outcome == Cancelled ==> RequestCancel in actions)
      && (s.c.outcome.Failed? ==>
            match s.c.outcome.fault
            case NoOwner(p, system) => UnownedAt(o, specs, p, system)
            case SinkFailed => Coordinate(false) in actions
            case SendFailed(w) => w < |s.phase| && s.phase[w] == Gone
            case TaskExited(error) => exists a :: a in actions && EndsTask(a, error)
            case FatalEvent(error) => exists p :: FatalAt(o, p, error)
            case Stalled => false
            case Disconnected => false)
  {
    InitGood(o, specs);
    RunJustified(o, specs, Init(specs), actions, {});
    forall a ensures a in {} + Happened(actions) <==> a in actions {
      HappenedMeans(actions, a);
    }
  }
}
