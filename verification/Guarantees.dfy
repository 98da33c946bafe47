/** The main results about the distributed evaluation, for every value graph,
    every worker pool and every interleaving. */
module Guarantees {
  import opened Types
  import opened Eval
  import opened Pool
  import opened Coordinator
  import opened Worklist
  import opened Distributed
  import opened Runs
  import opened Failures

  // ---- Topology and schedule invariance -----------------------------------

  /** The run never loses an answer: no item fails, times out or errors. */
  predicate NoFailures(actions: seq<Action>) {
    forall i :: 0 <= i < |actions| ==> !actions[i].FailItem?
  }

  predicate AllAnswered(mail: seq<Message>) {
    forall k :: 0 <= k < |mail| && mail[k].Reply? ==> mail[k].event.Ok?
  }

  ghost predicate Conserved(o: Oracle, s: State)
    requires WellBehaved(o)
  {
    && AllAnswered(s.mail)
    && (s.c.outcome == Running || s.c.outcome == Completed ==> Balanced(o, LedgerOf(s)))
  }

  lemma {:induction false} StepAnswered(o: Oracle, specs: seq<WorkerSpec>, s: State, a: Action)
    requires AllAnswered(s.mail) && Enabled(specs, s, a) && !a.FailItem?
    ensures AllAnswered(Apply(o, specs, s, a).mail)
  {
  }

  lemma {:induction false} CreditBalanced(o: Oracle, specs: seq<WorkerSpec>, s: State, sinkOk: bool)
    requires WellBehaved(o) && Protocol(o, specs, s) && AllAnswered(s.mail) && Balanced(o, LedgerOf(s))
    requires CoordinatorReady(specs, s) && Crediting(s)
    ensures var s' := CoordinatorStep(specs, s, sinkOk);
      s'.c.outcome == Running || s'.c.outcome == Completed ==> Balanced(o, LedgerOf(s'))
  {
    var m := s.mail[0];
    CreditStep(o, specs, s, sinkOk);
    assert MessageOk(o, specs, s, m);
    ReplyGenuine(o, specs, s, m);
    AnswerBalanced(o, LedgerOf(s), m.item);
  }

  lemma {:induction false} StepConserves(o: Oracle, specs: seq<WorkerSpec>, s: State, a: Action)
    requires WellBehaved(o) && Conserved(o, s) && Protocol(o, specs, s)
    requires Enabled(specs, s, a) && !a.FailItem?
    ensures Conserved(o, Apply(o, specs, s, a))
  {
    StepAnswered(o, specs, s, a);
    if a.Coordinate? {
      if Crediting(s) {
        CreditBalanced(o, specs, s, a.sinkOk);
      } else {
        BookkeepingStep(o, specs, s, a.sinkOk);
      }
    } else {
      assert LedgerOf(Apply(o, specs, s, a)) == LedgerOf(s);
    }
  }

  ghost predicate Sound(o: Oracle, specs: seq<WorkerSpec>, s: State) {
    WellBehaved(o) && Good(o, specs, s) && Conserved(o, s)
  }

  lemma {:induction false} StepSound(o: Oracle, specs: seq<WorkerSpec>, s: State, a: Action)
    requires Sound(o, specs, s) && Enabled(specs, s, a) && !a.FailItem?
    ensures Sound(o, specs, Apply(o, specs, s, a))
  {
    StepGood(o, specs, s, a);
    StepConserves(o, specs, s, a);
  }

  lemma {:induction false} RunSound(o: Oracle, specs: seq<WorkerSpec>, s: State, actions: seq<Action>)
    requires Sound(o, specs, s) && Legal(o, specs, s, actions) && NoFailures(actions)
    ensures Sound(o, specs, After(o, specs, s, actions))
    decreases |actions|
  {
    if actions != [] {
      StepSound(o, specs, s, actions[0]);
      RunSound(o, specs, Apply(o, specs, s, actions[0]), actions[1..]);
    }
  }

  lemma {:induction false} InitSound(o: Oracle, specs: seq<WorkerSpec>)
    requires WellBehaved(o) && WellFormedPool(specs)
    ensures Sound(o, specs, Init(specs))
  {
    InitGood(o, specs);
    BusyNone(Init(specs).held);
    assert LedgerOf(Init(specs)) == START;
    OwedStart(o);
  }

  /** A failure-free run that completes has emitted the events of the simple
      recursive walk, each exactly once: one event for every reachable path. */
  lemma {:induction false} CompletedRunIsWalk(o: Oracle, specs: seq<WorkerSpec>, actions: seq<Action>)
    requires WellBehaved(o) && WellFormedPool(specs)
    requires Legal(o, specs, Init(specs), actions) && NoFailures(actions)
    requires After(o, specs, Init(specs), actions).c.outcome == Completed
    ensures var log := After(o, specs, Init(specs), actions).c.log;
      && multiset(log) == multiset(Walk(o, []))
      && NoDuplicates(Paths(log))
      && (forall e :: e in log <==> e == o(e.At()) && Reachable(o, e.At()))
  {
    InitSound(o, specs);
    RunSound(o, specs, Init(specs), actions);
    WalkIsReachability(o);
    var log := After(o, specs, Init(specs), actions).c.log;
    forall e: Event ensures e in log <==> e == o(e.At()) && Reachable(o, e.At()) {
      assert e in log <==> e in multiset(log);
      assert e in Walk(o, []) <==> e in multiset(Walk(o, []));
    }
  }

  /** Any two pools and any two schedules emit the same events. */
  lemma {:induction false} TopologyInvariance(
    o: Oracle,
    specs1: seq<WorkerSpec>, actions1: seq<Action>,
    specs2: seq<WorkerSpec>, actions2: seq<Action>)
    requires WellBehaved(o) && WellFormedPool(specs1) && WellFormedPool(specs2)
    requires Legal(o, specs1, Init(specs1), actions1) && NoFailures(actions1)
    requires Legal(o, specs2, Init(specs2), actions2) && NoFailures(actions2)
    requires After(o, specs1, Init(specs1), actions1).c.outcome == Completed
    requires After(o, specs2, Init(specs2), actions2).c.outcome == Completed
    ensures multiset(After(o, specs1, Init(specs1), actions1).c.log)
         == multiset(After(o, specs2, Init(specs2), actions2).c.log)
  {
    CompletedRunIsWalk(o, specs1, actions1);
    CompletedRunIsWalk(o, specs2, actions2);
  }

  // ---- Completeness under failures ----------------------------------------

  /** Whatever workers failed, timed out or restarted on the way: in a completed
      run every discovered path has exactly one event, its own or the report of a
      failure there that happened in the run; every child an attribute set listed has one, emitted later;
      every path reported on was listed, earlier, by its parent. */
  lemma {:induction false} CompletedRunIsComplete(o: Oracle, specs: seq<WorkerSpec>, actions: seq<Action>)
    requires WellBehaved(o) && WellFormedPool(specs)
    requires Legal(o, specs, Init(specs), actions)
    requires After(o, specs, Init(specs), actions).c.outcome == Completed
    ensures var log := After(o, specs, Init(specs), actions).c.log;
      && NoDuplicates(Paths(log))
      && [] in Paths(log)
      && (forall i :: 0 <= i < |log| ==> Genuine(o, log[i].At(), log[i]))
      && (forall i :: 0 <= i < |log| ==>
            Explained(o, specs, FailuresOf(o, specs, Init(specs), actions), log[i]))
      && (forall i, name :: 0 <= i < |log| && name in log[i].Children() ==>
            ReportedAfter(log, i, log[i].At() + [name]))
      && (forall i :: 0 <= i < |log| ==> ListedBefore(log, i, log[i].At()))
  {
    InitGood(o, specs);
    RunGood(o, specs, Init(specs), actions);
    var s := After(o, specs, Init(specs), actions);
    FinishedLog(o, specs, s);
    forall i | 0 <= i < |s.c.log|
      ensures Explained(o, specs, FailuresOf(o, specs, Init(specs), actions), s.c.log[i])
    {
      EmittedExplained(o, specs, actions, s.c.log[i]);
    }
  }

  lemma {:induction false} FinishedLog(o: Oracle, specs: seq<WorkerSpec>, s: State)
    requires Good(o, specs, s) && s.c.outcome == Completed
    ensures var log := s.c.log;
      && NoDuplicates(Paths(log))
      && [] in Paths(log)
      && (forall i :: 0 <= i < |log| ==> Genuine(o, log[i].At(), log[i]))
      && (forall i, name :: 0 <= i < |log| && name in log[i].Children() ==>
            ReportedAfter(log, i, log[i].At() + [name]))
      && (forall i :: 0 <= i < |log| ==> ListedBefore(log, i, log[i].At()))
  {
    forall i, name | 0 <= i < |s.c.log| && name in s.c.log[i].Children()
      ensures ReportedAfter(s.c.log, i, s.c.log[i].At() + [name])
    {
      assert ChildKept(LedgerOf(s), i, name);
    }
    forall i | 0 <= i < |s.c.log| ensures ListedBefore(s.c.log, i, s.c.log[i].At()) {
      assert ReportListed(s.c.log, i);
    }
  }

  /** Every event of any run, however it ends, is the evaluator's answer for its path or
      the report of a failure there that happened in the run. */
  lemma {:induction false} EmittedGenuine(o: Oracle, specs: seq<WorkerSpec>, actions: seq<Action>, e: Event)
    requires WellBehaved(o) && WellFormedPool(specs)
    requires Legal(o, specs, Init(specs), actions) && e in After(o, specs, Init(specs), actions).c.log
    ensures Genuine(o, e.At(), e)
    ensures e == o(e.At())
            || exists f :: f in FailuresOf(o, specs, Init(specs), actions) && f.item == e.At() && Reports(specs, f, e)
  {
    EmittedExplained(o, specs, actions, e);
    var failures := FailuresOf(o, specs, Init(specs), actions);
    if e != o(e.At()) {
      var f :| f in failures && Reports(specs, f, e);
      assert f.item == e.At();
    }
  }

  /** Only reachable paths are ever queued or reported, so none is deeper than
      the traversal cap. */
  lemma {:induction false} QueuedPathsBounded(o: Oracle, specs: seq<WorkerSpec>, actions: seq<Action>, p: Path)
    requires WellBehaved(o) && WellFormedPool(specs)
    requires Legal(o, specs, Init(specs), actions)
    requires After(o, specs, Init(specs), actions).c.outcome == Running
    requires p in After(o, specs, Init(specs), actions).c.todo
    ensures Reachable(o, p) && |p| <= MAX_ATTR_DEPTH
  {
    InitGood(o, specs);
    RunGood(o, specs, Init(specs), actions);
    var s := After(o, specs, Init(specs), actions);
    assert p in LedgerOf(s).pending;
    DiscoveredReachable(o, LedgerOf(s), p);
  }

  // ---- Ownership routing ---------------------------------------------------

  ghost predicate EverySystemOwned(o: Oracle, specs: seq<WorkerSpec>) {
    forall p: Path :: Reachable(o, p) && o(p).DerivationEvent? ==> Covered(specs, o(p).drv.system)
  }

  /** No derivation is ever emitted, in any run however it ends, unless some
      worker of the pool owns its system. */
  lemma {:induction false} EmittedDerivationsOwned(o: Oracle, specs: seq<WorkerSpec>, actions: seq<Action>, e: Event)
    requires WellBehaved(o) && WellFormedPool(specs)
    requires Legal(o, specs, Init(specs), actions)
    requires e in After(o, specs, Init(specs), actions).c.log && e.DerivationEvent?
    ensures Covered(specs, e.drv.system)
  {
    InitGood(o, specs);
    RunGood(o, specs, Init(specs), actions);
  }

  /** A failure-free run completes only if every reachable system is owned. */
  lemma {:induction false} CompletionNeedsOwners(o: Oracle, specs: seq<WorkerSpec>, actions: seq<Action>)
    requires WellBehaved(o) && WellFormedPool(specs)
    requires Legal(o, specs, Init(specs), actions) && NoFailures(actions)
    requires After(o, specs, Init(specs), actions).c.outcome == Completed
    ensures EverySystemOwned(o, specs)
  {
    CompletedRunIsWalk(o, specs, actions);
    forall p: Path | Reachable(o, p) && o(p).DerivationEvent? ensures Covered(specs, o(p).drv.system) {
      assert BehavesAt(o, p);
      EmittedDerivationsOwned(o, specs, actions, o(p));
    }
  }

  /** With every reachable system owned, no step ends the run for want of an
      owner, whatever workers fail. */
  lemma {:induction false} OwnersSuffice(o: Oracle, specs: seq<WorkerSpec>, s: State, a: Action)
    requires WellBehaved(o) && EverySystemOwned(o, specs)
    requires Good(o, specs, s) && Enabled(specs, s, a)
    ensures var r := Apply(o, specs, s, a).c.outcome; r.Failed? ==> !r.fault.NoOwner?
  {
    if a.Coordinate? {
      if Crediting(s) {
        NoOwnerMeansUncovered(specs, s, a.sinkOk);
        CreditedOwned(o, specs, s);
      } else {
        BookkeepingStep(o, specs, s, a.sinkOk);
      }
    }
  }

  predicate EndsUnowned(s: State) {
    s.c.outcome.Failed? && s.c.outcome.fault.NoOwner?
  }

  lemma {:induction false} RunOwned(o: Oracle, specs: seq<WorkerSpec>, s: State, actions: seq<Action>)
    requires WellBehaved(o) && EverySystemOwned(o, specs) && Good(o, specs, s) && !EndsUnowned(s)
    requires Legal(o, specs, s, actions)
    ensures !EndsUnowned(After(o, specs, s, actions))
    decreases |actions|
  {
    if actions != [] {
      OwnersSuffice(o, specs, s, actions[0]);
      StepGood(o, specs, s, actions[0]);
      RunOwned(o, specs, Apply(o, specs, s, actions[0]), actions[1..]);
    }
  }

  /** With every reachable system owned, by a local worker, a remote that takes any
      system, or between them, no run ends for want of an owner, whatever fails. */
  lemma {:induction false} OwnedRunsNeverEndUnowned(o: Oracle, specs: seq<WorkerSpec>, actions: seq<Action>)
    requires WellBehaved(o) && WellFormedPool(specs) && EverySystemOwned(o, specs)
    requires Legal(o, specs, Init(specs), actions)
    ensures !EndsUnowned(After(o, specs, Init(specs), actions))
  {
    InitGood(o, specs);
    RunOwned(o, specs, Init(specs), actions);
  }

  /** The configuration's own words: whatever fails, a derivation for a system that no
      remote lists is never emitted by a pool of remotes that all list systems. */
  lemma {:induction false} UnlistedNeverEmitted(o: Oracle, specs: seq<WorkerSpec>, actions: seq<Action>, d: Derivation)
    requires WellBehaved(o) && WellFormedPool(specs) && Legal(o, specs, Init(specs), actions)
    requires forall i :: 0 <= i < |specs| ==>
      && specs[i].kind.RemoteWorker? && specs[i].kind.remote.systems != []
      && d.system !in specs[i].kind.remote.systems
    ensures DerivationEvent(d) !in After(o, specs, Init(specs), actions).c.log
  {
    CoveredMeans(specs, d.system);
    if DerivationEvent(d) in After(o, specs, Init(specs), actions).c.log {
      EmittedDerivationsOwned(o, specs, actions, DerivationEvent(d));
    }
  }

  /** And a run over systems that are all listed, or for which there is a local worker
      or a remote that lists none, never ends for want of an owner. */
  lemma {:induction false} ListedNeverEnds(o: Oracle, specs: seq<WorkerSpec>, actions: seq<Action>)
    requires WellBehaved(o) && WellFormedPool(specs) && Legal(o, specs, Init(specs), actions)
    requires forall p: Path :: Reachable(o, p) && o(p).DerivationEvent? ==>
      exists i :: 0 <= i < |specs|
                  && (specs[i].kind.Local?
                      || specs[i].kind.remote.systems == []
                      || o(p).drv.system in specs[i].kind.remote.systems)
    ensures !EndsUnowned(After(o, specs, Init(specs), actions))
  {
    forall p: Path | Reachable(o, p) && o(p).DerivationEvent? ensures Covered(specs, o(p).drv.system) {
      CoveredMeans(specs, o(p).drv.system);
    }
    OwnedRunsNeverEndUnowned(o, specs, actions);
  }

  /** In a pool of remotes that all list systems, a clean run over a graph that reaches
      a derivation for a system none of them lists does not complete. */
  lemma {:induction false} UnlistedNeverCompletes(o: Oracle, specs: seq<WorkerSpec>, actions: seq<Action>, p: Path)
    requires WellBehaved(o) && WellFormedPool(specs) && Legal(o, specs, Init(specs), actions) && NoFailures(actions)
    requires Reachable(o, p) && o(p).DerivationEvent?
    requires forall i :: 0 <= i < |specs| ==>
      && specs[i].kind.RemoteWorker? && specs[i].kind.remote.systems != []
      && o(p).drv.system !in specs[i].kind.remote.systems
    ensures After(o, specs, Init(specs), actions).c.outcome != Completed
  {
    CoveredMeans(specs, o(p).drv.system);
    if After(o, specs, Init(specs), actions).c.outcome == Completed {
      CompletionNeedsOwners(o, specs, actions);
    }
  }

  lemma {:induction false} AnyoneOwns(o: Oracle, specs: seq<WorkerSpec>, w: nat)
    requires w < |specs|
    requires specs[w].kind.RemoteWorker? ==> specs[w].kind.remote.systems == []
    ensures EverySystemOwned(o, specs)
  {
    forall p: Path | Reachable(o, p) && o(p).DerivationEvent? ensures Covered(specs, o(p).drv.system) {
      assert WorkerAcceptsSystem(specs[w], o(p).drv.system);
    }
  }

  lemma {:induction false} CreditedOwned(o: Oracle, specs: seq<WorkerSpec>, s: State)
    requires WellBehaved(o) && EverySystemOwned(o, specs)
    requires Inv(o, specs, s) && CoordinatorReady(specs, s) && Crediting(s)
    ensures var e := EventOf(specs, s.mail[0]); e.DerivationEvent? ==> Covered(specs, e.drv.system)
  {
    CreditStep(o, specs, s, true);
    DiscoveredReachable(o, LedgerOf(s), s.mail[0].item);
  }

  // ---- Shutting down -------------------------------------------------------

  /** Only a coordinator with nothing in flight ends the run as completed, and it
      touches no worker in doing so. */
  lemma {:induction false} CompletingStep(specs: seq<WorkerSpec>, s: State, sinkOk: bool)
    requires |s.phase| == |s.work| == |s.held| == |specs| && CoordinatorReady(specs, s) && s.c.outcome == Running
    requires CoordinatorStep(specs, s, sinkOk).c.outcome == Completed
    ensures s.c.active == 0
    ensures CoordinatorStep(specs, s, sinkOk) == s.(c := CoordinatorStep(specs, s, sinkOk).c)
  {
  }

  predicate HasNoWork(s: State, w: nat)
    requires |s.phase| == |s.work| == |s.held|
  {
    w < |s.work| && s.work[w].None? && s.held[w].None? && !s.phase[w].Evaluating?
  }

  /** When a run completes, no worker has an item left in its channel or in hand,
      so the stop commands that follow are accepted at once. */
  lemma {:induction false} CompletionLeavesNoWork(o: Oracle, specs: seq<WorkerSpec>, s: State, sinkOk: bool, w: nat)
    requires Protocol(o, specs, s) && CoordinatorReady(specs, s) && w < |specs|
    requires CoordinatorStep(specs, s, sinkOk).c.outcome == Completed
    ensures HasNoWork(CoordinatorStep(specs, s, sinkOk), w)
  {
    CompletingStep(specs, s, sinkOk);
    assert WorkerOk(specs, s, w);
    if s.held[w].Some? {
      BusyClear(s.held, w, s.held[w].value);
    }
  }
}
