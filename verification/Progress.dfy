/** Termination, absence of deadlock, and total correctness of the distributed
    evaluation: one measure drops with every action, some harmless action is possible
    for as long as the run goes on, and an undisturbed run that can go no further has
    completed with exactly the walk. */
module Progress {
  import opened Types
  import opened Eval
  import opened Pool
  import opened Coordinator
  import opened Worklist
  import opened Distributed
  import opened Runs
  import opened Guarantees

  // ---- A measure every action lowers --------------------------------------

  function Sum(a: seq<nat>): nat {
    if a == [] then 0 else a[0] + Sum(a[1..])
  }

  lemma {:induction false} SumUpdate(a: seq<nat>, i: nat, x: nat)
    requires i < |a|
    ensures Sum(a[i := x]) + a[i] == Sum(a) + x
    decreases |a|
  {
    if i == 0 {
      assert a[i := x][1..] == a[1..];
    } else {
      assert a[i := x][1..] == a[1..][i - 1 := x];
      SumUpdate(a[1..], i - 1, x);
    }
  }

  lemma {:induction false} SumBound(a: seq<nat>, bound: nat)
    requires forall i :: 0 <= i < |a| ==> a[i] <= bound
    ensures Sum(a) <= |a| * bound
  {
    if a != [] {
      SumBound(a[1..], bound);
    }
  }

  /** The worth of a `Ready` or parting message on a pool of `n` workers. */
  function Postage(n: nat): nat {
    n + 3
  }

  function PhaseRank(phase: Phase, n: nat): nat {
    match phase
    case Starting => 2 * Postage(n) + 2
    case Blocked => Postage(n) + 1
    case Evaluating(_) => Postage(n) + 1
    case Recovering => Postage(n) + 2
    case Gone => 0
  }

  /** How far the item a worker holds has travelled towards its reply. */
  function Stage(phase: Phase, work: Option<Path>, held: Option<Path>): nat {
    if held.None? then 0 else if work.Some? then 1 else if phase.Evaluating? then 2 else 4
  }

  function WorkerRank(phase: Phase, work: Option<Path>, held: Option<Path>, n: nat): nat {
    PhaseRank(phase, n) + 4 - Stage(phase, work, held)
  }

  function WorkerRanks(specs: seq<WorkerSpec>, s: State): seq<nat>
    requires |s.phase| == |s.work| == |s.held| == |specs|
  {
    seq(|specs|, w requires 0 <= w < |specs| => WorkerRank(s.phase[w], s.work[w], s.held[w], |specs|))
  }

  function MailRank(mail: seq<Message>, n: nat): nat {
    if mail == [] then 0 else (if mail[0].Reply? then 0 else Postage(n)) + MailRank(mail[1..], n)
  }

  lemma {:induction false} MailRankAppend(mail: seq<Message>, m: Message, n: nat)
    ensures MailRank(mail + [m], n) == MailRank(mail, n) + if m.Reply? then 0 else Postage(n)
  {
    if mail == [] {
      assert mail + [m] == [m];
    } else {
      assert (mail + [m])[1..] == mail[1..] + [m];
      MailRankAppend(mail[1..], m, n);
    }
  }

  function PcRank(c: Coord): nat {
    match c.pc
    case AtHead => |c.idle| + 2
    case Dispatching(left) => left + 1
    case Waiting => 0
  }

  function LocalRank(specs: seq<WorkerSpec>, s: State): nat
    requires |s.phase| == |s.work| == |s.held| == |specs|
  {
    Sum(WorkerRanks(specs, s)) + MailRank(s.mail, |specs|) + PcRank(s.c) + if s.cancel then 0 else 1
  }

  function Weight(n: nat, owed: nat): nat {
    (n + 8) * owed
  }

  ghost function Rank(o: Oracle, specs: seq<WorkerSpec>, s: State): nat
    requires WellBehaved(o) && |s.phase| == |s.work| == |s.held| == |specs|
  {
    Weight(|specs|, |Owed(o, LedgerOf(s).pending)|) + LocalRank(specs, s)
  }

  lemma {:induction false} DistinctBounded(ids: seq<nat>, n: nat)
    requires NoDuplicates(ids) && forall i :: 0 <= i < |ids| ==> ids[i] < n
    ensures |ids| <= n
    decreases n
  {
    if ids != [] {
      assert ids[0] < n;
      if i :| 0 <= i < |ids| && ids[i] == n - 1 {
        DistinctBounded(ids[..i] + ids[i + 1..], n - 1);
      } else {
        DistinctBounded(ids, n - 1);
      }
    }
  }

  lemma {:induction false} OneWorkerChanged(specs: seq<WorkerSpec>, s: State, s': State, w: nat)
    requires |s.phase| == |s.work| == |s.held| == |specs| && w < |specs|
    requires |s'.phase| == |s'.work| == |s'.held| == |specs|
    requires s'.phase == s.phase[w := s'.phase[w]]
    requires s'.work == s.work[w := s'.work[w]]
    requires s'.held == s.held[w := s'.held[w]]
    ensures Sum(WorkerRanks(specs, s')) + WorkerRank(s.phase[w], s.work[w], s.held[w], |specs|)
         == Sum(WorkerRanks(specs, s)) + WorkerRank(s'.phase[w], s'.work[w], s'.held[w], |specs|)
  {
    var a, a' := WorkerRanks(specs, s), WorkerRanks(specs, s');
    assert a' == a[w := a'[w]];
    SumUpdate(a, w, a'[w]);
  }

  /** What a worker gives up covers the postage of the message it sends. */
  lemma {:induction false} WorkerPaysPostage(o: Oracle, specs: seq<WorkerSpec>, s: State, a: Action)
    requires Enabled(specs, s, a) && IsWorkerAction(a) && WorkerOk(specs, s, a.w)
    ensures var s', m, n := Apply(o, specs, s, a), Posted(o, specs, s, a), |specs|;
      WorkerRank(s'.phase[a.w], s'.work[a.w], s'.held[a.w], n) + (if m.Some? && !m.value.Reply? then Postage(n) else 0)
      < WorkerRank(s.phase[a.w], s.work[a.w], s.held[a.w], n)
  {
  }

  lemma {:induction false} WorkerActionDecreases(o: Oracle, specs: seq<WorkerSpec>, s: State, a: Action)
    requires Enabled(specs, s, a) && IsWorkerAction(a) && WorkerOk(specs, s, a.w)
    ensures LocalRank(specs, Apply(o, specs, s, a)) < LocalRank(specs, s)
  {
    var s', m := Apply(o, specs, s, a), Posted(o, specs, s, a);
    assert s'.mail == if m.Some? then s.mail + [m.value] else s.mail;
    if m.Some? {
      MailRankAppend(s.mail, m.value, |specs|);
    }
    WorkerPaysPostage(o, specs, s, a);
    OneWorkerChanged(specs, s, s', a.w);
  }

  lemma {:induction false} SendDecreases(o: Oracle, specs: seq<WorkerSpec>, s: State)
    requires Protocol(o, specs, s) && CoordinatorReady(specs, s) && Offering(s.c)
    requires s.phase[s.c.idle[0]] != Gone
    ensures LocalRank(specs, CoordinatorStep(specs, s, true)) < LocalRank(specs, s)
  {
    SendNeverBlocks(o, specs, s);
    OneWorkerChanged(specs, s, CoordinatorStep(specs, s, true), s.c.idle[0]);
  }

  lemma {:induction false} AnnounceDecreases(o: Oracle, specs: seq<WorkerSpec>, s: State)
    requires Protocol(o, specs, s) && s.c.pc.Waiting? && s.mail != [] && s.mail[0].Ready?
    ensures LocalRank(specs, CoordinatorStep(specs, s, true)) < LocalRank(specs, s)
  {
    var s' := CoordinatorStep(specs, s, true);
    AnnounceKeeps(o, specs, s);
    DistinctBounded(s'.c.idle, |specs|);
    assert WorkerRanks(specs, s') == WorkerRanks(specs, s);
  }

  lemma {:induction false} BookkeepingDecreases(o: Oracle, specs: seq<WorkerSpec>, s: State, sinkOk: bool)
    requires Protocol(o, specs, s) && CoordinatorReady(specs, s) && !Crediting(s)
    requires CoordinatorStep(specs, s, sinkOk).c.outcome == Running
    ensures LocalRank(specs, CoordinatorStep(specs, s, sinkOk)) < LocalRank(specs, s)
  {
    if s.c.pc.Waiting? {
      AnnounceDecreases(o, specs, s);
    } else if Offering(s.c) {
      SendDecreases(o, specs, s);
    } else {
      assert WorkerRanks(specs, CoordinatorStep(specs, s, sinkOk)) == WorkerRanks(specs, s);
    }
  }

  lemma {:induction false} CreditLocalRank(o: Oracle, specs: seq<WorkerSpec>, s: State, sinkOk: bool)
    requires Protocol(o, specs, s) && CoordinatorReady(specs, s) && Crediting(s)
    requires CoordinatorStep(specs, s, sinkOk).c.outcome == Running
    ensures LocalRank(specs, CoordinatorStep(specs, s, sinkOk)) < LocalRank(specs, s) + |specs| + 8
  {
    var s' := CoordinatorStep(specs, s, sinkOk);
    CreditStep(o, specs, s, sinkOk);
    DistinctBounded(s'.c.idle, |specs|);
    OneWorkerChanged(specs, s, s', s.mail[0].worker);
  }

  /** Every action that does not end the run lowers the measure. */
  lemma {:induction false} StepDecreases(o: Oracle, specs: seq<WorkerSpec>, s: State, a: Action)
    requires WellBehaved(o) && Protocol(o, specs, s) && Enabled(specs, s, a)
    requires Apply(o, specs, s, a).c.outcome == Running
    ensures |Apply(o, specs, s, a).phase| == |Apply(o, specs, s, a).work| == |Apply(o, specs, s, a).held| == |specs|
    ensures Rank(o, specs, Apply(o, specs, s, a)) < Rank(o, specs, s)
  {
    var s' := Apply(o, specs, s, a);
    if a.Coordinate? && Crediting(s) {
      CreditStep(o, specs, s, a.sinkOk);
      CreditLocalRank(o, specs, s, a.sinkOk);
      FinishDecreases(o, LedgerOf(s), s.mail[0].item, EventOf(specs, s.mail[0]));
      WeightDrops(|specs|, |Owed(o, LedgerOf(s').pending)|, |Owed(o, LedgerOf(s).pending)|);
    } else if a.Coordinate? {
      BookkeepingStep(o, specs, s, a.sinkOk);
      BookkeepingDecreases(o, specs, s, a.sinkOk);
    } else {
      assert LedgerOf(s') == LedgerOf(s);
      if a.RequestCancel? {
        assert WorkerRanks(specs, s') == WorkerRanks(specs, s);
      } else {
        assert WorkerOk(specs, s, a.w);
        WorkerActionDecreases(o, specs, s, a);
      }
    }
  }

  lemma {:induction false} WeightDrops(n: nat, x: nat, y: nat)
    requires x < y
    ensures Weight(n, x) + n + 8 <= Weight(n, y)
  {
    assert (n + 8) * (x + 1) <= (n + 8) * y;
  }

  lemma {:induction false} RunBounded(o: Oracle, specs: seq<WorkerSpec>, s: State, actions: seq<Action>)
    requires WellBehaved(o) && Good(o, specs, s) && Legal(o, specs, s, actions)
    requires |s.phase| == |s.work| == |s.held| == |specs|
    ensures |actions| <= Rank(o, specs, s) + 1
    decreases |actions|
  {
    if actions != [] {
      var next := Apply(o, specs, s, actions[0]);
      StepGood(o, specs, s, actions[0]);
      if next.c.outcome == Running {
        StepDecreases(o, specs, s, actions[0]);
        RunBounded(o, specs, next, actions[1..]);
      }
    }
  }

  lemma {:induction false} InitialLocalRank(specs: seq<WorkerSpec>)
    requires WellFormedPool(specs)
    ensures var s, n := Init(specs), |specs|;
      |s.phase| == |s.work| == |s.held| == n && LocalRank(specs, s) <= n * (2 * n + 12) + n + 3
  {
    var s, n := Init(specs), |specs|;
    SumBound(WorkerRanks(specs, s), 2 * n + 12);
    forall i | 0 <= i < |s.c.idle| ensures s.c.idle[i] < n {
      assert s.c.idle[i] in UnforkedIds(specs);
    }
    DistinctBounded(s.c.idle, n);
  }

  /** Every run is finite: its length is bounded by the size of the walk and of
      the pool, on cyclic graphs and under any failures, restarts and timeouts. */
  lemma {:induction false} EveryRunTerminates(o: Oracle, specs: seq<WorkerSpec>, actions: seq<Action>)
    requires WellBehaved(o) && WellFormedPool(specs) && Legal(o, specs, Init(specs), actions)
    ensures var n := |specs|; |actions| <= Weight(n, |Walk(o, [])|) + n * (2 * n + 12) + n + 4
  {
    InitGood(o, specs);
    InitialLocalRank(specs);
    RunBounded(o, specs, Init(specs), actions);
    BusyNone(Init(specs).held);
    assert LedgerOf(Init(specs)) == START;
    OwedStart(o);
  }

  // ---- No deadlock ---------------------------------------------------------

  /** An action that is neither a fault nor a cancellation. */
  predicate Quiet(a: Action) {
    match a
    case Coordinate(sinkOk) => sinkOk
    case Started(_) => true
    case Take(_) => true
    case Answer(_, _) => true
    case Recovered(_) => true
    case _ => false
  }

  /** While the coordinator waits, some worker holds an item, and that worker or
      the coordinator can move: no reachable state is stuck. */
  lemma {:induction false} NeverStuck(o: Oracle, specs: seq<WorkerSpec>, s: State) returns (a: Action)
    requires Protocol(o, specs, s)
    ensures Quiet(a) && Enabled(specs, s, a)
    ensures s.c.pc.Waiting? ==> exists w :: 0 <= w < |specs| && s.held[w].Some?
  {
    if s.c.pc.Waiting? {
      BusySome(s.held);
      if s.mail == [] {
        a := HolderMoves(o, specs, s);
      } else {
        assert MessageOk(o, specs, s, s.mail[0]);
        a := Coordinate(true);
      }
    } else {
      if Offering(s.c) {
        SendNeverBlocks(o, specs, s);
      }
      a := Coordinate(true);
    }
  }

  lemma {:induction false} HolderMoves(o: Oracle, specs: seq<WorkerSpec>, s: State) returns (a: Action)
    requires Protocol(o, specs, s) && s.mail == [] && exists w :: 0 <= w < |specs| && s.held[w].Some?
    ensures Quiet(a) && Enabled(specs, s, a)
  {
    var w :| 0 <= w < |specs| && s.held[w].Some?;
    assert WorkerOk(specs, s, w);
    assert !HasParting(s.mail);
    assert s.phase[w] != Gone;
    match s.phase[w] {
      case Starting => a := Started(w);
      case Blocked => a := Take(w);
      case Evaluating(_) => a := Answer(w, false);
      case Recovering => a := Recovered(w);
    }
  }

  // ---- Total correctness of undisturbed runs ------------------------------

  predicate AllQuiet(actions: seq<Action>) {
    forall i :: 0 <= i < |actions| ==> Quiet(actions[i])
  }

  ghost predicate NeverFatal(o: Oracle) {
    forall p: Path :: o(p).ErrorEvent? ==> !o(p).err.fatal
  }

  predicate Calm(s: State) {
    && !s.cancel
    && (forall w :: 0 <= w < |s.phase| ==> s.phase[w] != Gone)
    && (forall k :: 0 <= k < |s.mail| ==> !Parting(s.mail[k]))
  }

  ghost predicate Undisturbed(o: Oracle, specs: seq<WorkerSpec>, s: State) {
    && Sound(o, specs, s)
    && NeverFatal(o)
    && EverySystemOwned(o, specs)
    && Calm(s)
    && (s.c.outcome == Running || s.c.outcome == Completed)
  }

  lemma {:induction false} QuietCalm(o: Oracle, specs: seq<WorkerSpec>, s: State, a: Action)
    requires Calm(s) && Enabled(specs, s, a) && Quiet(a)
    ensures Calm(Apply(o, specs, s, a))
  {
  }

  /** A non-fatal event whose system, if it has one, is owned lets the run go on. */
  lemma {:induction false} CreditContinues(specs: seq<WorkerSpec>, s: State)
    requires |s.phase| == |s.work| == |s.held| == |specs| && s.c.outcome == Running
    requires CoordinatorReady(specs, s) && Crediting(s)
    requires var e := EventOf(specs, s.mail[0]);
      (e.ErrorEvent? ==> !e.err.fatal) && (e.DerivationEvent? ==> Covered(specs, e.drv.system))
    ensures CoordinatorStep(specs, s, true).c.outcome == Running
  {
    var m := s.mail[0];
    if EventOf(specs, m).DerivationEvent? {
      DispositionIsOwnership(specs, m.worker, EventOf(specs, m));
    }
  }

  lemma {:induction false} QuietCredit(o: Oracle, specs: seq<WorkerSpec>, s: State)
    requires Undisturbed(o, specs, s) && s.c.outcome == Running
    requires CoordinatorReady(specs, s) && Crediting(s)
    ensures CoordinatorStep(specs, s, true).c.outcome == Running
  {
    assert MessageOk(o, specs, s, s.mail[0]);
    CreditedOwned(o, specs, s);
    assert EventOf(specs, s.mail[0]) == o(s.mail[0].item);
    CreditContinues(specs, s);
  }

  /** Nothing in a calm state makes the coordinator give up. */
  lemma {:induction false} CalmCoordinator(specs: seq<WorkerSpec>, s: State)
    requires |s.phase| == |s.work| == |s.held| == |specs| && s.c.error.None? && s.c.outcome == Running
    requires CoordinatorReady(specs, s) && Calm(s) && !Crediting(s)
    ensures var r := CoordinatorStep(specs, s, true).c.outcome;
      r != Cancelled && (r.Failed? ==> r.fault == Stalled || r.fault == Disconnected)
  {
  }

  lemma {:induction false} QuietOutcome(o: Oracle, specs: seq<WorkerSpec>, s: State, a: Action)
    requires Undisturbed(o, specs, s) && Enabled(specs, s, a) && Quiet(a)
    ensures var r := Apply(o, specs, s, a).c.outcome; r == Running || r == Completed
  {
    if a.Coordinate? {
      if Crediting(s) {
        QuietCredit(o, specs, s);
      } else {
        BookkeepingStep(o, specs, s, true);
        CalmCoordinator(specs, s);
      }
    }
  }

  lemma {:induction false} QuietStep(o: Oracle, specs: seq<WorkerSpec>, s: State, a: Action)
    requires Undisturbed(o, specs, s) && Enabled(specs, s, a) && Quiet(a)
    ensures Undisturbed(o, specs, Apply(o, specs, s, a))
  {
    StepSound(o, specs, s, a);
    QuietCalm(o, specs, s, a);
    QuietOutcome(o, specs, s, a);
  }

  lemma {:induction false} QuietRun(o: Oracle, specs: seq<WorkerSpec>, s: State, actions: seq<Action>)
    requires Undisturbed(o, specs, s) && Legal(o, specs, s, actions) && AllQuiet(actions)
    ensures Undisturbed(o, specs, After(o, specs, s, actions))
    decreases |actions|
  {
    if actions != [] {
      QuietStep(o, specs, s, actions[0]);
      QuietRun(o, specs, Apply(o, specs, s, actions[0]), actions[1..]);
    }
  }

  ghost predicate Exhausted(specs: seq<WorkerSpec>, s: State) {
    forall a: Action :: Quiet(a) ==> !Enabled(specs, s, a)
  }

  lemma {:induction false} ExhaustedIsOver(o: Oracle, specs: seq<WorkerSpec>, s: State)
    requires Exhausted(specs, s) && Undisturbed(o, specs, s)
    ensures s.c.outcome == Completed
  {
    if s.c.outcome == Running {
      var a := NeverStuck(o, specs, s);
    }
  }

  lemma {:induction false} UndisturbedThroughout(o: Oracle, specs: seq<WorkerSpec>, actions: seq<Action>)
    requires WellBehaved(o) && NeverFatal(o) && WellFormedPool(specs) && EverySystemOwned(o, specs)
    requires Legal(o, specs, Init(specs), actions) && AllQuiet(actions)
    ensures Undisturbed(o, specs, After(o, specs, Init(specs), actions))
  {
    InitSound(o, specs);
    QuietRun(o, specs, Init(specs), actions);
  }

  /** With no faults and every reachable system owned, a run that can go no
      further has completed, and has emitted exactly the simple walk. */
  lemma {:induction false} UndisturbedRunsComplete(o: Oracle, specs: seq<WorkerSpec>, actions: seq<Action>)
    requires WellBehaved(o) && NeverFatal(o) && WellFormedPool(specs) && EverySystemOwned(o, specs)
    requires Legal(o, specs, Init(specs), actions) && AllQuiet(actions)
    requires Exhausted(specs, After(o, specs, Init(specs), actions))
    ensures After(o, specs, Init(specs), actions).c.outcome == Completed
    ensures multiset(After(o, specs, Init(specs), actions).c.log) == multiset(Walk(o, []))
  {
    UndisturbedThroughout(o, specs, actions);
    ExhaustedIsOver(o, specs, After(o, specs, Init(specs), actions));
    QuietHasNoFailures(actions);
    CompletedRunIsWalk(o, specs, actions);
  }

  lemma {:induction false} QuietHasNoFailures(actions: seq<Action>)
    requires AllQuiet(actions)
    ensures NoFailures(actions)
  {
  }

  lemma {:induction false} RunCons(o: Oracle, specs: seq<WorkerSpec>, s: State, a: Action, rest: seq<Action>)
    requires Enabled(specs, s, a) && Legal(o, specs, Apply(o, specs, s, a), rest)
    ensures Legal(o, specs, s, [a] + rest)
    ensures After(o, specs, s, [a] + rest) == After(o, specs, Apply(o, specs, s, a), rest)
    ensures Quiet(a) && AllQuiet(rest) ==> AllQuiet([a] + rest)
  {
    assert ([a] + rest)[1..] == rest;
  }

  ghost predicate Measurable(specs: seq<WorkerSpec>, s: State) {
    |s.phase| == |s.work| == |s.held| == |specs|
  }

  lemma {:induction false} UndisturbedMoves(o: Oracle, specs: seq<WorkerSpec>, s: State) returns (a: Action)
    requires Undisturbed(o, specs, s) && s.c.outcome == Running
    ensures Quiet(a) && Enabled(specs, s, a)
  {
    a := NeverStuck(o, specs, s);
  }

  lemma {:induction false} QuietRankDrops(o: Oracle, specs: seq<WorkerSpec>, s: State, a: Action)
    requires WellBehaved(o) && Good(o, specs, s) && Enabled(specs, s, a) && Measurable(specs, s)
    ensures Measurable(specs, Apply(o, specs, s, a))
    ensures Apply(o, specs, s, a).c.outcome == Running ==>
      Rank(o, specs, Apply(o, specs, s, a)) < Rank(o, specs, s)
  {
    if Apply(o, specs, s, a).c.outcome == Running {
      StepDecreases(o, specs, s, a);
    }
  }

  lemma {:induction false} QuietMove(o: Oracle, specs: seq<WorkerSpec>, s: State) returns (a: Action, next: State)
    requires Undisturbed(o, specs, s) && Measurable(specs, s) && s.c.outcome == Running
    ensures Quiet(a) && Enabled(specs, s, a) && next == Apply(o, specs, s, a)
    ensures Undisturbed(o, specs, next) && Measurable(specs, next)
    ensures next.c.outcome == Running ==> Rank(o, specs, next) < Rank(o, specs, s)
  {
    a := UndisturbedMoves(o, specs, s);
    QuietStep(o, specs, s, a);
    QuietRankDrops(o, specs, s, a);
    next := Apply(o, specs, s, a);
  }

  /** Such a run exists from every undisturbed state. */
  lemma {:induction false} CanComplete(o: Oracle, specs: seq<WorkerSpec>, s: State) returns (actions: seq<Action>)
    requires Undisturbed(o, specs, s) && Measurable(specs, s)
    ensures Legal(o, specs, s, actions) && AllQuiet(actions)
    ensures After(o, specs, s, actions).c.outcome == Completed
    decreases Rank(o, specs, s)
  {
    actions := [];
    if s.c.outcome == Running {
      var a, next := QuietMove(o, specs, s);
      if next.c.outcome == Running {
        actions := CanComplete(o, specs, next);
      }
      RunCons(o, specs, s, a, actions);
      actions := [a] + actions;
    }
  }
}
