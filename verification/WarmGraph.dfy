/** The warm graph of a completed run, and diffs between runs, in terms of the
    evaluator alone: no pool and no schedule shows through. */
module WarmGraph {
  import opened Types
  import opened Eval
  import opened Pool
  import opened Coordinator
  import opened Worklist
  import opened Distributed
  import opened Guarantees
  import opened Graphs

  /** A failure-free run of `specs` under `actions` completed. */
  ghost predicate CleanRun(o: Oracle, specs: seq<WorkerSpec>, actions: seq<Action>) {
    && WellFormedPool(specs) && Legal(o, specs, Init(specs), actions) && NoFailures(actions)
    && After(o, specs, Init(specs), actions).c.outcome == Completed
  }

  ghost function GraphAfter(o: Oracle, specs: seq<WorkerSpec>, actions: seq<Action>): Graph
    requires CleanRun(o, specs, actions)
  {
    Recorded(After(o, specs, Init(specs), actions).c.log)
  }

  /** The evaluator finds derivation `d` at its path. */
  ghost predicate Finds(o: Oracle, d: Derivation) {
    Reachable(o, d.attrPath) && o(d.attrPath) == DerivationEvent(d)
  }

  /** The warm graph holds exactly the derivations the evaluator finds. */
  lemma {:induction false} WarmGraphIsOracle(o: Oracle, specs: seq<WorkerSpec>, actions: seq<Action>)
    requires WellBehaved(o) && CleanRun(o, specs, actions)
    ensures WellKeyed(GraphAfter(o, specs, actions))
    ensures forall d: Derivation :: Finds(o, d) <==>
              d.attrPath in GraphAfter(o, specs, actions) && GraphAfter(o, specs, actions)[d.attrPath] == d
  {
    var log := After(o, specs, Init(specs), actions).c.log;
    CompletedRunIsWalk(o, specs, actions);
    RecordedWellKeyed(log);
    forall d: Derivation
      ensures Finds(o, d) <==> d.attrPath in Recorded(log) && Recorded(log)[d.attrPath] == d
    {
      RecordedIsStream(log, d);
      assert DerivationEvent(d) in log <==> Finds(o, d);
    }
  }

  /** Evaluating the same input again, on any other pool and schedule, gives the
      same graph, so the diff is empty. */
  lemma {:induction false} UnchangedInputNoDiff(
    o: Oracle,
    specs1: seq<WorkerSpec>, actions1: seq<Action>,
    specs2: seq<WorkerSpec>, actions2: seq<Action>, d: Diff)
    requires WellBehaved(o) && CleanRun(o, specs1, actions1) && CleanRun(o, specs2, actions2)
    requires IsDiff(GraphAfter(o, specs1, actions1), GraphAfter(o, specs2, actions2), d)
    ensures GraphAfter(o, specs1, actions1) == GraphAfter(o, specs2, actions2)
    ensures d.added == [] && d.removed == []
  {
    var log1 := After(o, specs1, Init(specs1), actions1).c.log;
    var log2 := After(o, specs2, Init(specs2), actions2).c.log;
    CompletedRunIsWalk(o, specs1, actions1);
    CompletedRunIsWalk(o, specs2, actions2);
    SameEventsSameGraph(log1, log2);
    EmptyDiff(Recorded(log1), Recorded(log2), d);
  }

  /** The input finds, at `d`'s path, a derivation built from the same file. */
  ghost predicate FindsSame(o: Oracle, d: Derivation) {
    && Reachable(o, d.attrPath) && o(d.attrPath).DerivationEvent?
    && o(d.attrPath).drv.drvPath == d.drvPath
  }

  lemma {:induction false} SameFileListed(o: Oracle, specs: seq<WorkerSpec>, actions: seq<Action>, d: Derivation)
    requires WellBehaved(o) && CleanRun(o, specs, actions)
    ensures FindsSame(o, d) <==>
              var g := GraphAfter(o, specs, actions); d.attrPath in g && g[d.attrPath].drvPath == d.drvPath
  {
    WarmGraphIsOracle(o, specs, actions);
    var g := GraphAfter(o, specs, actions);
    assert BehavesAt(o, d.attrPath);
    if FindsSame(o, d) {
      assert Finds(o, o(d.attrPath).drv);
    }
    if d.attrPath in g && g[d.attrPath].drvPath == d.drvPath {
      assert Finds(o, g[d.attrPath]);
    }
  }

  /** After the input changed from `before` to `after`, a diff lists as added just
      what the new input finds and the old one did not find in the same form, and
      as removed the converse, wherever and however the two runs were scheduled. */
  lemma {:induction false} DiffIsInputChange(
    before: Oracle, specs1: seq<WorkerSpec>, actions1: seq<Action>,
    after: Oracle, specs2: seq<WorkerSpec>, actions2: seq<Action>, d: Diff, drv: Derivation)
    requires WellBehaved(before) && CleanRun(before, specs1, actions1)
    requires WellBehaved(after) && CleanRun(after, specs2, actions2)
    requires IsDiff(GraphAfter(before, specs1, actions1), GraphAfter(after, specs2, actions2), d)
    ensures drv in d.added <==> Finds(after, drv) && !FindsSame(before, drv)
    ensures drv in d.removed <==> Finds(before, drv) && !FindsSame(after, drv)
  {
    WarmGraphIsOracle(before, specs1, actions1);
    WarmGraphIsOracle(after, specs2, actions2);
    SameFileListed(before, specs1, actions1, drv);
    SameFileListed(after, specs2, actions2, drv);
    var g1, g2 := GraphAfter(before, specs1, actions1), GraphAfter(after, specs2, actions2);
    ListsMoved(g1, g2, d.removed, drv);
    ListsMoved(g2, g1, d.added, drv);
  }

  lemma {:induction false} ListsMoved(a: Graph, b: Graph, ds: seq<Derivation>, drv: Derivation)
    requires WellKeyed(a) && Lists(ds, a, Moved(a, b))
    ensures drv in ds <==> drv.attrPath in a && a[drv.attrPath] == drv
                           && !(drv.attrPath in b && b[drv.attrPath].drvPath == drv.drvPath)
  {
    var order :| ListsAt(ds, a, Moved(a, b), order);
    if drv in ds {
      var i :| 0 <= i < |ds| && ds[i] == drv;
      assert order[i] in order;
    }
    if drv.attrPath in Moved(a, b) {
      var i :| 0 <= i < |order| && order[i] == drv.attrPath;
      assert ds[i] == a[drv.attrPath];
    }
  }

  // ---- Under failures ------------------------------------------------------

  /** What a completed run leaves behind, whatever failed on the way: reports of
      distinct paths, each the evaluator's answer or a failure report, the root
      among them, with every listed child reported and every report listed. */
  ghost predicate CompleteLog(o: Oracle, log: seq<Event>) {
    && NoDuplicates(Paths(log)) && [] in Paths(log)
    && (forall i :: 0 <= i < |log| ==> Genuine(o, log[i].At(), log[i]))
    && (forall i, name :: ChildReported(log, i, name))
    && (forall i :: ReportListed(log, i))
  }

  ghost predicate ChildReported(log: seq<Event>, i: int, name: string) {
    0 <= i < |log| && name in log[i].Children() ==> ReportedAfter(log, i, log[i].At() + [name])
  }

  ghost predicate CompletedRun(o: Oracle, specs: seq<WorkerSpec>, actions: seq<Action>) {
    && WellFormedPool(specs) && Legal(o, specs, Init(specs), actions)
    && After(o, specs, Init(specs), actions).c.outcome == Completed
  }

  /** The run has a failure report for `p` in place of the evaluator's answer. */
  ghost predicate FailedAt(o: Oracle, log: seq<Event>, p: Path) {
    exists i :: 0 <= i < |log| && log[i].At() == p && log[i] != o(p)
  }

  /** `p` is at or below a path that failed. */
  ghost predicate CutOff(o: Oracle, log: seq<Event>, p: Path) {
    exists n: nat :: n <= |p| && FailedAt(o, log, p[..n])
  }

  lemma {:induction false} CutOffBelow(o: Oracle, log: seq<Event>, p: Path)
    requires p != []
    ensures CutOff(o, log, p) <==> CutOff(o, log, Parent(p)) || FailedAt(o, log, p)
  {
    assert p[..|p|] == p;
    forall n: nat | n < |p| ensures Parent(p)[..n] == p[..n] {
    }
    if CutOff(o, log, p) && !FailedAt(o, log, p) {
      var n: nat :| n <= |p| && FailedAt(o, log, p[..n]);
      assert FailedAt(o, log, Parent(p)[..n]);
    }
    if CutOff(o, log, Parent(p)) {
      var n: nat :| n <= |Parent(p)| && FailedAt(o, log, Parent(p)[..n]);
      assert FailedAt(o, log, p[..n]);
    }
  }

  lemma {:induction false} CutOffRoot(o: Oracle, log: seq<Event>)
    ensures CutOff(o, log, []) <==> FailedAt(o, log, [])
  {
    var root: Path := [];
    assert root[..0] == root;
  }

  lemma {:induction false} OneReport(log: seq<Event>, i: nat, j: nat)
    requires NoDuplicates(Paths(log)) && i < |log| && j < |log| && log[i].At() == log[j].At()
    ensures i == j
  {
    assert Paths(log)[i] == Paths(log)[j];
  }

  /** A report that is the evaluator's answer is one that did not fail. */
  lemma {:induction false} AnswerOrFailure(o: Oracle, log: seq<Event>, i: nat)
    requires NoDuplicates(Paths(log)) && i < |log|
    ensures log[i] == o(log[i].At()) <==> !FailedAt(o, log, log[i].At())
  {
    if FailedAt(o, log, log[i].At()) {
      var j :| 0 <= j < |log| && log[j].At() == log[i].At() && log[j] != o(log[i].At());
      OneReport(log, i, j);
    }
  }

  /** The evaluator's answer for `p` is in the log exactly if `p` is reachable and
      nothing at or above it failed. */
  lemma {:induction false} AnswerSurvives(o: Oracle, log: seq<Event>, p: Path)
    requires WellBehaved(o) && CompleteLog(o, log)
    ensures o(p) in log <==> Reachable(o, p) && !CutOff(o, log, p)
    decreases |p|
  {
    assert BehavesAt(o, p);
    if p == [] {
      CutOffRoot(o, log);
      var i :| 0 <= i < |log| && log[i].At() == [];
      AnswerOrFailure(o, log, i);
      if o(p) in log {
        var j :| 0 <= j < |log| && log[j] == o(p);
        OneReport(log, i, j);
      }
    } else {
      AnswerSurvives(o, log, Parent(p));
      CutOffBelow(o, log, p);
      if o(p) in log {
        ReportedChild(o, log, p);
      }
      if Reachable(o, p) && !CutOff(o, log, p) {
        AnsweredChild(o, log, p);
      }
    }
  }

  lemma {:induction false} ReportedChild(o: Oracle, log: seq<Event>, p: Path)
    requires WellBehaved(o) && CompleteLog(o, log) && p != [] && o(p) in log
    ensures o(Parent(p)) in log && LastName(p) in o(Parent(p)).Children() && !FailedAt(o, log, p)
  {
    assert BehavesAt(o, p);
    var i :| 0 <= i < |log| && log[i] == o(p);
    AnswerOrFailure(o, log, i);
    assert ReportListed(log, i);
    var j :| 0 <= j < i && j < |log| && log[j].At() == Parent(p) && LastName(p) in log[j].Children();
    assert Genuine(o, log[j].At(), log[j]);
  }

  lemma {:induction false} AnsweredChild(o: Oracle, log: seq<Event>, p: Path)
    requires WellBehaved(o) && CompleteLog(o, log) && p != []
    requires o(Parent(p)) in log && LastName(p) in o(Parent(p)).Children() && !FailedAt(o, log, p)
    ensures o(p) in log
  {
    assert BehavesAt(o, Parent(p));
    var i :| 0 <= i < |log| && log[i] == o(Parent(p));
    assert log[i].At() + [LastName(p)] == p;
    assert ChildReported(log, i, LastName(p));
    var j :| i < j < |log| && log[j].At() == p;
    AnswerOrFailure(o, log, j);
  }

  /** Whatever workers failed, timed out or restarted: the graph of a completed run
      holds exactly the derivations the evaluator finds, less those at or below a
      path whose evaluation failed. */
  lemma {:induction false} FailuresCutOff(o: Oracle, specs: seq<WorkerSpec>, actions: seq<Action>, d: Derivation)
    requires WellBehaved(o) && CompletedRun(o, specs, actions)
    ensures var log := After(o, specs, Init(specs), actions).c.log;
      d.attrPath in Recorded(log) && Recorded(log)[d.attrPath] == d <==>
        Finds(o, d) && !CutOff(o, log, d.attrPath)
  {
    var log := After(o, specs, Init(specs), actions).c.log;
    CompletedRunIsComplete(o, specs, actions);
    assert forall i, name :: ChildReported(log, i, name);
    assert forall i :: ReportListed(log, i);
    RecordedIsStream(log, d);
    assert BehavesAt(o, d.attrPath);
    AnswerSurvives(o, log, d.attrPath);
    if DerivationEvent(d) in log {
      var i :| 0 <= i < |log| && log[i] == DerivationEvent(d);
      assert Genuine(o, log[i].At(), log[i]);
    }
  }

  /** So failures only ever take derivations away: what the graph of a completed run
      holds, the graph of a clean run holds too. */
  lemma {:induction false} FailuresAddNothing(
    o: Oracle,
    specs1: seq<WorkerSpec>, actions1: seq<Action>,
    specs2: seq<WorkerSpec>, actions2: seq<Action>, p: Path)
    requires WellBehaved(o) && CompletedRun(o, specs1, actions1) && CleanRun(o, specs2, actions2)
    ensures var g := Recorded(After(o, specs1, Init(specs1), actions1).c.log);
      p in g ==> p in GraphAfter(o, specs2, actions2) && GraphAfter(o, specs2, actions2)[p] == g[p]
  {
    var log := After(o, specs1, Init(specs1), actions1).c.log;
    RecordedWellKeyed(log);
    if p in Recorded(log) {
      FailuresCutOff(o, specs1, actions1, Recorded(log)[p]);
      WarmGraphIsOracle(o, specs2, actions2);
      assert Finds(o, Recorded(log)[p]);
    }
  }
}
