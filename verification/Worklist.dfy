/** The traversal with workers, channels and queues taken away: a bag of pending
    paths and the log so far. */
module Worklist {
  import opened Types
  import opened Eval

  datatype Ledger = Ledger(pending: multiset<Path>, log: seq<Event>)

  const START := Ledger(multiset{[]}, [])

  function ChildPaths(p: Path, e: Event): seq<Path> {
    Extend(p, e.Children())
  }

  /** The report that stands in for an answer the worker failed to give. */
  ghost predicate FailureReport(p: Path, e: Event) {
    e.ErrorEvent? && e.At() == p && !e.err.fatal
  }

  ghost predicate Genuine(o: Oracle, p: Path, e: Event) {
    e == o(p) || FailureReport(p, e)
  }

  /** One completed item. */
  function Finish(l: Ledger, p: Path, e: Event): Ledger {
    Ledger(l.pending - multiset{p} + multiset(ChildPaths(p, e)), l.log + [e])
  }

  // ---- What is still owed -------------------------------------------------

  ghost function Pick(pending: multiset<Path>): (p: Path)
    requires pending != multiset{}
    ensures p in pending
  {
    var p :| p in pending; p
  }

  ghost function Owed(o: Oracle, pending: multiset<Path>): multiset<Event>
    requires WellBehaved(o)
    decreases |pending|
  {
    if pending == multiset{} then multiset{}
    else
      var p := Pick(pending);
      multiset(Walk(o, p)) + Owed(o, pending - multiset{p})
  }

  lemma {:induction false} OwedTake(o: Oracle, pending: multiset<Path>, p: Path)
    requires WellBehaved(o)
    requires p in pending
    ensures Owed(o, pending) == multiset(Walk(o, p)) + Owed(o, pending - multiset{p})
    decreases |pending|
  {
    var q := Pick(pending);
    if q != p {
      var rest := pending - multiset{p} - multiset{q};
      assert pending - multiset{q} - multiset{p} == rest;
      OwedTake(o, pending - multiset{q}, p);
      OwedTake(o, pending - multiset{p}, q);
      assert Owed(o, pending) == multiset(Walk(o, q)) + (multiset(Walk(o, p)) + Owed(o, rest));
      assert Owed(o, pending - multiset{p}) == multiset(Walk(o, q)) + Owed(o, rest);
    }
  }

  lemma {:induction false} OwedAdd(o: Oracle, pending: multiset<Path>, p: Path)
    requires WellBehaved(o)
    ensures Owed(o, pending + multiset{p}) == Owed(o, pending) + multiset(Walk(o, p))
  {
    OwedTake(o, pending + multiset{p}, p);
    assert pending + multiset{p} - multiset{p} == pending;
  }

  lemma {:induction false} ConcatCount(a: seq<Event>, b: seq<Event>, m: multiset<Event>)
    ensures m + multiset(a) + multiset(b) == m + multiset(a + b)
  {
  }

  lemma {:induction false} OwedBelow(o: Oracle, p: Path, names: seq<string>, pending: multiset<Path>)
    requires WellBehaved(o)
    requires |p| >= MAX_ATTR_DEPTH ==> names == []
    ensures Owed(o, pending + multiset(Extend(p, names))) == Owed(o, pending) + multiset(WalkAll(o, p, names))
    decreases |names|
  {
    if names == [] {
      assert pending + multiset(Extend(p, names)) == pending;
    } else {
      var child := p + [names[0]];
      OwedBelow(o, p, names[1..], pending + multiset{child});
      OwedAdd(o, pending, child);
      assert pending + multiset{child} + multiset(Extend(p, names[1..])) == pending + multiset(Extend(p, names));
      ConcatCount(Walk(o, child), WalkAll(o, p, names[1..]), Owed(o, pending));
    }
  }

  lemma {:induction false} OwedBeforeAndAfter(o: Oracle, l: Ledger, p: Path)
    requires WellBehaved(o) && BehavesAt(o, p) && p in l.pending
    ensures Owed(o, l.pending)
         == multiset([o(p)] + WalkAll(o, p, o(p).Children())) + Owed(o, l.pending - multiset{p})
    ensures Owed(o, Finish(l, p, o(p)).pending)
         == Owed(o, l.pending - multiset{p}) + multiset(WalkAll(o, p, o(p).Children()))
  {
    OwedTake(o, l.pending, p);
    OwedBelow(o, p, o(p).Children(), l.pending - multiset{p});
  }

  lemma {:induction false} MoveOne(log: seq<Event>, e: Event, below: seq<Event>, rest: multiset<Event>)
    ensures multiset(log + [e]) + (rest + multiset(below)) == multiset(log) + (multiset([e] + below) + rest)
    ensures |rest + multiset(below)| == |multiset([e] + below) + rest| - 1
  {
    assert multiset([e] + below) == multiset{e} + multiset(below);
  }

  /** An answered item moves one event from what is owed to the log. */
  lemma {:induction false} AnswerConserves(o: Oracle, l: Ledger, p: Path)
    requires WellBehaved(o) && p in l.pending
    ensures multiset(Finish(l, p, o(p)).log) + Owed(o, Finish(l, p, o(p)).pending)
         == multiset(l.log) + Owed(o, l.pending)
    ensures |Owed(o, Finish(l, p, o(p)).pending)| == |Owed(o, l.pending)| - 1
  {
    assert BehavesAt(o, p);
    OwedBeforeAndAfter(o, l, p);
    MoveOne(l.log, o(p), WalkAll(o, p, o(p).Children()), Owed(o, l.pending - multiset{p}));
  }

  /** The log and what is still owed add up to the simple walk. */
  ghost predicate Balanced(o: Oracle, l: Ledger)
    requires WellBehaved(o)
  {
    multiset(l.log) + Owed(o, l.pending) == multiset(Walk(o, []))
  }

  lemma {:induction false} AnswerBalanced(o: Oracle, l: Ledger, p: Path)
    requires WellBehaved(o) && p in l.pending && Balanced(o, l)
    ensures Balanced(o, Finish(l, p, o(p)))
  {
    AnswerConserves(o, l, p);
  }

  /** Whatever a worker reports, each completion strictly lowers what is owed:
      the traversal terminates on cyclic graphs and under any failures. */
  lemma {:induction false} FinishDecreases(o: Oracle, l: Ledger, p: Path, e: Event)
    requires WellBehaved(o) && p in l.pending && Genuine(o, p, e)
    ensures |Owed(o, Finish(l, p, e).pending)| < |Owed(o, l.pending)|
  {
    if e == o(p) {
      AnswerConserves(o, l, p);
    } else {
      OwedTake(o, l.pending, p);
      assert ChildPaths(p, e) == [];
      assert Finish(l, p, e).pending == l.pending - multiset{p};
    }
  }

  lemma {:induction false} OwedCoversPending(o: Oracle, pending: multiset<Path>)
    requires WellBehaved(o)
    ensures |Owed(o, pending)| >= |pending|
    decreases |pending|
  {
    if pending != multiset{} {
      var p :| p in pending;
      OwedTake(o, pending, p);
      OwedCoversPending(o, pending - multiset{p});
    }
  }

  lemma {:induction false} OwedStart(o: Oracle)
    requires WellBehaved(o)
    ensures Owed(o, START.pending) == multiset(Walk(o, []))
    ensures Balanced(o, START)
  {
    OwedTake(o, START.pending, []);
    assert START.pending - multiset{[]} == multiset{};
  }

  // ---- Bookkeeping of discovered paths ------------------------------------

  ghost predicate Discovered(l: Ledger, p: Path) {
    p in l.pending || p in Paths(l.log)
  }

  ghost predicate ReportedAfter(log: seq<Event>, i: nat, p: Path) {
    exists j :: i < j < |log| && log[j].At() == p
  }

  ghost predicate ListedBefore(log: seq<Event>, n: nat, p: Path) {
    p == [] || exists j :: 0 <= j < n && j < |log| && log[j].At() == Parent(p) && LastName(p) in log[j].Children()
  }

  ghost function Times(l: Ledger, p: Path): nat {
    (l.pending + multiset(Paths(l.log)))[p]
  }

  /** Every path is discovered at most once and reported at most once. */
  ghost predicate Unique(l: Ledger) {
    forall p: Path :: Times(l, p) <= 1
  }

  /** Nothing an attribute set listed is ever forgotten. */
  ghost predicate ChildKept(l: Ledger, i: int, name: string) {
    0 <= i < |l.log| && name in l.log[i].Children() ==>
      l.log[i].At() + [name] in l.pending || ReportedAfter(l.log, i, l.log[i].At() + [name])
  }

  ghost predicate ChildrenKept(l: Ledger) {
    forall i, name :: ChildKept(l, i, name)
  }

  /** Nothing is visited that its parent did not list first. */
  ghost predicate PendingListed(l: Ledger, p: Path) {
    p in l.pending ==> ListedBefore(l.log, |l.log|, p)
  }

  ghost predicate ReportListed(log: seq<Event>, i: int) {
    0 <= i < |log| ==> ListedBefore(log, i, log[i].At())
  }

  ghost predicate ParentsFirst(l: Ledger) {
    && (forall p :: PendingListed(l, p))
    && (forall i :: ReportListed(l.log, i))
  }

  ghost predicate Coherent(o: Oracle, l: Ledger) {
    && Unique(l)
    && Discovered(l, [])
    && (forall i :: 0 <= i < |l.log| ==> Genuine(o, l.log[i].At(), l.log[i]))
    && ChildrenKept(l)
    && ParentsFirst(l)
  }

  lemma {:induction false} StartCoherent(o: Oracle)
    ensures Coherent(o, START)
  {
  }

  lemma {:induction false} ParentReported(o: Oracle, l: Ledger, q: Path)
    requires Coherent(o, l) && Discovered(l, q) && q != []
    ensures exists j :: 0 <= j < |l.log| && l.log[j].At() == Parent(q) && LastName(q) in l.log[j].Children()
    ensures Parent(q) in Paths(l.log)
  {
    if q in Paths(l.log) {
      var i :| 0 <= i < |l.log| && Paths(l.log)[i] == q;
      assert ReportListed(l.log, i);
    } else {
      assert PendingListed(l, q);
    }
    var j :| 0 <= j < |l.log| && l.log[j].At() == Parent(q) && LastName(q) in l.log[j].Children();
    assert Paths(l.log)[j] == Parent(q);
  }

  lemma {:induction false} NewPathsFresh(o: Oracle, l: Ledger, q: Path)
    requires Coherent(o, l) && q != [] && Parent(q) in l.pending
    ensures !Discovered(l, q)
  {
    assert Times(l, Parent(q)) <= 1;
    assert Parent(q) !in Paths(l.log);
    if Discovered(l, q) {
      ParentReported(o, l, q);
    }
  }

  lemma {:induction false} ChildPathsOnce(o: Oracle, p: Path, e: Event, q: Path)
    requires WellBehaved(o) && Genuine(o, p, e)
    ensures multiset(ChildPaths(p, e))[q] <= 1
    ensures q in ChildPaths(p, e) <==> q != [] && Parent(q) == p && LastName(q) in e.Children()
  {
    assert BehavesAt(o, p);
    var cs := ChildPaths(p, e);
    ExtendAt(p, e.Children());
    assert NoDuplicates(cs) by {
      forall i, j | 0 <= i < j < |cs| ensures cs[i] != cs[j] {
        assert cs[i][|p|] == e.Children()[i] && cs[j][|p|] == e.Children()[j];
      }
    }
    NoDuplicatesCount(cs, q);
    if q in cs {
      var i :| 0 <= i < |cs| && cs[i] == q;
      assert Parent(q) == p && LastName(q) == e.Children()[i];
    }
    if q != [] && Parent(q) == p && LastName(q) in e.Children() {
      var i :| 0 <= i < |cs| && e.Children()[i] == LastName(q);
      assert q == p + [LastName(q)] == cs[i];
    }
  }

  lemma {:induction false} NoDuplicatesCount<T>(s: seq<T>, x: T)
    requires NoDuplicates(s)
    ensures multiset(s)[x] <= 1
  {
    if s != [] {
      assert s == [s[0]] + s[1..];
      NoDuplicatesCount(s[1..], x);
      assert s[0] !in s[1..];
    }
  }

  lemma {:induction false} CountAfter(l: Ledger, p: Path, e: Event, q: Path)
    requires p in l.pending && e.At() == p
    ensures Times(Finish(l, p, e), q) == Times(l, q) + multiset(ChildPaths(p, e))[q]
  {
    assert Paths(l.log + [e]) == Paths(l.log) + [p];
  }

  lemma {:induction false} FinishUniqueAt(o: Oracle, l: Ledger, p: Path, e: Event, q: Path)
    requires WellBehaved(o) && p in l.pending && Genuine(o, p, e)
    requires Times(l, q) <= 1
    requires q != [] && Parent(q) == p ==> !Discovered(l, q)
    ensures Times(Finish(l, p, e), q) <= 1
  {
    assert BehavesAt(o, p);
    CountAfter(l, p, e, q);
    ChildPathsOnce(o, p, e, q);
  }

  ghost predicate FreshBelow(l: Ledger, p: Path) {
    forall q: Path :: q != [] && Parent(q) == p ==> !Discovered(l, q)
  }

  lemma {:induction false} PendingFreshBelow(o: Oracle, l: Ledger, p: Path)
    requires Coherent(o, l) && p in l.pending
    ensures FreshBelow(l, p)
  {
    forall q: Path | q != [] && Parent(q) == p ensures !Discovered(l, q) {
      NewPathsFresh(o, l, q);
    }
  }

  lemma {:induction false} FinishUnique(o: Oracle, l: Ledger, p: Path, e: Event)
    requires WellBehaved(o) && p in l.pending && Genuine(o, p, e)
    requires Unique(l) && FreshBelow(l, p)
    ensures Unique(Finish(l, p, e))
  {
    forall q: Path ensures Times(Finish(l, p, e), q) <= 1 {
      assert Times(l, q) <= 1;
      FinishUniqueAt(o, l, p, e, q);
    }
  }

  lemma {:induction false} FinishChildrenKept(o: Oracle, l: Ledger, p: Path, e: Event)
    requires WellBehaved(o) && ChildrenKept(l) && p in l.pending && Genuine(o, p, e)
    ensures ChildrenKept(Finish(l, p, e))
  {
    assert BehavesAt(o, p);
    var l' := Finish(l, p, e);
    forall i, name ensures ChildKept(l', i, name) {
      if 0 <= i < |l'.log| && name in l'.log[i].Children() {
        var q := l'.log[i].At() + [name];
        if i == |l.log| {
          ChildPathsOnce(o, p, e, q);
          assert Parent(q) == p && LastName(q) == name;
        } else if q == p {
          assert l'.log[|l.log|].At() == p;
        } else {
          assert l.log[i] == l'.log[i];
          assert ChildKept(l, i, name);
          if ReportedAfter(l.log, i, q) {
            var j :| i < j < |l.log| && l.log[j].At() == q;
            assert l'.log[j].At() == q;
          }
        }
      }
    }
  }

  lemma {:induction false} ListedStays(log: seq<Event>, e: Event, n: nat, q: Path)
    requires n <= |log| && ListedBefore(log, n, q)
    ensures ListedBefore(log + [e], n, q)
  {
    if q != [] {
      var j :| 0 <= j < n && j < |log| && log[j].At() == Parent(q) && LastName(q) in log[j].Children();
      assert (log + [e])[j] == log[j];
    }
  }

  lemma {:induction false} FinishParentsFirst(o: Oracle, l: Ledger, p: Path, e: Event)
    requires WellBehaved(o) && ParentsFirst(l) && p in l.pending && Genuine(o, p, e)
    ensures ParentsFirst(Finish(l, p, e))
  {
    assert BehavesAt(o, p);
    var l' := Finish(l, p, e);
    forall q ensures PendingListed(l', q) {
      ChildPathsOnce(o, p, e, q);
      if q in ChildPaths(p, e) {
        assert l'.log[|l.log|] == e;
        assert ListedBefore(l'.log, |l'.log|, q);
      } else if q in l'.pending {
        assert PendingListed(l, q);
        ListedStays(l.log, e, |l.log|, q);
      }
    }
    forall i ensures ReportListed(l'.log, i) {
      if 0 <= i < |l.log| {
        assert ReportListed(l.log, i);
        ListedStays(l.log, e, i, l.log[i].At());
      } else if i == |l.log| {
        assert PendingListed(l, p);
        ListedStays(l.log, e, i, p);
      }
    }
  }

  /** Any completion, answered or failed, keeps the books coherent. */
  lemma {:induction false} FinishCoherent(o: Oracle, l: Ledger, p: Path, e: Event)
    requires WellBehaved(o) && Coherent(o, l) && p in l.pending && Genuine(o, p, e)
    ensures Coherent(o, Finish(l, p, e))
  {
    assert BehavesAt(o, p);
    PendingFreshBelow(o, l, p);
    FinishUnique(o, l, p, e);
    FinishChildrenKept(o, l, p, e);
    FinishParentsFirst(o, l, p, e);
    var l' := Finish(l, p, e);
    assert Paths(l'.log) == Paths(l.log) + [p];
    assert Discovered(l', []);
  }

  /** Discovered paths are reachable, so never longer than the depth cap. */
  lemma {:induction false} DiscoveredReachable(o: Oracle, l: Ledger, p: Path)
    requires WellBehaved(o) && Coherent(o, l) && Discovered(l, p)
    ensures Reachable(o, p) && |p| <= MAX_ATTR_DEPTH
    decreases |p|
  {
    if p != [] {
      ParentReported(o, l, p);
      var j :| 0 <= j < |l.log| && l.log[j].At() == Parent(p) && LastName(p) in l.log[j].Children();
      DiscoveredReachable(o, l, Parent(p));
      assert BehavesAt(o, Parent(p));
    }
    ReachableDepth(o, p);
  }
}
