/** The warm derivation graph: how a run records it, and how two graphs differ. */
module Graphs {
  import opened Types

  type Graph = map<Path, Derivation>

  // ---- Recording a run -----------------------------------------------------

  function Recorded(log: seq<Event>): Graph {
    if log == [] then map[]
    else
      var before, e := Recorded(log[..|log| - 1]), log[|log| - 1];
      if e.DerivationEvent? then before[e.drv.attrPath := e.drv] else before
  }

  function RecordedErrors(log: seq<Event>): seq<EvalError> {
    if log == [] then []
    else
      var before, e := RecordedErrors(log[..|log| - 1]), log[|log| - 1];
      if e.ErrorEvent? then before + [e.err] else before
  }

  class EvalAccumulator {
    var graph: Graph
    var errors: seq<EvalError>

    constructor ()
      ensures graph == map[] && errors == []
    {
      graph, errors := map[], [];
    }

    method Record(event: Event)
      modifies this
      ensures graph == if event.DerivationEvent? then old(graph)[event.drv.attrPath := event.drv] else old(graph)
      ensures errors == if event.ErrorEvent? then old(errors) + [event.err] else old(errors)
    {
      match event {
        case DerivationEvent(drv) => graph := graph[drv.attrPath := drv];
        case ErrorEvent(err) => errors := errors + [err];
        case AttrSet(_, _, _) =>
      }
    }
  }

  /** The callback of an evaluation: each event is recorded, then passed on.  A
      receiver that refuses an event ends the evaluation, and what was recorded is
      thrown away. */
  method RecordRun(events: seq<Event>, accepts: Event -> bool)
    returns (result: Option<(Graph, seq<EvalError>)>, streamed: seq<Event>)
    ensures result.Some? <==> forall e :: e in events ==> accepts(e)
    ensures result.Some? ==> streamed == events
    ensures result.Some? ==> result.value == (Recorded(streamed), RecordedErrors(streamed))
    ensures streamed <= events && forall e :: e in streamed ==> accepts(e)
  {
    var accumulator := new EvalAccumulator();
    streamed := [];
    for i := 0 to |events|
      invariant streamed == events[..i] && forall e :: e in streamed ==> accepts(e)
      invariant fresh(accumulator)
      invariant accumulator.graph == Recorded(events[..i])
      invariant accumulator.errors == RecordedErrors(events[..i])
    {
      assert events[..i + 1][..i] == events[..i];
      accumulator.Record(events[i]);
      if !accepts(events[i]) {
        assert events[i] in events;
        return None, streamed;
      }
      streamed := streamed + [events[i]];
    }
    assert events[..|events|] == events;
    result := Some((accumulator.graph, accumulator.errors));
  }

  ghost predicate WellKeyed(g: Graph) {
    forall p :: p in g ==> g[p].attrPath == p
  }

  lemma {:induction false} RecordedWellKeyed(log: seq<Event>)
    ensures WellKeyed(Recorded(log))
    decreases |log|
  {
    if log != [] {
      RecordedWellKeyed(log[..|log| - 1]);
    }
  }

  /** The graph of a run without repeated paths holds exactly the derivations that
      were streamed, each under its own path. */
  lemma {:induction false} RecordedIsStream(log: seq<Event>, d: Derivation)
    requires NoDuplicates(Paths(log))
    ensures DerivationEvent(d) in log <==> d.attrPath in Recorded(log) && Recorded(log)[d.attrPath] == d
    decreases |log|
  {
    RecordedFrom(log, d.attrPath);
    if DerivationEvent(d) in log {
      var i :| 0 <= i < |log| && log[i] == DerivationEvent(d);
      RecordedLast(log, i);
    }
  }

  lemma {:induction false} RecordedFrom(log: seq<Event>, p: Path)
    ensures p in Recorded(log) ==> DerivationEvent(Recorded(log)[p]) in log && Recorded(log)[p].attrPath == p
    decreases |log|
  {
    if log != [] {
      RecordedFrom(log[..|log| - 1], p);
      assert log[|log| - 1] in log;
    }
  }

  lemma {:induction false} FrontDistinct(log: seq<Event>)
    requires log != [] && NoDuplicates(Paths(log))
    ensures NoDuplicates(Paths(log[..|log| - 1]))
  {
    var front := log[..|log| - 1];
    forall i, j | 0 <= i < j < |front| ensures Paths(front)[i] != Paths(front)[j] {
      assert Paths(log)[i] != Paths(log)[j];
    }
  }

  lemma {:induction false} RecordedLast(log: seq<Event>, i: nat)
    requires NoDuplicates(Paths(log)) && i < |log| && log[i].DerivationEvent?
    ensures var d := log[i].drv; d.attrPath in Recorded(log) && Recorded(log)[d.attrPath] == d
    decreases |log|
  {
    if i < |log| - 1 {
      FrontDistinct(log);
      RecordedLast(log[..|log| - 1], i);
      assert Paths(log)[|log| - 1] != Paths(log)[i];
    }
  }

  /** Two logs of the same events give the same graph, whatever their order. */
  lemma {:induction false} SameEventsSameGraph(a: seq<Event>, b: seq<Event>)
    requires NoDuplicates(Paths(a)) && NoDuplicates(Paths(b)) && forall e :: e in a <==> e in b
    ensures Recorded(a) == Recorded(b)
  {
    RecordedSubmap(a, b);
    RecordedSubmap(b, a);
  }

  lemma {:induction false} RecordedSubmap(a: seq<Event>, b: seq<Event>)
    requires NoDuplicates(Paths(b)) && forall e :: e in a ==> e in b
    ensures forall p :: p in Recorded(a) ==> p in Recorded(b) && Recorded(b)[p] == Recorded(a)[p]
  {
    forall p | p in Recorded(a) ensures p in Recorded(b) && Recorded(b)[p] == Recorded(a)[p] {
      RecordedFrom(a, p);
      RecordedIsStream(b, Recorded(a)[p]);
    }
  }

  // ---- Differences ---------------------------------------------------------

  datatype Diff = Diff(added: seq<Derivation>, removed: seq<Derivation>, errors: seq<EvalError>)

  /** The paths of `a` that `b` lacks or builds differently. */
  function Moved(a: Graph, b: Graph): set<Path> {
    set p | p in a && !(p in b && a[p].drvPath == b[p].drvPath)
  }

  /** `ds` lists the entries of `g` under `keys`, each once, in some order. */
  ghost predicate ListsAt(ds: seq<Derivation>, g: Graph, keys: set<Path>, order: seq<Path>) {
    NoDuplicates(order) && (forall p :: p in order <==> p in keys) && Values(ds, g, order)
  }

  ghost predicate Values(ds: seq<Derivation>, g: Graph, order: seq<Path>) {
    |ds| == |order| && forall i :: 0 <= i < |ds| ==> order[i] in g && ds[i] == g[order[i]]
  }

  ghost predicate Lists(ds: seq<Derivation>, g: Graph, keys: set<Path>) {
    exists order :: ListsAt(ds, g, keys, order)
  }

  ghost predicate IsDiff(previous: Graph, current: Graph, d: Diff) {
    Lists(d.removed, previous, Moved(previous, current)) && Lists(d.added, current, Moved(current, previous))
  }

  lemma {:induction false} ListsMore(ds: seq<Derivation>, g: Graph, keys: set<Path>, p: Path)
    requires Lists(ds, g, keys) && p !in keys && p in g
    ensures Lists(ds + [g[p]], g, keys + {p})
  {
    var order :| ListsAt(ds, g, keys, order);
    assert forall q :: q in order + [p] <==> q in order || q == p;
    assert ListsAt(ds + [g[p]], g, keys + {p}, order + [p]);
  }

  /** One of the two loops: map keys come in an arbitrary order. */
  method ListMoved(a: Graph, b: Graph) returns (moved: seq<Derivation>)
    ensures Lists(moved, a, Moved(a, b))
  {
    moved := [];
    var todo := a.Keys;
    ghost var listed: set<Path> := {};
    assert ListsAt([], a, {}, []);
    while todo != {}
      invariant todo <= a.Keys && Lists(moved, a, listed)
      invariant forall p :: p in listed <==> p in Moved(a, b) && p !in todo
      decreases todo
    {
      var path :| path in todo;
      todo := todo - {path};
      if !(path in b && a[path].drvPath == b[path].drvPath) {
        ListsMore(moved, a, listed, path);
        moved, listed := moved + [a[path]], listed + {path};
      }
    }
    assert listed == Moved(a, b);
  }

  method DiffGraphs(previous: Graph, current: Graph, errors: seq<EvalError>) returns (d: Diff)
    ensures IsDiff(previous, current, d) && d.errors == errors
  {
    var removed := ListMoved(previous, current);
    var added := ListMoved(current, previous);
    d := Diff(added, removed, errors);
  }

  // ---- Diffs are patches ---------------------------------------------------

  function WithoutAll(g: Graph, ds: seq<Derivation>): Graph {
    if ds == [] then g else WithoutAll(g, ds[..|ds| - 1]) - {ds[|ds| - 1].attrPath}
  }

  function WithAll(g: Graph, ds: seq<Derivation>): Graph {
    if ds == [] then g
    else WithAll(g, ds[..|ds| - 1])[ds[|ds| - 1].attrPath := ds[|ds| - 1]]
  }

  function Patched(g: Graph, d: Diff): Graph {
    WithAll(WithoutAll(g, d.removed), d.added)
  }

  /** Same paths, same derivation files. */
  ghost predicate Agree(a: Graph, b: Graph) {
    a.Keys == b.Keys && forall p :: p in a ==> a[p].drvPath == b[p].drvPath
  }

  function PathsOf(ds: seq<Derivation>): set<Path> {
    set d | d in ds :: d.attrPath
  }

  lemma {:induction false} WithoutAllIs(g: Graph, ds: seq<Derivation>)
    ensures WithoutAll(g, ds) == g - PathsOf(ds)
    decreases |ds|
  {
    if ds == [] {
      assert g - PathsOf(ds) == g;
    } else {
      var front, last := ds[..|ds| - 1], ds[|ds| - 1];
      WithoutAllIs(g, front);
      PathsSnoc(front, last);
      assert front + [last] == ds;
    }
  }

  lemma {:induction false} PathsSnoc(ds: seq<Derivation>, d: Derivation)
    ensures PathsOf(ds + [d]) == PathsOf(ds) + {d.attrPath}
  {
    assert forall e :: e in ds + [d] <==> e in ds || e == d;
  }

  /** Every listed derivation is the source graph's own entry. */
  ghost predicate From(ds: seq<Derivation>, source: Graph) {
    forall d :: d in ds ==> d.attrPath in source && source[d.attrPath] == d
  }

  lemma {:induction false} WithAllIs(g: Graph, ds: seq<Derivation>, source: Graph)
    requires From(ds, source)
    ensures WithAll(g, ds).Keys == g.Keys + PathsOf(ds)
    ensures forall p :: p in WithAll(g, ds) ==> WithAll(g, ds)[p] == if p in PathsOf(ds) then source[p] else g[p]
    decreases |ds|
  {
    if ds != [] {
      var front, last := ds[..|ds| - 1], ds[|ds| - 1];
      WithAllIs(g, front, source);
      assert last in ds;
      assert front + [last] == ds;
      PathsSnoc(front, last);
    }
  }

  lemma {:induction false} ListedPaths(ds: seq<Derivation>, g: Graph, keys: set<Path>)
    requires WellKeyed(g) && Lists(ds, g, keys)
    ensures PathsOf(ds) == keys && keys <= g.Keys
    ensures From(ds, g)
  {
    var order :| ListsAt(ds, g, keys, order);
    forall p | p in keys ensures p in PathsOf(ds) && p in g {
      var i :| 0 <= i < |order| && order[i] == p;
      assert ds[i] in ds && ds[i].attrPath == p;
    }
  }

  /** Removing and inserting what a diff lists turns the previous graph, or any
      graph that agrees with it, into one that agrees with the current graph: an
      entry the diff does not mention keeps the value it had. */
  lemma {:induction false} DiffIsPatch(base: Graph, previous: Graph, current: Graph, d: Diff)
    requires WellKeyed(previous) && WellKeyed(current) && IsDiff(previous, current, d) && Agree(base, previous)
    ensures Agree(Patched(base, d), current)
    ensures forall p :: p in current ==>
              Patched(base, d)[p] == if p in Moved(current, previous) then current[p] else base[p]
  {
    ListedPaths(d.removed, previous, Moved(previous, current));
    ListedPaths(d.added, current, Moved(current, previous));
    WithoutAllIs(base, d.removed);
    WithAllIs(WithoutAll(base, d.removed), d.added, current);
    assert Patched(base, d).Keys == current.Keys;
  }

  /** The patch reproduces the current graph itself exactly when no derivation
      changed behind an unchanged derivation file. */
  lemma {:induction false} PatchExact(previous: Graph, current: Graph, d: Diff)
    requires WellKeyed(previous) && WellKeyed(current) && IsDiff(previous, current, d)
    ensures Patched(previous, d) == current <==>
              forall p :: p in previous && p in current && previous[p].drvPath == current[p].drvPath ==>
                            previous[p] == current[p]
  {
    DiffIsPatch(previous, previous, current, d);
    if Patched(previous, d) == current {
      forall p | p in previous && p in current && previous[p].drvPath == current[p].drvPath
        ensures previous[p] == current[p]
      {
        assert p !in Moved(current, previous);
      }
    }
  }

  predicate SameAt(a: Graph, b: Graph, p: Path) {
    (p in a <==> p in b) && (p in a && p in b ==> a[p].drvPath == b[p].drvPath)
  }

  lemma {:induction false} AgreeIsSame(a: Graph, b: Graph)
    ensures Agree(a, b) <==> forall p :: SameAt(a, b, p)
  {
    if forall p :: SameAt(a, b, p) {
      forall p ensures p in a.Keys <==> p in b.Keys {
        assert SameAt(a, b, p);
      }
      forall p | p in a ensures p in b && a[p].drvPath == b[p].drvPath {
        assert SameAt(a, b, p);
      }
    }
  }

  /** A diff is taken against a snapshot.  Applied to a graph that has moved on from
      it, the diff still leads to the current graph if and only if nothing has moved
      that the diff does not mention. */
  lemma {:induction false} PatchOnMovedGraph(moved: Graph, snapshot: Graph, current: Graph, d: Diff)
    requires WellKeyed(snapshot) && WellKeyed(current) && IsDiff(snapshot, current, d)
    ensures Agree(Patched(moved, d), current) <==>
              forall p :: SameAt(snapshot, current, p) ==> SameAt(moved, snapshot, p)
  {
    ListedPaths(d.removed, snapshot, Moved(snapshot, current));
    ListedPaths(d.added, current, Moved(current, snapshot));
    WithoutAllIs(moved, d.removed);
    WithAllIs(WithoutAll(moved, d.removed), d.added, current);
    var patched := Patched(moved, d);
    forall p ensures SameAt(patched, current, p) <==> (SameAt(snapshot, current, p) ==> SameAt(moved, snapshot, p)) {
      assert p in Moved(snapshot, current) || p in Moved(current, snapshot) <==> !SameAt(snapshot, current, p);
    }
    AgreeIsSame(patched, current);
  }

  /** A diff is empty exactly when the graphs agree. */
  lemma {:induction false} EmptyDiff(previous: Graph, current: Graph, d: Diff)
    requires IsDiff(previous, current, d)
    ensures d.added == [] && d.removed == [] <==> Agree(previous, current)
  {
    ListsEmpty(d.removed, previous, Moved(previous, current));
    ListsEmpty(d.added, current, Moved(current, previous));
    if d.added == [] && d.removed == [] {
      forall p | p in previous ensures p in current && previous[p].drvPath == current[p].drvPath {
        assert p !in Moved(previous, current);
      }
      forall p | p in current ensures p in previous {
        assert p !in Moved(current, previous);
      }
    }
    if Agree(previous, current) {
      assert Moved(previous, current) == {} && Moved(current, previous) == {};
    }
  }

  lemma {:induction false} ListsEmpty(ds: seq<Derivation>, g: Graph, keys: set<Path>)
    requires Lists(ds, g, keys)
    ensures ds == [] <==> keys == {}
  {
    var order :| ListsAt(ds, g, keys, order);
    if ds != [] {
      assert order[0] in keys;
    }
    if keys != {} {
      var p :| p in keys;
      assert p in order;
    }
  }

  /** The order in which map entries come up only permutes the lists. */
  lemma {:induction false} ListsAgree(ds: seq<Derivation>, es: seq<Derivation>, g: Graph, keys: set<Path>)
    requires Lists(ds, g, keys) && Lists(es, g, keys)
    ensures multiset(ds) == multiset(es)
  {
    var order :| ListsAt(ds, g, keys, order);
    var other :| ListsAt(es, g, keys, other);
    Permuted(order, other, ds, es, g);
  }

  lemma {:induction false} Permuted(
    order: seq<Path>, other: seq<Path>, ds: seq<Derivation>, es: seq<Derivation>, g: Graph)
    requires NoDuplicates(order) && NoDuplicates(other) && forall p :: p in order <==> p in other
    requires Values(ds, g, order) && Values(es, g, other)
    ensures multiset(ds) == multiset(es)
    decreases |order|
  {
    if order == [] {
      FirstIn(other);
    } else {
      assert order[0] in other;
      var k :| 0 <= k < |other| && other[k] == order[0];
      DropOne(order, other, k);
      DropValue(es, g, other, k);
      Permuted(order[1..], other[..k] + other[k + 1..], ds[1..], es[..k] + es[k + 1..], g);
      assert ds == [ds[0]] + ds[1..];
    }
  }

  lemma {:induction false} FirstIn(s: seq<Path>)
    ensures s != [] ==> s[0] in s
  {
  }

  lemma {:induction false} DropValue(es: seq<Derivation>, g: Graph, order: seq<Path>, k: nat)
    requires Values(es, g, order) && k < |es|
    ensures Values(es[..k] + es[k + 1..], g, order[..k] + order[k + 1..])
    ensures multiset(es) == multiset{es[k]} + multiset(es[..k] + es[k + 1..])
  {
    assert es == es[..k] + [es[k]] + es[k + 1..];
  }

  lemma {:induction false} DropOne(order: seq<Path>, other: seq<Path>, k: nat)
    requires NoDuplicates(order) && NoDuplicates(other) && forall p :: p in order <==> p in other
    requires order != [] && k < |other| && other[k] == order[0]
    ensures NoDuplicates(other[..k] + other[k + 1..])
    ensures forall p :: p in order[1..] <==> p in other[..k] + other[k + 1..]
  {
    var rest := other[..k] + other[k + 1..];
    forall p ensures p in order[1..] <==> p in rest {
      assert order == [order[0]] + order[1..] && other == other[..k] + [other[k]] + other[k + 1..];
      assert p in order <==> p == order[0] || p in order[1..];
      assert p in other <==> p == other[k] || p in rest;
      assert order[0] !in order[1..];
      assert other[k] !in rest;
    }
  }

  /** Diffing the other way round swaps what is added and what is removed. */
  lemma {:induction false} DiffSwaps(previous: Graph, current: Graph, d: Diff, back: Diff)
    requires IsDiff(previous, current, d) && IsDiff(current, previous, back)
    ensures multiset(d.added) == multiset(back.removed) && multiset(d.removed) == multiset(back.added)
  {
    ListsAgree(d.added, back.removed, current, Moved(current, previous));
    ListsAgree(d.removed, back.added, previous, Moved(previous, current));
  }
}
