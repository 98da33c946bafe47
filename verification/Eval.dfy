/** What one worker answers for one attribute path (`process_attr`), over an
    arbitrary, possibly cyclic and possibly infinite value graph. */
module Eval {
  import opened Types

  const MAX_ATTR_DEPTH := 64

  /** A handle on a Nix value.  The Nix C API is a foreign call: it appears as
      the functions of `Nix`, about which nothing is assumed. */
  type Value = int

  datatype Job = Job(
    name: string,
    system: string,
    outputs: map<string, Option<string>>,
    meta: Option<Json>,
    inputDrvs: map<string, seq<string>>,
    constituents: Option<seq<string>>,
    gcRootError: Option<string>)

  datatype Nix = Nix(
    root: Value,
    autoCall: Value -> Result<Value>,
    getAttr: (Value, string) -> Result<Value>,
    isAttrs: Value -> bool,
    getDerivation: Value -> Result<Option<string>>,
    attrKeys: Value -> Result<seq<string>>,
    recurseForDerivations: Value -> bool,
    readJob: (Value, string) -> Result<Job>)

  /** Attribute sets have no repeated names. */
  ghost predicate DistinctKeys(nix: Nix) {
    forall v: Value :: nix.attrKeys(v).Ok? ==> NoDuplicates(nix.attrKeys(v).value)
  }

  function Step(nix: Nix, v: Value, key: string): Result<Value> {
    var raw := nix.getAttr(v, key);
    if raw.Err? then raw else nix.autoCall(raw.value)
  }

  function Follow(nix: Nix, v: Value, path: Path): Result<Value>
    decreases |path|
  {
    if path == [] then Ok(v)
    else
      var next := Step(nix, v, path[0]);
      if next.Err? then next else Follow(nix, next.value, path[1..])
  }

  /** The root itself is auto-called only when it is the value asked for. */
  function Navigated(nix: Nix, path: Path): Result<Value> {
    if path == [] then nix.autoCall(nix.root) else Follow(nix, nix.root, path)
  }

  method Navigate(nix: Nix, path: Path) returns (r: Result<Value>)
    ensures r == Navigated(nix, path)
  {
    if path == [] {
      return nix.autoCall(nix.root);
    }
    var current := nix.root;
    for i := 0 to |path|
      invariant Follow(nix, nix.root, path) == Follow(nix, current, path[i..])
    {
      assert path[i..][0] == path[i] && path[i..][1..] == path[i + 1..];
      var next := Step(nix, current, path[i]);
      if next.Err? {
        return next;
      }
      current := next.value;
    }
    return Ok(current);
  }

  /** The empty path is the root, auto-called; a first name is read from the root as it
      is, every further one from the value before it, and each value read is
      auto-called; a failure ends the navigation. */
  lemma {:induction false} NavigatedMore(nix: Nix, p: Path, k: string)
    ensures Navigated(nix, []) == nix.autoCall(nix.root)
    ensures p == [] ==>
              Navigated(nix, p + [k]) ==
                match nix.getAttr(nix.root, k) case Ok(raw) => nix.autoCall(raw) case Err(e) => Err(e)
    ensures p != [] ==>
              Navigated(nix, p + [k]) ==
                match Navigated(nix, p)
                case Err(e) => Err(e)
                case Ok(v) => match nix.getAttr(v, k) case Ok(raw) => nix.autoCall(raw) case Err(e) => Err(e)
  {
    FollowMore(nix, nix.root, p, k);
  }

  lemma {:induction false} FollowMore(nix: Nix, v: Value, p: Path, k: string)
    ensures Follow(nix, v, p + [k]) ==
              match Follow(nix, v, p)
              case Err(e) => Err(e)
              case Ok(w) => match nix.getAttr(w, k) case Ok(raw) => nix.autoCall(raw) case Err(e) => Err(e)
    decreases |p|
  {
    if p == [] {
      assert p + [k] == [k] && [k][1..] == [];
      assert Follow(nix, v, [k]) == Step(nix, v, k);
    } else {
      assert (p + [k])[0] == p[0] && (p + [k])[1..] == p[1..] + [k];
      if Step(nix, v, p[0]).Ok? {
        FollowMore(nix, Step(nix, v, p[0]).value, p[1..], k);
      }
    }
  }

  const RECURSE_KEY := "recurseForDerivations"

  function Without(names: seq<string>, name: string): (r: seq<string>)
    ensures name !in r
    ensures forall n :: n in r ==> n in names
    ensures forall n :: n in names && n != name ==> n in r
    ensures NoDuplicates(names) ==> NoDuplicates(r)
  {
    if names == [] then []
    else
      var rest := Without(names[1..], name);
      assert names[0] !in names[1..] || !NoDuplicates(names);
      if names[0] == name then rest else [names[0]] + rest
  }

  /** The other names keep their order. */
  lemma {:induction false} WithoutKeepsOrder(names: seq<string>, more: seq<string>, name: string)
    ensures Without(names + more, name) == Without(names, name) + Without(more, name)
    ensures name !in names ==> Without(names, name) == names
    decreases |names|
  {
    if names == [] {
      assert names + more == more;
    } else {
      assert (names + more)[0] == names[0] && (names + more)[1..] == names[1..] + more;
      WithoutKeepsOrder(names[1..], more, name);
    }
  }

  function CollectRecurse(nix: Nix, v: Value, path: Path, forceRecurse: bool): seq<string> {
    var keys := nix.attrKeys(v);
    if keys.Err? then []
    else if forceRecurse || path == [] || nix.recurseForDerivations(v) then Without(keys.value, RECURSE_KEY)
    else []
  }

  function FailedAt(path: Path, message: string): Event {
    ErrorEvent(EvalError(JoinDots(path), path, message, false))
  }

  function MakeJob(nix: Nix, v: Value, path: Path, drvPath: string): Event {
    match nix.readJob(v, drvPath)
    case Ok(job) =>
      DerivationEvent(Derivation(
        JoinDots(path), path, job.name, job.system, drvPath, job.outputs, job.meta, job.inputDrvs,
        job.constituents, job.gcRootError))
    case Err(message) => FailedAt(path, message)
  }

  /** `process_attr`, branch by branch. */
  function ProcessAttr(nix: Nix, forceRecurse: bool, path: Path): Event {
    match Navigated(nix, path)
    case Err(message) => FailedAt(path, message)
    case Ok(v) =>
      if !nix.isAttrs(v) then AttrSet(JoinDots(path), path, [])
      else match nix.getDerivation(v)
        case Ok(Some(drvPath)) => MakeJob(nix, v, path, drvPath)
        case Ok(None) =>
          if |path| >= MAX_ATTR_DEPTH then
            FailedAt(path, "attrset exceeds the maximum traversal depth of 64")
          else
            AttrSet(JoinDots(path), path, CollectRecurse(nix, v, path, forceRecurse))
        case Err(message) => FailedAt(path, message)
  }

  /** What the scheduler relies on: an answer is about the path that was asked,
      traversal stops at the depth cap, and child names are distinct. */
  type Oracle = Path -> Event

  ghost predicate WellBehaved(o: Oracle) {
    forall p: Path :: BehavesAt(o, p)
  }

  ghost predicate BehavesAt(o: Oracle, p: Path) {
    && o(p).At() == p
    && (|p| >= MAX_ATTR_DEPTH ==> o(p).Children() == [])
    && NoDuplicates(o(p).Children())
  }

  function Evaluator(nix: Nix, forceRecurse: bool): Oracle {
    path => ProcessAttr(nix, forceRecurse, path)
  }

  /** Every Nix graph, cyclic ones included, gives a well-behaved oracle, and
      evaluation itself never reports a fatal error. */
  lemma {:induction false} EvaluatorWellBehaved(nix: Nix, forceRecurse: bool)
    requires DistinctKeys(nix)
    ensures WellBehaved(Evaluator(nix, forceRecurse))
    ensures forall p: Path :: var e := Evaluator(nix, forceRecurse)(p); e.ErrorEvent? ==> !e.err.fatal
  {
    var o := Evaluator(nix, forceRecurse);
    forall p: Path
      ensures BehavesAt(o, p)
      ensures o(p).ErrorEvent? ==> !o(p).err.fatal
    {
      assert o(p) == ProcessAttr(nix, forceRecurse, p);
    }
  }

  // ---- What the evaluator answers ------------------------------------------

  /** The value at `p` is an attribute set, and not a derivation. */
  predicate IsPlainSet(nix: Nix, p: Path, v: Value) {
    Navigated(nix, p) == Ok(v) && nix.isAttrs(v) && nix.getDerivation(v) == Ok(None)
  }

  /** A plain attribute set above the depth cap is expanded into exactly its names but
      the marker, if expansion is forced, at the root, or asked for by the set; and
      otherwise into none. */
  lemma {:induction false} ExpandsInto(nix: Nix, force: bool, p: Path, v: Value, k: string)
    requires IsPlainSet(nix, p, v) && |p| < 64
    ensures Evaluator(nix, force)(p).AttrSet?
    ensures k in Evaluator(nix, force)(p).Children() <==>
              && nix.attrKeys(v).Ok? && k in nix.attrKeys(v).value && k != "recurseForDerivations"
              && (force || p == [] || nix.recurseForDerivations(v))
  {
  }

  /** Only plain attribute sets have children at all. */
  lemma {:induction false} OnlySetsExpand(nix: Nix, force: bool, p: Path)
    requires Evaluator(nix, force)(p).Children() != []
    ensures exists v :: IsPlainSet(nix, p, v) && |p| < 64
  {
    assert IsPlainSet(nix, p, Navigated(nix, p).value);
  }

  /** Whatever the flags, every name of the root but the marker is visited. */
  lemma {:induction false} RootIsExpanded(nix: Nix, force: bool, v: Value, k: string)
    requires IsPlainSet(nix, [], v) && nix.attrKeys(v).Ok? && k in nix.attrKeys(v).value
    requires k != "recurseForDerivations"
    ensures Reachable(Evaluator(nix, force), [k])
  {
    ExpandsInto(nix, force, [], v, k);
    assert Parent([k]) == [];
  }

  /** Below the root, a visited plain set passes the visit on to its names exactly if
      forced or if it asks for it. */
  lemma {:induction false} SetIsExpanded(nix: Nix, force: bool, p: Path, v: Value, k: string)
    requires IsPlainSet(nix, p, v) && 0 < |p| < 64 && Reachable(Evaluator(nix, force), p)
    ensures Reachable(Evaluator(nix, force), p + [k]) <==>
              && nix.attrKeys(v).Ok? && k in nix.attrKeys(v).value && k != "recurseForDerivations"
              && (force || nix.recurseForDerivations(v))
  {
    ExpandsInto(nix, force, p, v, k);
    assert Parent(p + [k]) == p && LastName(p + [k]) == k;
  }

  /** The value at `p` is a derivation that could be read. */
  predicate IsJob(nix: Nix, p: Path, v: Value, drvPath: string, job: Job) {
    && Navigated(nix, p) == Ok(v) && nix.isAttrs(v)
    && nix.getDerivation(v) == Ok(Some(drvPath)) && nix.readJob(v, drvPath) == Ok(job)
  }

  /** A derivation is reported exactly for such a value, at any depth, with the
      fields that were read. */
  lemma {:induction false} ReportsJob(nix: Nix, force: bool, p: Path)
    ensures Evaluator(nix, force)(p).DerivationEvent? <==>
              exists v, drvPath, job :: IsJob(nix, p, v, drvPath, job)
    ensures forall v, drvPath, job :: IsJob(nix, p, v, drvPath, job) ==>
              var e := Evaluator(nix, force)(p);
              && e.DerivationEvent?
              && e.drv.attr == JoinDots(p) && e.drv.attrPath == p && e.drv.drvPath == drvPath
              && e.drv.name == job.name && e.drv.system == job.system && e.drv.outputs == job.outputs
              && e.drv.meta == job.meta && e.drv.inputDrvs == job.inputDrvs
              && e.drv.constituents == job.constituents && e.drv.gcRootError == job.gcRootError
  {
    var e := Evaluator(nix, force)(p);
    if e.DerivationEvent? {
      var v := Navigated(nix, p).value;
      var drvPath := nix.getDerivation(v).value.value;
      assert IsJob(nix, p, v, drvPath, nix.readJob(v, drvPath).value);
    }
  }

  /** What went wrong at `p`, if anything did. */
  ghost predicate GoesWrong(nix: Nix, p: Path, message: string) {
    || Navigated(nix, p) == Err(message)
    || (exists v :: Navigated(nix, p) == Ok(v) && nix.isAttrs(v) && nix.getDerivation(v) == Err(message))
    || (exists v, drvPath :: Navigated(nix, p) == Ok(v) && nix.isAttrs(v) && nix.getDerivation(v) == Ok(Some(drvPath))
                             && nix.readJob(v, drvPath) == Err(message))
    || (|p| >= 64 && message == "attrset exceeds the maximum traversal depth of 64"
        && exists v :: IsPlainSet(nix, p, v))
  }

  /** An error is reported exactly if navigating, looking for a derivation or reading
      it failed, or a plain set is too deep; it carries that failure's text. */
  lemma {:induction false} ReportsError(nix: Nix, force: bool, p: Path, message: string)
    ensures Evaluator(nix, force)(p) == ErrorEvent(EvalError(JoinDots(p), p, message, false))
       <==> GoesWrong(nix, p, message)
  {
    var r := Navigated(nix, p);
    if r.Ok? {
      var v := r.value;
      assert IsPlainSet(nix, p, v) <==> nix.isAttrs(v) && nix.getDerivation(v) == Ok(None);
    }
  }

  /** A value that is no attribute set is reported as one without children. */
  lemma {:induction false} ReportsOtherValue(nix: Nix, force: bool, p: Path, v: Value)
    requires Navigated(nix, p) == Ok(v) && !nix.isAttrs(v)
    ensures Evaluator(nix, force)(p) == AttrSet(JoinDots(p), p, [])
  {
  }

  // ---- The simple recursive walk -------------------------------------------

  /** The paths a traversal from the root discovers, said without any traversal:
      each prefix was expanded into the next name. */
  ghost predicate Reachable(o: Oracle, p: Path)
    decreases |p|
  {
    p == [] || (Reachable(o, Parent(p)) && LastName(p) in o(Parent(p)).Children())
  }

  function Room(p: Path): nat {
    if |p| < MAX_ATTR_DEPTH then MAX_ATTR_DEPTH - |p| else 0
  }

  /** The simple recursive walk the distributed evaluation stands for. */
  ghost function Walk(o: Oracle, p: Path): (events: seq<Event>)
    requires WellBehaved(o)
    ensures |events| >= 1
    decreases Room(p), 1, 0
  {
    assert BehavesAt(o, p);
    [o(p)] + WalkAll(o, p, o(p).Children())
  }

  ghost function WalkAll(o: Oracle, p: Path, names: seq<string>): seq<Event>
    requires WellBehaved(o)
    requires |p| >= MAX_ATTR_DEPTH ==> names == []
    decreases Room(p), 0, |names|
  {
    if names == [] then [] else Walk(o, p + [names[0]]) + WalkAll(o, p, names[1..])
  }

  /** Every event of a walk is the oracle's answer at a path extending `p`. */
  lemma {:induction false} WalkEvents(o: Oracle, p: Path, e: Event)
    requires WellBehaved(o)
    requires e in Walk(o, p)
    ensures p <= e.At() && e == o(e.At())
    ensures Reachable(o, p) ==> Reachable(o, e.At())
    decreases Room(p), 1, 0
  {
    assert BehavesAt(o, p);
    if e != o(p) {
      WalkAllEvents(o, p, o(p).Children(), e);
    }
  }

  lemma {:induction false} WalkAllEvents(o: Oracle, p: Path, names: seq<string>, e: Event)
    requires WellBehaved(o)
    requires |p| < MAX_ATTR_DEPTH
    requires forall n :: n in names ==> n in o(p).Children()
    requires e in WalkAll(o, p, names)
    ensures |e.At()| > |p| && p <= e.At() && e.At()[|p|] in names && e == o(e.At())
    ensures Reachable(o, p) ==> Reachable(o, e.At())
    decreases Room(p), 0, |names|
  {
    var child := p + [names[0]];
    if e in Walk(o, child) {
      assert Parent(child) == p;
      WalkEvents(o, child, e);
      assert e.At()[|p|] == child[|p|];
    } else {
      WalkAllEvents(o, p, names[1..], e);
    }
  }

  /** A reachable path below a walked one is walked. */
  lemma {:induction false} WalkCovers(o: Oracle, p: Path, q: Path)
    requires WellBehaved(o)
    requires p <= q && Reachable(o, q)
    ensures o(q) in Walk(o, p)
    decreases Room(p), 1, 0
  {
    assert BehavesAt(o, p);
    if p != q {
      ReachablePrefix(o, q, |p| + 1);
      var child := q[..|p| + 1];
      assert Parent(child) == p;
      WalkAllCovers(o, p, o(p).Children(), q);
    }
  }

  lemma {:induction false} WalkAllCovers(o: Oracle, p: Path, names: seq<string>, q: Path)
    requires WellBehaved(o)
    requires |p| < MAX_ATTR_DEPTH
    requires |q| > |p| && p <= q && Reachable(o, q) && q[|p|] in names
    ensures o(q) in WalkAll(o, p, names)
    decreases Room(p), 0, |names|
  {
    if names[0] == q[|p|] {
      WalkCovers(o, p + [names[0]], q);
    } else {
      WalkAllCovers(o, p, names[1..], q);
    }
  }

  lemma {:induction false} ReachablePrefix(o: Oracle, q: Path, n: nat)
    requires Reachable(o, q) && n <= |q|
    ensures Reachable(o, q[..n])
    decreases |q|
  {
    if n < |q| {
      ReachablePrefix(o, Parent(q), n);
      assert Parent(q)[..n] == q[..n];
    } else {
      assert q[..n] == q;
    }
  }

  /** A walk visits no path twice. */
  lemma {:induction false} WalkVisitsOnce(o: Oracle, p: Path)
    requires WellBehaved(o)
    ensures NoDuplicates(Walk(o, p))
    decreases Room(p), 1, 0
  {
    assert BehavesAt(o, p);
    var names := o(p).Children();
    if names != [] {
      WalkAllVisitsOnce(o, p, names);
      var rest := WalkAll(o, p, names);
      forall k | 0 <= k < |rest| ensures rest[k] != o(p) {
        WalkAllEvents(o, p, names, rest[k]);
      }
    }
  }

  lemma {:induction false} WalkAllVisitsOnce(o: Oracle, p: Path, names: seq<string>)
    requires WellBehaved(o)
    requires |p| < MAX_ATTR_DEPTH && NoDuplicates(names)
    requires forall n :: n in names ==> n in o(p).Children()
    ensures NoDuplicates(WalkAll(o, p, names))
    decreases Room(p), 0, |names|
  {
    if names != [] {
      var child := p + [names[0]];
      var first, rest := Walk(o, child), WalkAll(o, p, names[1..]);
      WalkVisitsOnce(o, child);
      WalkAllVisitsOnce(o, p, names[1..]);
      forall i, j | 0 <= i < |first| && 0 <= j < |rest| ensures first[i] != rest[j] {
        WalkEvents(o, child, first[i]);
        WalkAllEvents(o, p, names[1..], rest[j]);
        assert first[i].At()[|p|] == child[|p|];
      }
    }
  }

  /** The walk from the root is exactly the reachable paths, each once. */
  lemma {:induction false} WalkIsReachability(o: Oracle)
    requires WellBehaved(o)
    ensures forall e :: e in Walk(o, []) <==> e == o(e.At()) && Reachable(o, e.At())
    ensures NoDuplicates(Walk(o, []))
  {
    forall e: Event ensures e in Walk(o, []) <==> e == o(e.At()) && Reachable(o, e.At()) {
      if e in Walk(o, []) {
        WalkEvents(o, [], e);
      } else if e == o(e.At()) && Reachable(o, e.At()) {
        WalkCovers(o, [], e.At());
      }
    }
    WalkVisitsOnce(o, []);
  }

  /** No reachable path is longer than the cap, whatever cycles the graph has. */
  lemma {:induction false} ReachableDepth(o: Oracle, p: Path)
    requires WellBehaved(o) && Reachable(o, p)
    ensures |p| <= MAX_ATTR_DEPTH
  {
    if p != [] {
      assert BehavesAt(o, Parent(p));
    }
  }
}
