/** The daemon's bounded session registry: a map and a queue of keys, oldest
    first, kept in place. */
module Registry {
  import opened Types

  datatype Cache<T> = Cache(order: seq<string>, sessions: map<string, T>)

  /** The queue lists exactly the cached keys, each once. */
  ghost predicate InOrder<T>(c: Cache<T>) {
    && NoDuplicates(c.order)
    && (forall k :: k in c.order <==> k in c.sessions)
    && |c.order| == |c.sessions|
  }

  /** Removes the first occurrence. */
  function Remove(s: seq<string>, key: string): (r: seq<string>)
    ensures forall k :: k in r ==> k in s
  {
    if s == [] then [] else if s[0] == key then s[1..] else [s[0]] + Remove(s[1..], key)
  }

  function Evict<T>(c: Cache<T>, max: nat): Cache<T>
    decreases |c.order|
  {
    if |c.sessions| >= max && c.order != [] then
      Evict(Cache(c.order[1..], c.sessions - {c.order[0]}), max)
    else c
  }

  function Insert<T>(c: Cache<T>, key: string, value: T, max: nat): Cache<T> {
    var e := Evict(c.(order := Remove(c.order, key)), max);
    Cache(e.order + [key], e.sessions[key := value])
  }

  function Touch<T>(c: Cache<T>, key: string): Cache<T> {
    if key in c.sessions then c.(order := Remove(c.order, key) + [key]) else c
  }

  class SessionRegistry<T> {
    var sessions: map<string, T>
    var order: seq<string>
    const max: nat

    function View(): Cache<T>
      reads this
    {
      Cache(order, sessions)
    }

    constructor (max: nat)
      ensures View() == Cache([], map[]) && this.max == max
    {
      sessions, order, this.max := map[], [], max;
    }

    method RemoveOrderEntry(key: string)
      modifies this`order
      ensures order == Remove(old(order), key)
    {
      for i := 0 to |order|
        invariant order == old(order)
        invariant forall j :: 0 <= j < i ==> order[j] != key
      {
        if order[i] == key {
          RemoveAt(order, i, key);
          order := order[..i] + order[i + 1..];
          return;
        }
      }
      RemoveAbsent(order, key);
    }

    method InsertEntry(key: string, value: T)
      modifies this
      ensures View() == Insert(old(View()), key, value, max)
    {
      RemoveOrderEntry(key);
      ghost var start := View();
      while |sessions| >= max
        invariant Evict(start, max) == Evict(View(), max)
        decreases |order|
      {
        if order == [] {
          break;
        }
        var oldest := order[0];
        order := order[1..];
        sessions := sessions - {oldest};
      }
      order := order + [key];
      sessions := sessions[key := value];
    }

    method Get(key: string) returns (value: Option<T>)
      modifies this`order
      ensures View() == Touch(old(View()), key)
      ensures key in sessions ==> order == Remove(old(order), key) + [key]
      ensures key !in sessions ==> order == old(order)
      ensures value == if key in sessions then Some(sessions[key]) else None
    {
      if key !in sessions {
        return None;
      }
      value := Some(sessions[key]);
      RemoveOrderEntry(key);
      order := order + [key];
    }

    /** `get_mut` followed by an assignment through the reference when `accept`
        says so. */
    method Amend(key: string, accept: T -> bool, change: T -> T)
      modifies this
      ensures View() == Amended(old(View()), key, accept, change)
      ensures key in old(sessions) ==> order == Remove(old(order), key) + [key]
      ensures key !in old(sessions) ==> View() == old(View())
    {
      if key !in sessions {
        return;
      }
      RemoveOrderEntry(key);
      order := order + [key];
      if accept(sessions[key]) {
        sessions := sessions[key := change(sessions[key])];
      }
    }
  }

  function Amended<T>(c: Cache<T>, key: string, accept: T -> bool, change: T -> T): Cache<T> {
    var t := Touch(c, key);
    if key in c.sessions && accept(c.sessions[key])
    then t.(sessions := c.sessions[key := change(c.sessions[key])])
    else t
  }

  /** A key that is looked up becomes the most recent one, whether or not the change is
      accepted; the change reaches that key alone. */
  lemma {:induction false} AmendMeans<T>(c: Cache<T>, key: string, accept: T -> bool, change: T -> T)
    ensures var a := Amended(c, key, accept, change);
      && (key !in c.sessions ==> a == c)
      && (key in c.sessions ==> a.order == Remove(c.order, key) + [key])
      && a.sessions.Keys == c.sessions.Keys
      && (forall k :: k in c.sessions ==>
            a.sessions[k] ==
            if k == key && accept(c.sessions[k]) then change(c.sessions[k]) else c.sessions[k])
  {
  }

  // ---- What insertion keeps ------------------------------------------------

  lemma {:induction false} RemoveFacts(s: seq<string>, key: string)
    requires NoDuplicates(s)
    ensures NoDuplicates(Remove(s, key)) && key !in Remove(s, key)
    ensures forall k :: k != key ==> (k in s <==> k in Remove(s, key))
    ensures |Remove(s, key)| == if key in s then |s| - 1 else |s|
    decreases |s|
  {
    if s != [] && s[0] != key {
      RemoveFacts(s[1..], key);
      assert s == [s[0]] + s[1..];
      assert s[0] !in s[1..];
    } else if s != [] {
      assert s == [s[0]] + s[1..];
    }
  }

  /** How many of `n` queued keys an insertion into a registry of `size` evicts. */
  function Evictions(n: nat, size: nat, max: nat): nat {
    if size < max then 0 else Least(n, size - max + 1)
  }

  function Only<T>(m: map<string, T>, keys: seq<string>): map<string, T> {
    map k | k in m && k in keys :: m[k]
  }

  /** The map holds the queued keys and those in `extra`. */
  ghost predicate Holds<T>(c: Cache<T>, extra: set<string>) {
    && NoDuplicates(c.order)
    && (forall k :: k in c.order ==> k !in extra)
    && (forall k :: k in c.sessions <==> k in c.order || k in extra)
  }

  ghost predicate Submap<T>(a: map<string, T>, b: map<string, T>) {
    forall k :: k in a ==> k in b && a[k] == b[k]
  }

  lemma {:induction false} EvictOldest<T>(c: Cache<T>, extra: set<string>)
    requires Holds(c, extra) && c.order != []
    ensures var next := Cache(c.order[1..], c.sessions - {c.order[0]});
      Holds(next, extra) && |next.sessions| == |c.sessions| - 1 && Submap(next.sessions, c.sessions)
  {
    var oldest := c.order[0];
    assert c.order == [oldest] + c.order[1..];
    assert oldest !in c.order[1..];
    assert (c.sessions - {oldest}).Keys == c.sessions.Keys - {oldest};
  }

  /** The eviction loop in closed form.  A key being re-inserted (`extra`) has left
      the queue but still counts towards the size. */
  lemma {:induction false} EvictClosedForm<T>(c: Cache<T>, max: nat, extra: set<string>)
    requires Holds(c, extra)
    ensures var e := Evict(c, max);
      && e.order == c.order[Evictions(|c.order|, |c.sessions|, max)..]
      && Holds(e, extra) && Submap(e.sessions, c.sessions)
    decreases |c.order|
  {
    if |c.sessions| >= max && c.order != [] {
      EvictOldest(c, extra);
      var next := Cache(c.order[1..], c.sessions - {c.order[0]});
      EvictClosedForm(next, max, extra);
      var n := Evictions(|c.order|, |c.sessions|, max);
      assert next.order[n - 1..] == c.order[n..];
    } else {
      assert c.order[0..] == c.order;
    }
  }

  lemma {:induction false} DistinctSize(order: seq<string>, keys: set<string>)
    requires NoDuplicates(order) && forall k :: k in order <==> k in keys
    ensures |order| == |keys|
    decreases |order|
  {
    if order != [] {
      assert order == [order[0]] + order[1..];
      assert order[0] !in order[1..];
      DistinctSize(order[1..], keys - {order[0]});
    } else {
      assert keys == {};
    }
  }

  /** Insertion keeps exactly the most recent of the other keys, drops the rest,
      and adds the new binding as the most recent one. */
  lemma {:induction false} InsertKeepsRecent<T>(c: Cache<T>, key: string, value: T, max: nat)
    requires InOrder(c)
    ensures var i, others := Insert(c, key, value, max), Remove(c.order, key);
      var kept := others[Evictions(|others|, |c.sessions|, max)..];
      && InOrder(i)
      && i.order == kept + [key]
      && i.sessions == Only(c.sessions, kept)[key := value]
  {
    RemoveFacts(c.order, key);
    var others := Remove(c.order, key);
    var extra := if key in c.sessions then {key} else {};
    EvictClosedForm(c.(order := others), max, extra);
    InsertBinding(c, Evict(c.(order := others), max), extra, key, value);
  }

  lemma {:induction false} InsertBinding<T>(c: Cache<T>, e: Cache<T>, extra: set<string>, key: string, value: T)
    requires Holds(e, extra) && Submap(e.sessions, c.sessions) && extra <= {key} && key !in e.order
    ensures InOrder(Cache(e.order + [key], e.sessions[key := value]))
    ensures e.sessions[key := value] == Only(c.sessions, e.order)[key := value]
  {
    DistinctSize(e.order + [key], e.sessions[key := value].Keys);
  }

  lemma {:induction false} TouchKeeps<T>(c: Cache<T>, key: string)
    requires InOrder(c)
    ensures InOrder(Touch(c, key)) && Touch(c, key).sessions == c.sessions
    ensures |Touch(c, key).order| == |c.order|
  {
    RemoveFacts(c.order, key);
  }

  /** Inserting displaces some other session if and only if the registry is full
      and holds one: re-inserting a cached key into a full registry evicts too,
      although it needs no room. */
  lemma {:induction false} InsertDisplaces<T>(c: Cache<T>, key: string, value: T, max: nat)
    requires InOrder(c)
    ensures (exists k :: k != key && k in c.sessions && k !in Insert(c, key, value, max).sessions)
       <==> |c.sessions| >= max && exists k :: k != key && k in c.sessions
  {
    InsertKeepsRecent(c, key, value, max);
    RemoveFacts(c.order, key);
    var i, others := Insert(c, key, value, max), Remove(c.order, key);
    var n := Evictions(|others|, |c.sessions|, max);
    if |c.sessions| >= max && exists k :: k != key && k in c.sessions {
      var k :| k != key && k in c.sessions;
      assert k in others;
      assert n >= 1;
      assert others[0] !in others[n..];
      assert others[0] != key && others[0] in c.sessions && others[0] !in i.sessions;
    }
    if n == 0 {
      assert others[0..] == others;
    }
  }

  /** A registry within its bound loses at most one other session to an insertion: none
      if it has room, and otherwise the one used longest ago. */
  lemma {:induction false} InsertLosesOldest<T>(c: Cache<T>, key: string, value: T, max: nat, k: string)
    requires InOrder(c) && |c.sessions| <= max && k in c.sessions && k != key
    ensures var i := Insert(c, key, value, max);
      && (k in i.sessions ==> i.sessions[k] == c.sessions[k])
      && (k !in i.sessions <==> |c.sessions| == max && k == Remove(c.order, key)[0])
  {
    InsertKeepsRecent(c, key, value, max);
    RemoveFacts(c.order, key);
    var others := Remove(c.order, key);
    assert k in others;
    FirstDropped(others, k);
  }

  lemma {:induction false} FirstDropped(s: seq<string>, k: string)
    requires NoDuplicates(s) && k in s
    ensures s[0..] == s && (k in s[1..] <==> k != s[0])
  {
    assert s == [s[0]] + s[1..];
    assert s[0] !in s[1..];
  }

  // ---- Whole histories -----------------------------------------------------

  datatype Op<!T> =
    | InsertOp(key: string, value: T)
    | GetOp(key: string)
    | AmendOp(key: string, accept: T -> bool, change: T -> T)

  function ApplyOp<T>(c: Cache<T>, op: Op<T>, max: nat): Cache<T> {
    match op
    case InsertOp(k, v) => Insert(c, k, v, max)
    case GetOp(k) => Touch(c, k)
    case AmendOp(k, accept, change) => Amended(c, k, accept, change)
  }

  function RunOps<T>(ops: seq<Op<T>>, max: nat): Cache<T> {
    if |ops| == 0 then Cache([], map[])
    else ApplyOp(RunOps(ops[..|ops| - 1], max), ops[|ops| - 1], max)
  }

  lemma {:induction false} OneMoreOp<T>(ops: seq<Op<T>>, op: Op<T>, max: nat)
    ensures RunOps(ops + [op], max) == ApplyOp(RunOps(ops, max), op, max)
  {
    assert (ops + [op])[..|ops|] == ops;
  }

  /** An unbounded cache over the same history: every key ever used, ordered by
      its last use, with the value it last had. */
  datatype Ideal<T> = Ideal(recency: seq<string>, latest: map<string, T>)

  function IdealStep<T>(c: Cache<T>, i: Ideal<T>, op: Op<T>): Ideal<T> {
    if !op.InsertOp? && op.key !in c.sessions then i
    else Ideal(Remove(i.recency, op.key) + [op.key], Rewritten(i.latest, op))
  }

  function Rewritten<T>(latest: map<string, T>, op: Op<T>): map<string, T> {
    match op
    case InsertOp(k, v) => latest[k := v]
    case GetOp(_) => latest
    case AmendOp(k, accept, change) =>
      if k in latest && accept(latest[k]) then latest[k := change(latest[k])] else latest
  }

  function IdealAfter<T>(ops: seq<Op<T>>, max: nat): Ideal<T> {
    if |ops| == 0 then Ideal([], map[])
    else
      var before := ops[..|ops| - 1];
      IdealStep(RunOps(before, max), IdealAfter(before, max), ops[|ops| - 1])
  }

  ghost predicate SuffixOf(s: seq<string>, whole: seq<string>) {
    |s| <= |whole| && whole[|whole| - |s|..] == s
  }

  lemma {:induction false} RemoveConcat(a: seq<string>, b: seq<string>, key: string)
    requires key !in a
    ensures Remove(a + b, key) == a + Remove(b, key)
    decreases |a|
  {
    if a == [] {
      assert a + b == b;
    } else {
      assert (a + b)[0] == a[0] && (a + b)[1..] == a[1..] + b;
      RemoveConcat(a[1..], b, key);
    }
  }

  lemma {:induction false} RemoveFromFront(a: seq<string>, b: seq<string>, key: string)
    requires key in a
    ensures Remove(a + b, key) == Remove(a, key) + b
    decreases |a|
  {
    assert (a + b)[0] == a[0] && (a + b)[1..] == a[1..] + b;
    if a[0] != key {
      RemoveFromFront(a[1..], b, key);
    }
  }

  lemma {:induction false} RemoveAt(s: seq<string>, i: nat, key: string)
    requires i < |s| && s[i] == key && forall j :: 0 <= j < i ==> s[j] != key
    ensures Remove(s, key) == s[..i] + s[i + 1..]
  {
    if i > 0 {
      RemoveAt(s[1..], i - 1, key);
      assert s[..i] == [s[0]] + s[1..][..i - 1];
      assert s[i + 1..] == s[1..][i..];
    }
  }

  lemma {:induction false} SplitDistinct(front: seq<string>, s: seq<string>, key: string, i: nat)
    requires NoDuplicates(front + s) && key in front && i < |s|
    ensures s[i] != key
  {
    var j :| 0 <= j < |front| && front[j] == key;
    assert (front + s)[j] == key && (front + s)[|front| + i] == s[i];
  }

  lemma {:induction false} RemoveSuffix(s: seq<string>, whole: seq<string>, key: string)
    requires NoDuplicates(whole) && SuffixOf(s, whole)
    ensures SuffixOf(Remove(s, key) + [key], Remove(whole, key) + [key])
  {
    var front := whole[..|whole| - |s|];
    assert whole == front + s;
    if key in front {
      RemoveFromFront(front, s, key);
      forall i | 0 <= i < |s| ensures s[i] != key {
        SplitDistinct(front, s, key, i);
      }
      RemoveAbsent(s, key);
      SuffixKept(Remove(front, key), s, key);
    } else {
      RemoveConcat(front, s, key);
      SuffixKept(front, Remove(s, key), key);
    }
  }

  lemma {:induction false} SuffixKept(front: seq<string>, s: seq<string>, key: string)
    ensures SuffixOf(s + [key], (front + s) + [key])
  {
    assert (front + s) + [key] == front + (s + [key]);
  }

  lemma {:induction false} RemoveAbsent(s: seq<string>, key: string)
    requires forall i :: 0 <= i < |s| ==> s[i] != key
    ensures Remove(s, key) == s
  {
    if s != [] {
      RemoveAbsent(s[1..], key);
    }
  }

  lemma {:induction false} SuffixDropped(s: seq<string>, whole: seq<string>, n: nat, key: string)
    requires SuffixOf(s + [key], whole) && n <= |s|
    ensures SuffixOf(s[n..] + [key], whole)
  {
    var at := |whole| - |s| - 1;
    assert (s + [key])[n..] == s[n..] + [key];
    assert whole[at..][n..] == whole[at + n..];
  }

  ghost predicate Current<T>(c: Cache<T>, latest: map<string, T>) {
    forall k :: k in c.sessions ==> k in latest && latest[k] == c.sessions[k]
  }

  ghost predicate Refines<T>(c: Cache<T>, i: Ideal<T>) {
    NoDuplicates(i.recency) && SuffixOf(c.order, i.recency) && Current(c, i.latest)
  }

  lemma {:induction false} UsedLast(order: seq<string>, recency: seq<string>, key: string, n: nat)
    requires NoDuplicates(recency) && SuffixOf(order, recency) && n <= |Remove(order, key)|
    ensures NoDuplicates(Remove(recency, key) + [key])
    ensures SuffixOf(Remove(order, key)[n..] + [key], Remove(recency, key) + [key])
  {
    RemoveFacts(recency, key);
    RemoveSuffix(order, recency, key);
    SuffixDropped(Remove(order, key), Remove(recency, key) + [key], n, key);
  }

  lemma {:induction false} InsertCurrent<T>(
    c: Cache<T>, latest: map<string, T>, kept: seq<string>, key: string, value: T)
    requires Current(c, latest)
    ensures Current(Cache(kept + [key], Only(c.sessions, kept)[key := value]), latest[key := value])
  {
  }

  lemma {:induction false} InsertRefines<T>(c: Cache<T>, i: Ideal<T>, key: string, value: T, max: nat)
    requires InOrder(c) && Refines(c, i)
    ensures Refines(Insert(c, key, value, max), Ideal(Remove(i.recency, key) + [key], i.latest[key := value]))
  {
    var others := Remove(c.order, key);
    var n := Evictions(|others|, |c.sessions|, max);
    InsertKeepsRecent(c, key, value, max);
    UsedLast(c.order, i.recency, key, n);
    InsertCurrent(c, i.latest, others[n..], key, value);
  }

  lemma {:induction false} TouchRefines<T>(c: Cache<T>, i: Ideal<T>, key: string)
    requires Refines(c, i) && key in c.sessions
    ensures Refines(Touch(c, key), Ideal(Remove(i.recency, key) + [key], i.latest))
  {
    UsedLast(c.order, i.recency, key, 0);
    assert Remove(c.order, key)[0..] == Remove(c.order, key);
  }

  lemma {:induction false} OpInOrder<T>(c: Cache<T>, op: Op<T>, max: nat)
    requires InOrder(c)
    ensures InOrder(ApplyOp(c, op, max))
  {
    if op.InsertOp? {
      InsertKeepsRecent(c, op.key, op.value, max);
    } else {
      TouchKeeps(c, op.key);
      if op.AmendOp? {
        AmendMeans(c, op.key, op.accept, op.change);
        DistinctSize(c.order, c.sessions.Keys);
        DistinctSize(Touch(c, op.key).order, ApplyOp(c, op, max).sessions.Keys);
      }
    }
  }

  lemma {:induction false} OpRefines<T>(c: Cache<T>, i: Ideal<T>, op: Op<T>, max: nat)
    requires InOrder(c) && Refines(c, i)
    ensures Refines(ApplyOp(c, op, max), IdealStep(c, i, op))
  {
    if op.InsertOp? {
      InsertRefines(c, i, op.key, op.value, max);
    } else if op.key in c.sessions {
      TouchRefines(c, i, op.key);
    }
  }

  lemma {:induction false} OpSize<T>(c: Cache<T>, op: Op<T>, max: nat)
    requires InOrder(c) && |c.sessions| <= (if max < 1 then 1 else max)
    ensures |ApplyOp(c, op, max).sessions| <= (if max < 1 then 1 else max)
  {
    RemoveFacts(c.order, op.key);
    OpInOrder(c, op, max);
    if op.InsertOp? {
      InsertKeepsRecent(c, op.key, op.value, max);
    }
  }

  /** After any history of insertions, lookups and amendments, the registry holds
      the most recently used keys of that history, a suffix of the recency order
      of an unbounded cache, with their latest values, and never outgrows its
      bound. */
  lemma {:induction false} RegistryIsLru<T>(ops: seq<Op<T>>, max: nat)
    ensures var c := RunOps(ops, max);
      InOrder(c) && Refines(c, IdealAfter(ops, max)) && |c.sessions| <= (if max < 1 then 1 else max)
    decreases |ops|
  {
    if |ops| != 0 {
      var before, op := ops[..|ops| - 1], ops[|ops| - 1];
      RegistryIsLru(before, max);
      OpInOrder(RunOps(before, max), op, max);
      OpRefines(RunOps(before, max), IdealAfter(before, max), op, max);
      OpSize(RunOps(before, max), op, max);
    }
  }

  /** Operation `m` of the history used key `k`: it inserted it, or found it. */
  ghost predicate Uses<T>(ops: seq<Op<T>>, max: nat, m: nat, k: string) {
    m < |ops| && ops[m].key == k && (ops[m].InsertOp? || k in RunOps(ops[..m], max).sessions)
  }

  /** Some use of `a` comes after every use of `b`. */
  ghost predicate UsedAfter<T>(ops: seq<Op<T>>, max: nat, a: string, b: string) {
    exists m: nat :: Uses(ops, max, m, a) && forall n :: m <= n < |ops| ==> !Uses(ops, max, n, b)
  }

  lemma {:induction false} UsesBefore<T>(ops: seq<Op<T>>, max: nat, m: nat, k: string)
    requires m < |ops| - 1
    ensures Uses(ops, max, m, k) <==> Uses(ops[..|ops| - 1], max, m, k)
  {
    assert ops[..|ops| - 1][..m] == ops[..m];
  }

  /** One more operation that does not use `b` and uses `a` or leaves its lead alone. */
  lemma {:induction false} StillUsedAfter<T>(ops: seq<Op<T>>, max: nat, a: string, b: string)
    requires |ops| > 0 && !Uses(ops, max, |ops| - 1, b)
    requires UsedAfter(ops[..|ops| - 1], max, a, b) || Uses(ops, max, |ops| - 1, a)
    ensures UsedAfter(ops, max, a, b)
  {
    if !Uses(ops, max, |ops| - 1, a) {
      var before := ops[..|ops| - 1];
      var m: nat :| Uses(before, max, m, a) && forall n :: m <= n < |before| ==> !Uses(before, max, n, b);
      UsesBefore(ops, max, m, a);
      forall n | m <= n < |ops| ensures !Uses(ops, max, n, b) {
        if n < |before| {
          UsesBefore(ops, max, n, b);
        }
      }
    }
  }

  lemma {:induction false} RemoveKeepsOrder(s: seq<string>, key: string, i: nat, j: nat)
    requires i < j < |Remove(s, key)|
    ensures exists i', j' :: 0 <= i' < j' < |s| && s[i'] == Remove(s, key)[i] && s[j'] == Remove(s, key)[j]
    decreases |s|
  {
    if s[0] == key {
      assert s[i + 1] == Remove(s, key)[i] && s[j + 1] == Remove(s, key)[j];
    } else if i > 0 {
      RemoveKeepsOrder(s[1..], key, i - 1, j - 1);
      var i', j' :| 0 <= i' < j' < |s[1..]|
                    && s[1..][i'] == Remove(s[1..], key)[i - 1] && s[1..][j'] == Remove(s[1..], key)[j - 1];
      assert s[i' + 1] == Remove(s, key)[i] && s[j' + 1] == Remove(s, key)[j];
    } else {
      var rest := Remove(s[1..], key);
      assert rest[j - 1] in s[1..];
      var j' :| 0 <= j' < |s[1..]| && s[1..][j'] == rest[j - 1];
      assert s[0] == Remove(s, key)[0] && s[j' + 1] == Remove(s, key)[j];
    }
  }

  /** The recency order is the order of last use. */
  lemma {:induction false} RecencyIsLastUse<T>(ops: seq<Op<T>>, max: nat, i: nat, j: nat)
    requires i < j < |IdealAfter(ops, max).recency|
    ensures var recency := IdealAfter(ops, max).recency; UsedAfter(ops, max, recency[j], recency[i])
    decreases |ops|
  {
    var before, op := ops[..|ops| - 1], ops[|ops| - 1];
    var old', now := IdealAfter(before, max).recency, IdealAfter(ops, max).recency;
    RegistryIsLru(before, max);
    RegistryIsLru(ops, max);
    assert now[i] != now[j];
    if op.InsertOp? || op.key in RunOps(before, max).sessions {
      assert now == Remove(old', op.key) + [op.key];
      assert now[|now| - 1] == op.key;
      if j < |now| - 1 {
        RemoveKeepsOrder(old', op.key, i, j);
        var i', j' :| 0 <= i' < j' < |old'|
                      && old'[i'] == Remove(old', op.key)[i] && old'[j'] == Remove(old', op.key)[j];
        RecencyIsLastUse(before, max, i', j');
      }
      assert now[i] != op.key;
      StillUsedAfter(ops, max, now[j], now[i]);
    } else {
      RecencyIsLastUse(before, max, i, j);
      StillUsedAfter(ops, max, now[j], now[i]);
    }
  }

  lemma {:induction false} UsedKeyRanked<T>(ops: seq<Op<T>>, max: nat, m: nat, k: string)
    requires Uses(ops, max, m, k)
    ensures k in IdealAfter(ops, max).recency
    decreases |ops|
  {
    var before, op := ops[..|ops| - 1], ops[|ops| - 1];
    var old' := IdealAfter(before, max).recency;
    if m < |ops| - 1 {
      UsesBefore(ops, max, m, k);
      UsedKeyRanked(before, max, m, k);
      RegistryIsLru(before, max);
      RemoveFacts(old', op.key);
    }
  }

  /** In words of the history alone: every session still cached was used after the last
      use of every session that is not, and in the queue the later used stands behind. */
  lemma {:induction false} CachedUsedLast<T>(ops: seq<Op<T>>, max: nat, a: string, b: string, m: nat)
    requires Uses(ops, max, m, b) && a != b
    requires var c := RunOps(ops, max);
      && a in c.sessions
      && (b !in c.sessions || StandsBefore(c.order, b, a))
    ensures UsedAfter(ops, max, a, b)
  {
    RegistryIsLru(ops, max);
    UsedKeyRanked(ops, max, m, b);
    var c, recency := RunOps(ops, max), IdealAfter(ops, max).recency;
    RankedBefore(c.order, recency, a, b);
    var i, j :| 0 <= i < j < |recency| && recency[i] == b && recency[j] == a;
    RecencyIsLastUse(ops, max, i, j);
  }

  ghost predicate StandsBefore(s: seq<string>, b: string, a: string) {
    exists i, j :: 0 <= i < j < |s| && s[i] == b && s[j] == a
  }

  lemma {:induction false} RankedBefore(order: seq<string>, recency: seq<string>, a: string, b: string)
    requires SuffixOf(order, recency) && a in order && b in recency
    requires b !in order || StandsBefore(order, b, a)
    ensures StandsBefore(recency, b, a)
  {
    var at := |recency| - |order|;
    assert forall k :: 0 <= k < |order| ==> order[k] == recency[at + k];
    forall k | at <= k < |recency| ensures recency[k] in order {
      assert order[k - at] == recency[k];
    }
    if b in order {
      var i, j :| 0 <= i < j < |order| && order[i] == b && order[j] == a;
      assert recency[at + i] == b && recency[at + j] == a;
    } else {
      var j :| 0 <= j < |order| && order[j] == a;
      var i :| 0 <= i < |recency| && recency[i] == b;
      assert recency[at + j] == a;
    }
  }
}
