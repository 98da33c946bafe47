/** Forking extra workers from a warm one: who serves which slot, how slots travel
    through the environment, and how a child gets its own daemon connections. */
module Forks {
  import opened Types

  const ITEMS_PER_FORK := 5

  /** The descriptors of one prepared connection to the master. */
  datatype ForkSlot = ForkSlot(socket: nat, stderr: nat)

  // ---- One process ---------------------------------------------------------

  /** What `fork` returned, seen from the process that continues; or a hazard that
      made the process give up forking. */
  datatype Outcome = Parent(pid: nat) | Child | Failed | Hazard

  /** A process of the fork tree: the slots it may still hand out and the one it
      serves.  The first worker serves none of them. */
  datatype Process = Process(slots: seq<ForkSlot>, serving: Option<ForkSlot>)

  function After(p: Process, o: Outcome): Process
    requires p.slots != []
  {
    match o
    case Parent(_) => p.(slots := p.slots[1..])
    case Failed => p.(slots := p.slots[1..])
    case Hazard => p.(slots := [])
    case Child => Process([], Some(p.slots[0]))
  }

  /** The outcomes one call works through: it goes on only as the parent. */
  ghost predicate Follows(p: Process, outcomes: seq<Outcome>, q: Process)
    decreases |outcomes|
  {
    if outcomes == [] then q == p
    else
      p.slots != [] && Follows(After(p, outcomes[0]), outcomes[1..], q)
  }

  lemma {:induction false} FollowsMore(p: Process, outcomes: seq<Outcome>, q: Process, o: Outcome)
    requires Follows(p, outcomes, q) && q.slots != []
    ensures Follows(p, outcomes + [o], After(q, o))
    decreases |outcomes|
  {
    if outcomes == [] {
      assert [o][1..] == [];
    } else {
      FollowsMore(After(p, outcomes[0]), outcomes[1..], q, o);
      assert (outcomes + [o])[1..] == outcomes[1..] + [o];
    }
  }

  /** A fork that leaves a parent or fails uses up the first slot, a hazard all of them;
      a child serves the slot its fork used up, and has none to hand out. */
  lemma {:induction false} FollowsSlots(p: Process, outcomes: seq<Outcome>, q: Process)
    requires p.serving.None? && Follows(p, outcomes, q) && outcomes != []
    requires forall i :: 0 <= i < |outcomes| - 1 ==> outcomes[i].Parent?
    ensures |outcomes| <= |p.slots|
    ensures var last := outcomes[|outcomes| - 1];
      && q.slots == (if last.Child? || last.Hazard? then [] else p.slots[|outcomes|..])
      && q.serving == if last.Child? then Some(p.slots[|outcomes| - 1]) else None
    decreases |outcomes|
  {
    if |outcomes| > 1 {
      FollowsSlots(After(p, outcomes[0]), outcomes[1..], q);
    } else {
      assert outcomes[1..] == [];
    }
  }

  /** The `n`-th fork is due: enough items are done, or its time has come. */
  predicate DueAt(completed: nat, late: nat -> bool, n: nat) {
    completed >= ITEMS_PER_FORK * n || late(n)
  }

  /** Five items for each fork suffice, and so does its time; nothing else makes it due. */
  lemma {:induction false} DueMeans(completed: nat, late: nat -> bool, n: nat)
    ensures completed >= 5 * n ==> DueAt(completed, late, n)
    ensures late(n) ==> DueAt(completed, late, n)
    ensures completed < 5 * n && !late(n) ==> !DueAt(completed, late, n)
  {
  }

  function Pids(outcomes: seq<Outcome>): seq<nat> {
    if outcomes == [] then []
    else
      var last := outcomes[|outcomes| - 1];
      Pids(outcomes[..|outcomes| - 1]) + if last.Parent? then [last.pid] else []
  }

  class Forker {
    var slots: seq<ForkSlot>
    var forked: nat
    var children: seq<nat>

    constructor (slots: seq<ForkSlot>)
      ensures this.slots == slots && forked == 0 && children == []
    {
      this.slots, forked, children := slots, 0, [];
    }

    predicate IsDue(completed: nat, late: nat -> bool)
      reads this
    {
      DueAt(completed, late, forked + 1)
    }

    /** Hands out slots while forks are due.  `late(n)`: the n-th fork's time has
        come; `outcome(n)`: what became of the n-th attempt.  The new process
        continues with its slot, no slots to hand out and no children. */
    method ForkDue(completed: nat, late: nat -> bool, outcome: nat -> Outcome)
      returns (slot: Option<ForkSlot>, ghost outcomes: seq<Outcome>)
      modifies this
      ensures Follows(Process(old(slots), None), outcomes, Process(slots, slot))
      ensures forall i :: 0 <= i < |outcomes| - 1 ==> outcomes[i].Parent?
      ensures forall n :: old(forked) < n <= old(forked) + |outcomes| ==> DueAt(completed, late, n)
      ensures forked == old(forked) + |outcomes|
                        - if outcomes != [] && outcomes[|outcomes| - 1].Hazard? then 1 else 0
      ensures slot.Some? <==> outcomes != [] && outcomes[|outcomes| - 1].Child?
      ensures children == if slot.Some? then [] else old(children) + Pids(outcomes)
      ensures |outcomes| <= |old(slots)|
      ensures slot.Some? ==> slot.value == old(slots)[|outcomes| - 1]
      ensures slots == if outcomes != [] && (outcomes[|outcomes| - 1].Child? || outcomes[|outcomes| - 1].Hazard?)
                       then [] else old(slots)[|outcomes|..]
      ensures slots == [] || (outcomes != [] && outcomes[|outcomes| - 1].Failed?)
              || (completed < 5 * (forked + 1) && !late(forked + 1))
    {
      outcomes := [];
      ghost var start, before := Process(slots, None), forked;
      while slots != [] && IsDue(completed, late)
        invariant SoFar(start, Process(slots, None), outcomes, before, completed, late)
        invariant forked == before + |outcomes| && children == old(children) + Pids(outcomes)
        decreases |slots|
      {
        var result := outcome(forked + 1);
        SoFarMore(start, Process(slots, None), outcomes, before, completed, late, result);
        outcomes := outcomes + [result];
        slot := Attempt(result);
        if !result.Parent? {
          FollowsSlots(start, outcomes, Process(slots, slot));
          return;
        }
      }
      slot := None;
      if outcomes != [] {
        FollowsSlots(start, outcomes, Process(slots, None));
      }
      assert start.slots[0..] == start.slots;
    }

    /** One turn of the loop, after the hazard check and the `fork` call. */
    method Attempt(result: Outcome) returns (slot: Option<ForkSlot>)
      requires slots != []
      modifies this
      ensures Process(slots, slot) == After(Process(old(slots), None), result)
      ensures forked == old(forked) + if result.Hazard? then 0 else 1
      ensures children == match result
                          case Parent(pid) => old(children) + [pid]
                          case Child => []
                          case _ => old(children)
    {
      if result.Hazard? {
        slots := [];
        return None;
      }
      var next := slots[0];
      slots := slots[1..];
      forked := forked + 1;
      match result {
        case Failed => slot := None;
        case Parent(pid) =>
          children := children + [pid];
          slot := None;
        case Child =>
          slots, children := [], [];
          slot := Some(next);
      }
    }
  }

  /** Every attempt so far was due and went on as the parent. */
  ghost predicate SoFar(
    start: Process, q: Process, outcomes: seq<Outcome>, before: nat, completed: nat, late: nat -> bool)
  {
    && Follows(start, outcomes, q)
    && (forall i :: 0 <= i < |outcomes| ==> outcomes[i].Parent?)
    && (forall n :: before < n <= before + |outcomes| ==> DueAt(completed, late, n))
  }

  lemma {:induction false} SoFarMore(
    start: Process, q: Process, outcomes: seq<Outcome>, before: nat, completed: nat, late: nat -> bool, o: Outcome)
    requires SoFar(start, q, outcomes, before, completed, late) && q.slots != []
    requires DueAt(completed, late, before + |outcomes| + 1)
    ensures Follows(start, outcomes + [o], After(q, o))
    ensures forall i :: 0 <= i < |outcomes| ==> (outcomes + [o])[i].Parent?
    ensures forall n :: before < n <= before + |outcomes| + 1 ==> DueAt(completed, late, n)
    ensures Pids(outcomes + [o]) == Pids(outcomes) + if o.Parent? then [o.pid] else []
    ensures o.Parent? ==> SoFar(start, After(q, o), outcomes + [o], before, completed, late)
  {
    FollowsMore(start, outcomes, q, o);
    PidsMore(outcomes, o);
  }

  lemma {:induction false} PidsMore(outcomes: seq<Outcome>, o: Outcome)
    ensures Pids(outcomes + [o]) == Pids(outcomes) + if o.Parent? then [o.pid] else []
  {
    assert (outcomes + [o])[..|outcomes|] == outcomes;
  }

  // ---- The process tree ----------------------------------------------------

  datatype Tree = Tree(processes: seq<Process>)

  /** Process `i` forks: it goes on as the parent, and the child joins the tree. */
  datatype Action = Fork(i: nat, pid: nat) | ForkFails(i: nat) | GiveUp(i: nat)

  predicate Can(t: Tree, a: Action) {
    a.i < |t.processes| && t.processes[a.i].slots != []
  }

  function Step(t: Tree, a: Action): Tree
    requires Can(t, a)
  {
    var p := t.processes[a.i];
    match a
    case Fork(i, pid) => Tree(t.processes[i := After(p, Parent(pid))] + [After(p, Child)])
    case ForkFails(i) => Tree(t.processes[i := After(p, Failed)])
    case GiveUp(i) => Tree(t.processes[i := After(p, Hazard)])
  }

  /** The slots a process holds in either way. */
  function Held(p: Process): seq<ForkSlot> {
    p.slots + if p.serving.Some? then [p.serving.value] else []
  }

  /** No slot is held twice, by one process or by two; a serving process has none to
      hand out; and every slot held is one of the original ones. */
  ghost predicate Exclusive(t: Tree, original: seq<ForkSlot>) {
    && (forall i :: 0 <= i < |t.processes| ==> ProcessOk(t.processes[i], original))
    && (forall i, j :: 0 <= i < j < |t.processes| ==> Apart(t.processes[i], t.processes[j]))
  }

  ghost predicate ProcessOk(p: Process, original: seq<ForkSlot>) {
    && NoDuplicates(Held(p)) && (p.serving.Some? ==> p.slots == [])
    && forall s :: s in Held(p) ==> s in original
  }

  ghost predicate Apart(p: Process, q: Process) {
    forall s :: s in Held(p) ==> s !in Held(q)
  }

  lemma {:induction false} OutcomeShrinks(p: Process, o: Outcome, original: seq<ForkSlot>)
    requires p.slots != [] && ProcessOk(p, original)
    ensures ProcessOk(After(p, o), original) && forall s :: s in Held(After(p, o)) ==> s in Held(p)
  {
    assert Held(p) == p.slots;
    assert p.slots[0] in Held(p);
    assert p.slots == [p.slots[0]] + p.slots[1..];
  }

  lemma {:induction false} StepExclusive(t: Tree, a: Action, original: seq<ForkSlot>)
    requires Exclusive(t, original) && Can(t, a)
    ensures Exclusive(Step(t, a), original)
  {
    var p, u := t.processes[a.i], Step(t, a).processes;
    var o := match a case Fork(_, pid) => Parent(pid) case ForkFails(_) => Failed case GiveUp(_) => Hazard;
    OutcomeShrinks(p, o, original);
    OutcomeShrinks(p, Child, original);
    assert Apart(After(p, o), After(p, Child)) by {
      assert Held(p) == p.slots && p.slots == [p.slots[0]] + p.slots[1..];
    }
    forall i, j | 0 <= i < j < |u| ensures Apart(u[i], u[j]) {
      if j < |t.processes| {
        assert Apart(t.processes[i], t.processes[j]);
      } else if i != a.i {
        assert i < a.i ==> Apart(t.processes[i], t.processes[a.i]);
        assert a.i < i ==> Apart(t.processes[a.i], t.processes[i]);
      }
    }
  }

  ghost predicate Legal(t: Tree, actions: seq<Action>)
    decreases |actions|
  {
    actions != [] ==> Can(t, actions[0]) && Legal(Step(t, actions[0]), actions[1..])
  }

  ghost function Grown(t: Tree, actions: seq<Action>): Tree
    requires Legal(t, actions)
    decreases |actions|
  {
    if actions == [] then t else Grown(Step(t, actions[0]), actions[1..])
  }

  lemma {:induction false} GrownExclusive(t: Tree, actions: seq<Action>, original: seq<ForkSlot>)
    requires Exclusive(t, original) && Legal(t, actions)
    ensures Exclusive(Grown(t, actions), original)
    decreases |actions|
  {
    if actions != [] {
      StepExclusive(t, actions[0], original);
      GrownExclusive(Step(t, actions[0]), actions[1..], original);
    }
  }

  /** However the tree grows, two processes never serve the same slot, and a child
      never has a slot to hand out, so it never forks. */
  lemma {:induction false} SlotsServedOnce(slots: seq<ForkSlot>, actions: seq<Action>, i: nat, j: nat)
    requires NoDuplicates(slots) && Legal(Tree([Process(slots, None)]), actions)
    requires var t := Grown(Tree([Process(slots, None)]), actions);
      i < j < |t.processes| && t.processes[i].serving.Some?
    ensures var t := Grown(Tree([Process(slots, None)]), actions);
      t.processes[i].serving != t.processes[j].serving && t.processes[i].slots == []
      && t.processes[i].serving.value in slots
  {
    assert Held(Process(slots, None)) == slots;
    assert Exclusive(Tree([Process(slots, None)]), slots);
    GrownExclusive(Tree([Process(slots, None)]), actions, slots);
    var t := Grown(Tree([Process(slots, None)]), actions);
    assert Apart(t.processes[i], t.processes[j]);
    assert t.processes[i].serving.value in Held(t.processes[i]);
    assert ProcessOk(t.processes[i], slots);
  }

  /** A fork passes the first slot to the child it adds, a failed one uses it up for
      nothing, and a process that gives up keeps none; no other process is touched. */
  lemma {:induction false} StepMeans(t: Tree, a: Action)
    requires Can(t, a)
    ensures var p, u := t.processes[a.i], Step(t, a).processes;
      && u[a.i] == Process(if a.GiveUp? then [] else p.slots[1..], p.serving)
      && |u| == |t.processes| + (if a.Fork? then 1 else 0)
      && (a.Fork? ==> u[|t.processes|] == Process([], Some(p.slots[0])))
      && (forall k :: 0 <= k < |t.processes| && k != a.i ==> u[k] == t.processes[k])
  {
  }

  /** Nor does a slot get lost while forking succeeds: each is still to be handed out,
      or served. */
  lemma {:induction false} NoSlotLost(t: Tree, actions: seq<Action>, slot: ForkSlot, i: nat)
    requires Legal(t, actions) && forall k :: 0 <= k < |actions| ==> actions[k].Fork?
    requires i < |t.processes| && slot in Held(t.processes[i])
    requires forall k :: 0 <= k < |t.processes| && t.processes[k].serving.Some? ==> t.processes[k].slots == []
    ensures exists j :: 0 <= j < |Grown(t, actions).processes| && slot in Held(Grown(t, actions).processes[j])
    decreases |actions|
  {
    if actions != [] {
      var next := Step(t, actions[0]);
      var j := i;
      if i == actions[0].i {
        var p := t.processes[i];
        assert p.slots == [p.slots[0]] + p.slots[1..];
        if slot == p.slots[0] {
          j := |t.processes|;
        }
      }
      assert slot in Held(next.processes[j]);
      NoSlotLost(next, actions[1..], slot, j);
      assert Grown(t, actions) == Grown(next, actions[1..]);
    } else {
      assert slot in Held(Grown(t, actions).processes[i]);
    }
  }

  // ---- Inherited daemon connections ----------------------------------------

  /** What a descriptor refers to. */
  datatype Conn = Conn(socket: nat, peer: string)

  /** What opening the store did: failed, or connected, adding Unix sockets to the
      given peers under new descriptors. */
  datatype Opening = OpenFailed | Opened(added: map<nat, string>)

  /** The descriptors a table connects to `peer`. */
  function Targets(conns: map<nat, Conn>, peer: string): set<nat> {
    set fd | fd in conns && conns[fd].peer == peer
  }

  /** Every inherited connection to `peer` has a socket of its own, made after the
      first `known` ones, and every other connection is left alone. */
  ghost predicate Isolated(before: map<nat, Conn>, after: map<nat, Conn>, known: nat, peer: string) {
    && before.Keys <= after.Keys
    && (forall fd :: fd in before && before[fd].peer != peer ==> after[fd] == before[fd])
    && (forall fd :: fd in Targets(before, peer) ==> after[fd].socket >= known)
    && (forall f, g :: f in Targets(before, peer) && g in Targets(before, peer) && f != g ==>
          after[f].socket != after[g].socket)
  }

  /** The process's Unix connections.  `sockets` counts those the kernel has made. */
  class FdTable {
    var conns: map<nat, Conn>
    var sockets: nat

    constructor (conns: map<nat, Conn>, sockets: nat)
      ensures this.conns == conns && this.sockets == sockets
    {
      this.conns, this.sockets := conns, sockets;
    }

    ghost predicate Valid()
      reads this
    {
      forall fd :: fd in conns ==> conns[fd].socket < sockets
    }

    method Connect(added: map<nat, string>)
      requires Valid() && added.Keys !! conns.Keys
      modifies this
      ensures Valid() && sockets >= old(sockets) && conns.Keys == old(conns).Keys + added.Keys
      ensures forall fd :: fd in old(conns) ==> conns[fd] == old(conns)[fd]
      ensures forall fd :: fd in added ==> conns[fd].peer == added[fd] && conns[fd].socket >= old(sockets)
    {
      var todo := added.Keys;
      while todo != {}
        invariant todo <= added.Keys && Valid() && sockets >= old(sockets)
        invariant conns.Keys == old(conns).Keys + (added.Keys - todo)
        invariant forall fd :: fd in old(conns) ==> conns[fd] == old(conns)[fd]
        invariant forall fd :: fd in added && fd !in todo ==>
                    conns[fd].peer == added[fd] && conns[fd].socket >= old(sockets)
        decreases todo
      {
        var fd :| fd in todo;
        todo := todo - {fd};
        conns := conns[fd := Conn(sockets, added[fd])];
        sockets := sockets + 1;
      }
    }

    /** Opens the store once.  Anything but exactly one new connection is an error,
        and what was opened is closed again. */
    method OpenFresh(result: Opening) returns (added: Option<nat>)
      requires Valid() && (result.Opened? ==> result.added.Keys !! conns.Keys)
      modifies this
      ensures Valid() && sockets >= old(sockets)
      ensures added.Some? <==> OneFresh(result)
      ensures forall fd :: fd in old(conns) ==> fd in conns && conns[fd] == old(conns)[fd]
      ensures added.Some? ==> var fd := added.value;
                && fd in conns && fd !in old(conns) && fd in result.added
                && conns[fd].peer == result.added[fd] && conns[fd].socket >= old(sockets)
    {
      if result.OpenFailed? {
        return None;
      }
      Connect(result.added);
      if |result.added| != 1 {
        conns := conns - result.added.Keys;
        return None;
      }
      var fd :| fd in result.added;
      added := Some(fd);
    }

    /** `dup2`: `target` now refers to the socket that was opened under `fd`. */
    method Duplicate(
      fd: nat, target: nat, ghost before: map<nat, Conn>, ghost now: nat,
      ghost start: map<nat, Conn>, ghost known: nat, ghost order: seq<nat>, ghost peers: seq<string>)
      requires Valid() && fd in conns && target in start && target !in order && known <= now <= conns[fd].socket
      requires Moved(start, before, known, order, peers)
      requires forall f :: f in before ==> before[f].socket < now && f in conns && conns[f] == before[f]
      modifies this`conns
      ensures Valid()
      ensures Moved(start, conns, known, order + [target], peers + [old(conns)[fd].peer])
    {
      MovedMore(start, before, conns, known, now, order, peers, target, conns[fd]);
      conns := conns[target := conns[fd]];
    }

    /** Before a turn, the targets in `order` have been moved onto connections to
        `peers`. */
    ghost predicate Between(
      start: map<nat, Conn>, known: nat, pending: Option<seq<nat>>, peer: string, order: seq<nat>, peers: seq<string>)
      reads this
    {
      && Valid() && sockets >= known && Moved(start, conns, known, order, peers)
      && if pending.None? then order == [] && conns == start else Split(pending.value, order, Targets(start, peer))
    }

    /** The first turn learns from the new connection who the daemon is and lists the
        inherited connections to it; every turn but the last moves one of them onto
        the new socket, which stays open.  `reached` is the peer of the new one. */
    method Turn(
      result: Opening, duplicated: bool, pending: Option<seq<nat>>, peer: string,
      ghost start: map<nat, Conn>, ghost known: nat, ghost order: seq<nat>, ghost peers: seq<string>)
      returns (step: TurnResult, rest: seq<nat>, daemon: string, ghost order': seq<nat>, ghost reached: string)
      requires Between(start, known, pending, peer, order, peers)
      requires result.Opened? ==> result.added.Keys !! conns.Keys
      modifies this
      ensures !OneFresh(result) ==> step.Broken?
      ensures step.Broken? ==> !OneFresh(result) || !duplicated
      ensures step.Again? ==> |order'| == |order| + 1 && (pending.Some? ==> |rest| < |pending.value|)
      ensures step.Again? ==> Between(start, known, Some(rest), daemon, order', peers + [reached])
      ensures step.Finished? ==> Done(start, conns, known, peers, daemon) && |peers| == |order|
      ensures !step.Broken? ==> PeerOf(result, reached) && daemon == if pending.Some? then peer else reached
    {
      rest, daemon, order', reached := [], peer, order, "";
      var before := conns;
      ghost var now := sockets;
      var fd := OpenFresh(result);
      if fd.None? {
        return Broken, rest, daemon, order, reached;
      }
      rest, daemon := Learn(result.added, fd.value, before, pending, peer, order);
      reached := result.added[fd.value];
      assert reached in result.added.Values;
      if rest == [] {
        conns := conns - {fd.value};
        AllMoved(start, conns, known, order, peers, daemon);
        return Finished, rest, daemon, order, reached;
      }
      var target := rest[|rest| - 1];
      SplitLess(rest, order, Targets(start, daemon));
      rest := rest[..|rest| - 1];
      if !duplicated {
        conns := conns - {fd.value};
        return Broken, rest, daemon, order, reached;
      }
      Duplicate(fd.value, target, before, now, start, known, order, peers);
      return Again, rest, daemon, order + [target], reached;
    }

    /** The loop after a fork.  When it succeeds, every inherited connection to the
        daemon has a socket of its own, shared neither with the parent nor with
        another, after one turn for each and one more.  Only the first turn looks at
        whom it reached.  With `peers` those that the turns reached, the inherited
        descriptors still lead to the daemon if and only if every turn but the last
        one reached it. */
    method ReplaceDaemonConnections(
      openStore: (map<nat, Conn>, nat) -> Opening, dup2: nat -> bool)
      returns (ok: bool, peer: string, turns: nat, ghost peers: seq<string>)
      requires Valid()
      requires Kernel(openStore)
      modifies this
      ensures ok ==> Replaced(openStore, old(conns), conns, old(sockets), peer, peers)
      ensures ok ==> |peers| == turns && StartedAt(openStore, old(conns), peer, peers)
      ensures AlwaysFresh(openStore) && (forall n :: dup2(n)) ==> ok
    {
      var pending: Option<seq<nat>> := None;
      ghost var order: seq<nat> := [];
      peers := [];
      peer, turns := "", 0;
      while true
        invariant Underway(openStore, old(conns), old(sockets), pending, peer, order, peers) && turns == |peers|
        decreases pending.None?, if pending.Some? then |pending.value| else 0
      {
        turns := turns + 1;
        var step, rest;
        step, rest, peer, order, peers :=
          NextTurn(openStore, turns, dup2(turns), pending, peer, old(conns), old(sockets), order, peers);
        match step {
          case Again => pending := Some(rest);
          case Finished => return true, peer, turns, peers;
          case Broken => return false, peer, turns, peers;
        }
      }
    }

    /** Between two turns of the loop. */
    ghost predicate Underway(
      openStore: (map<nat, Conn>, nat) -> Opening, start: map<nat, Conn>, known: nat,
      pending: Option<seq<nat>>, peer: string, order: seq<nat>, peers: seq<string>)
      reads this
    {
      && Between(start, known, pending, peer, order, peers)
      && Reached(openStore, peers) && (pending.None? <==> peers == [])
      && (peers != [] ==> StartedAt(openStore, start, peer, peers))
    }

    /** One turn, with the store it opens. */
    method NextTurn(
      openStore: (map<nat, Conn>, nat) -> Opening, n: nat, duplicated: bool,
      pending: Option<seq<nat>>, peer: string,
      ghost start: map<nat, Conn>, ghost known: nat, ghost order: seq<nat>, ghost peers: seq<string>)
      returns (step: TurnResult, rest: seq<nat>, daemon: string, ghost order': seq<nat>, ghost peers': seq<string>)
      requires Kernel(openStore) && n == |peers| + 1
      requires Underway(openStore, start, known, pending, peer, order, peers)
      modifies this
      ensures step.Broken? ==> !AlwaysFresh(openStore) || !duplicated
      ensures step.Again? ==> Underway(openStore, start, known, Some(rest), daemon, order', peers')
      ensures step.Again? && pending.Some? ==> |rest| < |pending.value|
      ensures step.Finished? ==> Replaced(openStore, start, conns, known, daemon, peers')
      ensures step.Finished? ==> StartedAt(openStore, start, daemon, peers')
      ensures !step.Broken? ==> |peers'| == n
    {
      ghost var table, reached := conns, "";
      KernelAt(openStore, table, n);
      step, rest, daemon, order', reached :=
        Turn(openStore(conns, n), duplicated, pending, peer, start, known, order, peers);
      peers' := peers + [reached];
      if !step.Broken? {
        ReachedMore(openStore, peers, table, reached);
      }
      if step.Finished? {
        Conclude(openStore, start, conns, known, peers, reached, daemon);
      }
    }
  }

  ghost predicate StartedAt(
    openStore: (map<nat, Conn>, nat) -> Opening, start: map<nat, Conn>, peer: string, peers: seq<string>)
  {
    peers != [] && peers[0] == peer && PeerOf(openStore(start, 1), peer)
  }

  /** What success means.  `peers` are those that the turns reached. */
  ghost predicate Replaced(
    openStore: (map<nat, Conn>, nat) -> Opening,
    before: map<nat, Conn>, after: map<nat, Conn>, known: nat, peer: string, peers: seq<string>)
  {
    && Isolated(before, after, known, peer)
    && |peers| == |Targets(before, peer)| + 1 && Reached(openStore, peers)
    && (LeadTo(before, after, peer) <==> forall k :: 0 <= k < |peers| - 1 ==> peers[k] == peer)
    && (AlwaysTo(openStore, peer) ==> LeadTo(before, after, peer))
  }

  lemma {:induction false} Conclude(
    openStore: (map<nat, Conn>, nat) -> Opening,
    before: map<nat, Conn>, after: map<nat, Conn>, known: nat, kept: seq<string>, reached: string, peer: string)
    requires Done(before, after, known, kept, peer) && Reached(openStore, kept + [reached])
    ensures Replaced(openStore, before, after, known, peer, kept + [reached])
  {
    var peers := kept + [reached];
    OnlyReached(openStore, peers, peer);
    assert forall k :: 0 <= k < |kept| ==> peers[k] == kept[k];
  }

  /** The kernel never hands out a descriptor that is in use. */
  ghost predicate Kernel(openStore: (map<nat, Conn>, nat) -> Opening) {
    forall table, n :: var o := openStore(table, n); o.Opened? ==> o.added.Keys !! table.Keys
  }

  ghost predicate AlwaysFresh(openStore: (map<nat, Conn>, nat) -> Opening) {
    forall table, n :: OneFresh(openStore(table, n))
  }

  ghost predicate AlwaysTo(openStore: (map<nat, Conn>, nat) -> Opening, peer: string) {
    forall table, n :: OnlyTo(openStore(table, n), peer)
  }

  lemma {:induction false} KernelAt(openStore: (map<nat, Conn>, nat) -> Opening, table: map<nat, Conn>, n: nat)
    requires Kernel(openStore)
    ensures var o := openStore(table, n); o.Opened? ==> o.added.Keys !! table.Keys
    ensures AlwaysFresh(openStore) ==> OneFresh(openStore(table, n))
  {
  }

  predicate ReachedAt(openStore: (map<nat, Conn>, nat) -> Opening, table: map<nat, Conn>, k: nat, peer: string) {
    PeerOf(openStore(table, k + 1), peer)
  }

  /** In its `k`-th turn, with the connections it had then, the loop reached the
      `k`-th of `peers`. */
  ghost predicate Reached(openStore: (map<nat, Conn>, nat) -> Opening, peers: seq<string>) {
    forall k :: 0 <= k < |peers| ==> CanReach(openStore, k, peers[k])
  }

  ghost predicate CanReach(openStore: (map<nat, Conn>, nat) -> Opening, k: nat, peer: string) {
    exists table :: ReachedAt(openStore, table, k, peer)
  }

  lemma {:induction false} ReachedMore(
    openStore: (map<nat, Conn>, nat) -> Opening, peers: seq<string>, table: map<nat, Conn>, reached: string)
    requires Reached(openStore, peers) && PeerOf(openStore(table, |peers| + 1), reached)
    ensures Reached(openStore, peers + [reached])
  {
    assert ReachedAt(openStore, table, |peers|, reached);
    var more := peers + [reached];
    forall k | 0 <= k < |more| ensures CanReach(openStore, k, more[k]) {
      assert k < |peers| ==> CanReach(openStore, k, peers[k]);
    }
  }

  lemma {:induction false} OnlyReached(
    openStore: (map<nat, Conn>, nat) -> Opening, peers: seq<string>, peer: string)
    requires Reached(openStore, peers)
    ensures AlwaysTo(openStore, peer) ==> forall k :: 0 <= k < |peers| ==> peers[k] == peer
  {
    if AlwaysTo(openStore, peer) {
      forall k | 0 <= k < |peers| ensures peers[k] == peer {
        assert CanReach(openStore, k, peers[k]);
        var table :| ReachedAt(openStore, table, k, peers[k]);
        assert OnlyTo(openStore(table, k + 1), peer);
      }
    }
  }

  /** Every connection that led to `peer` still does. */
  ghost predicate LeadTo(before: map<nat, Conn>, after: map<nat, Conn>, peer: string) {
    before.Keys <= after.Keys && forall fd :: fd in Targets(before, peer) ==> after[fd].peer == peer
  }

  /** Every target has been moved, in turn onto connections to `peers`. */
  ghost predicate Done(
    before: map<nat, Conn>, after: map<nat, Conn>, known: nat, peers: seq<string>, peer: string)
  {
    && Isolated(before, after, known, peer) && |peers| == |Targets(before, peer)|
    && (LeadTo(before, after, peer) <==> forall k :: 0 <= k < |peers| ==> peers[k] == peer)
  }

  predicate OnlyTo(o: Opening, peer: string) {
    o.Opened? ==> forall fd :: fd in o.added ==> o.added[fd] == peer
  }

  lemma {:induction false} AllMoved(
    before: map<nat, Conn>, after: map<nat, Conn>, known: nat, order: seq<nat>, peers: seq<string>, peer: string)
    requires Split([], order, Targets(before, peer)) && Moved(before, after, known, order, peers)
    ensures Done(before, after, known, peers, peer)
  {
    forall fd | fd in Targets(before, peer) ensures fd in order {
      assert fd !in [];
    }
    if LeadTo(before, after, peer) {
      forall k | 0 <= k < |order| ensures peers[k] == peer {
        assert order[k] in Targets(before, peer);
      }
    }
  }

  /** The check of the peer in the first turn is not enough: with two inherited
      connections and a store that leads elsewhere the second time, the loop
      succeeds and a descriptor no longer leads to the daemon. */
  method StrayOpening() returns (before: map<nat, Conn>, after: map<nat, Conn>, peer: string, ok: bool)
    ensures ok && 5 in Targets(before, peer) && 6 in Targets(before, peer)
    ensures !LeadTo(before, after, peer)
  {
    before := STRAY_START;
    var table := new FdTable(before, 2);
    StrayStoreSound();
    var turns;
    ghost var peers;
    ok, peer, turns, peers := table.ReplaceDaemonConnections(StrayStore, _ => true);
    after := table.conns;
    StrayMisses(after, peer, peers);
  }

  const STRAY_START := map[5 := Conn(0, "daemon"), 6 := Conn(1, "daemon")]

  lemma {:induction false} StrayMisses(after: map<nat, Conn>, peer: string, peers: seq<string>)
    requires Replaced(StrayStore, STRAY_START, after, 2, peer, peers) && PeerOf(StrayStore(STRAY_START, 1), peer)
    ensures 5 in Targets(STRAY_START, peer) && 6 in Targets(STRAY_START, peer) && !LeadTo(STRAY_START, after, peer)
  {
    StrayPeers(STRAY_START, 1, peer);
    assert Targets(STRAY_START, "daemon") == {5, 6};
    assert CanReach(StrayStore, 1, peers[1]);
    var second :| ReachedAt(StrayStore, second, 1, peers[1]);
    StrayPeers(second, 2, peers[1]);
    assert peers[1] != peer;
  }

  lemma {:induction false} StrayStoreSound()
    ensures Kernel(StrayStore) && AlwaysFresh(StrayStore)
  {
    forall table: map<nat, Conn>, n: nat ensures OneFresh(StrayStore(table, n)) {
      assert StrayStore(table, n).added.Keys == {Unused(table, 0)};
    }
  }

  lemma {:induction false} StrayPeers(table: map<nat, Conn>, n: nat, peer: string)
    requires PeerOf(StrayStore(table, n), peer)
    ensures peer == if n == 2 then "elsewhere" else "daemon"
  {
  }

  /** The lowest descriptor that is not in use. */
  function Unused(table: map<nat, Conn>, fd: nat): (r: nat)
    ensures r !in table
    decreases |table.Keys - set f | f in table && f < fd|
  {
    if fd in table then
      assert fd in table.Keys - set f | f in table && f < fd;
      assert (set f | f in table && f < fd + 1) == (set f | f in table && f < fd) + {fd};
      assert table.Keys - (set f | f in table && f < fd + 1) < table.Keys - set f | f in table && f < fd;
      Unused(table, fd + 1)
    else fd
  }

  function StrayStore(table: map<nat, Conn>, n: nat): Opening {
    Opened(map[Unused(table, 0) := if n == 2 then "elsewhere" else "daemon"])
  }

  /** `get_or_insert_with`: the targets are listed once, from the first peer seen. */
  method Learn(
    added: map<nat, string>, fd: nat, before: map<nat, Conn>, pending: Option<seq<nat>>, peer: string,
    ghost order: seq<nat>)
    returns (rest: seq<nat>, daemon: string)
    requires fd in added && (pending.None? ==> order == [])
    ensures if pending.Some? then rest == pending.value && daemon == peer
            else Split(rest, order, Targets(before, daemon)) && daemon == added[fd]
  {
    if pending.Some? {
      return pending.value, peer;
    }
    daemon := added[fd];
    rest := List(Targets(before, daemon));
  }

  datatype TurnResult = Again | Finished | Broken

  predicate OneFresh(o: Opening) {
    o.Opened? && |o.added| == 1
  }

  predicate PeerOf(o: Opening, peer: string) {
    o.Opened? && peer in o.added.Values
  }

  lemma {:induction false} SplitLess(pending: seq<nat>, order: seq<nat>, targets: set<nat>)
    requires Split(pending, order, targets) && pending != []
    ensures var target := pending[|pending| - 1];
      target in targets && target !in order && Split(pending[..|pending| - 1], order + [target], targets)
  {
    var front, target := pending[..|pending| - 1], pending[|pending| - 1];
    assert pending == front + [target];
    assert target in pending && target !in front;
    forall fd ensures fd in front <==> fd in targets && fd !in order + [target] {
      assert fd in pending <==> fd in front || fd == target;
      assert fd in order + [target] <==> fd in order || fd == target;
    }
  }

  lemma {:induction false} MovedMore(
    start: map<nat, Conn>, before: map<nat, Conn>, after: map<nat, Conn>,
    known: nat, now: nat, order: seq<nat>, peers: seq<string>, target: nat, conn: Conn)
    requires Moved(start, before, known, order, peers) && known <= now && target in start && target !in order
    requires forall fd :: fd in before ==> before[fd].socket < now && fd in after && after[fd] == before[fd]
    requires conn.socket >= now
    ensures Moved(start, after[target := conn], known, order + [target], peers + [conn.peer])
  {
    var more := order + [target];
    forall fd | fd in start && fd !in more ensures fd in after && fd != target && after[fd] == start[fd] {
      assert more[|order|] == target;
      assert fd in order ==> fd in more;
    }
    forall i | 0 <= i < |order| ensures order[i] != target && order[i] in before {
      assert order[i] in order;
    }
  }

  /** `pending` lists, without repeats, the targets that have not moved yet. */
  ghost predicate Split(pending: seq<nat>, order: seq<nat>, targets: set<nat>) {
    && NoDuplicates(pending) && |targets| == |pending| + |order|
    && (forall i :: 0 <= i < |order| ==> order[i] in targets)
    && forall fd :: fd in pending <==> fd in targets && fd !in order
  }

  /** The descriptors in `order`, and no others, have been moved, each onto a socket of
      its own, made after the first `known` ones and connected to the next of
      `peers`. */
  ghost predicate Moved(
    before: map<nat, Conn>, after: map<nat, Conn>, known: nat, order: seq<nat>, peers: seq<string>)
  {
    && before.Keys <= after.Keys && |peers| == |order|
    && (forall fd :: fd in before && fd !in order ==> after[fd] == before[fd])
    && (forall i :: 0 <= i < |order| ==>
          order[i] in before && after[order[i]].socket >= known && after[order[i]].peer == peers[i])
    && (forall i, j :: 0 <= i < j < |order| ==> after[order[i]].socket != after[order[j]].socket)
  }

  /** The descriptors of a directory listing come in no particular order. */
  method List(fds: set<nat>) returns (listing: seq<nat>)
    ensures NoDuplicates(listing) && |listing| == |fds| && forall fd :: fd in listing <==> fd in fds
  {
    listing := [];
    var todo := fds;
    while todo != {}
      invariant NoDuplicates(listing) && |listing| == |fds| - |todo| && todo <= fds
      invariant forall fd :: fd in listing <==> fd in fds && fd !in todo
      decreases todo
    {
      var fd :| fd in todo;
      todo := todo - {fd};
      listing := listing + [fd];
    }
  }
}
