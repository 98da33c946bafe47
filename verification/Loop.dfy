/** The coordinator's program text against the step system: one pass of its loop is a
    legal sequence of coordinator actions and hands out work first come, first served,
    and whatever the workers do, a run takes the coordinator where its own loop goes. */
module Loop {
  import opened Types
  import opened Eval
  import opened Pool
  import opened Coordinator
  import opened Distributed
  import opened Runs
  import opened Progress

  function Handout(idle: seq<nat>, todo: seq<Path>, k: nat): seq<Send>
    requires k <= |idle| && k <= |todo|
  {
    if k == 0 then [] else [Send(idle[0], todo[0])] + Handout(idle[1..], todo[1..], k - 1)
  }

  ghost predicate Fifo(c: Coord, d: Coord)
    requires c.pc.Dispatching? && c.pc.left <= |c.idle|
  {
    var k := Least(c.pc.left, |c.todo|);
    && d.sent == c.sent + Handout(c.idle, c.todo, k)
    && d.todo == c.todo[k..]
    && d.active == c.active + k
    && d.idle == c.idle[c.pc.left..] + c.idle[k..c.pc.left]
    && d.outcome == Running
  }

  lemma {:induction false} FifoTake(c: Coord, d: Coord)
    requires c.outcome == Running && c.error.None? && c.pc.Dispatching? && 0 < c.pc.left == |c.idle|
    requires c.todo != [] && Fifo(DispatchOne(c, false), d)
    ensures Fifo(c, d)
  {
    assert c.todo[1..][Least(c.pc.left, |c.todo|) - 1..] == c.todo[Least(c.pc.left, |c.todo|)..];
  }

  lemma {:induction false} FifoRotate(c: Coord, d: Coord)
    requires c.outcome == Running && c.error.None? && c.pc.Dispatching? && 0 < c.pc.left <= |c.idle|
    requires c.todo == [] && c.active > 0 && Fifo(DispatchOne(c, false), d)
    ensures Fifo(c, d)
  {
    Rotated(c.idle, c.pc.left);
  }

  /** `dispatch_available` gives the oldest items to the longest-idle workers, as
      many as there are of both, and leaves the other workers in order. */
  lemma {:induction false} DispatchIsFifo(c: Coord, i: nat)
    requires c.outcome == Running && c.error.None? && c.pc.Dispatching? && c.pc.left <= |c.idle|
    requires c.todo != [] ==> c.pc.left == |c.idle|
    requires c.active > 0 || c.todo != []
    ensures Fifo(c, DispatchFrom(c, [], i))
    decreases c.pc.left
  {
    if c.pc.left == 0 {
      assert c.idle == c.idle[0..] + c.idle[0..0];
    } else {
      DispatchIsFifo(DispatchOne(c, false), i + 1);
      if c.todo == [] {
        FifoRotate(c, DispatchFrom(c, [], i));
      } else {
        FifoTake(c, DispatchFrom(c, [], i));
      }
    }
  }

  lemma {:induction false} Rotated<T>(q: seq<T>, left: nat)
    requires 0 < left <= |q|
    ensures var r := q[1..] + [q[0]]; r[left - 1..] + r[0..left - 1] == q[left..] + q[0..left]
  {
    var r := q[1..] + [q[0]];
    assert r[left - 1..] == q[left..] + [q[0]];
    assert r[0..left - 1] == q[1..left];
  }

  predicate OnlyCoordinates(actions: seq<Action>) {
    forall i :: 0 <= i < |actions| ==> actions[i] == Coordinate(true)
  }

  /** `flags` says which of the workers still to be considered are gone. */
  predicate FlagsMatch(s: State, flags: seq<bool>, i: nat)
    requires s.c.pc.Dispatching? && s.c.pc.left <= |s.c.idle|
  {
    forall k :: 0 <= k < s.c.pc.left ==>
      s.c.idle[k] < |s.phase| && ClosedAt(flags, i + k) == (s.phase[s.c.idle[k]] == Gone)
  }

  lemma {:induction false} FlagsNext(specs: seq<WorkerSpec>, s: State, flags: seq<bool>, i: nat)
    requires |s.phase| == |s.work| == |s.held| == |specs| && CoordinatorReady(specs, s)
    requires s.c.pc.Dispatching? && s.c.pc.left > 0 && FlagsMatch(s, flags, i)
    ensures var next := CoordinatorStep(specs, s, true);
      && next.c == DispatchOne(s.c, ClosedAt(flags, i))
      && (next.c.outcome == Running && next.c.pc.Dispatching? && next.c.pc.left <= |next.c.idle| ==>
            FlagsMatch(next, flags, i + 1))
  {
    assert ClosedAt(flags, i + 0) == (s.phase[s.c.idle[0]] == Gone);
    var next := CoordinatorStep(specs, s, true);
    if next.c.outcome == Running && next.c.pc.Dispatching? && next.c.pc.left <= |next.c.idle| {
      forall k | 0 <= k < next.c.pc.left
        ensures next.c.idle[k] < |next.phase|
        ensures ClosedAt(flags, i + 1 + k) == (next.phase[next.c.idle[k]] == Gone)
      {
        assert ClosedAt(flags, i + (k + 1)) == (s.phase[s.c.idle[k + 1]] == Gone);
      }
    }
  }

  lemma {:induction false} DispatchLoopIsSteps(o: Oracle, specs: seq<WorkerSpec>, s: State, flags: seq<bool>, i: nat)
    returns (actions: seq<Action>)
    requires Protocol(o, specs, s) && s.c.pc.Dispatching? && FlagsMatch(s, flags, i)
    ensures Legal(o, specs, s, actions) && OnlyCoordinates(actions)
    ensures After(o, specs, s, actions).c == DispatchFrom(s.c, flags, i)
    ensures After(o, specs, s, actions).c.outcome == Running ==> Protocol(o, specs, After(o, specs, s, actions))
    decreases s.c.pc.left
  {
    actions := [];
    if s.c.pc.left > 0 {
      if Offering(s.c) {
        SendNeverBlocks(o, specs, s);
      }
      var next := CoordinatorStep(specs, s, true);
      DispatchingStep(o, specs, s, true);
      FlagsNext(specs, s, flags, i);
      if next.c.outcome == Running {
        actions := DispatchLoopIsSteps(o, specs, next, flags, i + 1);
      }
      RunCons(o, specs, s, Coordinate(true), actions);
      actions := [Coordinate(true)] + actions;
    }
  }

  // ---- Whole runs ----------------------------------------------------------

  predicate CanDispatch(c: Coord) {
    c.pc.Dispatching? && 0 < c.pc.left <= |c.idle| && c.outcome == Running
  }

  /** The dispatch loop stopped after as many offers as there are flags. */
  function Dispatched(c: Coord, closed: seq<bool>): Coord {
    if closed == [] then c
    else
      var d := Dispatched(c, closed[..|closed| - 1]);
      if CanDispatch(d) then DispatchOne(d, closed[|closed| - 1]) else d
  }

  lemma {:induction false} OneOffer(d: Coord, closed: seq<bool>, i: nat)
    requires CanDispatch(d) && i < |closed|
    ensures var next := DispatchOne(d, closed[i]);
      if next.outcome != Running then DispatchFrom(d, closed, i) == next
      else next.pc == Dispatching(d.pc.left - 1) && next.pc.left <= |next.idle|
           && DispatchFrom(d, closed, i) == DispatchFrom(next, closed, i + 1)
  {
    assert ClosedAt(closed, i) == closed[i];
  }

  /** Where the dispatch loop stands after `k` offers, and that it goes on from there. */
  lemma {:induction false} DispatchedPart(c: Coord, closed: seq<bool>, k: nat)
    requires c.pc.Dispatching? && c.pc.left <= |c.idle| && c.outcome == Running
    requires k <= |closed| && k <= c.pc.left
    ensures var d := Dispatched(c, closed[..k]);
      if d.outcome != Running then DispatchFrom(c, closed, 0) == d
      else d.pc == Dispatching(c.pc.left - k) && d.pc.left <= |d.idle|
           && DispatchFrom(c, closed, 0) == DispatchFrom(d, closed, k)
    decreases k
  {
    if k > 0 {
      DispatchedPart(c, closed, k - 1);
      assert closed[..k][..k - 1] == closed[..k - 1];
      var d := Dispatched(c, closed[..k - 1]);
      if d.outcome == Running {
        OneOffer(d, closed, k - 1);
        assert Dispatched(c, closed[..k]) == DispatchOne(d, closed[k - 1]);
      }
    }
  }

  lemma {:induction false} DispatchedWhole(c: Coord, closed: seq<bool>)
    requires c.pc.Dispatching? && c.pc.left <= |c.idle| && c.outcome == Running && |closed| <= c.pc.left
    ensures var d := Dispatched(c, closed);
      if d.outcome != Running then DispatchFrom(c, closed, 0) == d
      else d.pc == Dispatching(c.pc.left - |closed|) && d.pc.left <= |d.idle|
           && (d.pc.left == 0 ==> DispatchFrom(c, closed, 0) == d)
  {
    DispatchedPart(c, closed, |closed|);
    assert closed[..|closed|] == closed;
  }

  /** The program's loop, given `turns` of outside events, is at its head with `c`. */
  ghost predicate HeadAfter(specs: seq<WorkerSpec>, turns: seq<Turn>, c: Coord) {
    EndAfter(specs, turns, c) && c.pc.AtHead? && c.outcome == Running
  }

  ghost predicate EndAfter(specs: seq<WorkerSpec>, turns: seq<Turn>, c: Coord) {
    Feasible(Initial(specs), specs, turns) && Play(Initial(specs), specs, turns) == c
  }

  predicate Midway(c0: Coord, closed: seq<bool>, c: Coord)
    requires c0.pc.AtHead?
  {
    |closed| <= |c0.idle| && Dispatched(CheckCancel(c0, false), closed) == c
  }

  /** The coordinator's state is one the program's loop comes through. */
  ghost predicate Traced(specs: seq<WorkerSpec>, c: Coord) {
    if c.outcome != Running then exists turns :: EndAfter(specs, turns, c)
    else match c.pc
      case AtHead => exists turns :: HeadAfter(specs, turns, c)
      case Dispatching(_) => exists turns, c0, closed :: HeadAfter(specs, turns, c0) && Midway(c0, closed, c)
      case Waiting =>
        exists turns, c0, closed :: HeadAfter(specs, turns, c0) && Prepare(c0, |specs|, false, closed) == c
  }

  lemma {:induction false} PlayMore(c: Coord, specs: seq<WorkerSpec>, turns: seq<Turn>, t: Turn)
    requires c.pc.AtHead? && c.outcome == Running && Feasible(c, specs, turns)
    requires var d := Play(c, specs, turns); d.outcome == Running && d.pc.AtHead? && Feasible(d, specs, [t])
    ensures Feasible(c, specs, turns + [t])
    ensures Play(c, specs, turns + [t]) == Play(Play(c, specs, turns), specs, [t])
    decreases |turns|
  {
    if turns == [] {
      assert turns + [t] == [t];
    } else {
      assert (turns + [t])[0] == turns[0] && (turns + [t])[1..] == turns[1..] + [t];
      var ready := Prepare(c, |specs|, turns[0].cancel, turns[0].closed);
      PlayMore(Receive(ready, specs, turns[0].message, turns[0].sinkOk), specs, turns[1..], t);
    }
  }

  lemma {:induction false} PlayOnce(c: Coord, specs: seq<WorkerSpec>, t: Turn)
    requires c.pc.AtHead? && c.outcome == Running
    requires var ready := Prepare(c, |specs|, t.cancel, t.closed);
      ready.outcome == Running && Plausible(ready, specs, t.message)
    ensures Feasible(c, specs, [t])
    ensures Play(c, specs, [t]) == Receive(Prepare(c, |specs|, t.cancel, t.closed), specs, t.message, t.sinkOk)
  {
    var next := Receive(Prepare(c, |specs|, t.cancel, t.closed), specs, t.message, t.sinkOk);
    var rest := [t][1..];
    assert rest == [];
    if next.outcome == Running {
      assert Feasible(next, specs, rest) && Play(next, specs, rest) == next;
    }
  }

  /** One more turn that ends before it receives anything. */
  lemma {:induction false} EndsInTurn(
    specs: seq<WorkerSpec>, turns: seq<Turn>, c0: Coord, cancel: bool, closed: seq<bool>)
    requires HeadAfter(specs, turns, c0) && Prepare(c0, |specs|, cancel, closed).outcome != Running
    ensures Traced(specs, Prepare(c0, |specs|, cancel, closed))
  {
    var t := Turn(cancel, closed, None, true);
    PlayMore(Initial(specs), specs, turns, t);
    assert EndAfter(specs, turns + [t], Prepare(c0, |specs|, cancel, closed));
  }

  lemma {:induction false} ReceivesInTurn(
    specs: seq<WorkerSpec>, turns: seq<Turn>, c0: Coord, closed: seq<bool>, message: Option<Message>, sinkOk: bool)
    requires HeadAfter(specs, turns, c0)
    requires var ready := Prepare(c0, |specs|, false, closed);
      ready.outcome == Running && ready.pc.Waiting? && Plausible(ready, specs, message)
    ensures Traced(specs, Receive(Prepare(c0, |specs|, false, closed), specs, message, sinkOk))
  {
    var t := Turn(false, closed, message, sinkOk);
    var ready := Prepare(c0, |specs|, false, closed);
    var next := Receive(ready, specs, message, sinkOk);
    PlayOnce(c0, specs, t);
    PlayMore(Initial(specs), specs, turns, t);
    assert EndAfter(specs, turns + [t], next);
    assert next.outcome == Running ==> HeadAfter(specs, turns + [t], next);
  }

  lemma {:induction false} DispatchTraced(specs: seq<WorkerSpec>, c: Coord, closed: bool)
    requires Traced(specs, c) && CanDispatch(c)
    ensures Traced(specs, DispatchOne(c, closed))
  {
    var turns, c0, flags :| HeadAfter(specs, turns, c0) && Midway(c0, flags, c);
    var checked, more := CheckCancel(c0, false), flags + [closed];
    DispatchedWhole(checked, flags);
    assert more[..|flags|] == flags;
    var next := DispatchOne(c, closed);
    assert Dispatched(checked, more) == next;
    if next.outcome == Running {
      assert Midway(c0, more, next);
    } else {
      DispatchedWhole(checked, more);
      EndsInTurn(specs, turns, c0, false, more);
    }
  }

  lemma {:induction false} EndDispatchTraced(specs: seq<WorkerSpec>, c: Coord)
    requires Traced(specs, c) && c.pc == Dispatching(0) && c.outcome == Running
    ensures Traced(specs, EndDispatch(c, |specs|))
  {
    var turns, c0, flags :| HeadAfter(specs, turns, c0) && Midway(c0, flags, c);
    DispatchedWhole(CheckCancel(c0, false), flags);
    assert Prepare(c0, |specs|, false, flags) == EndDispatch(c, |specs|);
    if EndDispatch(c, |specs|).outcome != Running {
      EndsInTurn(specs, turns, c0, false, flags);
    }
  }

  lemma {:induction false} CheckTraced(specs: seq<WorkerSpec>, c: Coord, cancel: bool)
    requires Traced(specs, c) && c.pc.AtHead? && c.outcome == Running
    ensures Traced(specs, CheckCancel(c, cancel))
  {
    var turns :| HeadAfter(specs, turns, c);
    if cancel {
      EndsInTurn(specs, turns, c, true, []);
    } else {
      assert Dispatched(CheckCancel(c, false), []) == CheckCancel(c, false);
      assert Midway(c, [], CheckCancel(c, false));
    }
  }

  lemma {:induction false} StepTraced(specs: seq<WorkerSpec>, s: State, sinkOk: bool)
    requires |s.phase| == |s.work| == |s.held| == |specs| && CoordinatorReady(specs, s) && s.c.outcome == Running
    requires Traced(specs, s.c)
    ensures Traced(specs, CoordinatorStep(specs, s, sinkOk).c)
  {
    match s.c.pc {
      case AtHead => CheckTraced(specs, s.c, s.cancel);
      case Dispatching(left) =>
        if left == 0 {
          EndDispatchTraced(specs, s.c);
        } else {
          DispatchTraced(specs, s.c, Offering(s.c) && s.phase[s.c.idle[0]] == Gone);
        }
      case Waiting =>
        var turns, c0, closed :| HeadAfter(specs, turns, c0) && Prepare(c0, |specs|, false, closed) == s.c;
        ReceivesInTurn(specs, turns, c0, closed, if s.mail == [] then None else Some(s.mail[0]), sinkOk);
    }
  }

  lemma {:induction false} RunTraced(o: Oracle, specs: seq<WorkerSpec>, s: State, actions: seq<Action>)
    requires Traced(specs, s.c) && Legal(o, specs, s, actions)
    ensures Traced(specs, After(o, specs, s, actions).c)
    decreases |actions|
  {
    if actions != [] {
      var next := Apply(o, specs, s, actions[0]);
      if actions[0].Coordinate? {
        StepTraced(specs, s, actions[0].sinkOk);
      } else {
        assert next.c == s.c;
      }
      RunTraced(o, specs, next, actions[1..]);
    }
  }

  /** Whatever the interleaving with the workers, a run of the step system takes the
      coordinator to a state the program's own loop comes to on some sequence of
      outside events. */
  lemma {:induction false} EveryRunIsPlay(o: Oracle, specs: seq<WorkerSpec>, actions: seq<Action>)
    requires Legal(o, specs, Init(specs), actions)
    ensures var c := After(o, specs, Init(specs), actions).c;
      c.pc.AtHead? || c.outcome != Running ==>
        exists turns :: Feasible(Initial(specs), specs, turns) && Play(Initial(specs), specs, turns) == c
  {
    var none: seq<Turn> := [];
    assert HeadAfter(specs, none, Initial(specs));
    RunTraced(o, specs, Init(specs), actions);
    var c := After(o, specs, Init(specs), actions).c;
    if c.outcome != Running {
      var turns :| EndAfter(specs, turns, c);
    } else if c.pc.AtHead? {
      var turns :| HeadAfter(specs, turns, c);
    }
  }
}
