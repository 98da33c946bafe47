/** What a requested cancellation does to an evaluation that is under way. */
module Cancellation {
  import opened Types
  import opened Eval
  import opened Pool
  import opened Coordinator
  import opened Distributed

  /** The coordinator's next step will see the cancellation: it is about to look at the
      flag, or about to read that a worker saw it. */
  predicate HearsCancel(s: State) {
    || (s.c.pc.AtHead? && s.cancel)
    || (s.c.pc.Waiting? && s.mail != [] && s.mail[0].CancelSeen?)
  }

  function CoordinatorSteps(actions: seq<Action>): nat {
    if actions == [] then 0 else (if actions[0].Coordinate? then 1 else 0) + CoordinatorSteps(actions[1..])
  }

  lemma {:induction false} HearingStep(o: Oracle, specs: seq<WorkerSpec>, s: State, a: Action)
    requires HearsCancel(s) && Enabled(specs, s, a)
    ensures var next := Apply(o, specs, s, a);
      && next.c == (if a.Coordinate? then s.c.(outcome := Cancelled) else s.c)
      && (!a.Coordinate? ==> HearsCancel(next))
  {
  }

  lemma {:induction false} NothingFollows(o: Oracle, specs: seq<WorkerSpec>, s: State, actions: seq<Action>)
    requires s.c.outcome != Running && Legal(o, specs, s, actions)
    ensures actions == []
  {
  }

  /** A coordinator at its head with the flag set, or with a worker's word of it next
      in its channel, sends nothing and emits nothing any more, whatever the workers do
      meanwhile; its one remaining step ends the run as cancelled, and nothing follows. */
  lemma {:induction false} HeardCancelEnds(o: Oracle, specs: seq<WorkerSpec>, s: State, actions: seq<Action>)
    requires HearsCancel(s) && s.c.outcome == Running && Legal(o, specs, s, actions)
    ensures var t := After(o, specs, s, actions);
      && t.c.sent == s.c.sent && t.c.log == s.c.log && t.c.todo == s.c.todo
      && CoordinatorSteps(actions) <= 1
      && t.c.outcome == (if CoordinatorSteps(actions) == 0 then Running else Cancelled)
      && (CoordinatorSteps(actions) == 0 ==> HearsCancel(t))
      && (CoordinatorSteps(actions) == 1 ==> forall a :: !Enabled(specs, t, a))
    decreases |actions|
  {
    if actions != [] {
      HearingStep(o, specs, s, actions[0]);
      var next := Apply(o, specs, s, actions[0]);
      if actions[0].Coordinate? {
        NothingFollows(o, specs, next, actions[1..]);
      } else {
        HeardCancelEnds(o, specs, next, actions[1..]);
      }
    }
  }

  /** The most steps the coordinator can still take once the flag is set: the rest of
      a dispatch pass, the wait, and the look at the flag. */
  function StepsLeft(c: Coord): nat {
    if c.outcome != Running then 0
    else
      match c.pc
      case AtHead => 1
      case Waiting => 2
      case Dispatching(left) => left + 3
  }

  lemma {:induction false} CancelledStep(o: Oracle, specs: seq<WorkerSpec>, s: State, a: Action)
    requires s.cancel && Enabled(specs, s, a)
    ensures var next := Apply(o, specs, s, a);
      && next.cancel && |next.phase| == |s.phase|
      && StepsLeft(next.c) + (if a.Coordinate? then 1 else 0) <= StepsLeft(s.c)
      && (forall w :: 0 <= w < |s.phase| && next.phase[w].Evaluating? ==> next.phase[w] == s.phase[w])
      && (a.Take? ==> next.phase[a.w] == Gone && next.mail == s.mail + [CancelSeen])
  {
  }

  /** However many items are queued and however the workers behave, a cancelled run is
      over within a bounded number of coordinator steps, and no worker begins another
      item: what is being evaluated was being evaluated at the time. */
  lemma {:induction false} CancelledRunEnds(o: Oracle, specs: seq<WorkerSpec>, s: State, actions: seq<Action>)
    requires s.cancel && Legal(o, specs, s, actions)
    ensures var t := After(o, specs, s, actions);
      && t.cancel && |t.phase| == |s.phase|
      && StepsLeft(t.c) + CoordinatorSteps(actions) <= StepsLeft(s.c)
      && (forall w :: 0 <= w < |s.phase| && t.phase[w].Evaluating? ==> t.phase[w] == s.phase[w])
    decreases |actions|
  {
    if actions != [] {
      CancelledStep(o, specs, s, actions[0]);
      CancelledRunEnds(o, specs, Apply(o, specs, s, actions[0]), actions[1..]);
    }
  }
}
