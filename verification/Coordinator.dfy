/** The coordinator of `async_master`: its work queue, its dispatch loop and its
    receive loop.  The functions on `Coord` give each atomic step; the classes
    run those steps in place, as the program does. */
module Coordinator {
  import opened Types
  import opened Pool

  /** Why an evaluation ends with an error. */
  datatype Fault =
    | FatalEvent(error: string)
    | NoOwner(path: Path, system: string)
    | SinkFailed
    | SendFailed(worker: nat)
    | Stalled
    | Disconnected
    | TaskExited(error: string)

  datatype Outcome = Running | Completed | Cancelled | Failed(fault: Fault)

  datatype Message =
    | Ready(worker: nat)
    | Reply(worker: nat, item: Path, event: Result<Event>)
    | CancelSeen
    | Exited(error: string)

  datatype Send = Send(worker: nat, item: Path)

  /** Where the coordinator's loop is: at its head, with `left` idle workers
      still to consider, or blocked on the result channel. */
  datatype Pc = AtHead | Dispatching(left: nat) | Waiting

  datatype Coord = Coord(
    pc: Pc,
    todo: seq<Path>,
    active: nat,
    error: Option<Fault>,
    idle: seq<nat>,
    sent: seq<Send>,
    log: seq<Event>,
    outcome: Outcome)

  datatype NextWork = Dispatch(item: Path) | Wait | Done | Fatal(fault: Fault)

  datatype CompletedWork = CompletedWork(emit: bool, fatal: Option<Fault>)

  function FailureText(name: string, error: string): string {
    "worker " + name + " failed: " + error
  }

  function FailureEvent(spec: WorkerSpec, item: Path, error: string): Event {
    ErrorEvent(EvalError(DisplayAttr(item), item, FailureText(spec.name, error), false))
  }

  /** The event a reply stands for: the worker's answer, or a report that it gave none. */
  function ReplyEvent(spec: WorkerSpec, item: Path, reply: Result<Event>): Event {
    if reply.Ok? then reply.value else FailureEvent(spec, item, reply.error)
  }

  /** What a completed event means for the run. */
  function Verdict(spec: WorkerSpec, specs: seq<WorkerSpec>, item: Path, event: Event): CompletedWork {
    match event
    case AttrSet(_, _, _) => CompletedWork(true, None)
    case ErrorEvent(e) => CompletedWork(true, if e.fatal then Some(FatalEvent(e.error)) else None)
    case DerivationEvent(_) =>
      match Disposition(spec, specs, event)
      case Emit => CompletedWork(true, None)
      case Unowned(system) => CompletedWork(false, Some(NoOwner(item, system)))
  }

  // ---- The steps of the loop ----------------------------------------------

  function CheckCancel(c: Coord, cancel: bool): Coord
    requires c.pc.AtHead?
  {
    if cancel then c.(outcome := Cancelled) else c.(pc := Dispatching(|c.idle|))
  }

  function DispatchOne(c: Coord, closed: bool): Coord
    requires c.pc.Dispatching? && 0 < c.pc.left <= |c.idle|
  {
    var w, rest := c.idle[0], c.idle[1..];
    if c.error.Some? then c.(idle := rest, outcome := Failed(c.error.value))
    else if c.todo != [] then
      var taken := c.(pc := Dispatching(c.pc.left - 1), idle := rest, todo := c.todo[1..], active := c.active + 1);
      if closed then taken.(outcome := Failed(SendFailed(w)))
      else taken.(sent := c.sent + [Send(w, c.todo[0])])
    else if c.active == 0 then c.(idle := rest, outcome := Completed)
    else c.(pc := Dispatching(c.pc.left - 1), idle := rest + [w])
  }

  function EndDispatch(c: Coord, workers: nat): Coord
    requires c.pc == Dispatching(0)
  {
    if c.todo == [] && c.active == 0 then c.(outcome := Completed)
    else if c.active == 0 && |c.idle| == workers then c.(outcome := Failed(Stalled))
    else c.(pc := Waiting)
  }

  function Receive(c: Coord, specs: seq<WorkerSpec>, message: Option<Message>, sinkOk: bool): Coord
    requires c.pc.Waiting?
    requires message.Some? && message.value.Reply? ==> c.active > 0 && message.value.worker < |specs|
  {
    match message
    case None => c.(outcome := Failed(Disconnected))
    case Some(Ready(w)) => c.(pc := AtHead, idle := c.idle + [w])
    case Some(CancelSeen) => c.(outcome := Cancelled)
    case Some(Exited(error)) => c.(outcome := Failed(TaskExited(error)))
    case Some(Reply(w, item, reply)) =>
      var event := ReplyEvent(specs[w], item, reply);
      var done := Verdict(specs[w], specs, item, event);
      var next := c.(
        idle := c.idle + [w],
        active := c.active - 1,
        todo := c.todo + Extend(item, event.Children()),
        error := if done.fatal.Some? then done.fatal else c.error,
        log := if done.emit then c.log + [event] else c.log);
      if done.emit && !sinkOk then next.(outcome := Failed(SinkFailed))
      else if done.fatal.Some? then next.(outcome := Failed(done.fatal.value))
      else next.(pc := AtHead)
  }

  // ---- One turn of the loop, and a whole run against given inputs ---------

  /** What the outside world contributes to one turn: the cancel flag, which of
      the workers offered work turn out to be gone, and the message received. */
  datatype Turn = Turn(cancel: bool, closed: seq<bool>, message: Option<Message>, sinkOk: bool)

  function ClosedAt(closed: seq<bool>, i: nat): bool {
    i < |closed| && closed[i]
  }

  function DispatchFrom(c: Coord, closed: seq<bool>, i: nat): (d: Coord)
    requires c.pc.Dispatching? && c.pc.left <= |c.idle|
    ensures d.outcome == Running && c.outcome == Running ==> d.pc == Dispatching(0)
    decreases c.pc.left
  {
    if c.pc.left == 0 || c.outcome != Running then c
    else
      var next := DispatchOne(c, ClosedAt(closed, i));
      if next.outcome != Running then next else DispatchFrom(next, closed, i + 1)
  }

  /** The first half of a turn, up to the blocking receive. */
  function Prepare(c: Coord, workers: nat, cancel: bool, closed: seq<bool>): Coord
    requires c.pc.AtHead? && c.outcome == Running
  {
    var checked := CheckCancel(c, cancel);
    if checked.outcome != Running then checked
    else
      var dispatched := DispatchFrom(checked, closed, 0);
      if dispatched.outcome != Running then dispatched else EndDispatch(dispatched, workers)
  }

  /** Replies come only from workers that hold an item. */
  predicate Plausible(c: Coord, specs: seq<WorkerSpec>, message: Option<Message>) {
    message.Some? && message.value.Reply? ==> c.active > 0 && message.value.worker < |specs|
  }

  ghost predicate Feasible(c: Coord, specs: seq<WorkerSpec>, turns: seq<Turn>)
    requires c.pc.AtHead?
    decreases |turns|
  {
    if turns == [] || c.outcome != Running then true
    else
      var ready := Prepare(c, |specs|, turns[0].cancel, turns[0].closed);
      ready.outcome == Running ==>
        && Plausible(ready, specs, turns[0].message)
        && var next := Receive(ready, specs, turns[0].message, turns[0].sinkOk);
           next.outcome == Running ==> Feasible(next, specs, turns[1..])
  }

  ghost function Play(c: Coord, specs: seq<WorkerSpec>, turns: seq<Turn>): Coord
    requires c.pc.AtHead? && Feasible(c, specs, turns)
    decreases |turns|
  {
    if turns == [] || c.outcome != Running then c
    else
      var ready := Prepare(c, |specs|, turns[0].cancel, turns[0].closed);
      if ready.outcome != Running then ready
      else
        var next := Receive(ready, specs, turns[0].message, turns[0].sinkOk);
        if next.outcome != Running then next else Play(next, specs, turns[1..])
  }

  class Scheduler {
    var todo: seq<Path>
    var active: nat
    var error: Option<Fault>

    constructor ()
      ensures todo == [[]] && active == 0 && error == None
    {
      todo, active, error := [[]], 0, None;
    }

    predicate IsDone()
      reads this
    {
      todo == [] && active == 0
    }

    method NextFor() returns (r: NextWork)
      modifies this
      ensures error == old(error)
      ensures r.Dispatch? <==> error.None? && old(todo) != []
      ensures r.Dispatch? ==> old(todo) == [r.item] + todo && active == old(active) + 1
      ensures !r.Dispatch? ==> todo == old(todo) && active == old(active)
      ensures r.Fatal? <==> error.Some?
      ensures r.Fatal? ==> r.fault == error.value
      ensures r.Done? <==> error.None? && IsDone()
    {
      if error.Some? {
        return Fatal(error.value);
      }
      if todo != [] {
        r := Dispatch(todo[0]);
        todo, active := todo[1..], active + 1;
        return;
      }
      if todo == [] && active == 0 {
        return Done;
      }
      return Wait;
    }

    method Complete(spec: WorkerSpec, specs: seq<WorkerSpec>, item: Path, event: Event) returns (r: CompletedWork)
      requires active > 0
      modifies this
      ensures r == Verdict(spec, specs, item, event)
      ensures active == old(active) - 1
      ensures todo == old(todo) + Extend(item, event.Children())
      ensures error == if r.fatal.Some? then r.fatal else old(error)
    {
      active := active - 1;
      match event {
        case AttrSet(_, _, attrs) =>
          for i := 0 to |attrs|
            invariant todo == old(todo) + Extend(item, attrs[..i])
            invariant active == old(active) - 1 && error == old(error)
          {
            ExtendSnoc(item, attrs[..i], attrs[i]);
            assert attrs[..i + 1] == attrs[..i] + [attrs[i]];
            var child := item + [attrs[i]];
            todo := todo + [child];
          }
          assert attrs[..|attrs|] == attrs;
          r := CompletedWork(true, None);
        case ErrorEvent(e) =>
          if e.fatal {
            error := Some(FatalEvent(e.error));
            r := CompletedWork(true, error);
          } else {
            r := CompletedWork(true, None);
          }
        case DerivationEvent(_) =>
          match Disposition(spec, specs, event) {
            case Emit => r := CompletedWork(true, None);
            case Unowned(system) =>
              error := Some(NoOwner(item, system));
              r := CompletedWork(false, error);
          }
      }
    }
  }

  /** The loop of `coordinate`, with `dispatch_available` inside it. */
  class Evaluation {
    const scheduler: Scheduler
    const specs: seq<WorkerSpec>
    var idle: seq<nat>
    var sent: seq<Send>
    var log: seq<Event>
    ghost var pc: Pc
    ghost var outcome: Outcome

    ghost function View(): Coord
      reads this, scheduler
    {
      Coord(pc, scheduler.todo, scheduler.active, scheduler.error, idle, sent, log, outcome)
    }

    constructor (specs: seq<WorkerSpec>)
      ensures fresh(scheduler) && this.specs == specs
      ensures View() == Initial(specs)
    {
      var s := new Scheduler();
      scheduler, this.specs := s, specs;
      sent, log, pc, outcome := [], [], AtHead, Running;
      var ids: seq<nat> := [];
      for i := 0 to |specs|
        invariant ids == UnforkedIds(specs[..i])
      {
        assert specs[..i + 1] == specs[..i] + [specs[i]];
        if !specs[i].IsForked() {
          ids := ids + [i];
        }
      }
      assert specs[..|specs|] == specs;
      idle := ids;
    }

    /** One iteration of `dispatch_available`. */
    method Offer(closed: bool) returns (finished: Option<Outcome>)
      requires pc.Dispatching? && 0 < pc.left <= |idle| && outcome == Running
      modifies this, scheduler
      ensures View() == DispatchOne(old(View()), closed)
      ensures finished == if outcome == Running then None else Some(outcome)
    {
      var worker := idle[0];
      idle := idle[1..];
      var next := scheduler.NextFor();
      finished := None;
      match next {
        case Dispatch(item) =>
          pc := Dispatching(pc.left - 1);
          if closed {
            finished := Some(Failed(SendFailed(worker)));
          } else {
            sent := sent + [Send(worker, item)];
          }
        case Wait =>
          pc := Dispatching(pc.left - 1);
          idle := idle + [worker];
        case Done =>
          finished := Some(Completed);
        case Fatal(fault) =>
          finished := Some(Failed(fault));
      }
      if finished.Some? {
        outcome := finished.value;
      }
    }

    /** `dispatch_available`; `closed[i]` says whether the i-th worker offered
        work has dropped its channel. */
    method DispatchAvailable(closed: seq<bool>) returns (finished: Option<Outcome>)
      requires pc == Dispatching(|idle|) && outcome == Running
      modifies this, scheduler
      ensures View() == DispatchFrom(old(View()), closed, 0)
      ensures finished == if outcome == Running then None else Some(outcome)
    {
      var idleCount := |idle|;
      for i := 0 to idleCount
        invariant outcome == Running && pc == Dispatching(idleCount - i)
        invariant idleCount - i <= |idle|
        invariant DispatchFrom(old(View()), closed, 0) == DispatchFrom(View(), closed, i)
      {
        finished := Offer(ClosedAt(closed, i));
        if finished.Some? {
          return;
        }
      }
      return None;
    }

    /** Handling of one received message. */
    method Handle(message: Option<Message>, sinkOk: bool) returns (finished: Option<Outcome>)
      requires pc == Waiting && outcome == Running
      requires Plausible(View(), specs, message)
      modifies this, scheduler
      ensures View() == Receive(old(View()), specs, message, sinkOk)
      ensures finished == if outcome == Running then None else Some(outcome)
      ensures outcome == Running ==> pc == AtHead
    {
      match message {
        case None => finished := Some(Failed(Disconnected));
        case Some(Ready(w)) => idle, finished := idle + [w], None;
        case Some(CancelSeen) => finished := Some(Cancelled);
        case Some(Exited(error)) => finished := Some(Failed(TaskExited(error)));
        case Some(Reply(w, item, reply)) =>
          idle := idle + [w];
          var event := if reply.Ok? then reply.value else FailureEvent(specs[w], item, reply.error);
          var completed := scheduler.Complete(specs[w], specs, item, event);
          finished := None;
          if completed.emit {
            log := log + [event];
            if !sinkOk {
              finished := Some(Failed(SinkFailed));
            }
          }
          if finished.None? && completed.fatal.Some? {
            finished := Some(Failed(completed.fatal.value));
          }
      }
      if finished.Some? {
        outcome := finished.value;
      } else {
        pc := AtHead;
      }
    }

    /** The whole loop, fed one turn of outside events at a time. */
    method Coordinate(turns: seq<Turn>) returns (finished: Option<Outcome>)
      requires pc == AtHead && outcome == Running
      requires Feasible(View(), specs, turns)
      modifies this, scheduler
      ensures View() == Play(old(View()), specs, turns)
      ensures finished == if outcome == Running then None else Some(outcome)
    {
      for i := 0 to |turns|
        invariant pc == AtHead && outcome == Running
        invariant Feasible(View(), specs, turns[i..])
        invariant Play(old(View()), specs, turns) == Play(View(), specs, turns[i..])
      {
        assert turns[i..][0] == turns[i] && turns[i..][1..] == turns[i + 1..];
        if turns[i].cancel {
          outcome := Cancelled;
          return Some(Cancelled);
        }
        pc := Dispatching(|idle|);
        finished := DispatchAvailable(turns[i].closed);
        if finished.Some? {
          return;
        }
        if scheduler.IsDone() {
          outcome := Completed;
          return Some(Completed);
        }
        if scheduler.active == 0 && |idle| == |specs| {
          outcome := Failed(Stalled);
          return Some(Failed(Stalled));
        }
        pc := Waiting;
        finished := Handle(turns[i].message, turns[i].sinkOk);
        if finished.Some? {
          return;
        }
      }
      return None;
    }
  }

  function UnforkedIds(specs: seq<WorkerSpec>): (ids: seq<nat>)
    ensures forall w: nat :: w in ids <==> w < |specs| && !specs[w].IsForked()
    ensures forall i :: 0 <= i < |ids| ==> ids[i] < |specs|
    ensures forall i, j :: 0 <= i < j < |ids| ==> ids[i] < ids[j]
    ensures NoDuplicates(ids)
  {
    if specs == [] then []
    else
      var n := |specs| - 1;
      var rest := UnforkedIds(specs[..n]);
      if specs[n].IsForked() then rest else rest + [n]
  }

  function Initial(specs: seq<WorkerSpec>): Coord {
    Coord(AtHead, [[]], 0, None, UnforkedIds(specs), [], [], Running)
  }

  // ---- The steps in the words of the loop ----------------------------------

  /** Every event is passed on but a derivation nobody owns; that one and a
      fatal error end the run, each for its own reason. */
  lemma {:induction false} VerdictMeans(specs: seq<WorkerSpec>, w: nat, item: Path, event: Event)
    requires w < |specs|
    ensures var v := Verdict(specs[w], specs, item, event);
      && (v.emit <==> event.DerivationEvent? ==> Covered(specs, event.drv.system))
      && (!v.emit ==> v.fatal == Some(NoOwner(item, event.drv.system)))
      && (v.emit && event.ErrorEvent? && event.err.fatal ==> v.fatal == Some(FatalEvent(event.err.error)))
      && (v.emit && !(event.ErrorEvent? && event.err.fatal) ==> v.fatal == None)
  {
    if event.DerivationEvent? {
      DispositionIsOwnership(specs, w, event);
    }
  }

  /** A reply frees its worker and its place among the active items, queues the
      listed names behind everything queued, and appends the event unless it is
      an unowned derivation.  A sink that fails is heard before a fatal event. */
  lemma {:induction false} ReplyReceived(
    c: Coord, specs: seq<WorkerSpec>, w: nat, item: Path, reply: Result<Event>, sinkOk: bool)
    requires c.pc.Waiting? && c.outcome == Running && c.active > 0 && w < |specs|
    ensures var d := Receive(c, specs, Some(Reply(w, item, reply)), sinkOk);
      var event := if reply.Ok? then reply.value else
        ErrorEvent(EvalError(DisplayAttr(item), item, "worker " + specs[w].name + " failed: " + reply.error, false));
      var owned := event.DerivationEvent? ==> Covered(specs, event.drv.system);
      var names := if event.AttrSet? then event.attrs else [];
      && d.idle == c.idle + [w] && d.active == c.active - 1 && d.sent == c.sent
      && d.log == (if owned then c.log + [event] else c.log)
      && |d.todo| == |c.todo| + |names| && d.todo[..|c.todo|] == c.todo
      && (forall i :: 0 <= i < |names| ==> d.todo[|c.todo| + i] == item + [names[i]])
      && d.outcome == (
           if !owned then Failed(NoOwner(item, event.drv.system))
           else if !sinkOk then Failed(SinkFailed)
           else if event.ErrorEvent? && event.err.fatal then Failed(FatalEvent(event.err.error))
           else Running)
      && (d.outcome == Running ==> d.pc == AtHead && d.error == c.error)
  {
    var event := ReplyEvent(specs[w], item, reply);
    VerdictMeans(specs, w, item, event);
    ExtendAt(item, event.Children());
    if reply.Err? {
      assert FailureText(specs[w].name, reply.error) == "worker " + specs[w].name + " failed: " + reply.error;
    }
  }

  /** Every other message: a forked worker joins the idle ones, or the run ends. */
  lemma {:induction false} OtherReceived(c: Coord, specs: seq<WorkerSpec>, m: Option<Message>, sinkOk: bool)
    requires c.pc.Waiting? && c.outcome == Running && !(m.Some? && m.value.Reply?)
    ensures var d := Receive(c, specs, m, sinkOk);
      && d.sent == c.sent && d.log == c.log && d.todo == c.todo && d.active == c.active && d.error == c.error
      && d.idle == (if m.Some? && m.value.Ready? then c.idle + [m.value.worker] else c.idle)
      && d.outcome == (
           if m.None? then Failed(Disconnected)
           else if m.value.Ready? then Running
           else if m.value.CancelSeen? then Cancelled
           else Failed(TaskExited(m.value.error)))
      && (d.outcome == Running ==> d.pc == AtHead)
  {
  }

  /** Offering work to the worker idle longest: it is sent the oldest item, or
      found gone, or put behind the others, or the run is over. */
  lemma {:induction false} OfferMeans(c: Coord, closed: bool)
    requires c.pc.Dispatching? && 0 < c.pc.left <= |c.idle| && c.outcome == Running
    ensures var d := DispatchOne(c, closed);
      var serves := c.error.None? && c.todo != [];
      && d.log == c.log && d.error == c.error
      && d.sent == (if serves && !closed then c.sent + [Send(c.idle[0], c.todo[0])] else c.sent)
      && (serves ==> c.todo == [c.todo[0]] + d.todo && d.active == c.active + 1)
      && (!serves ==> d.todo == c.todo && d.active == c.active)
      && d.outcome == (
           if c.error.Some? then Failed(c.error.value)
           else if serves then (if closed then Failed(SendFailed(c.idle[0])) else Running)
           else if c.active == 0 then Completed else Running)
      && (d.outcome == Running ==>
            && d.pc == Dispatching(c.pc.left - 1)
            && d.idle == c.idle[1..] + (if serves then [] else [c.idle[0]]))
  {
  }

  /** Before it waits, the loop ends exactly if nothing is queued or under way,
      or nothing is under way though every worker is idle. */
  lemma {:induction false} WaitingMeans(c: Coord, workers: nat)
    requires c.pc == Dispatching(0) && c.outcome == Running
    ensures var d := EndDispatch(c, workers);
      && d.(pc := c.pc, outcome := c.outcome) == c
      && (d.outcome == Completed <==> c.todo == [] && c.active == 0)
      && (d.outcome == Failed(Stalled) <==> c.todo != [] && c.active == 0 && |c.idle| == workers)
      && (d.outcome == Completed || d.outcome == Failed(Stalled) || (d.outcome == Running && d.pc == Waiting))
  {
  }
}
