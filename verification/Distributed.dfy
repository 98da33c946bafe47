/** The coordinator with its worker tasks as a step system: every interleaving of
    their actions is a legal run. */
module Distributed {
  import opened Types
  import opened Eval
  import opened Pool
  import opened Coordinator
  import opened Worklist

  /** A worker task: connecting; blocked on its work channel; evaluating;
      reconnecting or restarting after it has replied; or gone. */
  datatype Phase = Starting | Blocked | Evaluating(item: Path) | Recovering | Gone

  /** `work[w]` is worker w's work channel, of capacity one; `mail` is the result
      channel, of capacity `|specs|`.  `held` remembers which item each worker
      was sent and has not yet been credited with; the program does not store it. */
  datatype State = State(
    c: Coord,
    work: seq<Option<Path>>,
    phase: seq<Phase>,
    mail: seq<Message>,
    cancel: bool,
    held: seq<Option<Path>>)

  datatype Action =
    | Coordinate(sinkOk: bool)
    | Started(w: nat)
    | StartFailed(w: nat, error: string)
    | Take(w: nat)
    | Answer(w: nat, restart: bool)
    | FailItem(w: nat, error: string)
    | Panic(w: nat, error: string)
    | Recovered(w: nat)
    | RecoverFailed(w: nat, error: string)
    | RequestCancel

  function Init(specs: seq<WorkerSpec>): State {
    var n := |specs|;
    State(Initial(specs), seq(n, _ => None), seq(n, _ => Starting), [], false, seq(n, _ => None))
  }

  predicate AllGone(s: State) {
    forall w :: 0 <= w < |s.phase| ==> s.phase[w] == Gone
  }

  predicate Offering(c: Coord) {
    c.pc.Dispatching? && 0 < c.pc.left <= |c.idle| && c.error.None? && c.todo != []
  }

  /** Whether the coordinator's next step can be taken without blocking. */
  predicate CoordinatorReady(specs: seq<WorkerSpec>, s: State) {
    match s.c.pc
    case AtHead => true
    case Dispatching(left) =>
      && left <= |s.c.idle|
      && (Offering(s.c) ==>
            var w := s.c.idle[0];
            w < |s.phase| && w < |s.work| && w < |s.held| && (s.phase[w] == Gone || s.work[w].None?))
    case Waiting =>
      && (s.mail != [] || AllGone(s))
      && (s.mail != [] && s.mail[0].Reply? ==>
            s.c.active > 0 && s.mail[0].worker < |specs| && s.mail[0].worker < |s.held|)
  }

  predicate Room(specs: seq<WorkerSpec>, s: State) {
    |s.mail| < |specs|
  }

  predicate Enabled(specs: seq<WorkerSpec>, s: State, a: Action) {
    && s.c.outcome == Running
    && |s.phase| == |s.work| == |s.held| == |specs|
    && match a
       case Coordinate(_) => CoordinatorReady(specs, s)
       case Started(w) =>
         w < |specs| && s.phase[w] == Starting && (specs[w].IsForked() ==> s.work[w].None? && Room(specs, s))
       case StartFailed(w, _) => w < |specs| && s.phase[w] == Starting && Room(specs, s)
       case Take(w) => w < |specs| && s.phase[w] == Blocked && s.work[w].Some? && (s.cancel ==> Room(specs, s))
       case Answer(w, _) => w < |specs| && s.phase[w].Evaluating? && Room(specs, s)
       case FailItem(w, _) => w < |specs| && s.phase[w].Evaluating? && Room(specs, s)
       case Panic(w, _) => w < |specs| && s.phase[w].Evaluating? && Room(specs, s)
       case Recovered(w) => w < |specs| && s.phase[w] == Recovering
       case RecoverFailed(w, _) => w < |specs| && s.phase[w] == Recovering && Room(specs, s)
       case RequestCancel => !s.cancel
  }

  function CoordinatorStep(specs: seq<WorkerSpec>, s: State, sinkOk: bool): State
    requires |s.phase| == |s.work| == |s.held| == |specs|
    requires CoordinatorReady(specs, s)
  {
    match s.c.pc
    case AtHead => s.(c := CheckCancel(s.c, s.cancel))
    case Dispatching(left) =>
      if left == 0 then s.(c := EndDispatch(s.c, |specs|))
      else if Offering(s.c) then
        var w := s.c.idle[0];
        if s.phase[w] == Gone then s.(c := DispatchOne(s.c, true))
        else
          s.(c := DispatchOne(s.c, false),
             work := s.work[w := Some(s.c.todo[0])],
             held := s.held[w := Some(s.c.todo[0])])
      else s.(c := DispatchOne(s.c, false))
    case Waiting =>
      if s.mail == [] then s.(c := Receive(s.c, specs, None, sinkOk))
      else
        var m := s.mail[0];
        s.(c := Receive(s.c, specs, Some(m), sinkOk),
           mail := s.mail[1..],
           held := if m.Reply? then s.held[m.worker := None] else s.held)
  }

  function Apply(o: Oracle, specs: seq<WorkerSpec>, s: State, a: Action): State
    requires Enabled(specs, s, a)
  {
    match a
    case Coordinate(sinkOk) => CoordinatorStep(specs, s, sinkOk)
    case Started(w) =>
      s.(phase := s.phase[w := Blocked],
         mail := if specs[w].IsForked() then s.mail + [Ready(w)] else s.mail)
    case StartFailed(w, error) => Leave(s, w, Exited(error))
    case Take(w) =>
      if s.cancel then Leave(s.(work := s.work[w := None]), w, CancelSeen)
      else s.(work := s.work[w := None], phase := s.phase[w := Evaluating(s.work[w].value)])
    case Answer(w, restart) =>
      var item := s.phase[w].item;
      s.(mail := s.mail + [Reply(w, item, Ok(o(item)))],
         phase := s.phase[w := if restart then Recovering else Blocked])
    case FailItem(w, error) =>
      s.(mail := s.mail + [Reply(w, s.phase[w].item, Err(error))], phase := s.phase[w := Recovering])
    case Panic(w, error) => Leave(s, w, Exited(error))
    case Recovered(w) => s.(phase := s.phase[w := Blocked])
    case RecoverFailed(w, error) => Leave(s, w, Exited(error))
    case RequestCancel => s.(cancel := true)
  }

  function Leave(s: State, w: nat, parting: Message): State
    requires w < |s.phase|
  {
    s.(phase := s.phase[w := Gone], mail := s.mail + [parting])
  }

  ghost predicate Legal(o: Oracle, specs: seq<WorkerSpec>, s: State, actions: seq<Action>)
    decreases |actions|
  {
    actions != [] ==> Enabled(specs, s, actions[0]) && Legal(o, specs, Apply(o, specs, s, actions[0]), actions[1..])
  }

  ghost function After(o: Oracle, specs: seq<WorkerSpec>, s: State, actions: seq<Action>): State
    requires Legal(o, specs, s, actions)
    decreases |actions|
  {
    if actions == [] then s else After(o, specs, Apply(o, specs, s, actions[0]), actions[1..])
  }

  // ---- What every step keeps -----------------------------------------------

  function Busy(held: seq<Option<Path>>): seq<Path> {
    if held == [] then []
    else (if held[0].Some? then [held[0].value] else []) + Busy(held[1..])
  }

  lemma {:induction false} BusySet(held: seq<Option<Path>>, w: nat, p: Path)
    requires w < |held| && held[w].None?
    ensures multiset(Busy(held[w := Some(p)])) == multiset(Busy(held)) + multiset{p}
    ensures |Busy(held[w := Some(p)])| == |Busy(held)| + 1
    decreases |held|
  {
    var held' := held[w := Some(p)];
    if w == 0 {
      assert held'[1..] == held[1..];
    } else {
      assert held'[1..] == held[1..][w - 1 := Some(p)];
      BusySet(held[1..], w - 1, p);
    }
  }

  lemma {:induction false} BusyClear(held: seq<Option<Path>>, w: nat, p: Path)
    requires w < |held| && held[w] == Some(p)
    ensures multiset(Busy(held)) == multiset(Busy(held[w := None])) + multiset{p}
    ensures |Busy(held)| == |Busy(held[w := None])| + 1
  {
    assert held[w := None][w := Some(p)] == held;
    BusySet(held[w := None], w, p);
  }

  lemma {:induction false} BusyNone(held: seq<Option<Path>>)
    requires forall w :: 0 <= w < |held| ==> held[w].None?
    ensures Busy(held) == []
  {
    if held != [] {
      BusyNone(held[1..]);
    }
  }

  lemma {:induction false} BusySome(held: seq<Option<Path>>)
    requires Busy(held) != []
    ensures exists w :: 0 <= w < |held| && held[w].Some?
  {
    if held[0].None? {
      BusySome(held[1..]);
      var w :| 0 <= w < |held[1..]| && held[1..][w].Some?;
      assert held[w + 1].Some?;
    }
  }

  predicate IsReplyOf(m: Message, w: nat) {
    m.Reply? && m.worker == w
  }

  predicate IsReadyOf(m: Message, w: nat) {
    m.Ready? && m.worker == w
  }

  function Replies(mail: seq<Message>, w: nat): nat {
    if mail == [] then 0 else (if IsReplyOf(mail[0], w) then 1 else 0) + Replies(mail[1..], w)
  }

  function Readies(mail: seq<Message>, w: nat): nat {
    if mail == [] then 0 else (if IsReadyOf(mail[0], w) then 1 else 0) + Readies(mail[1..], w)
  }

  lemma {:induction false} CountsAppend(mail: seq<Message>, m: Message, w: nat)
    ensures Replies(mail + [m], w) == Replies(mail, w) + if IsReplyOf(m, w) then 1 else 0
    ensures Readies(mail + [m], w) == Readies(mail, w) + if IsReadyOf(m, w) then 1 else 0
  {
    if mail == [] {
      assert mail + [m] == [m];
    } else {
      assert (mail + [m])[1..] == mail[1..] + [m];
      CountsAppend(mail[1..], m, w);
    }
  }

  lemma {:induction false} CountedReplyPresent(mail: seq<Message>, w: nat)
    requires Replies(mail, w) > 0
    ensures exists k :: 0 <= k < |mail| && IsReplyOf(mail[k], w)
  {
    if !IsReplyOf(mail[0], w) {
      CountedReplyPresent(mail[1..], w);
      var k :| 0 <= k < |mail[1..]| && IsReplyOf(mail[1..][k], w);
      assert mail[k + 1] == mail[1..][k];
    }
  }

  /** Each worker is in exactly one of: idle, holding an item, or forked and not
      yet announced; an item it holds is in exactly one place. */
  ghost predicate WorkerOk(specs: seq<WorkerSpec>, s: State, w: nat)
    requires |s.phase| == |s.work| == |s.held| == |specs| && w < |specs|
  {
    var replies, readies := Replies(s.mail, w), Readies(s.mail, w);
    && (s.held[w].None? ==> s.work[w].None? && !s.phase[w].Evaluating? && replies == 0)
    && (s.work[w].Some? ==> s.work[w] == s.held[w] && !s.phase[w].Evaluating? && replies == 0)
    && (s.phase[w].Evaluating? ==> s.held[w] == Some(s.phase[w].item) && replies == 0)
    && replies <= 1
    && (s.held[w].Some? && s.work[w].None? && !s.phase[w].Evaluating? && replies == 0 ==> s.phase[w] == Gone)
    && (w in s.c.idle ==> s.held[w].None? && readies == 0)
    && readies <= 1
    && (readies == 1 ==> specs[w].IsForked() && s.held[w].None? && s.phase[w] != Starting)
    && (specs[w].IsForked() && s.phase[w] == Starting ==> s.held[w].None? && w !in s.c.idle && readies == 0)
    && (s.held[w].None? && w !in s.c.idle ==>
          specs[w].IsForked() && (s.phase[w] == Starting || s.phase[w] == Gone || readies == 1))
  }

  predicate MessageOk(o: Oracle, specs: seq<WorkerSpec>, s: State, m: Message)
    requires |s.held| == |specs|
  {
    match m
    case Ready(w) => w < |specs|
    case Reply(w, item, reply) => w < |specs| && s.held[w] == Some(item) && (reply.Ok? ==> reply.value == o(item))
    case CancelSeen => s.cancel
    case Exited(_) => true
  }

  predicate Parting(m: Message) {
    m.CancelSeen? || m.Exited?
  }

  ghost predicate HasParting(mail: seq<Message>) {
    exists k :: 0 <= k < |mail| && Parting(mail[k])
  }

  function LedgerFrom(todo: seq<Path>, held: seq<Option<Path>>, log: seq<Event>): Ledger {
    Ledger(multiset(todo) + multiset(Busy(held)), log)
  }

  function LedgerOf(s: State): Ledger {
    LedgerFrom(s.c.todo, s.held, s.c.log)
  }

  ghost predicate PcOk(specs: seq<WorkerSpec>, s: State) {
    && (s.c.pc.Dispatching? ==> s.c.pc.left <= |s.c.idle|)
    && (s.c.pc.Dispatching? && s.c.todo != [] ==> s.c.pc.left == |s.c.idle|)
    && (s.c.pc.Waiting? ==> s.c.active > 0)
  }

  ghost predicate Shaped(specs: seq<WorkerSpec>, s: State) {
    && WellFormedPool(specs)
    && s.c.outcome == Running
    && |s.phase| == |s.work| == |s.held| == |specs|
    && NoDuplicates(s.c.idle)
    && (forall i :: 0 <= i < |s.c.idle| ==> s.c.idle[i] < |specs|)
  }

  /** The channel discipline, in every state of a run that has not ended. */
  ghost predicate Protocol(o: Oracle, specs: seq<WorkerSpec>, s: State) {
    && Shaped(specs, s)
    && s.c.error.None?
    && s.c.active == |Busy(s.held)|
    && (forall w :: 0 <= w < |specs| ==> WorkerOk(specs, s, w))
    && (forall k :: 0 <= k < |s.mail| ==> MessageOk(o, specs, s, s.mail[k]))
    && (forall w :: 0 <= w < |specs| && s.phase[w] == Gone ==> HasParting(s.mail))
    && PcOk(specs, s)
  }

  ghost predicate Inv(o: Oracle, specs: seq<WorkerSpec>, s: State) {
    Protocol(o, specs, s) && Coherent(o, LedgerOf(s))
  }

  lemma {:induction false} InitInv(o: Oracle, specs: seq<WorkerSpec>)
    requires WellFormedPool(specs)
    ensures Inv(o, specs, Init(specs))
  {
    var s := Init(specs);
    BusyNone(s.held);
    forall w | 0 <= w < |specs| ensures WorkerOk(specs, s, w) {
      InitWorker(specs, w);
    }
    assert LedgerOf(s) == START;
    StartCoherent(o);
  }

  lemma {:induction false} InitWorker(specs: seq<WorkerSpec>, w: nat)
    requires w < |specs|
    ensures WorkerOk(specs, Init(specs), w)
  {
  }

  predicate IsWorkerAction(a: Action) {
    !a.Coordinate? && !a.RequestCancel?
  }

  function Posted(o: Oracle, specs: seq<WorkerSpec>, s: State, a: Action): Option<Message>
    requires Enabled(specs, s, a)
  {
    match a
    case Started(w) => if specs[w].IsForked() then Some(Ready(w)) else None
    case StartFailed(_, error) => Some(Exited(error))
    case Take(w) => if s.cancel then Some(CancelSeen) else None
    case Answer(w, _) => Some(Reply(w, s.phase[w].item, Ok(o(s.phase[w].item))))
    case FailItem(w, error) => Some(Reply(w, s.phase[w].item, Err(error)))
    case Panic(_, error) => Some(Exited(error))
    case RecoverFailed(_, error) => Some(Exited(error))
    case _ => None
  }

  lemma {:induction false} PartingKept(mail: seq<Message>, more: seq<Message>)
    requires HasParting(mail)
    ensures HasParting(mail + more)
  {
    var k :| 0 <= k < |mail| && Parting(mail[k]);
    assert (mail + more)[k] == mail[k];
  }

  lemma {:induction false} WorkerActionKeepsWorker(o: Oracle, specs: seq<WorkerSpec>, s: State, a: Action, v: nat)
    requires Shaped(specs, s) && Enabled(specs, s, a) && IsWorkerAction(a)
    requires v < |specs| && WorkerOk(specs, s, v)
    ensures WorkerOk(specs, Apply(o, specs, s, a), v)
  {
    var s', m := Apply(o, specs, s, a), Posted(o, specs, s, a);
    assert s'.mail == if m.Some? then s.mail + [m.value] else s.mail;
    if m.Some? {
      CountsAppend(s.mail, m.value, v);
    }
  }

  lemma {:induction false} WorkerActionKeepsMail(o: Oracle, specs: seq<WorkerSpec>, s: State, a: Action)
    requires Protocol(o, specs, s) && Enabled(specs, s, a) && IsWorkerAction(a)
    ensures var s' := Apply(o, specs, s, a);
      && (forall k :: 0 <= k < |s'.mail| ==> MessageOk(o, specs, s', s'.mail[k]))
      && (forall v :: 0 <= v < |specs| && s'.phase[v] == Gone ==> HasParting(s'.mail))
  {
    var s', m := Apply(o, specs, s, a), Posted(o, specs, s, a);
    var more := if m.Some? then [m.value] else [];
    assert s'.mail == s.mail + more;
    assert WorkerOk(specs, s, a.w);
    forall k | 0 <= k < |s'.mail| ensures MessageOk(o, specs, s', s'.mail[k]) {
      if k < |s.mail| {
        assert MessageOk(o, specs, s, s.mail[k]);
      }
    }
    forall v | 0 <= v < |specs| && s'.phase[v] == Gone ensures HasParting(s'.mail) {
      if s.phase[v] == Gone {
        PartingKept(s.mail, more);
      } else {
        assert Parting(s'.mail[|s.mail|]);
      }
    }
  }

  lemma {:induction false} WorkerActionKeeps(o: Oracle, specs: seq<WorkerSpec>, s: State, a: Action)
    requires Protocol(o, specs, s) && Enabled(specs, s, a) && IsWorkerAction(a)
    ensures Protocol(o, specs, Apply(o, specs, s, a))
  {
    var s' := Apply(o, specs, s, a);
    assert s'.c == s.c && s'.held == s.held;
    WorkerActionKeepsMail(o, specs, s, a);
    forall v | 0 <= v < |specs| ensures WorkerOk(specs, s', v) {
      WorkerActionKeepsWorker(o, specs, s, a, v);
    }
  }

  lemma {:induction false} CheckCancelKeeps(o: Oracle, specs: seq<WorkerSpec>, s: State)
    requires Protocol(o, specs, s) && s.c.pc.AtHead? && !s.cancel
    ensures Protocol(o, specs, CoordinatorStep(specs, s, true))
  {
    var s' := CoordinatorStep(specs, s, true);
    forall v | 0 <= v < |specs| ensures WorkerOk(specs, s', v) {
      assert WorkerOk(specs, s, v);
    }
    forall k | 0 <= k < |s'.mail| ensures MessageOk(o, specs, s', s'.mail[k]) {
      assert MessageOk(o, specs, s, s.mail[k]);
    }
  }

  /** A worker offered work has an empty work channel: the send cannot block. */
  lemma {:induction false} SendNeverBlocks(o: Oracle, specs: seq<WorkerSpec>, s: State)
    requires Protocol(o, specs, s) && Offering(s.c)
    ensures var w := s.c.idle[0]; w < |specs| && s.work[w].None? && s.held[w].None? && !s.phase[w].Evaluating?
  {
    assert s.c.idle[0] in s.c.idle;
    assert WorkerOk(specs, s, s.c.idle[0]);
  }

  lemma {:induction false} SendKeepsWorker(specs: seq<WorkerSpec>, s: State, v: nat)
    requires Shaped(specs, s) && Offering(s.c) && CoordinatorReady(specs, s)
    requires v < |specs| && WorkerOk(specs, s, v) && WorkerOk(specs, s, s.c.idle[0])
    requires s.phase[s.c.idle[0]] != Gone
    ensures WorkerOk(specs, CoordinatorStep(specs, s, true), v)
  {
    var s', w := CoordinatorStep(specs, s, true), s.c.idle[0];
    assert s.c.idle == [w] + s'.c.idle;
    assert w in s.c.idle;
  }

  lemma {:induction false} SendKeeps(o: Oracle, specs: seq<WorkerSpec>, s: State)
    requires Protocol(o, specs, s) && Offering(s.c) && CoordinatorReady(specs, s)
    requires s.phase[s.c.idle[0]] != Gone
    ensures Protocol(o, specs, CoordinatorStep(specs, s, true))
    ensures LedgerOf(CoordinatorStep(specs, s, true)) == LedgerOf(s)
  {
    var s', w, item := CoordinatorStep(specs, s, true), s.c.idle[0], s.c.todo[0];
    SendNeverBlocks(o, specs, s);
    SendKeepsLedger(s.c.todo, s.held, w);
    assert NoDuplicates(s'.c.idle);
    forall v | 0 <= v < |specs| ensures WorkerOk(specs, s', v) {
      SendKeepsWorker(specs, s, v);
    }
    forall k | 0 <= k < |s'.mail| ensures MessageOk(o, specs, s', s'.mail[k]) {
      assert MessageOk(o, specs, s, s.mail[k]);
    }
  }

  lemma {:induction false} SendKeepsLedger(todo: seq<Path>, held: seq<Option<Path>>, w: nat)
    requires todo != [] && w < |held| && held[w].None?
    ensures multiset(todo[1..]) + multiset(Busy(held[w := Some(todo[0])])) == multiset(todo) + multiset(Busy(held))
    ensures |Busy(held[w := Some(todo[0])])| == |Busy(held)| + 1
  {
    BusySet(held, w, todo[0]);
    assert todo == [todo[0]] + todo[1..];
  }

  lemma {:induction false} RotateKeeps(o: Oracle, specs: seq<WorkerSpec>, s: State)
    requires Protocol(o, specs, s) && CoordinatorReady(specs, s)
    requires s.c.pc.Dispatching? && s.c.pc.left > 0 && !Offering(s.c) && s.c.active > 0
    ensures Protocol(o, specs, CoordinatorStep(specs, s, true))
  {
    var s', w := CoordinatorStep(specs, s, true), s.c.idle[0];
    forall v | 0 <= v < |specs| ensures WorkerOk(specs, s', v) {
      assert WorkerOk(specs, s, v);
      assert v in s'.c.idle <==> v in s.c.idle;
    }
    forall k | 0 <= k < |s'.mail| ensures MessageOk(o, specs, s', s'.mail[k]) {
      assert MessageOk(o, specs, s, s.mail[k]);
    }
  }

  /** After dispatching, either the run is over or some worker holds an item;
      "scheduler stalled" never happens. */
  lemma {:induction false} EndDispatchNeverStalls(o: Oracle, specs: seq<WorkerSpec>, s: State)
    requires Protocol(o, specs, s) && s.c.pc == Dispatching(0)
    ensures var r := EndDispatch(s.c, |specs|).outcome; r == Running || r == Completed
    ensures EndDispatch(s.c, |specs|).outcome == Running ==> s.c.active > 0
  {
    if s.c.todo != [] {
      assert s.c.idle == [];
      assert WorkerOk(specs, s, 0);
      BusyClear(s.held, 0, s.held[0].value);
      assert s.c.active > 0;
    }
  }

  lemma {:induction false} EndDispatchKeeps(o: Oracle, specs: seq<WorkerSpec>, s: State)
    requires Protocol(o, specs, s) && s.c.pc == Dispatching(0)
    ensures EndDispatch(s.c, |specs|).outcome == Running ==> Protocol(o, specs, CoordinatorStep(specs, s, true))
  {
    EndDispatchNeverStalls(o, specs, s);
    var s' := s.(c := EndDispatch(s.c, |specs|));
    forall v | 0 <= v < |specs| ensures WorkerOk(specs, s', v) {
      assert WorkerOk(specs, s, v);
    }
    forall k | 0 <= k < |s'.mail| ensures MessageOk(o, specs, s', s'.mail[k]) {
      assert MessageOk(o, specs, s, s.mail[k]);
    }
  }

  lemma {:induction false} MessagesAfterFirst(o: Oracle, specs: seq<WorkerSpec>, s: State, s': State)
    requires Protocol(o, specs, s) && s.mail != [] && !Parting(s.mail[0])
    requires s'.mail == s.mail[1..] && |s'.phase| == |s'.held| == |specs|
    requires s'.phase == s.phase && s'.cancel == s.cancel
    requires s'.held == if s.mail[0].Reply? then s.held[s.mail[0].worker := None] else s.held
    ensures forall k :: 0 <= k < |s'.mail| ==> MessageOk(o, specs, s', s'.mail[k])
    ensures forall w :: 0 <= w < |specs| && s'.phase[w] == Gone ==> HasParting(s'.mail)
  {
    var m := s.mail[0];
    assert MessageOk(o, specs, s, m);
    forall k | 0 <= k < |s'.mail| ensures MessageOk(o, specs, s', s'.mail[k]) {
      var n := s.mail[k + 1];
      assert MessageOk(o, specs, s, n);
      if n.Reply? && m.Reply? && n.worker == m.worker {
        assert WorkerOk(specs, s, m.worker);
        OnlyReply(s.mail, k + 1);
      }
    }
    forall w | 0 <= w < |specs| && s'.phase[w] == Gone ensures HasParting(s'.mail) {
      var k :| 0 <= k < |s.mail| && Parting(s.mail[k]);
      assert s'.mail[k - 1] == s.mail[k];
    }
  }

  lemma {:induction false} PresentReplyCounted(mail: seq<Message>, w: nat, k: nat)
    requires k < |mail| && IsReplyOf(mail[k], w)
    ensures Replies(mail, w) >= 1
  {
    if k > 0 {
      PresentReplyCounted(mail[1..], w, k - 1);
    }
  }

  lemma {:induction false} OnlyReply(mail: seq<Message>, k: nat)
    requires 0 < k < |mail| && mail[0].Reply? && Replies(mail, mail[0].worker) <= 1
    ensures !IsReplyOf(mail[k], mail[0].worker)
  {
    if IsReplyOf(mail[k], mail[0].worker) {
      PresentReplyCounted(mail[1..], mail[0].worker, k - 1);
    }
  }

  lemma {:induction false} AnnounceKeeps(o: Oracle, specs: seq<WorkerSpec>, s: State)
    requires Protocol(o, specs, s) && s.c.pc.Waiting? && s.mail != [] && s.mail[0].Ready?
    ensures Protocol(o, specs, CoordinatorStep(specs, s, true))
  {
    var s', w := CoordinatorStep(specs, s, true), s.mail[0].worker;
    assert MessageOk(o, specs, s, s.mail[0]);
    MessagesAfterFirst(o, specs, s, s');
    assert WorkerOk(specs, s, w);
    forall v | 0 <= v < |specs| ensures WorkerOk(specs, s', v) {
      assert WorkerOk(specs, s, v);
      assert v in s'.c.idle <==> v in s.c.idle || v == w;
    }
  }

  /** The event the coordinator accounts for when a reply arrives. */
  function EventOf(specs: seq<WorkerSpec>, m: Message): Event
    requires m.Reply? && m.worker < |specs|
  {
    ReplyEvent(specs[m.worker], m.item, m.event)
  }

  lemma {:induction false} ReplyKeepsWorker(specs: seq<WorkerSpec>, s: State, s': State, v: nat)
    requires |s.phase| == |s.work| == |s.held| == |specs| && v < |specs|
    requires s.mail != [] && s.mail[0].Reply? && s.mail[0].worker < |specs|
    requires s'.phase == s.phase && s'.work == s.work && s'.mail == s.mail[1..]
    requires s'.held == s.held[s.mail[0].worker := None] && s'.c.idle == s.c.idle + [s.mail[0].worker]
    requires WorkerOk(specs, s, v) && s.held[s.mail[0].worker].Some?
    ensures WorkerOk(specs, s', v)
  {
    assert v in s'.c.idle <==> v in s.c.idle || v == s.mail[0].worker;
  }

  lemma {:induction false} ReplyKeeps(o: Oracle, specs: seq<WorkerSpec>, s: State, sinkOk: bool)
    requires Protocol(o, specs, s) && CoordinatorReady(specs, s)
    requires s.c.pc.Waiting? && s.mail != [] && s.mail[0].Reply?
    ensures var s' := CoordinatorStep(specs, s, sinkOk); s'.c.outcome == Running ==> Protocol(o, specs, s')
  {
    var s', m := CoordinatorStep(specs, s, sinkOk), s.mail[0];
    assert MessageOk(o, specs, s, m);
    BusyClear(s.held, m.worker, m.item);
    assert WorkerOk(specs, s, m.worker);
    if s'.c.outcome == Running {
      assert s'.c.idle == s.c.idle + [m.worker] && s'.c.error.None? && s'.c.active == s.c.active - 1;
      ReplyKeepsRest(o, specs, s, s');
    }
  }

  lemma {:induction false} ReplyKeepsRest(o: Oracle, specs: seq<WorkerSpec>, s: State, s': State)
    requires Protocol(o, specs, s) && s.mail != [] && s.mail[0].Reply? && s.mail[0].worker < |specs|
    requires s'.phase == s.phase && s'.work == s.work && s'.mail == s.mail[1..] && s'.cancel == s.cancel
    requires s'.held == s.held[s.mail[0].worker := None] && s.held[s.mail[0].worker].Some?
    requires s'.c.idle == s.c.idle + [s.mail[0].worker] && s.mail[0].worker !in s.c.idle
    requires s'.c.pc.AtHead? && s'.c.error.None? && s'.c.outcome == Running && s'.c.active == |Busy(s'.held)|
    ensures Protocol(o, specs, s')
  {
    MessagesAfterFirst(o, specs, s, s');
    forall v | 0 <= v < |specs| ensures WorkerOk(specs, s', v) {
      assert WorkerOk(specs, s, v);
      ReplyKeepsWorker(specs, s, s', v);
    }
  }

  lemma {:induction false} CreditItem(
    todo: seq<Path>, held: seq<Option<Path>>, log: seq<Event>, w: nat, item: Path, e: Event)
    requires w < |held| && held[w] == Some(item)
    ensures item in LedgerFrom(todo, held, log).pending
    ensures LedgerFrom(todo + ChildPaths(item, e), held[w := None], log + [e])
         == Finish(LedgerFrom(todo, held, log), item, e)
  {
    BusyClear(held, w, item);
    var rest := multiset(Busy(held[w := None]));
    assert multiset(todo) + (rest + multiset{item}) - multiset{item} == multiset(todo) + rest;
  }

  /** A credited reply is one completion of the abstract worklist. */
  lemma {:induction false} ReplyRefines(o: Oracle, specs: seq<WorkerSpec>, s: State, sinkOk: bool)
    requires |s.phase| == |s.work| == |s.held| == |specs|
    requires CoordinatorReady(specs, s) && s.c.pc.Waiting? && s.mail != [] && s.mail[0].Reply?
    requires MessageOk(o, specs, s, s.mail[0])
    ensures var m, s' := s.mail[0], CoordinatorStep(specs, s, sinkOk);
      && m.item in LedgerOf(s).pending
      && (Verdict(specs[m.worker], specs, m.item, EventOf(specs, m)).emit ==>
            LedgerOf(s') == Finish(LedgerOf(s), m.item, EventOf(specs, m)))
  {
    var m := s.mail[0];
    CreditItem(s.c.todo, s.held, s.c.log, m.worker, m.item, EventOf(specs, m));
  }

  lemma {:induction false} ReplyGenuine(o: Oracle, specs: seq<WorkerSpec>, s: State, m: Message)
    requires |s.held| == |specs| && m.Reply? && MessageOk(o, specs, s, m)
    ensures Genuine(o, m.item, EventOf(specs, m))
    ensures m.event.Ok? ==> EventOf(specs, m) == o(m.item)
  {
  }
}
