/** The conversation of a worker task with its evaluator over queues: Setup, Ready,
    then Work, Event, Status repeated. */
module Exchange {
  import opened Types
  import opened Eval

  datatype Req = Setup | Work(path: Path) | Shutdown

  datatype Resp = Ready | Answer(event: Event) | Status(restart: bool) | Failure(error: string)

  /** A connection as its client sees it: requests on their way up, responses on
      their way down, and the peer at the far end. */
  datatype Link = Link(up: seq<Req>, down: seq<Resp>, peer: Peer)

  datatype Peer =
    // `worker::run`
    | AwaitSetup
    | Booting
    | AwaitWork
    | Computing(path: Path)
    | Answered
    // `serve_connection`, with its link to the process it spawned
    | AwaitHello
    | Spawning(inner: Link)
    | Serving(inner: Link)
    | Asking(path: Path, inner: Link)
    | Heard(event: Event, inner: Link)
    | Replying(event: Event, restart: bool, inner: Link)
    | ReplyingStatus(restart: bool, inner: Link)
    | Respawning(inner: Link)
    // either of them, finished or crashed
    | Gone

  const LOCAL := Link([Setup], [], AwaitSetup)
  const REMOTE := Link([Setup], [], AwaitHello)
  const FORKED := Link([], [], Booting)

  /** A response a peer still has to produce. */
  datatype Due = DueReady | DueAnswer(event: Event) | DueStatus

  function DueFor(o: Oracle, r: Req): seq<Due> {
    match r
    case Setup => [DueReady]
    case Work(p) => [DueAnswer(o(p)), DueStatus]
    case Shutdown => []
  }

  function DueForAll(o: Oracle, up: seq<Req>): seq<Due> {
    if up == [] then [] else DueFor(o, up[0]) + DueForAll(o, up[1..])
  }

  function PeerOwes(o: Oracle, peer: Peer): seq<Due> {
    match peer
    case Booting => [DueReady]
    case Computing(p) => [DueAnswer(o(p)), DueStatus]
    case Answered => [DueStatus]
    case Spawning(_) => [DueReady]
    case Asking(p, _) => [DueAnswer(o(p)), DueStatus]
    case Heard(e, _) => [DueAnswer(e), DueStatus]
    case Replying(e, _, _) => [DueAnswer(e), DueStatus]
    case ReplyingStatus(_, _) => [DueStatus]
    case _ => []
  }

  function Meaning(r: Resp): Due
    requires !r.Failure?
  {
    match r
    case Ready => DueReady
    case Answer(e) => DueAnswer(e)
    case Status(_) => DueStatus
  }

  /** The responses already in the channel, up to a report of failure. */
  function Delivered(down: seq<Resp>): seq<Due> {
    if down == [] || down[0].Failure? then [] else [Meaning(down[0])] + Delivered(down[1..])
  }

  predicate NoFailure(down: seq<Resp>) {
    forall k :: 0 <= k < |down| ==> !down[k].Failure?
  }

  /** The link will deliver exactly `due`, in order, or stop short: what is in the
      channel, what the peer owes and what queued requests will produce add up to
      it.  A relay's own link must be in step with what it is relaying. */
  ghost predicate Conforms(o: Oracle, l: Link, due: seq<Due>)
    decreases l
  {
    if l.peer.Gone? then Delivered(l.down) <= due
    else
      && NoFailure(l.down)
      && Delivered(l.down) + PeerOwes(o, l.peer) + DueForAll(o, l.up) == due
      && match l.peer
         case Spawning(inner) => Conforms(o, inner, [DueReady])
         case Serving(inner) => Conforms(o, inner, [])
         case Asking(p, inner) => Conforms(o, inner, [DueAnswer(o(p)), DueStatus])
         case Heard(_, inner) => Conforms(o, inner, [DueStatus])
         case Replying(_, restart, inner) => restart || Conforms(o, inner, [])
         case ReplyingStatus(restart, inner) => restart || Conforms(o, inner, [])
         case Respawning(inner) => Conforms(o, inner, [DueReady])
         case _ => true
  }

  // ---- What a peer can do --------------------------------------------------

  datatype PeerAction =
    | ReadRequest
    | FinishBoot
    | FinishWork
    | SendStatus(restart: bool)
    | Relayed
    | SendAnswer
    | ReportFailure(error: string)
    | Quit
    | Within(action: PeerAction)

  function Say(l: Link, r: Resp, peer: Peer): Link {
    Link(l.up, l.down + [r], peer)
  }

  function Pop(l: Link): Link
    requires l.down != []
  {
    l.(down := l.down[1..])
  }

  predicate Hears(l: Link, want: Resp -> bool) {
    l.down != [] && want(l.down[0])
  }

  predicate HasInner(peer: Peer) {
    || peer.Spawning? || peer.Serving? || peer.Asking? || peer.Heard? || peer.Replying? || peer.ReplyingStatus?
    || peer.Respawning?
  }

  predicate PeerCan(l: Link, a: PeerAction)
    decreases a
  {
    match a
    case ReadRequest => l.up != [] && (l.peer.AwaitSetup? || l.peer.AwaitWork? || l.peer.AwaitHello? || l.peer.Serving?)
    case FinishBoot => l.peer.Booting?
    case FinishWork => l.peer.Computing?
    case SendStatus(restart) => l.peer.Answered? || (l.peer.ReplyingStatus? && restart == l.peer.restart)
    case Relayed =>
      || ((l.peer.Spawning? || l.peer.Respawning?) && Hears(l.peer.inner, (r: Resp) => r.Ready?))
      || (l.peer.Asking? && Hears(l.peer.inner, (r: Resp) => r.Answer?))
      || (l.peer.Heard? && Hears(l.peer.inner, (r: Resp) => r.Status?))
    case SendAnswer => l.peer.Replying?
    case ReportFailure(_) => l.peer.AwaitHello? || l.peer.Asking? || l.peer.Heard?
    case Quit => true
    case Within(inner) => HasInner(l.peer) && PeerCan(l.peer.inner, inner)
  }

  /** Reading one request.  Anything unexpected ends the peer. */
  function AfterRequest(l: Link): Link
    requires l.up != []
  {
    var rest := l.(up := l.up[1..]);
    match (l.peer, l.up[0])
    case (AwaitSetup, Setup) => rest.(peer := Booting)
    case (AwaitHello, Setup) => rest.(peer := Spawning(LOCAL))
    case (AwaitWork, Work(p)) => rest.(peer := Computing(p))
    case (Serving(inner), Work(p)) => rest.(peer := Asking(p, inner.(up := inner.up + [Work(p)])))
    case _ => rest.(peer := Gone)
  }

  function PeerStep(o: Oracle, l: Link, a: PeerAction): Link
    requires PeerCan(l, a)
    decreases a
  {
    match a
    case ReadRequest => AfterRequest(l)
    case FinishBoot => Say(l, Ready, AwaitWork)
    case FinishWork => Say(l, Answer(o(l.peer.path)), Answered)
    case SendStatus(restart) =>
      Say(l, Status(restart),
          if l.peer.Answered? then (if restart then Gone else AwaitWork)
          else if restart then Respawning(LOCAL) else Serving(l.peer.inner))
    case Relayed =>
      (match l.peer
       case Spawning(inner) => Say(l, Ready, Serving(Pop(inner)))
       case Respawning(inner) => l.(peer := Serving(Pop(inner)))
       case Asking(_, inner) => l.(peer := Heard(inner.down[0].event, Pop(inner)))
       case Heard(e, inner) => l.(peer := Replying(e, inner.down[0].restart, Pop(inner))))
    case SendAnswer => Say(l, Answer(l.peer.event), ReplyingStatus(l.peer.restart, l.peer.inner))
    case ReportFailure(error) => Say(l, Failure(error), Gone)
    case Quit => l.(peer := Gone)
    case Within(inner) => l.(peer := l.peer.(inner := PeerStep(o, l.peer.inner, inner)))
  }

  lemma {:induction false} DeliveredAppend(down: seq<Resp>, r: Resp)
    requires NoFailure(down)
    ensures Delivered(down + [r]) == Delivered(down) + if r.Failure? then [] else [Meaning(r)]
  {
    if down == [] {
      assert down + [r] == [r];
    } else {
      assert (down + [r])[0] == down[0] && (down + [r])[1..] == down[1..] + [r];
      DeliveredAppend(down[1..], r);
    }
  }

  lemma {:induction false} DueForAllAppend(o: Oracle, up: seq<Req>, r: Req)
    ensures DueForAll(o, up + [r]) == DueForAll(o, up) + DueFor(o, r)
  {
    if up == [] {
      assert up + [r] == [r];
    } else {
      assert (up + [r])[0] == up[0] && (up + [r])[1..] == up[1..] + [r];
      DueForAllAppend(o, up[1..], r);
    }
  }

  /** The client sends a request: its replies are due after those already due. */
  lemma {:induction false} SendConforms(o: Oracle, l: Link, due: seq<Due>, r: Req)
    requires Conforms(o, l, due)
    ensures Conforms(o, l.(up := l.up + [r]), due + DueFor(o, r))
  {
    DueForAllAppend(o, l.up, r);
  }

  /** The client reads a response: it is the first one due. */
  lemma {:induction false} ReadConforms(o: Oracle, l: Link, due: seq<Due>)
    requires Conforms(o, l, due) && l.down != [] && !l.down[0].Failure?
    ensures due != [] && Meaning(l.down[0]) == due[0]
    ensures Conforms(o, Pop(l), due[1..])
  {
    var rest := Delivered(l.down[1..]);
    assert Delivered(l.down) == [Meaning(l.down[0])] + rest;
    if !l.peer.Gone? {
      assert due[1..] == rest + PeerOwes(o, l.peer) + DueForAll(o, l.up);
    }
  }

  lemma {:induction false} TakeConforms(o: Oracle, l: Link, due: seq<Due>, peer: Peer)
    requires Conforms(o, l, due) && l.up != [] && !l.peer.Gone? && PeerOwes(o, l.peer) == []
    ensures PeerOwes(o, peer) == DueFor(o, l.up[0]) ==>
      Delivered(l.down) + PeerOwes(o, peer) + DueForAll(o, l.up[1..]) == due
    ensures Delivered(l.down) <= due
  {
    var before := Delivered(l.down);
    assert before + [] + DueForAll(o, l.up) == before + DueFor(o, l.up[0]) + DueForAll(o, l.up[1..]);
  }

  lemma {:induction false} ReadRequestConforms(o: Oracle, l: Link, due: seq<Due>)
    requires Conforms(o, l, due) && PeerCan(l, ReadRequest)
    ensures Conforms(o, AfterRequest(l), due)
  {
    TakeConforms(o, l, due, AfterRequest(l).peer);
    if l.peer.Serving? && l.up[0].Work? {
      SendConforms(o, l.peer.inner, [], l.up[0]);
      assert [] + DueFor(o, l.up[0]) == DueFor(o, l.up[0]);
    } else if l.peer.AwaitHello? && l.up[0].Setup? {
      assert Delivered(LOCAL.down) + PeerOwes(o, AwaitSetup) + DueForAll(o, LOCAL.up) == [DueReady];
    }
  }

  lemma {:induction false} SayConforms(o: Oracle, l: Link, due: seq<Due>, r: Resp, peer: Peer)
    requires Conforms(o, l, due) && !l.peer.Gone? && !r.Failure?
    requires [Meaning(r)] + PeerOwes(o, peer) == PeerOwes(o, l.peer)
    ensures NoFailure(l.down + [r])
    ensures Delivered(l.down + [r]) + PeerOwes(o, peer) + DueForAll(o, l.up) == due
    ensures Delivered(l.down + [r]) <= due
  {
    DeliveredAppend(l.down, r);
    assert Delivered(l.down + [r]) + PeerOwes(o, peer) == Delivered(l.down) + PeerOwes(o, l.peer);
  }

  lemma {:induction false} RelayedConforms(o: Oracle, l: Link, due: seq<Due>)
    requires Conforms(o, l, due) && PeerCan(l, Relayed)
    ensures Conforms(o, PeerStep(o, l, Relayed), due)
  {
    match l.peer {
      case Spawning(inner) =>
        ReadConforms(o, inner, [DueReady]);
        SayConforms(o, l, due, Ready, Serving(Pop(inner)));
      case Respawning(inner) =>
        ReadConforms(o, inner, [DueReady]);
      case Asking(p, inner) =>
        ReadConforms(o, inner, [DueAnswer(o(p)), DueStatus]);
        assert [DueAnswer(o(p)), DueStatus][1..] == [DueStatus];
      case Heard(_, inner) =>
        ReadConforms(o, inner, [DueStatus]);
    }
  }

  /** Whatever a peer does, and whatever the process behind a relay does, the
      link keeps the promise it made to its client. */
  lemma {:induction false} PeerStepConforms(o: Oracle, l: Link, due: seq<Due>, a: PeerAction)
    requires Conforms(o, l, due) && PeerCan(l, a)
    ensures Conforms(o, PeerStep(o, l, a), due)
    decreases a
  {
    match a {
      case ReadRequest => ReadRequestConforms(o, l, due);
      case FinishBoot => SayConforms(o, l, due, Ready, AwaitWork);
      case FinishWork => SayConforms(o, l, due, Answer(o(l.peer.path)), Answered);
      case SendStatus(restart) => SayConforms(o, l, due, Status(restart), PeerStep(o, l, a).peer);
      case Relayed => RelayedConforms(o, l, due);
      case SendAnswer => SayConforms(o, l, due, Answer(l.peer.event), PeerStep(o, l, a).peer);
      case ReportFailure(error) =>
        DeliveredAppend(l.down, Failure(error));
      case Quit =>
      case Within(inner) =>
        var p := l.peer;
        if p.Spawning? || p.Respawning? {
          PeerStepConforms(o, p.inner, [DueReady], inner);
        } else if p.Asking? {
          PeerStepConforms(o, p.inner, [DueAnswer(o(p.path)), DueStatus], inner);
        } else if p.Heard? {
          PeerStepConforms(o, p.inner, [DueStatus], inner);
        } else if p.Serving? || !p.restart {
          PeerStepConforms(o, p.inner, [], inner);
        }
    }
  }

  // ---- The worker task's side ----------------------------------------------

  datatype Phase =
    | Connecting
    | Greeting
    | Idle(stale: bool)
    | AwaitAnswer(path: Path)
    | AwaitStatus(path: Path, event: Event)
    | Failed
    | Over

  datatype Report = Report(item: Path, event: Result<Event>)

  /** A worker task with every connection it ever opened: an abandoned peer goes
      on running and may still send its late reply.  `abandoned` and `taken` are
      history the program does not store. */
  datatype Task = Task(
    phase: Phase,
    links: seq<Link>,
    cancel: bool,
    taken: seq<Path>,
    reports: seq<Report>,
    abandoned: set<nat>)

  const FRESH_TASK := Task(Connecting, [], false, [], [], {})

  datatype TaskAction =
    | Connect(link: Link)
    | ConnectFails
    | ReadReady
    | TakeItem(path: Path)
    | ReadAnswer
    | ReadStatus(remote: bool)
    | GiveUp(error: string)
    | Decide
    | PeerActs(connection: nat, action: PeerAction)
    | Cancel

  function Current(t: Task): Link
    requires t.links != []
  {
    t.links[|t.links| - 1]
  }

  function WithCurrent(t: Task, l: Link): seq<Link>
    requires t.links != []
  {
    t.links[|t.links| - 1 := l]
  }

  predicate TaskCan(t: Task, a: TaskAction) {
    match a
    case Connect(l) => t.phase.Connecting? && (l == LOCAL || l == REMOTE || l == FORKED)
    case ConnectFails => t.phase.Connecting? || t.phase.Greeting?
    case ReadReady => t.phase.Greeting? && t.links != [] && Hears(Current(t), (r: Resp) => r.Ready?)
    case TakeItem(_) => t.phase.Idle? && t.links != []
    case ReadAnswer => t.phase.AwaitAnswer? && t.links != [] && Hears(Current(t), (r: Resp) => r.Answer?)
    case ReadStatus(_) => t.phase.AwaitStatus? && t.links != [] && Hears(Current(t), (r: Resp) => r.Status?)
    case GiveUp(_) => (t.phase.AwaitAnswer? || t.phase.AwaitStatus?) && t.links != []
    case Decide => t.phase.Failed?
    case PeerActs(i, action) => i < |t.links| && PeerCan(t.links[i], action)
    case Cancel => true
  }

  /** `GiveUp` is a timeout, a crash, a reported failure or an unexpected
      message.  After it the worker task reconnects, unless cancellation was requested;
      it takes no item once it has seen the cancel flag. */
  function TaskStep(o: Oracle, t: Task, a: TaskAction): Task
    requires TaskCan(t, a)
  {
    match a
    case Connect(l) => t.(phase := Greeting, links := t.links + [l])
    case ConnectFails => t.(phase := Over)
    case ReadReady => t.(phase := Idle(false), links := WithCurrent(t, Pop(Current(t))))
    case TakeItem(p) =>
      if t.cancel then t.(phase := Over)
      else
        var l := Current(t);
        t.(phase := AwaitAnswer(p), links := WithCurrent(t, l.(up := l.up + [Work(p)])), taken := t.taken + [p])
    case ReadAnswer =>
      t.(phase := AwaitStatus(t.phase.path, Current(t).down[0].event), links := WithCurrent(t, Pop(Current(t))))
    case ReadStatus(remote) =>
      var restart := Current(t).down[0].restart;
      t.(phase := if restart && !remote then Connecting else Idle(false),
         links := WithCurrent(t, Pop(Current(t))),
         reports := t.reports + [Report(t.phase.path, Ok(t.phase.event))])
    case GiveUp(error) =>
      t.(phase := Failed,
         reports := t.reports + [Report(t.phase.path, Err(error))],
         abandoned := t.abandoned + {|t.links| - 1})
    case Decide => t.(phase := if t.cancel then Idle(true) else Connecting)
    case PeerActs(i, action) => t.(links := t.links[i := PeerStep(o, t.links[i], action)])
    case Cancel => t.(cancel := true)
  }

  /** What the current connection still owes the worker task, phase by phase. */
  ghost predicate InStep(o: Oracle, t: Task) {
    match t.phase
    case Greeting => t.links != [] && Conforms(o, Current(t), [DueReady])
    case Idle(stale) => t.links != [] && (if stale then t.cancel else Conforms(o, Current(t), []))
    case AwaitAnswer(p) => t.links != [] && Conforms(o, Current(t), [DueAnswer(o(p)), DueStatus])
    case AwaitStatus(p, e) => t.links != [] && e == o(p) && Conforms(o, Current(t), [DueStatus])
    case Failed => t.links != []
    case _ => true
  }

  predicate Reading(phase: Phase) {
    phase.Greeting? || phase == Idle(false) || phase.AwaitAnswer? || phase.AwaitStatus?
  }

  /** Reports answer the items in the order they were taken, and an answer is the
      oracle's answer for that very item. */
  ghost predicate Matched(o: Oracle, t: Task) {
    && (forall k :: 0 <= k < |t.reports| && t.reports[k].event.Ok? ==>
          t.reports[k].event.value == o(t.reports[k].item))
    && |t.reports| <= |t.taken|
    && (forall k :: 0 <= k < |t.reports| ==> t.reports[k].item == t.taken[k])
    && (match t.phase
        case AwaitAnswer(p) => |t.taken| == |t.reports| + 1 && t.taken[|t.reports|] == p
        case AwaitStatus(p, _) => |t.taken| == |t.reports| + 1 && t.taken[|t.reports|] == p
        case _ => |t.taken| == |t.reports|)
  }

  ghost predicate TaskInv(o: Oracle, t: Task) {
    && InStep(o, t)
    && Matched(o, t)
    && (forall i :: i in t.abandoned ==> i < |t.links|)
    && (Reading(t.phase) ==> |t.links| - 1 !in t.abandoned)
  }

  lemma {:induction false} TakeItemKeeps(o: Oracle, t: Task, p: Path)
    requires TaskInv(o, t) && TaskCan(t, TakeItem(p))
    ensures TaskInv(o, TaskStep(o, t, TakeItem(p)))
  {
    if !t.cancel {
      SendConforms(o, Current(t), [], Work(p));
      assert [] + DueFor(o, Work(p)) == [DueAnswer(o(p)), DueStatus];
    }
  }

  lemma {:induction false} ReadAnswerKeeps(o: Oracle, t: Task)
    requires TaskInv(o, t) && TaskCan(t, ReadAnswer)
    ensures TaskInv(o, TaskStep(o, t, ReadAnswer))
  {
    var due := [DueAnswer(o(t.phase.path)), DueStatus];
    ReadConforms(o, Current(t), due);
    assert due[1..] == [DueStatus];
  }

  lemma {:induction false} ReadStatusKeeps(o: Oracle, t: Task, remote: bool)
    requires TaskInv(o, t) && TaskCan(t, ReadStatus(remote))
    ensures TaskInv(o, TaskStep(o, t, ReadStatus(remote)))
  {
    ReadConforms(o, Current(t), [DueStatus]);
    ReportMatched(o, t, TaskStep(o, t, ReadStatus(remote)));
  }

  lemma {:induction false} ReportMatched(o: Oracle, t: Task, t': Task)
    requires Matched(o, t) && (t.phase.AwaitAnswer? || t.phase.AwaitStatus?)
    requires t'.taken == t.taken && |t'.reports| == |t.reports| + 1 && t'.reports[..|t.reports|] == t.reports
    requires var r := t'.reports[|t.reports|]; r.item == t.phase.path && (r.event.Ok? ==> r.event.value == o(r.item))
    requires !t'.phase.AwaitAnswer? && !t'.phase.AwaitStatus?
    ensures Matched(o, t')
  {
    forall k | 0 <= k < |t.reports| ensures t'.reports[k] == t.reports[k] {
      assert t'.reports[..|t.reports|][k] == t'.reports[k];
    }
  }

  lemma {:induction false} ConnectKeeps(o: Oracle, t: Task, l: Link)
    requires TaskInv(o, t) && TaskCan(t, Connect(l))
    ensures TaskInv(o, TaskStep(o, t, Connect(l)))
  {
    FreshConforms(o, l);
  }

  lemma {:induction false} ReadReadyKeeps(o: Oracle, t: Task)
    requires TaskInv(o, t) && TaskCan(t, ReadReady)
    ensures TaskInv(o, TaskStep(o, t, ReadReady))
  {
    ReadConforms(o, Current(t), [DueReady]);
  }

  lemma {:induction false} QuietKeeps(o: Oracle, t: Task, a: TaskAction)
    requires TaskInv(o, t) && TaskCan(t, a)
    requires a.ConnectFails? || a.GiveUp? || a.Decide? || a.Cancel?
    ensures TaskInv(o, TaskStep(o, t, a))
  {
    if a.GiveUp? {
      ReportMatched(o, t, TaskStep(o, t, a));
    }
  }

  lemma {:induction false} TaskStepKeeps(o: Oracle, t: Task, a: TaskAction)
    requires TaskInv(o, t) && TaskCan(t, a)
    ensures TaskInv(o, TaskStep(o, t, a))
  {
    match a {
      case Connect(l) => ConnectKeeps(o, t, l);
      case ReadReady => ReadReadyKeeps(o, t);
      case TakeItem(p) => TakeItemKeeps(o, t, p);
      case ReadAnswer => ReadAnswerKeeps(o, t);
      case ReadStatus(remote) => ReadStatusKeeps(o, t, remote);
      case PeerActs(i, action) => PeerActsKeeps(o, t, i, action);
      case _ => QuietKeeps(o, t, a);
    }
  }

  lemma {:induction false} FreshConforms(o: Oracle, l: Link)
    requires l == LOCAL || l == REMOTE || l == FORKED
    ensures Conforms(o, l, [DueReady])
  {
    assert DueForAll(o, [Setup]) == [DueReady];
  }

  /** What a connection the task reads from owes it. */
  function DueIn(o: Oracle, phase: Phase): seq<Due>
    requires Reading(phase)
  {
    match phase
    case Greeting => [DueReady]
    case Idle(_) => []
    case AwaitAnswer(p) => [DueAnswer(o(p)), DueStatus]
    case AwaitStatus(_, _) => [DueStatus]
  }

  lemma {:induction false} PeerActsInStep(o: Oracle, t: Task, i: nat, action: PeerAction)
    requires InStep(o, t) && TaskCan(t, PeerActs(i, action))
    ensures InStep(o, TaskStep(o, t, PeerActs(i, action)))
  {
    if i == |t.links| - 1 && Reading(t.phase) {
      assert Conforms(o, t.links[i], DueIn(o, t.phase));
      PeerStepConforms(o, t.links[i], DueIn(o, t.phase), action);
    }
  }

  lemma {:induction false} PeerActsKeeps(o: Oracle, t: Task, i: nat, action: PeerAction)
    requires TaskInv(o, t) && TaskCan(t, PeerActs(i, action))
    ensures TaskInv(o, TaskStep(o, t, PeerActs(i, action)))
  {
    PeerActsInStep(o, t, i, action);
  }

  ghost predicate TaskLegal(o: Oracle, t: Task, actions: seq<TaskAction>)
    decreases |actions|
  {
    actions != [] ==> TaskCan(t, actions[0]) && TaskLegal(o, TaskStep(o, t, actions[0]), actions[1..])
  }

  ghost function TaskAfter(o: Oracle, t: Task, actions: seq<TaskAction>): Task
    requires TaskLegal(o, t, actions)
    decreases |actions|
  {
    if actions == [] then t else TaskAfter(o, TaskStep(o, t, actions[0]), actions[1..])
  }

  lemma {:induction false} TaskRunKeeps(o: Oracle, t: Task, actions: seq<TaskAction>)
    requires TaskInv(o, t) && TaskLegal(o, t, actions)
    ensures TaskInv(o, TaskAfter(o, t, actions))
    decreases |actions|
  {
    if actions != [] {
      TaskStepKeeps(o, t, actions[0]);
      TaskRunKeeps(o, TaskStep(o, t, actions[0]), actions[1..]);
    }
  }

  /** Over any run, with any timeouts, crashes, restarts, relays and reconnects,
      the event reported for an item was computed for that item; reports come in
      the order the items were taken; and no connection a reply was given up on
      is ever read again. */
  lemma {:induction false} RepliesMatchRequests(o: Oracle, actions: seq<TaskAction>)
    requires TaskLegal(o, FRESH_TASK, actions)
    ensures var t := TaskAfter(o, FRESH_TASK, actions);
      && (forall k :: 0 <= k < |t.reports| && t.reports[k].event.Ok? ==>
            t.reports[k].event.value == o(t.reports[k].item))
      && |t.reports| <= |t.taken| <= |t.reports| + 1
      && (forall k :: 0 <= k < |t.reports| ==> t.reports[k].item == t.taken[k])
      && (TaskCan(t, ReadAnswer) ==> |t.links| - 1 !in t.abandoned)
  {
    TaskRunKeeps(o, FRESH_TASK, actions);
  }

  // ---- A peer does answer --------------------------------------------------

  ghost predicate PeerReaches(o: Oracle, l: Link, m: Link, actions: seq<PeerAction>)
    decreases |actions|
  {
    if actions == [] then l == m
    else PeerCan(l, actions[0]) && PeerReaches(o, PeerStep(o, l, actions[0]), m, actions[1..])
  }

  lemma {:induction false} PeerFirst(o: Oracle, l: Link, m: Link, n: Link, a: PeerAction, rest: seq<PeerAction>)
    requires PeerCan(l, a) && PeerStep(o, l, a) == m && PeerReaches(o, m, n, rest)
    ensures PeerReaches(o, l, n, [a] + rest)
  {
    assert ([a] + rest)[1..] == rest;
  }

  const IDLE := Link([], [], AwaitWork)

  /** A local worker that is set up is ready; sent an item, it answers and gives its
      status, and it goes on exactly if it did not ask to be restarted. */
  lemma {:induction false} LocalServes(o: Oracle, p: Path, restart: bool)
    ensures PeerReaches(o, LOCAL, Link([], [Ready], AwaitWork), [ReadRequest] + ([FinishBoot] + []))
    ensures PeerReaches(
              o, IDLE.(up := [Work(p)]),
              Link([], [Answer(o(p)), Status(restart)], if restart then Gone else AwaitWork),
              [ReadRequest] + ([FinishWork] + ([SendStatus(restart)] + [])))
  {
    SmallLinks(o, p, Ready, p);
    var ready := Link([], [Ready], AwaitWork);
    PeerFirst(o, Link([], [], Booting), ready, ready, FinishBoot, []);
    PeerFirst(o, LOCAL, Link([], [], Booting), ready, ReadRequest, [FinishBoot] + []);
    var done := Link([], [Answer(o(p)), Status(restart)], if restart then Gone else AwaitWork);
    var answered := Link([], [Answer(o(p))], Answered);
    assert [] + [Answer(o(p))] == [Answer(o(p))];
    assert [Answer(o(p))] + [Status(restart)] == [Answer(o(p)), Status(restart)];
    PeerFirst(o, answered, done, done, SendStatus(restart), []);
    PeerFirst(o, Link([], [], Computing(p)), answered, done, FinishWork, [SendStatus(restart)] + []);
    PeerFirst(o, IDLE.(up := [Work(p)]), Link([], [], Computing(p)), done, ReadRequest,
              [FinishWork] + ([SendStatus(restart)] + []));
  }

  /** A remote server that is set up starts a process of its own, and is ready when that
      process is. */
  lemma {:induction false} RemoteStarts(o: Oracle)
    ensures PeerReaches(o, REMOTE, Link([], [Ready], Serving(IDLE)),
                        [ReadRequest] + ([Within(ReadRequest)] + ([Within(FinishBoot)] + ([Relayed] + []))))
  {
    SmallLinks(o, [], Ready, []);
    var ready := Link([], [Ready], Serving(IDLE));
    var spawned := Link([], [], Spawning(LOCAL));
    var booting := Link([], [], Spawning(Link([], [], Booting)));
    var booted := Link([], [], Spawning(Link([], [Ready], AwaitWork)));
    PeerFirst(o, booted, ready, ready, Relayed, []);
    PeerFirst(o, booting, booted, ready, Within(FinishBoot), [Relayed] + []);
    PeerFirst(o, spawned, booting, ready, Within(ReadRequest), [Within(FinishBoot)] + ([Relayed] + []));
    PeerFirst(o, REMOTE, spawned, ready, ReadRequest,
              [Within(ReadRequest)] + ([Within(FinishBoot)] + ([Relayed] + [])));
  }

  /** It passes an item on to that process as it is, and its answer and status back; a
      process that asked to be restarted is replaced, any other one kept. */
  lemma {:induction false} RemoteRelays(o: Oracle, p: Path, inner: Link, q: Link, event: Event, restart: bool)
    requires q.down == [Answer(event), Status(restart)]
    ensures var served := Link([Work(p)], [], Serving(inner));
      && PeerCan(served, ReadRequest)
      && PeerStep(o, served, ReadRequest) == Link([], [], Asking(p, inner.(up := inner.up + [Work(p)])))
    ensures PeerReaches(
              o, Link([], [], Asking(p, q)),
              Link([], [Answer(event), Status(restart)],
                   if restart then Respawning(LOCAL) else Serving(q.(down := []))),
              [Relayed] + ([Relayed] + ([SendAnswer] + ([SendStatus(restart)] + []))))
    ensures PeerReaches(o, Link([], [], Respawning(Link([], [Ready], AwaitWork))), Link([], [], Serving(IDLE)),
                        [Relayed] + [])
  {
    SmallLinks(o, p, Ready, p);
    var last := q.(down := [Status(restart)]);
    var rest := q.(down := []);
    assert [Answer(event), Status(restart)][1..] == [Status(restart)] && [Status(restart)][1..] == [];
    assert [] + [Answer(event)] == [Answer(event)];
    assert [Answer(event)] + [Status(restart)] == [Answer(event), Status(restart)];
    var done := Link([], [Answer(event), Status(restart)], if restart then Respawning(LOCAL) else Serving(rest));
    var status := Link([], [Answer(event)], ReplyingStatus(restart, rest));
    var replying := Link([], [], Replying(event, restart, rest));
    PeerFirst(o, status, done, done, SendStatus(restart), []);
    PeerFirst(o, replying, status, done, SendAnswer, [SendStatus(restart)] + []);
    PeerFirst(o, Link([], [], Heard(event, last)), replying, done, Relayed,
              [SendAnswer] + ([SendStatus(restart)] + []));
    PeerFirst(o, Link([], [], Asking(p, q)), Link([], [], Heard(event, last)), done, Relayed,
              [Relayed] + ([SendAnswer] + ([SendStatus(restart)] + [])));
    var again := Link([], [], Serving(IDLE));
    PeerFirst(o, Link([], [], Respawning(Link([], [Ready], AwaitWork))), again, again, Relayed, []);
  }

  /** What a task does with a status, and with having given up: the report takes the
      answer it read, only a local worker that asks for it is started anew, and a failed
      link is replaced unless the run is being cancelled. */
  lemma {:induction false} ReportsAndReconnects(o: Oracle, t: Task, a: TaskAction)
    requires TaskCan(t, a) && (a.ReadStatus? || a.GiveUp? || a.Decide?)
    ensures a.ReadStatus? ==>
              var u := TaskStep(o, t, a);
              && u.reports == t.reports + [Report(t.phase.path, Ok(t.phase.event))]
              && u.phase == if Current(t).down[0] == Status(true) && !a.remote then Connecting else Idle(false)
    ensures a.GiveUp? ==>
              var u := TaskStep(o, t, a);
              && u.reports == t.reports + [Report(t.phase.path, Err(a.error))]
              && u.phase == Failed && |t.links| - 1 in u.abandoned
    ensures a.Decide? ==>
              TaskStep(o, t, a).reports == t.reports
              && (TaskStep(o, t, a).phase == Connecting <==> !t.cancel)
  {
  }

  // ---- Why the connection has to be replaced -------------------------------

  /** The task as it would be if, having given up on an item, it went on with the
      connection it has. */
  function Keeping(t: Task): Task {
    t.(phase := Idle(false))
  }

  /** Everything but giving up and reconnecting. */
  predicate Serves(a: TaskAction) {
    a.PeerActs? || a.ReadAnswer? || a.ReadStatus? || a.Cancel?
  }

  /** The task waits for `q` on a link that still owes the reply for `p`, or has taken
      that reply for the one for `q`; its report on `q` is the `n`-th. */
  ghost predicate Misled(o: Oracle, t: Task, p: Path, q: Path, n: nat) {
    t.links != [] &&
    match t.phase
    case AwaitAnswer(item) =>
      && item == q && |t.reports| == n
      && Conforms(o, Current(t), [DueAnswer(o(p)), DueStatus] + DueFor(o, Work(q)))
    case AwaitStatus(item, event) =>
      && item == q && event == o(p) && |t.reports| == n
      && Conforms(o, Current(t), [DueStatus] + DueFor(o, Work(q)))
    case _ => |t.reports| > n && t.reports[n] == Report(q, Ok(o(p)))
  }

  lemma {:induction false} MisledStays(o: Oracle, t: Task, p: Path, q: Path, n: nat, a: TaskAction)
    requires Misled(o, t, p, q, n) && TaskCan(t, a) && Serves(a)
    ensures Misled(o, TaskStep(o, t, a), p, q, n)
  {
    var due := [DueAnswer(o(p)), DueStatus] + DueFor(o, Work(q));
    var rest := [DueStatus] + DueFor(o, Work(q));
    assert due[1..] == rest;
    match a {
      case ReadAnswer => ReadConforms(o, Current(t), due);
      case PeerActs(i, action) =>
        if i == |t.links| - 1 && t.phase.AwaitAnswer? {
          PeerStepConforms(o, t.links[i], due, action);
        } else if i == |t.links| - 1 && t.phase.AwaitStatus? {
          PeerStepConforms(o, t.links[i], rest, action);
        }
      case _ =>
    }
  }

  lemma {:induction false} MisledThroughout(o: Oracle, t: Task, p: Path, q: Path, n: nat, actions: seq<TaskAction>)
    requires Misled(o, t, p, q, n) && TaskLegal(o, t, actions)
    requires forall i :: 0 <= i < |actions| ==> Serves(actions[i])
    ensures Misled(o, TaskAfter(o, t, actions), p, q, n)
    decreases |actions|
  {
    if actions != [] {
      MisledStays(o, t, p, q, n, actions[0]);
      MisledThroughout(o, TaskStep(o, t, actions[0]), p, q, n, actions[1..]);
    }
  }

  /** In any run: a task that gave up waiting for the answer on `p` and went on with
      the same connection would report the answer for `p` as that for the next item
      `q`, whenever the connection let it report on `q` at all. */
  lemma {:induction false} StaleLinkAnswersOldItem(
    o: Oracle, actions: seq<TaskAction>, error: string, p: Path, q: Path, more: seq<TaskAction>)
    requires TaskLegal(o, FRESH_TASK, actions)
    requires var t := TaskAfter(o, FRESH_TASK, actions);
      t.phase == AwaitAnswer(p) && !t.cancel && TaskCan(t, GiveUp(error))
    requires forall i :: 0 <= i < |more| ==> Serves(more[i])
    requires var kept := Keeping(TaskStep(o, TaskAfter(o, FRESH_TASK, actions), GiveUp(error)));
      TaskLegal(o, kept, [TakeItem(q)] + more)
    ensures var kept := Keeping(TaskStep(o, TaskAfter(o, FRESH_TASK, actions), GiveUp(error)));
      var reports := TaskAfter(o, kept, [TakeItem(q)] + more).reports;
      |reports| > |kept.reports| ==> reports[|kept.reports|] == Report(q, Ok(o(p)))
  {
    TaskRunKeeps(o, FRESH_TASK, actions);
    var t := TaskAfter(o, FRESH_TASK, actions);
    var kept := Keeping(TaskStep(o, t, GiveUp(error)));
    SendConforms(o, Current(kept), [DueAnswer(o(p)), DueStatus], Work(q));
    assert ([TakeItem(q)] + more)[1..] == more;
    MisledThroughout(o, TaskStep(o, kept, TakeItem(q)), p, q, |kept.reports|, more);
  }

  ghost predicate TaskReaches(o: Oracle, t: Task, u: Task) {
    exists actions :: TaskLegal(o, t, actions) && TaskAfter(o, t, actions) == u
  }

  lemma {:induction false} TaskReachesFirst(o: Oracle, t: Task, a: TaskAction, u: Task, v: Task)
    requires TaskCan(t, a) && TaskStep(o, t, a) == u && TaskReaches(o, u, v)
    ensures TaskReaches(o, t, v)
  {
    var rest :| TaskLegal(o, u, rest) && TaskAfter(o, u, rest) == v;
    assert ([a] + rest)[1..] == rest;
    assert TaskLegal(o, t, [a] + rest) && TaskAfter(o, t, [a] + rest) == v;
  }

  lemma {:induction false} TaskReachesItself(o: Oracle, t: Task)
    ensures TaskReaches(o, t, t)
  {
    var none: seq<TaskAction> := [];
    assert TaskLegal(o, t, none) && TaskAfter(o, t, none) == t;
  }

  /** A worker task on its first connection. */
  function Single(phase: Phase, link: Link, taken: seq<Path>, reports: seq<Report>): Task {
    Task(phase, [link], false, taken, reports, if reports == [] then {} else {0})
  }

  lemma {:induction false} LinkMoves(
    o: Oracle, phase: Phase, l: Link, taken: seq<Path>, reports: seq<Report>, a: PeerAction, v: Task)
    requires PeerCan(l, a) && TaskReaches(o, Single(phase, PeerStep(o, l, a), taken, reports), v)
    ensures TaskReaches(o, Single(phase, l, taken, reports), v)
  {
    var t := Single(phase, l, taken, reports);
    assert t.links[0 := PeerStep(o, l, a)] == [PeerStep(o, l, a)];
    TaskReachesFirst(o, t, PeerActs(0, a), Single(phase, PeerStep(o, l, a), taken, reports), v);
  }

  lemma {:induction false} OwnMove(o: Oracle, t: Task, a: TaskAction, u: Task, v: Task)
    requires TaskCan(t, a) && TaskReaches(o, u, v) && |t.links| == |u.links| == 1
    requires u == TaskStep(o, t, a).(links := u.links) && TaskStep(o, t, a).links[0] == u.links[0]
    requires a.ReadReady? || a.TakeItem? || a.ReadAnswer? || a.ReadStatus?
    ensures TaskReaches(o, t, v)
  {
    assert TaskStep(o, t, a).links == u.links;
    TaskReachesFirst(o, t, a, u, v);
  }

  lemma {:induction false} SmallLinks(o: Oracle, p: Path, r: Resp, q: Path)
    ensures [Work(p)][1..] == [] && [Setup][1..] == [] && [r][1..] == []
    ensures [] + [r] == [r] && [] + [Work(p)] == [Work(p)] && [] + [p] == [p] && [p] + [q] == [p, q]
  {
  }

  lemma {:induction false} WaitsFor(o: Oracle, p: Path, v: Task)
    requires TaskReaches(o, Single(AwaitAnswer(p), Link([], [], Computing(p)), [p], []), v)
    ensures TaskReaches(o, FRESH_TASK, v)
  {
    SmallLinks(o, p, Ready, p);
    LinkMoves(o, AwaitAnswer(p), Link([Work(p)], [], AwaitWork), [p], [], ReadRequest, v);
    OwnMove(o, Single(Idle(false), Link([], [], AwaitWork), [], []), TakeItem(p),
            Single(AwaitAnswer(p), Link([Work(p)], [], AwaitWork), [p], []), v);
    OwnMove(o, Single(Greeting, Link([], [Ready], AwaitWork), [], []), ReadReady,
            Single(Idle(false), Link([], [], AwaitWork), [], []), v);
    LinkMoves(o, Greeting, Link([], [], Booting), [], [], FinishBoot, v);
    LinkMoves(o, Greeting, LOCAL, [], [], ReadRequest, v);
    TaskReachesFirst(o, FRESH_TASK, Connect(LOCAL), Single(Greeting, LOCAL, [], []), v);
  }

  /** And it would come to that: here a local worker, given up on while it computes
      `p`, makes the task report its late answer for `q`. */
  lemma {:induction false} StaleLinkMisattributes(o: Oracle, error: string, p: Path, q: Path)
    ensures exists t, u ::
      && TaskReaches(o, FRESH_TASK, t) && t.phase == AwaitAnswer(p) && !t.cancel
      && TaskCan(t, GiveUp(error)) && TaskReaches(o, Keeping(TaskStep(o, t, GiveUp(error))), u)
      && u.reports == [Report(p, Err(error)), Report(q, Ok(o(p)))]
  {
    var gone := [Report(p, Err(error))];
    var t := Single(AwaitAnswer(p), Link([], [], Computing(p)), [p], []);
    var k := Single(Idle(false), Link([], [], Computing(p)), [p], gone);
    var u := Single(Idle(false), Link([Work(q)], [], AwaitWork), [p, q], gone + [Report(q, Ok(o(p)))]);
    TaskReachesItself(o, t);
    WaitsFor(o, p, t);
    assert [] + gone == gone;
    assert Keeping(TaskStep(o, t, GiveUp(error))) == k;
    LateReply(o, p, q, gone);
  }

  lemma {:induction false} LateReply(o: Oracle, p: Path, q: Path, gone: seq<Report>)
    requires gone != []
    ensures TaskReaches(o, Single(Idle(false), Link([], [], Computing(p)), [p], gone),
                        Single(Idle(false), Link([Work(q)], [], AwaitWork), [p, q], gone + [Report(q, Ok(o(p)))]))
  {
    var u := Single(Idle(false), Link([Work(q)], [], AwaitWork), [p, q], gone + [Report(q, Ok(o(p)))]);
    SmallLinks(o, p, Status(false), q);
    SmallLinks(o, q, Answer(o(p)), q);
    TaskReachesItself(o, u);
    OwnMove(o, Single(AwaitStatus(q, o(p)), Link([Work(q)], [Status(false)], AwaitWork), [p, q], gone),
            ReadStatus(false), u, u);
    LinkMoves(o, AwaitStatus(q, o(p)), Link([Work(q)], [], Answered), [p, q], gone, SendStatus(false), u);
    OwnMove(o, Single(AwaitAnswer(q), Link([Work(q)], [Answer(o(p))], Answered), [p, q], gone), ReadAnswer,
            Single(AwaitStatus(q, o(p)), Link([Work(q)], [], Answered), [p, q], gone), u);
    LinkMoves(o, AwaitAnswer(q), Link([Work(q)], [], Computing(p)), [p, q], gone, FinishWork, u);
    OwnMove(o, Single(Idle(false), Link([], [], Computing(p)), [p], gone), TakeItem(q),
            Single(AwaitAnswer(q), Link([Work(q)], [], Computing(p)), [p, q], gone), u);
  }
}
