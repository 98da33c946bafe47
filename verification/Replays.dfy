/** The daemon's replay of completed evaluations, under any interleaving of eval,
    replay, diff, watch and query clients. */
module Replays {
  import opened Types
  import opened Graphs
  import opened Registry

  /** One response of an eval connection. */
  datatype Line = EventLine(event: Event) | ErrorLine(message: string)

  datatype Replay = Recording | Ready(lines: seq<Line>) | Invalidated

  /** `session` identifies the session object the entry points to. */
  datatype Cached = Cached(session: nat, replay: Replay)

  function Accepts(session: nat): Cached -> bool {
    (e: Cached) => e.session == session && !e.replay.Invalidated?
  }

  function Replaced(replay: Replay): Cached -> Cached {
    (e: Cached) => e.(replay := replay)
  }

  function Settle(c: Cache<Cached>, key: string, session: nat, replay: Replay): Cache<Cached> {
    Amended(c, key, Accepts(session), Replaced(replay))
  }

  class DaemonState {
    const registry: SessionRegistry<Cached>
    var sessionsOpened: nat

    constructor (max: nat)
      ensures fresh(registry) && registry.max == max && registry.View() == Cache([], map[]) && sessionsOpened == 0
    {
      registry := new SessionRegistry<Cached>(max);
      sessionsOpened := 0;
    }

    method ReplaceSession(key: string) returns (session: nat)
      modifies this, registry
      ensures session == old(sessionsOpened) && sessionsOpened == old(sessionsOpened) + 1
      ensures registry.View() == Insert(old(registry.View()), key, Cached(session, Recording), registry.max)
    {
      session := sessionsOpened;
      sessionsOpened := sessionsOpened + 1;
      registry.InsertEntry(key, Cached(session, Recording));
    }

    method WarmSession(key: string) returns (session: Option<nat>)
      modifies registry
      ensures registry.View() == Touch(old(registry.View()), key)
      ensures session.Some? <==> key in registry.sessions
      ensures session.Some? ==> session.value == registry.sessions[key].session
    {
      var cached := registry.Get(key);
      session := if cached.Some? then Some(cached.value.session) else None;
    }

    method Replay(key: string) returns (lines: Result<seq<Line>>)
      modifies registry
      ensures registry.View() == Touch(old(registry.View()), key)
      ensures lines.Ok? <==> key in registry.sessions && registry.sessions[key].replay.Ready?
      ensures lines.Ok? ==> registry.sessions[key].replay == Ready(lines.value)
      ensures key !in registry.sessions ==> lines == Err("no replayable session for requested daemon config")
      ensures key in registry.sessions && registry.sessions[key].replay.Recording? ==>
                lines == Err("matching evaluation has not completed")
      ensures key in registry.sessions && registry.sessions[key].replay.Invalidated? ==>
                lines == Err("session has no replayable completed evaluation")
    {
      var cached := registry.Get(key);
      if cached.None? {
        return Err("no replayable session for requested daemon config");
      }
      match cached.value.replay {
        case Recording => lines := Err("matching evaluation has not completed");
        case Ready(recorded) => lines := Ok(recorded);
        case Invalidated => lines := Err("session has no replayable completed evaluation");
      }
    }

    method SettleReplay(key: string, session: nat, replay: Replay)
      modifies registry
      ensures registry.View() == Settle(old(registry.View()), key, session, replay)
      ensures key in old(registry.sessions) ==>
                && registry.order == Remove(old(registry.order), key) + [key]
                && var e := old(registry.sessions)[key];
                   registry.sessions[key] ==
                   if e.session == session && !e.replay.Invalidated? then Cached(session, replay) else e
    {
      registry.Amend(key, Accepts(session), Replaced(replay));
    }
  }

  /** What an eval connection sends and what it keeps for replay: events become
      lines, and one failure gives up recording for good. */
  method StreamEvents(items: seq<Result<Event>>) returns (written: seq<Line>, recorded: Option<seq<Line>>)
    ensures |written| == |items|
    ensures forall i :: 0 <= i < |items| ==>
              written[i] == match items[i] case Ok(event) => EventLine(event) case Err(error) => ErrorLine(error)
    ensures recorded == if forall i :: 0 <= i < |items| ==> items[i].Ok? then Some(written) else None
  {
    written, recorded := [], Some([]);
    for i := 0 to |items|
      invariant |written| == i
      invariant forall j :: 0 <= j < i ==>
                  written[j] == match items[j] case Ok(event) => EventLine(event) case Err(error) => ErrorLine(error)
      invariant recorded == if forall j :: 0 <= j < i ==> items[j].Ok? then Some(written) else None
    {
      var line;
      match items[i] {
        case Ok(event) => line := EventLine(event);
        case Err(error) =>
          recorded := None;
          line := ErrorLine(error);
      }
      written := written + [line];
      if recorded.Some? {
        recorded := Some(recorded.value + [line]);
      }
    }
  }

  // ---- Clients -------------------------------------------------------------

  /** How the initial evaluation behind an eval connection stands. */
  datatype Evaluation = Running | Clean | Broken(error: string)

  datatype EvalPc = Streaming | Finished | Closed

  datatype DiffPc = Evaluating | Updated(graph: Graph) | Settled(graph: Graph) | Abandoned

  /** A connection being served.  The evaluation behind an eval has `produced` events,
      of which the connection has `written` some, keeping them in `recorded`.  A
      session is named by the position of the client that opened it. */
  datatype Client =
    | Eval(key: string, produced: seq<Event>, evaluation: Evaluation,
           written: seq<Line>, recorded: Option<seq<Line>>, pc: EvalPc)
    | Watch(key: string, settled: bool)
    | Diff(key: string, session: nat, diffPc: DiffPc)

  /** `graphs` holds the warm graph of every session that has completed.  `publisher`
      is history: the client that last put a session's graph in place. */
  datatype Daemon = Daemon(
    cache: Cache<Cached>,
    clients: seq<Client>,
    graphs: map<nat, Graph>,
    publisher: map<nat, nat>)

  const START := Daemon(Cache([], map[]), [], map[], map[])

  datatype Action =
    | StartEval(key: string)
    | Produce(client: nat, event: Event)
    | CompleteEvaluation(client: nat)
    | FailEvaluation(client: nat, error: string)
    | StreamNext(client: nat)
    | FinishStream(client: nat)
    | SettleEval(client: nat)
    | HangUp(client: nat)
    | StartWatch(key: string)
    | SettleWatch(client: nat)
    | WatchPublishes(client: nat, graph: Graph)
    | StartDiff(key: string)
    | UpdateGraph(client: nat, graph: Graph)
    | SettleDiff(client: nat)
    | Lookup(key: string)

  /** The number of items the evaluation has sent: its events, then its error. */
  function Sent(c: Client): nat
    requires c.Eval?
  {
    |c.produced| + if c.evaluation.Broken? then 1 else 0
  }

  function ItemAt(c: Client, k: nat): Line
    requires c.Eval? && k < Sent(c)
  {
    if k < |c.produced| then EventLine(c.produced[k]) else ErrorLine(c.evaluation.error)
  }

  predicate IsEval(d: Daemon, i: nat) {
    i < |d.clients| && d.clients[i].Eval?
  }

  predicate IsDiffing(d: Daemon, i: nat) {
    i < |d.clients| && d.clients[i].Diff?
  }

  /** A diff whose session has not completed is turned away, like one that fails. */
  predicate Can(d: Daemon, a: Action) {
    match a
    case StartEval(_) => true
    case Produce(i, _) => IsEval(d, i) && d.clients[i].evaluation.Running?
    case CompleteEvaluation(i) => IsEval(d, i) && d.clients[i].evaluation.Running?
    case FailEvaluation(i, _) => IsEval(d, i) && d.clients[i].evaluation.Running?
    case StreamNext(i) =>
      IsEval(d, i) && d.clients[i].pc.Streaming? && |d.clients[i].written| < Sent(d.clients[i])
    case FinishStream(i) =>
      && IsEval(d, i) && d.clients[i].pc.Streaming? && !d.clients[i].evaluation.Running?
      && |d.clients[i].written| == Sent(d.clients[i])
    case SettleEval(i) => IsEval(d, i) && d.clients[i].pc.Finished?
    case HangUp(i) => IsEval(d, i) || (IsDiffing(d, i) && d.clients[i].diffPc.Evaluating?)
    case StartWatch(_) => true
    case SettleWatch(i) => i < |d.clients| && d.clients[i].Watch?
    case WatchPublishes(i, _) => i < |d.clients| && d.clients[i].Watch? && d.clients[i].settled
    case StartDiff(_) => true
    case UpdateGraph(i, _) => IsDiffing(d, i) && d.clients[i].diffPc.Evaluating? && d.clients[i].session in d.graphs
    case SettleDiff(i) => IsDiffing(d, i) && d.clients[i].diffPc.Updated?
    case Lookup(_) => true
  }

  function WithClient(d: Daemon, i: nat, c: Client): Daemon
    requires i < |d.clients|
  {
    d.(clients := d.clients[i := c])
  }

  function Publishing(d: Daemon, session: nat, graph: Graph, source: nat): Daemon {
    d.(graphs := d.graphs[session := graph], publisher := d.publisher[session := source])
  }

  function Settling(d: Daemon, key: string, session: nat, replay: Replay): Daemon {
    d.(cache := Settle(d.cache, key, session, replay))
  }

  function Opening(d: Daemon, key: string, c: Client, max: nat): Daemon {
    d.(cache := Insert(d.cache, key, Cached(|d.clients|, Recording), max), clients := d.clients + [c])
  }

  function Streamed(c: Client): Client
    requires c.Eval? && |c.written| < Sent(c)
  {
    var line := ItemAt(c, |c.written|);
    c.(written := c.written + [line],
       recorded := if line.ErrorLine? || c.recorded.None? then None else Some(c.recorded.value + [line]))
  }

  function Step(d: Daemon, a: Action, max: nat): Daemon
    requires Can(d, a)
  {
    match a
    case StartEval(key) => Opening(d, key, Eval(key, [], Running, [], Some([]), Streaming), max)
    case Produce(i, e) => WithClient(d, i, d.clients[i].(produced := d.clients[i].produced + [e]))
    case CompleteEvaluation(i) =>
      Publishing(WithClient(d, i, d.clients[i].(evaluation := Clean)), i, Recorded(d.clients[i].produced), i)
    case FailEvaluation(i, error) => WithClient(d, i, d.clients[i].(evaluation := Broken(error)))
    case StreamNext(i) => WithClient(d, i, Streamed(d.clients[i]))
    case FinishStream(i) => WithClient(d, i, d.clients[i].(pc := Finished))
    case SettleEval(i) =>
      var c := d.clients[i];
      Settling(WithClient(d, i, c.(pc := Closed)), c.key, i,
               if c.recorded.Some? then Ready(c.recorded.value) else Invalidated)
    case HangUp(i) =>
      var c := d.clients[i];
      WithClient(d, i, if c.Eval? then c.(pc := Closed) else c.(diffPc := Abandoned))
    case StartWatch(key) => Opening(d, key, Watch(key, false), max)
    case SettleWatch(i) =>
      Settling(WithClient(d, i, d.clients[i].(settled := true)), d.clients[i].key, i, Invalidated)
    case WatchPublishes(i, graph) => Publishing(d, i, graph, i)
    case StartDiff(key) =>
      if key in d.cache.sessions then
        d.(cache := Touch(d.cache, key),
           clients := d.clients + [Client.Diff(key, d.cache.sessions[key].session, Evaluating)])
      else d
    case UpdateGraph(i, graph) =>
      Publishing(WithClient(d, i, d.clients[i].(diffPc := Updated(graph))), d.clients[i].session, graph, i)
    case SettleDiff(i) =>
      var c := d.clients[i];
      Settling(WithClient(d, i, c.(diffPc := Settled(c.diffPc.graph))), c.key, c.session, Invalidated)
    case Lookup(key) => d.(cache := Touch(d.cache, key))
  }

  // ---- What every step keeps -----------------------------------------------

  /** A diff or a watch has settled on session `s`. */
  ghost predicate Spoiled(clients: seq<Client>, s: nat) {
    || (s < |clients| && clients[s].Watch? && clients[s].settled)
    || (exists i :: 0 <= i < |clients| && SettledOn(clients[i], s))
  }

  predicate SettledOn(c: Client, s: nat) {
    c.Diff? && c.session == s && c.diffPc.Settled?
  }

  function EventLines(events: seq<Event>): seq<Line> {
    seq(|events|, i requires 0 <= i < |events| => EventLine(events[i]))
  }

  /** An eval that streamed a clean evaluation to its end. */
  ghost predicate Finishes(c: Client, lines: seq<Line>) {
    c.Eval? && c.pc.Closed? && c.evaluation.Clean? && c.written == lines && lines == EventLines(c.produced)
  }

  /** What a cached entry vouches for. */
  ghost predicate EntryOk(clients: seq<Client>, key: string, e: Cached) {
    && e.session < |clients| && !clients[e.session].Diff? && clients[e.session].key == key
    && (Spoiled(clients, e.session) ==> e.replay.Invalidated?)
    && (e.replay.Ready? ==> Finishes(clients[e.session], e.replay.lines))
  }

  ghost predicate ClientOk(clients: seq<Client>, c: Client) {
    match c
    case Eval(_, produced, evaluation, written, recorded, pc) =>
      && |written| <= Sent(c)
      && (forall k :: 0 <= k < |written| ==> written[k] == ItemAt(c, k))
      && recorded == (if |written| > |produced| then None else Some(written))
      && (pc.Finished? ==> !evaluation.Running? && |written| == Sent(c))
    case Watch(_, _) => true
    case Diff(key, s, _) => s < |clients| && !clients[s].Diff? && clients[s].key == key
  }

  predicate Put(c: Client, s: nat, graph: Graph) {
    c.Diff? && c.session == s && (c.diffPc == Updated(graph) || c.diffPc == Settled(graph))
  }

  /** A session's graph is the one its own evaluation recorded, or the one of the diff
      that published last. */
  ghost predicate GraphOk(d: Daemon, s: nat)
    requires s in d.graphs
  {
    && s in d.publisher && s < |d.clients| && d.publisher[s] < |d.clients|
    && if d.publisher[s] == s then
         d.clients[s].Eval? ==> d.clients[s].evaluation.Clean? && d.graphs[s] == Recorded(d.clients[s].produced)
       else Put(d.clients[d.publisher[s]], s, d.graphs[s])
  }

  ghost predicate Inv(d: Daemon) {
    && (forall k :: k in d.cache.sessions ==> EntryOk(d.clients, k, d.cache.sessions[k]))
    && (forall i :: 0 <= i < |d.clients| ==> ClientOk(d.clients, d.clients[i]))
    && (forall s :: s in d.graphs ==> GraphOk(d, s))
    && (forall i :: 0 <= i < |d.clients| && d.clients[i].Eval? && d.clients[i].evaluation.Clean? ==> i in d.graphs)
  }

  lemma {:induction false} EvictSubmap<T>(c: Cache<T>, max: nat)
    ensures Submap(Evict(c, max).sessions, c.sessions)
    decreases |c.order|
  {
    if |c.sessions| >= max && c.order != [] {
      EvictSubmap(Cache(c.order[1..], c.sessions - {c.order[0]}), max);
    }
  }

  /** A client further along. */
  ghost predicate Later(b: Client, c: Client) {
    && c.key == b.key && (b.Eval? <==> c.Eval?) && (b.Watch? <==> c.Watch?)
    && (b.Diff? ==> c.session == b.session)
    && (b.Diff? && b.diffPc.Updated? ==> c.diffPc == b.diffPc || c.diffPc == Settled(b.diffPc.graph))
    && (b.Diff? && b.diffPc.Settled? ==> c == b)
    && (b.Eval? && b.evaluation.Clean? ==> c.evaluation.Clean? && c.produced == b.produced)
    && (b.Eval? && b.evaluation.Clean? && b.pc.Closed? ==> c == b)
  }

  ghost predicate Extends(before: seq<Client>, after: seq<Client>) {
    |before| <= |after| && forall i :: 0 <= i < |before| ==> Later(before[i], after[i])
  }

  lemma {:induction false} EntryStays(before: seq<Client>, after: seq<Client>, key: string, e: Cached)
    requires Extends(before, after) && EntryOk(before, key, e)
    requires Spoiled(after, e.session) ==> Spoiled(before, e.session) || e.replay.Invalidated?
    ensures EntryOk(after, key, e)
  {
    assert Later(before[e.session], after[e.session]);
  }

  lemma {:induction false} ClientStays(before: seq<Client>, after: seq<Client>, i: nat)
    requires Extends(before, after) && i < |before| && ClientOk(before, before[i]) && after[i] == before[i]
    ensures ClientOk(after, after[i])
  {
    if before[i].Diff? {
      assert Later(before[before[i].session], after[before[i].session]);
    }
  }

  /** `i` is at most one client further along or one more. */
  ghost predicate OneMoved(before: seq<Client>, after: seq<Client>, i: nat) {
    && i <= |before| && |after| == (if i < |before| then |before| else |before| + 1)
    && forall j :: 0 <= j < |before| && j != i ==> after[j] == before[j]
  }

  lemma {:induction false} ClientsStay(before: seq<Client>, after: seq<Client>, i: nat)
    requires Extends(before, after) && OneMoved(before, after, i)
    requires forall j :: 0 <= j < |before| ==> ClientOk(before, before[j])
    requires i < |after| ==> ClientOk(after, after[i])
    ensures forall j :: 0 <= j < |after| ==> ClientOk(after, after[j])
  {
    forall j | 0 <= j < |after| ensures ClientOk(after, after[j]) {
      if j != i {
        ClientStays(before, after, j);
      }
    }
  }

  /** Only the client that moved can have spoiled a session. */
  lemma {:induction false} SpoiledBy(before: seq<Client>, after: seq<Client>, i: nat, s: nat)
    requires OneMoved(before, after, i) && i < |after| && Spoiled(after, s) && !Spoiled(before, s)
    ensures SettledOn(after[i], s) || (i == s && after[i].Watch? && after[i].settled)
  {
    forall j | 0 <= j < |before| && j != i ensures !SettledOn(after[j], s) {
      assert !SettledOn(before[j], s);
    }
  }

  /** A move that settles nothing leaves every entry good. */
  lemma {:induction false} EntriesStay(d: Daemon, after: seq<Client>, i: nat)
    requires Inv(d) && Extends(d.clients, after) && OneMoved(d.clients, after, i) && i < |after|
    requires after[i].Watch? && after[i].settled ==> i < |d.clients| && d.clients[i] == after[i]
    requires after[i].Diff? && after[i].diffPc.Settled? ==> i < |d.clients| && d.clients[i] == after[i]
    ensures forall k :: k in d.cache.sessions ==> EntryOk(after, k, d.cache.sessions[k])
  {
    forall k | k in d.cache.sessions ensures EntryOk(after, k, d.cache.sessions[k]) {
      var s := d.cache.sessions[k].session;
      if Spoiled(after, s) && !Spoiled(d.clients, s) {
        SpoiledBy(d.clients, after, i, s);
      }
      EntryStays(d.clients, after, k, d.cache.sessions[k]);
    }
  }

  lemma {:induction false} GraphStays(d: Daemon, t: Daemon, s: nat)
    requires s in d.graphs && GraphOk(d, s) && Extends(d.clients, t.clients)
    requires s in t.graphs && t.graphs[s] == d.graphs[s] && s in t.publisher && t.publisher[s] == d.publisher[s]
    ensures GraphOk(t, s)
  {
    assert Later(d.clients[s], t.clients[s]);
    assert Later(d.clients[d.publisher[s]], t.clients[d.publisher[s]]);
  }

  /** A move that publishes nothing leaves every graph accounted for. */
  lemma {:induction false} GraphsStay(d: Daemon, t: Daemon)
    requires Inv(d) && Extends(d.clients, t.clients) && t.graphs == d.graphs && t.publisher == d.publisher
    ensures forall s :: s in t.graphs ==> GraphOk(t, s)
  {
    forall s | s in t.graphs ensures GraphOk(t, s) {
      GraphStays(d, t, s);
    }
  }

  lemma {:induction false} OpenKeeps(d: Daemon, a: Action, max: nat)
    requires Inv(d) && (a.StartEval? || a.StartWatch?)
    ensures Inv(Step(d, a, max))
  {
    var t := Step(d, a, max);
    var n := |d.clients|;
    EvictSubmap(d.cache.(order := Remove(d.cache.order, a.key)), max);
    ClientsStay(d.clients, t.clients, n);
    EntriesStay(d, t.clients, n);
    GraphsStay(d, t);
    forall i | 0 <= i < n && d.clients[i].Diff? ensures d.clients[i].session < n {
      assert ClientOk(d.clients, d.clients[i]);
    }
    assert !Spoiled(t.clients, n);
    forall k | k in t.cache.sessions ensures EntryOk(t.clients, k, t.cache.sessions[k]) {
      if k != a.key {
        assert EntryOk(t.clients, k, d.cache.sessions[k]);
      }
    }
  }

  lemma {:induction false} StartDiffKeeps(d: Daemon, key: string, max: nat)
    requires Inv(d) && key in d.cache.sessions
    ensures Inv(Step(d, StartDiff(key), max))
  {
    var t := Step(d, StartDiff(key), max);
    assert EntryOk(d.clients, key, d.cache.sessions[key]);
    ClientsStay(d.clients, t.clients, |d.clients|);
    EntriesStay(d, t.clients, |d.clients|);
    GraphsStay(d, t);
  }

  /** A client moves without settling or publishing anything. */
  lemma {:induction false} MoveKeeps(d: Daemon, i: nat, c: Client)
    requires Inv(d) && i < |d.clients| && Later(d.clients[i], c) && ClientOk(WithClient(d, i, c).clients, c)
    requires c.Eval? && c.evaluation.Clean? ==> d.clients[i].evaluation.Clean?
    requires c.Watch? ==> c == d.clients[i]
    requires c.Diff? && c.diffPc.Settled? ==> c == d.clients[i]
    ensures Inv(WithClient(d, i, c))
  {
    var t := WithClient(d, i, c);
    ClientsStay(d.clients, t.clients, i);
    EntriesStay(d, t.clients, i);
    GraphsStay(d, t);
  }

  /** A client moves and puts a graph in place, its own or the one of a diff. */
  lemma {:induction false} PublishKeeps(d: Daemon, i: nat, c: Client, s: nat, graph: Graph)
    requires Inv(d) && i < |d.clients| && s < |d.clients| && Later(d.clients[i], c)
    requires ClientOk(WithClient(d, i, c).clients, c)
    requires c.Watch? ==> c == d.clients[i] && i == s
    requires c.Eval? ==> i == s && c.evaluation.Clean? && graph == Recorded(c.produced)
    requires c.Diff? ==> i != s && c.session == s && c.diffPc == Updated(graph)
    ensures Inv(Publishing(WithClient(d, i, c), s, graph, i))
  {
    var t := Publishing(WithClient(d, i, c), s, graph, i);
    ClientsStay(d.clients, t.clients, i);
    EntriesStay(d, t.clients, i);
    forall r | r in t.graphs ensures GraphOk(t, r) {
      if r != s {
        GraphStays(d, t, r);
      }
    }
  }

  /** Client `c` may settle `replay` for `session`. */
  ghost predicate MaySettle(i: nat, c: Client, session: nat, replay: Replay) {
    && !replay.Recording?
    && (c.Eval? ==> session == i && (replay.Ready? ==> Finishes(c, replay.lines)))
    && (c.Watch? ==> session == i && replay.Invalidated?)
    && (c.Diff? ==> session == c.session && replay.Invalidated?)
  }

  lemma {:induction false} SettleKeeps(d: Daemon, i: nat, c: Client, session: nat, replay: Replay)
    requires Inv(d) && i < |d.clients| && session < |d.clients| && Later(d.clients[i], c)
    requires ClientOk(WithClient(d, i, c).clients, c) && c.key == d.clients[session].key
    requires c.Eval? && c.evaluation.Clean? ==> d.clients[i].evaluation.Clean?
    requires MaySettle(i, c, session, replay)
    ensures Inv(Settling(WithClient(d, i, c), c.key, session, replay))
  {
    var t := Settling(WithClient(d, i, c), c.key, session, replay);
    ClientsStay(d.clients, t.clients, i);
    GraphsStay(d, t);
    forall k | k in t.cache.sessions ensures EntryOk(t.clients, k, t.cache.sessions[k]) {
      SettledEntry(d.clients, i, c, session, replay, k, d.cache.sessions[k], t.cache.sessions[k]);
    }
  }

  lemma {:induction false} SettledEntry(
    before: seq<Client>, i: nat, c: Client, session: nat, replay: Replay, k: string, e: Cached, f: Cached)
    requires i < |before| && session < |before| && Later(before[i], c) && c.key == before[session].key
    requires MaySettle(i, c, session, replay) && EntryOk(before, k, e)
    requires f == if k == c.key && e.session == session && !e.replay.Invalidated? then e.(replay := replay) else e
    ensures EntryOk(before[i := c], k, f)
  {
    var after := before[i := c];
    var s := e.session;
    assert Later(before[s], after[s]);
    if Spoiled(after, s) && !Spoiled(before, s) {
      SpoiledBy(before, after, i, s);
    }
  }

  lemma {:induction false} SettleEvalKeeps(d: Daemon, i: nat, max: nat)
    requires Inv(d) && Can(d, SettleEval(i))
    ensures Inv(Step(d, SettleEval(i), max))
  {
    var c := d.clients[i];
    assert ClientOk(d.clients, c);
    if c.recorded.Some? {
      assert c.written == EventLines(c.produced);
    }
    SettleKeeps(d, i, c.(pc := Closed), i, if c.recorded.Some? then Ready(c.recorded.value) else Invalidated);
  }

  lemma {:induction false} EvaluationKeeps(d: Daemon, a: Action, max: nat)
    requires Inv(d) && Can(d, a) && (a.Produce? || a.CompleteEvaluation? || a.FailEvaluation? || a.StreamNext?)
    ensures Inv(Step(d, a, max))
  {
    var i := a.client;
    var c := Step(d, a, max).clients[i];
    assert ClientOk(d.clients, d.clients[i]);
    if a.CompleteEvaluation? {
      PublishKeeps(d, i, c, i, Recorded(c.produced));
    } else {
      MoveKeeps(d, i, c);
    }
  }

  lemma {:induction false} StepKeeps(d: Daemon, a: Action, max: nat)
    requires Inv(d) && Can(d, a)
    ensures Inv(Step(d, a, max))
  {
    match a {
      case StartEval(_) => OpenKeeps(d, a, max);
      case StartWatch(_) => OpenKeeps(d, a, max);
      case StartDiff(key) =>
        if key in d.cache.sessions {
          StartDiffKeeps(d, key, max);
        }
      case Lookup(_) => LookupKeeps(d, a.key, max);
      case FinishStream(i) =>
        assert ClientOk(d.clients, d.clients[i]);
        MoveKeeps(d, i, d.clients[i].(pc := Finished));
      case HangUp(i) =>
        assert ClientOk(d.clients, d.clients[i]);
        MoveKeeps(d, i, Step(d, a, max).clients[i]);
      case _ =>
        if a.SettleEval? || a.SettleWatch? || a.SettleDiff? || a.WatchPublishes? || a.UpdateGraph? {
          SettlingKeeps(d, a, max);
        } else {
          EvaluationKeeps(d, a, max);
        }
    }
  }

  lemma {:induction false} SettlingKeeps(d: Daemon, a: Action, max: nat)
    requires Inv(d) && Can(d, a)
    requires a.SettleEval? || a.SettleWatch? || a.SettleDiff? || a.WatchPublishes? || a.UpdateGraph?
    ensures Inv(Step(d, a, max))
  {
    var c := d.clients[a.client];
    assert ClientOk(d.clients, c);
    match a {
      case SettleEval(i) => SettleEvalKeeps(d, i, max);
      case SettleWatch(i) => SettleKeeps(d, i, c.(settled := true), i, Invalidated);
      case SettleDiff(i) => SettleKeeps(d, i, c.(diffPc := Settled(c.diffPc.graph)), c.session, Invalidated);
      case WatchPublishes(i, graph) => PublishKeeps(d, i, c, i, graph);
      case UpdateGraph(i, graph) => PublishKeeps(d, i, c.(diffPc := Updated(graph)), c.session, graph);
    }
  }

  lemma {:induction false} LookupKeeps(d: Daemon, key: string, max: nat)
    requires Inv(d)
    ensures Inv(Step(d, Lookup(key), max))
  {
    GraphsStay(d, Step(d, Lookup(key), max));
  }

  ghost predicate Legal(d: Daemon, actions: seq<Action>, max: nat)
    decreases |actions|
  {
    actions != [] ==> Can(d, actions[0]) && Legal(Step(d, actions[0], max), actions[1..], max)
  }

  ghost function After(d: Daemon, actions: seq<Action>, max: nat): Daemon
    requires Legal(d, actions, max)
    decreases |actions|
  {
    if actions == [] then d else After(Step(d, actions[0], max), actions[1..], max)
  }

  lemma {:induction false} RunKeeps(d: Daemon, actions: seq<Action>, max: nat)
    requires Inv(d) && Legal(d, actions, max)
    ensures Inv(After(d, actions, max))
    decreases |actions|
  {
    if actions != [] {
      StepKeeps(d, actions[0], max);
      RunKeeps(Step(d, actions[0], max), actions[1..], max);
    }
  }

  // ---- The registry under any clients --------------------------------------

  /** A call on the daemon's state. */
  datatype Call =
    | ReplaceCall(key: string, session: nat)
    | WarmCall(key: string)
    | ReplayCall(key: string)
    | SettleCall(key: string, session: nat, replay: Replay)

  /** What the call does to the registry, as the methods above promise. */
  function Called(c: Cache<Cached>, call: Call, max: nat): Cache<Cached> {
    match call
    case ReplaceCall(key, session) => Insert(c, key, Cached(session, Recording), max)
    case WarmCall(key) => Touch(c, key)
    case ReplayCall(key) => Touch(c, key)
    case SettleCall(key, session, replay) => Settle(c, key, session, replay)
  }

  function CacheAfter(calls: seq<Call>, max: nat): Cache<Cached> {
    if calls == [] then Cache([], map[])
    else Called(CacheAfter(calls[..|calls| - 1], max), calls[|calls| - 1], max)
  }

  function OpOf(call: Call): Op<Cached> {
    match call
    case ReplaceCall(key, session) => InsertOp(key, Cached(session, Recording))
    case WarmCall(key) => GetOp(key)
    case ReplayCall(key) => GetOp(key)
    case SettleCall(key, session, replay) => AmendOp(key, Accepts(session), Replaced(replay))
  }

  function OpsOf(calls: seq<Call>): seq<Op<Cached>> {
    if calls == [] then [] else OpsOf(calls[..|calls| - 1]) + [OpOf(calls[|calls| - 1])]
  }

  lemma {:induction false} CallIsOp(c: Cache<Cached>, call: Call, max: nat)
    ensures Called(c, call, max) == ApplyOp(c, OpOf(call), max)
  {
  }

  lemma {:induction false} CallsAreOps(calls: seq<Call>, max: nat)
    ensures CacheAfter(calls, max) == RunOps(OpsOf(calls), max)
    decreases |calls|
  {
    if calls != [] {
      var before := calls[..|calls| - 1];
      CallsAreOps(before, max);
      CallIsOp(CacheAfter(before, max), calls[|calls| - 1], max);
      OneMoreOp(OpsOf(before), OpOf(calls[|calls| - 1]), max);
    }
  }

  /** After any history of calls, settlements refused or not, the registry holds the most
      recently used sessions of that history, in step with its queue and within its bound. */
  lemma {:induction false} CallsAreLru(calls: seq<Call>, max: nat)
    ensures var c, ops := CacheAfter(calls, max), OpsOf(calls);
      && InOrder(c) && |c.sessions| <= (if max < 1 then 1 else max)
      && Refines(c, IdealAfter(ops, max))
      && (forall a, b, m: nat :: a in c.sessions && b !in c.sessions && Uses(ops, max, m, b) ==>
            UsedAfter(ops, max, a, b))
  {
    var c, ops := CacheAfter(calls, max), OpsOf(calls);
    CallsAreOps(calls, max);
    RegistryIsLru(ops, max);
    forall a, b, m: nat | a in c.sessions && b !in c.sessions && Uses(ops, max, m, b)
      ensures UsedAfter(ops, max, a, b)
    {
      CachedUsedLast(ops, max, a, b, m);
    }
  }

  /** The call behind a client's step, if it makes one. */
  function CallsOf(d: Daemon, a: Action): seq<Call>
    requires Can(d, a)
  {
    match a
    case StartEval(key) => [ReplaceCall(key, |d.clients|)]
    case StartWatch(key) => [ReplaceCall(key, |d.clients|)]
    case StartDiff(key) => [WarmCall(key)]
    case Lookup(key) => [ReplayCall(key)]
    case SettleEval(i) =>
      var c := d.clients[i];
      [SettleCall(c.key, i, if c.recorded.Some? then Ready(c.recorded.value) else Invalidated)]
    case SettleWatch(i) => [SettleCall(d.clients[i].key, i, Invalidated)]
    case SettleDiff(i) => [SettleCall(d.clients[i].key, d.clients[i].session, Invalidated)]
    case _ => []
  }

  lemma {:induction false} StepIsCall(d: Daemon, a: Action, calls: seq<Call>, max: nat)
    requires Can(d, a) && d.cache == CacheAfter(calls, max)
    ensures Step(d, a, max).cache == CacheAfter(calls + CallsOf(d, a), max)
  {
    var more := CallsOf(d, a);
    StepCalls(d, a, max);
    if more != [] {
      OneMoreCall(calls, more[0], max);
      assert more == [more[0]];
    } else {
      assert calls + more == calls;
    }
  }

  lemma {:induction false} OneMoreCall(calls: seq<Call>, call: Call, max: nat)
    ensures CacheAfter(calls + [call], max) == Called(CacheAfter(calls, max), call, max)
  {
    assert (calls + [call])[..|calls|] == calls;
  }

  lemma {:induction false} StepCalls(d: Daemon, a: Action, max: nat)
    requires Can(d, a)
    ensures |CallsOf(d, a)| <= 1
    ensures Step(d, a, max).cache ==
            if CallsOf(d, a) == [] then d.cache else Called(d.cache, CallsOf(d, a)[0], max)
  {
  }

  lemma {:induction false} RunIsCalls(d: Daemon, actions: seq<Action>, calls: seq<Call>, max: nat)
    returns (all: seq<Call>)
    requires Legal(d, actions, max) && d.cache == CacheAfter(calls, max)
    ensures After(d, actions, max).cache == CacheAfter(all, max)
    decreases |actions|
  {
    all := calls;
    if actions != [] {
      StepIsCall(d, actions[0], calls, max);
      all := RunIsCalls(Step(d, actions[0], max), actions[1..], calls + CallsOf(d, actions[0]), max);
    }
  }

  /** However the clients interleave, the daemon's registry stays in step with its queue
      and within its bound. */
  lemma {:induction false} DaemonRegistryBounded(actions: seq<Action>, max: nat)
    requires Legal(START, actions, max)
    ensures var c := After(START, actions, max).cache;
      InOrder(c) && |c.sessions| <= if max < 1 then 1 else max
  {
    var calls := RunIsCalls(START, actions, [], max);
    CallsAreLru(calls, max);
  }

  // ---- Replay safety -------------------------------------------------------

  predicate Replayable(d: Daemon, key: string) {
    key in d.cache.sessions && d.cache.sessions[key].replay.Ready?
  }

  /** Whatever the clients did, a replay served for `key` is every line the eval that
      opened the session now cached under `key` wrote, they are all the events its
      evaluation produced on the way to a clean end, and no diff or watch has settled
      on the session. */
  lemma {:induction false} ReplaySafety(actions: seq<Action>, max: nat, key: string)
    requires Legal(START, actions, max) && Replayable(After(START, actions, max), key)
    ensures var d := After(START, actions, max);
      var e := d.cache.sessions[key];
      && e.session < |d.clients| && d.clients[e.session].Eval? && d.clients[e.session].key == key
      && Finishes(d.clients[e.session], e.replay.lines)
      && !Spoiled(d.clients, e.session)
  {
    RunKeeps(START, actions, max);
    var d := After(START, actions, max);
    assert EntryOk(d.clients, key, d.cache.sessions[key]);
  }

  /** And an eval that settles does make its session replayable, with all the events of
      its evaluation, exactly if that ended cleanly and the session is still the cached
      one and has not been invalidated. */
  lemma {:induction false} SettledEvalReplays(d: Daemon, i: nat, max: nat)
    requires Inv(d) && Can(d, SettleEval(i))
    ensures var t, key := Step(d, SettleEval(i), max), d.clients[i].key;
      (Replayable(t, key) && t.cache.sessions[key].session == i <==>
         && d.clients[i].evaluation.Clean?
         && key in d.cache.sessions && d.cache.sessions[key].session == i
         && !d.cache.sessions[key].replay.Invalidated?)
    ensures var t, key := Step(d, SettleEval(i), max), d.clients[i].key;
      Replayable(t, key) && t.cache.sessions[key].session == i ==>
        t.cache.sessions[key].replay.lines == EventLines(d.clients[i].produced)
  {
    var c := d.clients[i];
    assert ClientOk(d.clients, c);
    if c.recorded.Some? {
      assert c.written == EventLines(c.produced);
    }
    if c.key in d.cache.sessions {
      assert EntryOk(d.clients, c.key, d.cache.sessions[c.key]);
      AmendMeans(d.cache, c.key, Accepts(i),
                 Replaced(if c.recorded.Some? then Ready(c.recorded.value) else Invalidated));
    }
  }

  /** The eval that opened session `i` is closed and left nothing to replay. */
  ghost predicate HungUp(d: Daemon, i: nat) {
    && IsEval(d, i) && d.clients[i].pc.Closed?
    && forall k :: k in d.cache.sessions && d.cache.sessions[k].session == i ==> !d.cache.sessions[k].replay.Ready?
  }

  lemma {:induction false} HungUpStays(d: Daemon, a: Action, max: nat, i: nat)
    requires Inv(d) && HungUp(d, i) && Can(d, a)
    ensures HungUp(Step(d, a, max), i)
  {
    if a.StartEval? || a.StartWatch? {
      EvictSubmap(d.cache.(order := Remove(d.cache.order, a.key)), max);
    }
  }

  lemma {:induction false} HungUpThroughout(d: Daemon, actions: seq<Action>, max: nat, i: nat)
    requires Inv(d) && HungUp(d, i) && Legal(d, actions, max)
    ensures HungUp(After(d, actions, max), i)
    decreases |actions|
  {
    if actions != [] {
      HungUpStays(d, actions[0], max, i);
      StepKeeps(d, actions[0], max);
      HungUpThroughout(Step(d, actions[0], max), actions[1..], max, i);
    }
  }

  /** An eval whose client hangs up before it has settled never makes its session
      replayable, however the evaluation behind it ends and whatever others do. */
  lemma {:induction false} HungUpNeverReplays(
    d: Daemon, i: nat, actions: seq<Action>, max: nat, key: string)
    requires Inv(d) && IsEval(d, i) && !d.clients[i].pc.Closed? && Legal(d, [HangUp(i)] + actions, max)
    ensures var t := After(d, [HangUp(i)] + actions, max);
      Replayable(t, key) ==> t.cache.sessions[key].session != i
  {
    assert ([HangUp(i)] + actions)[1..] == actions;
    forall k | k in d.cache.sessions && d.cache.sessions[k].session == i
      ensures !d.cache.sessions[k].replay.Ready?
    {
      assert EntryOk(d.clients, k, d.cache.sessions[k]);
    }
    StepKeeps(d, HangUp(i), max);
    HungUpThroughout(Step(d, HangUp(i), max), actions, max, i);
  }

  /** Once invalidated, a session stays so for as long as it stays cached. */
  lemma {:induction false} InvalidationSticks(d: Daemon, a: Action, max: nat, key: string)
    requires Inv(d) && Can(d, a) && key in d.cache.sessions && d.cache.sessions[key].replay.Invalidated?
    ensures var c := Step(d, a, max).cache;
      key in c.sessions && c.sessions[key].session == d.cache.sessions[key].session ==>
        c.sessions[key].replay.Invalidated?
  {
    assert EntryOk(d.clients, key, d.cache.sessions[key]);
    if a.StartEval? || a.StartWatch? {
      EvictSubmap(d.cache.(order := Remove(d.cache.order, a.key)), max);
    }
  }

  /** A session dropped from the registry never comes back. */
  lemma {:induction false} DroppedForGood(d: Daemon, a: Action, max: nat, key: string)
    requires Inv(d) && Can(d, a) && key in Step(d, a, max).cache.sessions
    ensures var s := Step(d, a, max).cache.sessions[key].session;
      (key in d.cache.sessions && d.cache.sessions[key].session == s) || s == |d.clients|
  {
    if a.StartEval? || a.StartWatch? {
      EvictSubmap(d.cache.(order := Remove(d.cache.order, a.key)), max);
    }
  }

  // ---- Replay against the warm graph ---------------------------------------

  function EventsOf(lines: seq<Line>): seq<Event> {
    if lines == [] then []
    else
      var last := lines[|lines| - 1];
      EventsOf(lines[..|lines| - 1]) + if last.EventLine? then [last.event] else []
  }

  lemma {:induction false} EventsOfLines(events: seq<Event>)
    ensures EventsOf(EventLines(events)) == events
    decreases |events|
  {
    if events != [] {
      var front := events[..|events| - 1];
      EventsOfLines(front);
      assert EventLines(events)[..|events| - 1] == EventLines(front);
      assert events == front + [events[|events| - 1]];
    }
  }

  /** The graph a client builds from a replay. */
  function ReplayGraph(lines: seq<Line>): Graph {
    Recorded(EventsOf(lines))
  }

  /** A diff has published a graph for session `s` and not yet settled. */
  predicate InWindow(c: Client, s: nat) {
    c.Diff? && c.session == s && c.diffPc.Updated?
  }

  /** Diff `i` is in that window, and its graph is the last one published. */
  predicate LastUnsettled(d: Daemon, s: nat, i: nat) {
    s in d.publisher && d.publisher[s] == i && i < |d.clients| && InWindow(d.clients[i], s)
  }

  /** What an entry that is being replayed says about the session's graph. */
  lemma {:induction false} ReplayedGraph(d: Daemon, key: string)
    requires Inv(d) && Replayable(d, key)
    ensures var e := d.cache.sessions[key];
      && e.session in d.graphs
      && (d.graphs[e.session] == ReplayGraph(e.replay.lines)
          || exists i: nat :: LastUnsettled(d, e.session, i) && d.clients[i].diffPc.graph == d.graphs[e.session])
  {
    var e := d.cache.sessions[key];
    var s := e.session;
    assert EntryOk(d.clients, key, e);
    EventsOfLines(d.clients[s].produced);
    assert GraphOk(d, s);
    if d.publisher[s] != s {
      assert !SettledOn(d.clients[d.publisher[s]], s);
      assert LastUnsettled(d, s, d.publisher[s]);
    }
  }

  /** A replay agrees with the warm graph of its session whenever no diff is between
      publishing a graph and settling. */
  lemma {:induction false} ReplayMatchesGraph(actions: seq<Action>, max: nat, key: string)
    requires Legal(START, actions, max) && Replayable(After(START, actions, max), key)
    requires var d := After(START, actions, max);
      forall i :: 0 <= i < |d.clients| ==> !InWindow(d.clients[i], d.cache.sessions[key].session)
    ensures var d := After(START, actions, max);
      var e := d.cache.sessions[key];
      e.session in d.graphs && d.graphs[e.session] == ReplayGraph(e.replay.lines)
  {
    RunKeeps(START, actions, max);
    ReplayedGraph(After(START, actions, max), key);
  }

  /** Inside that window they differ exactly if the last graph an unsettled diff
      published differs from the one the replay records. */
  lemma {:induction false} ReplayLagsOnlyInsideDiff(actions: seq<Action>, max: nat, key: string)
    requires Legal(START, actions, max) && Replayable(After(START, actions, max), key)
    ensures var d := After(START, actions, max);
      var e := d.cache.sessions[key];
      && e.session in d.graphs
      && (d.graphs[e.session] != ReplayGraph(e.replay.lines) <==>
            exists i: nat :: LastUnsettled(d, e.session, i) && d.clients[i].diffPc.graph != ReplayGraph(e.replay.lines))
  {
    RunKeeps(START, actions, max);
    var d := After(START, actions, max);
    ReplayedGraph(d, key);
    assert GraphOk(d, d.cache.sessions[key].session);
  }

  ghost predicate Reaches(d: Daemon, e: Daemon, max: nat) {
    exists actions :: Legal(d, actions, max) && After(d, actions, max) == e
  }

  lemma {:induction false} ReachesFirst(d: Daemon, a: Action, e: Daemon, f: Daemon, max: nat)
    requires Can(d, a) && Step(d, a, max) == e && Reaches(e, f, max)
    ensures Reaches(d, f, max)
  {
    var rest :| Legal(e, rest, max) && After(e, rest, max) == f;
    assert ([a] + rest)[1..] == rest;
    assert Legal(d, [a] + rest, max) && After(d, [a] + rest, max) == f;
  }

  /** A daemon with one session, opened by client 0 and cached under `key`. */
  function One(key: string, replay: Replay, clients: seq<Client>, graph: Option<Graph>, source: nat): Daemon {
    Daemon(Cache([key], map[key := Cached(0, replay)]), clients,
           if graph.Some? then map[0 := graph.value] else map[],
           if graph.Some? then map[0 := source] else map[])
  }

  function OneEval(key: string, e: Event, evaluation: Evaluation, written: seq<Line>, pc: EvalPc): Client {
    Eval(key, [e], evaluation, written, Some(written), pc)
  }

  /** An eval whose evaluation produced one event and came to a clean end. */
  function Stage(key: string, e: Event, replay: Replay, written: seq<Line>, pc: EvalPc): Daemon {
    One(key, replay, [OneEval(key, e, Clean, written, pc)], Some(Recorded([e])), 0)
  }

  lemma {:induction false} EvalProduces(key: string, e: Event, f: Daemon)
    requires Reaches(Stage(key, e, Recording, [], Streaming), f, 32)
    ensures Reaches(START, f, 32)
  {
    var d0 := One(key, Recording, [Eval(key, [], Running, [], Some([]), Streaming)], None, 0);
    var d1 := One(key, Recording, [OneEval(key, e, Running, [], Streaming)], None, 0);
    assert [] + [e] == [e];
    assert Evict(START.cache, 32) == START.cache;
    ReachesFirst(d1, CompleteEvaluation(0), Stage(key, e, Recording, [], Streaming), f, 32);
    ReachesFirst(d0, Produce(0, e), d1, f, 32);
    ReachesFirst(START, StartEval(key), d0, f, 32);
  }

  lemma {:induction false} StageStreams(key: string, e: Event)
    ensures var d := Stage(key, e, Recording, [], Streaming);
      Can(d, StreamNext(0)) && Step(d, StreamNext(0), 32) == Stage(key, e, Recording, [EventLine(e)], Streaming)
  {
    var none: seq<Line> := [];
    assert none + [EventLine(e)] == [EventLine(e)];
    assert Streamed(OneEval(key, e, Clean, [], Streaming)) == OneEval(key, e, Clean, [EventLine(e)], Streaming);
  }

  lemma {:induction false} StageSettles(key: string, e: Event)
    ensures var d := Stage(key, e, Recording, [EventLine(e)], Finished);
      && Can(d, SettleEval(0))
      && Step(d, SettleEval(0), 32) == Stage(key, e, Ready([EventLine(e)]), [EventLine(e)], Closed)
  {
    assert Remove([key], key) == [];
  }

  lemma {:induction false} EvalSettles(key: string, e: Event, f: Daemon)
    requires Reaches(Stage(key, e, Ready([EventLine(e)]), [EventLine(e)], Closed), f, 32)
    ensures Reaches(Stage(key, e, Recording, [], Streaming), f, 32)
  {
    var lines := [EventLine(e)];
    StageSettles(key, e);
    ReachesFirst(Stage(key, e, Recording, lines, Finished), SettleEval(0), Stage(key, e, Ready(lines), lines, Closed),
                 f, 32);
    ReachesFirst(Stage(key, e, Recording, lines, Streaming), FinishStream(0), Stage(key, e, Recording, lines, Finished),
                 f, 32);
    StageStreams(key, e);
    ReachesFirst(Stage(key, e, Recording, [], Streaming), StreamNext(0), Stage(key, e, Recording, lines, Streaming),
                 f, 32);
  }

  /** The same session after a diff has published `graph` and before it settles. */
  function Diffed(key: string, e: Event, graph: Graph): Daemon {
    One(key, Ready([EventLine(e)]),
        [OneEval(key, e, Clean, [EventLine(e)], Closed), Client.Diff(key, 0, Updated(graph))], Some(graph), 1)
  }

  lemma {:induction false} StageDiffs(key: string, e: Event, graph: Graph)
    ensures Reaches(Stage(key, e, Ready([EventLine(e)]), [EventLine(e)], Closed), Diffed(key, e, graph), 32)
  {
    var c, f := OneEval(key, e, Clean, [EventLine(e)], Closed), Diffed(key, e, graph);
    var d := One(key, Ready([EventLine(e)]), [c, Client.Diff(key, 0, Evaluating)], Some(Recorded([e])), 0);
    assert Remove([key], key) == [];
    var none: seq<Action> := [];
    assert Legal(f, none, 32) && After(f, none, 32) == f;
    ReachesFirst(d, UpdateGraph(1, graph), f, f, 32);
    ReachesFirst(Stage(key, e, Ready([EventLine(e)]), [EventLine(e)], Closed), StartDiff(key), d, f, 32);
  }

  /** `key` replays the one event `e`, and the graph of the session behind it is
      `graph`, which is not the one that event makes. */
  ghost predicate ServesOldReplay(d: Daemon, key: string, e: Event, graph: Graph) {
    && Replayable(d, key) && d.cache.sessions[key] == Cached(0, Ready([EventLine(e)]))
    && 0 in d.graphs && d.graphs[0] == graph && graph != ReplayGraph([EventLine(e)])
  }

  /** The window is real: the documentation says a diff invalidates the replay, yet
      here a replay is served whose graph is no longer the session's, for whatever
      derivation was streamed and whatever other graph a diff found. */
  lemma {:induction false} ReplayLagsBehindDiff(key: string, drv: Derivation, graph: Graph)
    requires graph != map[drv.attrPath := drv]
    ensures exists d :: Reaches(START, d, 32) && ServesOldReplay(d, key, DerivationEvent(drv), graph)
  {
    var e := DerivationEvent(drv);
    StageDiffs(key, e, graph);
    EvalSettles(key, e, Diffed(key, e, graph));
    EvalProduces(key, e, Diffed(key, e, graph));
    assert EventLines([e]) == [EventLine(e)];
    EventsOfLines([e]);
    assert Recorded([]) == map[] && [e][..0] == [];
    assert ServesOldReplay(Diffed(key, e, graph), key, e, graph);
  }
}
