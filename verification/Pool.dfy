/** The worker pool: which workers a configuration yields and which systems
    they own. */
module Pool {
  import opened Types

  datatype Remote = Remote(endpoint: string, systems: seq<string>, workers: nat)

  datatype LocalFork = NoFork | ForkParent(slots: nat) | ForkChild(slot: nat)

  datatype WorkerKind = Local(fork: LocalFork) | RemoteWorker(remote: Remote)

  datatype WorkerSpec = WorkerSpec(id: nat, name: string, kind: WorkerKind)
  {
    predicate IsForked() {
      kind.Local? && kind.fork.ForkChild?
    }
  }

  datatype Config = Config(workers: nat, remotes: seq<Remote>)

  function RemoteSlots(remotes: seq<Remote>): seq<Remote> {
    if remotes == [] then []
    else seq(remotes[0].workers, _ => remotes[0]) + RemoteSlots(remotes[1..])
  }

  lemma {:induction false} RemoteSlotsAppend(remotes: seq<Remote>, r: Remote)
    ensures RemoteSlots(remotes + [r]) == RemoteSlots(remotes) + seq(r.workers, _ => r)
  {
    if remotes == [] {
      assert remotes + [r] == [r];
    } else {
      assert (remotes + [r])[0] == remotes[0] && (remotes + [r])[1..] == remotes[1..] + [r];
      RemoteSlotsAppend(remotes[1..], r);
    }
  }

  /** `workers: 0` means "remote only", unless there is no remote worker either. */
  function LocalWorkers(config: Config): nat {
    if config.workers == 0 && |RemoteSlots(config.remotes)| > 0 then 0
    else if config.workers == 0 then 1 else config.workers
  }

  function ForkOf(locals: nat, index: nat): LocalFork {
    if locals <= 1 then NoFork
    else if index == 0 then ForkParent(locals - 1) else ForkChild(index - 1)
  }

  /** What the rest of the coordinator relies on. */
  ghost predicate WellFormedPool(specs: seq<WorkerSpec>) {
    && specs != []
    && (forall i :: 0 <= i < |specs| ==> specs[i].id == i)
    && !specs[0].IsForked()
  }

  method CountRemoteWorkers(remotes: seq<Remote>) returns (total: nat)
    ensures total == |RemoteSlots(remotes)|
  {
    total := 0;
    for i := 0 to |remotes|
      invariant total == |RemoteSlots(remotes[..i])|
    {
      RemoteSlotsAppend(remotes[..i], remotes[i]);
      assert remotes[..i + 1] == remotes[..i] + [remotes[i]];
      total := total + remotes[i].workers;
    }
    assert remotes[..|remotes|] == remotes;
  }

  /** `specs` are `locals` local workers and then one worker for each of `remotes`. */
  ghost predicate Staffed(specs: seq<WorkerSpec>, locals: nat, remotes: seq<Remote>) {
    && |specs| == locals + |remotes|
    && (forall i :: 0 <= i < |specs| ==> specs[i].id == i)
    && (forall i :: 0 <= i < locals ==> specs[i].kind == Local(ForkOf(locals, i)))
    && (forall i :: 0 <= i < |remotes| ==> specs[locals + i].kind == RemoteWorker(remotes[i]))
  }

  lemma {:induction false} StaffedMore(
    specs: seq<WorkerSpec>, more: seq<WorkerSpec>, locals: nat, remotes: seq<Remote>, remote: Remote)
    requires Staffed(specs, locals, remotes) && |more| == |specs| + remote.workers && more[..|specs|] == specs
    requires forall k :: 0 <= k < |more| ==> more[k].id == k
    requires forall k :: |specs| <= k < |more| ==> more[k].kind == RemoteWorker(remote)
    ensures Staffed(more, locals, remotes + seq(remote.workers, _ => remote))
  {
    assert forall i :: 0 <= i < |specs| ==> more[i] == specs[i];
  }

  method WorkerSpecs(config: Config) returns (specs: seq<WorkerSpec>)
    ensures WellFormedPool(specs)
    ensures Staffed(specs, LocalWorkers(config), RemoteSlots(config.remotes))
    ensures var locals := |specs| - |RemoteSlots(config.remotes)|;
      if config.workers > 0 then locals == config.workers
      else locals == if RemoteSlots(config.remotes) != [] then 0 else 1
    ensures var locals := |specs| - |RemoteSlots(config.remotes)|;
      forall i :: 0 <= i < locals ==> specs[i].name == "local" && specs[i].kind.Local?
  {
    var remoteWorkers := CountRemoteWorkers(config.remotes);
    var locals := if config.workers == 0 && remoteWorkers > 0 then 0
                  else if config.workers < 1 then 1 else config.workers;

    var forks := PrepareForks(locals);
    specs := [];
    for i := 0 to locals
      invariant |specs| == i
      invariant forall k :: 0 <= k < i ==> specs[k].id == k && specs[k].kind == Local(ForkOf(locals, k))
      invariant forall k :: 0 <= k < i ==> specs[k].name == "local"
    {
      specs := specs + [WorkerSpec(|specs|, "local", Local(if i < |forks| then forks[i] else NoFork))];
    }
    for r := 0 to |config.remotes|
      invariant Staffed(specs, locals, RemoteSlots(config.remotes[..r]))
      invariant forall k :: 0 <= k < locals ==> specs[k].name == "local"
    {
      RemoteSlotsAppend(config.remotes[..r], config.remotes[r]);
      assert config.remotes[..r + 1] == config.remotes[..r] + [config.remotes[r]];
      var more := AddRemote(specs, config.remotes[r]);
      StaffedMore(specs, more, locals, RemoteSlots(config.remotes[..r]), config.remotes[r]);
      assert forall k :: 0 <= k < locals ==> more[..|specs|][k] == specs[k];
      specs := more;
    }
    assert config.remotes[..|config.remotes|] == config.remotes;
    StaffedWellFormed(specs, LocalWorkers(config), RemoteSlots(config.remotes));
  }

  lemma {:induction false} StaffedWellFormed(specs: seq<WorkerSpec>, locals: nat, remotes: seq<Remote>)
    requires Staffed(specs, locals, remotes) && locals + |remotes| > 0
    ensures WellFormedPool(specs)
  {
    if locals > 0 {
      assert specs[0].kind == Local(ForkOf(locals, 0));
    } else {
      assert specs[locals + 0].kind == RemoteWorker(remotes[0]);
    }
  }

  /** The first of several local workers keeps the slots; each other one is to be
      forked into its own. */
  method PrepareForks(locals: nat) returns (forks: seq<LocalFork>)
    ensures forall i :: 0 <= i < locals ==> ForkOf(locals, i) == if i < |forks| then forks[i] else NoFork
  {
    forks := [];
    var slots := 0;
    for i := 1 to if locals < 1 then 1 else locals
      invariant slots == |forks| == i - 1
      invariant forall k :: 0 <= k < |forks| ==> forks[k] == ForkChild(k)
    {
      forks := forks + [ForkChild(slots)];
      slots := slots + 1;
    }
    if slots > 0 {
      forks := [ForkParent(slots)] + forks;
    }
  }

  function RemoteLabel(remote: Remote, index: nat): string {
    "remote:" + remote.endpoint + "#" + Decimal(index)
  }

  /** Of several local workers the first is to fork, with a slot for each of the others,
      and these have its slots, each one of its own; a single one does not fork. */
  lemma {:induction false} ForkSlotsMatch(locals: nat, i: nat)
    requires i < locals
    ensures locals == 1 ==> ForkOf(locals, i) == NoFork
    ensures locals > 1 ==> ForkOf(locals, 0).ForkParent? && ForkOf(locals, 0).slots == locals - 1
    ensures locals > 1 && i > 0 ==> ForkOf(locals, i).ForkChild? && ForkOf(locals, i).slot < ForkOf(locals, 0).slots
    ensures forall j :: 0 < i < j < locals ==> ForkOf(locals, i) != ForkOf(locals, j)
    ensures locals > 1 ==> forall slot :: 0 <= slot < ForkOf(locals, 0).slots ==>
              ForkOf(locals, slot + 1) == ForkChild(slot)
  {
  }

  method AddRemote(specs0: seq<WorkerSpec>, remote: Remote) returns (specs: seq<WorkerSpec>)
    requires forall k :: 0 <= k < |specs0| ==> specs0[k].id == k
    ensures |specs| == |specs0| + remote.workers && specs[..|specs0|] == specs0
    ensures forall k :: 0 <= k < |specs| ==> specs[k].id == k
    ensures forall k :: |specs0| <= k < |specs| ==>
              && specs[k].kind == RemoteWorker(remote)
              && specs[k].name == "remote:" + remote.endpoint + "#" + Decimal(k - |specs0|)
  {
    specs := specs0;
    for i := 0 to remote.workers
      invariant |specs| == |specs0| + i && specs[..|specs0|] == specs0
      invariant forall k :: 0 <= k < |specs| ==> specs[k].id == k
      invariant forall k :: |specs0| <= k < |specs| ==>
        specs[k].kind == RemoteWorker(remote) && specs[k].name == RemoteLabel(remote, k - |specs0|)
    {
      specs := specs + [WorkerSpec(|specs|, RemoteLabel(remote, i), RemoteWorker(remote))];
    }
  }

  // ---- Ownership -----------------------------------------------------------

  predicate RemoteAcceptsSystem(remote: Remote, system: string) {
    remote.systems == [] || system in remote.systems
  }

  predicate WorkerAcceptsSystem(worker: WorkerSpec, system: string) {
    match worker.kind
    case Local(_) => true
    case RemoteWorker(remote) => RemoteAcceptsSystem(remote, system)
  }

  predicate Covered(specs: seq<WorkerSpec>, system: string) {
    exists i :: 0 <= i < |specs| && WorkerAcceptsSystem(specs[i], system)
  }

  datatype EventDisposition = Emit | Unowned(system: string)

  function Disposition(spec: WorkerSpec, specs: seq<WorkerSpec>, event: Event): EventDisposition {
    if !spec.kind.RemoteWorker? then Emit
    else if !event.DerivationEvent? then Emit
    else if Covered(specs, event.drv.system) then Emit
    else Unowned(event.drv.system)
  }

  /** A system is owned if a local worker is there, or a remote that lists it or lists
      no systems at all. */
  lemma {:induction false} CoveredMeans(specs: seq<WorkerSpec>, system: string)
    ensures Covered(specs, system) <==>
              exists i :: 0 <= i < |specs|
                          && (specs[i].kind.Local?
                              || specs[i].kind.remote.systems == []
                              || exists k :: 0 <= k < |specs[i].kind.remote.systems|
                                             && specs[i].kind.remote.systems[k] == system)
  {
    forall i | 0 <= i < |specs|
      ensures WorkerAcceptsSystem(specs[i], system) <==>
                (specs[i].kind.Local? || specs[i].kind.remote.systems == []
                 || exists k :: 0 <= k < |specs[i].kind.remote.systems| && specs[i].kind.remote.systems[k] == system)
    {
    }
  }

  /** Who evaluated a derivation does not matter: it is emitted if and only if there is
      a local worker, or a remote that lists its system or lists none; otherwise its
      system is reported as unowned.  Other events are always emitted. */
  lemma {:induction false} DispositionIsOwnership(specs: seq<WorkerSpec>, w: nat, event: Event)
    requires w < |specs|
    ensures event.DerivationEvent? ==>
              (Disposition(specs[w], specs, event) == Emit <==>
                 exists i :: 0 <= i < |specs|
                             && (specs[i].kind.Local?
                                 || specs[i].kind.remote.systems == []
                                 || event.drv.system in specs[i].kind.remote.systems))
    ensures event.DerivationEvent? ==>
              (Disposition(specs[w], specs, event) == Emit <==> Covered(specs, event.drv.system))
    ensures Disposition(specs[w], specs, event) == Emit
            || (event.DerivationEvent? && Disposition(specs[w], specs, event) == Unowned(event.drv.system))
    ensures !event.DerivationEvent? ==> Disposition(specs[w], specs, event) == Emit
  {
    if event.DerivationEvent? {
      if specs[w].kind.Local? {
        assert WorkerAcceptsSystem(specs[w], event.drv.system);
      }
      forall i | 0 <= i < |specs|
        ensures WorkerAcceptsSystem(specs[i], event.drv.system) <==>
                  (specs[i].kind.Local? || specs[i].kind.remote.systems == []
                   || event.drv.system in specs[i].kind.remote.systems)
      {
      }
    }
  }
}
