/** What holds in every state of every run of the step system: the channel
    discipline, the conservation of discovered paths, and what is known of the log
    however the run ends.  Each step is shown to keep it, coordinator steps first. */
module Runs {
  import opened Types
  import opened Eval
  import opened Pool
  import opened Coordinator
  import opened Worklist
  import opened Distributed

  /** What is known of the event log however the run ends. */
  ghost predicate LogOk(o: Oracle, specs: seq<WorkerSpec>, log: seq<Event>) {
    && NoDuplicates(Paths(log))
    && (forall i :: 0 <= i < |log| ==> Genuine(o, log[i].At(), log[i]))
    && (forall i :: ReportListed(log, i))
    && OwnedOnly(specs, log)
  }

  ghost predicate OwnedOnly(specs: seq<WorkerSpec>, log: seq<Event>) {
    forall i :: 0 <= i < |log| && log[i].DerivationEvent? ==> Covered(specs, log[i].drv.system)
  }

  ghost predicate Finished(o: Oracle, s: State) {
    LedgerOf(s).pending == multiset{} && Coherent(o, LedgerOf(s))
  }

  ghost predicate Good(o: Oracle, specs: seq<WorkerSpec>, s: State) {
    && LogOk(o, specs, s.c.log)
    && match s.c.outcome
       case Running => Inv(o, specs, s)
       case Completed => Finished(o, s)
       case Cancelled => s.cancel
       case Failed(fault) => fault != Stalled && fault != Disconnected
  }

  lemma {:induction false} OnceMeansDistinct<T>(s: seq<T>)
    requires forall x: T :: multiset(s)[x] <= 1
    ensures NoDuplicates(s)
  {
    forall i, j | 0 <= i < j < |s| ensures s[i] != s[j] {
      assert s == s[..j] + s[j..];
      assert s[..j][i] == s[i] && s[j..][0] == s[j];
      assert multiset(s)[s[i]] == multiset(s[..j])[s[i]] + multiset(s[j..])[s[i]];
      assert s[i] in s[..j];
    }
  }

  lemma {:induction false} CoherentLogOk(o: Oracle, specs: seq<WorkerSpec>, l: Ledger)
    requires Unique(l) && ParentsFirst(l) && OwnedOnly(specs, l.log)
    requires forall i :: 0 <= i < |l.log| ==> Genuine(o, l.log[i].At(), l.log[i])
    ensures LogOk(o, specs, l.log)
  {
    forall p: Path ensures multiset(Paths(l.log))[p] <= 1 {
      assert Times(l, p) <= 1;
    }
    OnceMeansDistinct(Paths(l.log));
  }

  lemma {:induction false} EmittedOwned(specs: seq<WorkerSpec>, log: seq<Event>, m: Message)
    requires OwnedOnly(specs, log) && m.Reply? && m.worker < |specs|
    requires Verdict(specs[m.worker], specs, m.item, EventOf(specs, m)).emit
    ensures OwnedOnly(specs, log + [EventOf(specs, m)])
  {
    var e := EventOf(specs, m);
    if e.DerivationEvent? {
      DispositionIsOwnership(specs, m.worker, e);
    }
    forall i | 0 <= i < |log + [e]| && (log + [e])[i].DerivationEvent?
      ensures Covered(specs, (log + [e])[i].drv.system)
    {
      if i < |log| {
        assert (log + [e])[i] == log[i];
      }
    }
  }

  // ---- One step ------------------------------------------------------------

  lemma {:induction false} WaitingHasMail(o: Oracle, specs: seq<WorkerSpec>, s: State)
    requires Protocol(o, specs, s) && s.mail == []
    ensures !AllGone(s)
  {
    assert !HasParting(s.mail);
    assert s.phase[0] != Gone;
  }

  predicate Crediting(s: State) {
    s.c.pc.Waiting? && s.mail != [] && s.mail[0].Reply?
  }

  ghost predicate Bookkept(o: Oracle, specs: seq<WorkerSpec>, s: State, s': State) {
    && s'.c.log == s.c.log
    && match s'.c.outcome
       case Running => Protocol(o, specs, s') && LedgerOf(s') == LedgerOf(s)
       case Completed => LedgerOf(s') == LedgerOf(s) && LedgerOf(s').pending == multiset{}
       case Cancelled => s'.cancel
       case Failed(fault) => fault.SendFailed? || fault.TaskExited?
  }

  lemma {:induction false} NothingPending(s: State)
    requires s.c.todo == [] && |Busy(s.held)| == 0
    ensures LedgerOf(s).pending == multiset{}
  {
  }

  lemma {:induction false} DispatchingStep(o: Oracle, specs: seq<WorkerSpec>, s: State, sinkOk: bool)
    requires Protocol(o, specs, s) && CoordinatorReady(specs, s) && s.c.pc.Dispatching? && s.c.pc.left > 0
    ensures Bookkept(o, specs, s, CoordinatorStep(specs, s, sinkOk))
  {
    if Offering(s.c) {
      if s.phase[s.c.idle[0]] != Gone {
        SendKeeps(o, specs, s);
      }
    } else if s.c.active > 0 {
      RotateKeeps(o, specs, s);
    } else {
      NothingPending(s);
    }
  }

  lemma {:induction false} LoopEndStep(o: Oracle, specs: seq<WorkerSpec>, s: State, sinkOk: bool)
    requires Protocol(o, specs, s) && CoordinatorReady(specs, s) && s.c.pc == Dispatching(0)
    ensures Bookkept(o, specs, s, CoordinatorStep(specs, s, sinkOk))
  {
    EndDispatchKeeps(o, specs, s);
    EndDispatchNeverStalls(o, specs, s);
    if s.c.todo == [] && s.c.active == 0 {
      NothingPending(s);
    }
  }

  lemma {:induction false} WaitingStep(o: Oracle, specs: seq<WorkerSpec>, s: State, sinkOk: bool)
    requires Protocol(o, specs, s) && CoordinatorReady(specs, s) && s.c.pc.Waiting? && !Crediting(s)
    ensures Bookkept(o, specs, s, CoordinatorStep(specs, s, sinkOk))
  {
    if s.mail == [] {
      WaitingHasMail(o, specs, s);
    } else if s.mail[0].Ready? {
      AnnounceKeeps(o, specs, s);
    } else {
      assert MessageOk(o, specs, s, s.mail[0]);
    }
  }

  /** Every coordinator step other than crediting a reply leaves the log and the
      bag of discovered paths alone. */
  lemma {:induction false} BookkeepingStep(o: Oracle, specs: seq<WorkerSpec>, s: State, sinkOk: bool)
    requires Protocol(o, specs, s) && CoordinatorReady(specs, s) && !Crediting(s)
    ensures Bookkept(o, specs, s, CoordinatorStep(specs, s, sinkOk))
  {
    if s.c.pc.AtHead? {
      if !s.cancel {
        CheckCancelKeeps(o, specs, s);
      }
    } else if s.c.pc.Waiting? {
      WaitingStep(o, specs, s, sinkOk);
    } else if s.c.pc.left == 0 {
      LoopEndStep(o, specs, s, sinkOk);
    } else {
      DispatchingStep(o, specs, s, sinkOk);
    }
  }

  lemma {:induction false} CreditStep(o: Oracle, specs: seq<WorkerSpec>, s: State, sinkOk: bool)
    requires Protocol(o, specs, s) && CoordinatorReady(specs, s) && Crediting(s)
    ensures var s', m := CoordinatorStep(specs, s, sinkOk), s.mail[0];
      && m.worker < |specs|
      && m.item in LedgerOf(s).pending
      && Genuine(o, m.item, EventOf(specs, m))
      && (Verdict(specs[m.worker], specs, m.item, EventOf(specs, m)).emit ==>
            LedgerOf(s') == Finish(LedgerOf(s), m.item, EventOf(specs, m)))
      && (!Verdict(specs[m.worker], specs, m.item, EventOf(specs, m)).emit ==>
            s'.c.log == s.c.log && s'.c.outcome.Failed?)
      && s'.c.outcome != Completed && s'.c.outcome != Cancelled
      && (s'.c.outcome == Running ==> Protocol(o, specs, s'))
      && (s'.c.outcome.Failed? ==> s'.c.outcome.fault != Stalled && s'.c.outcome.fault != Disconnected)
  {
    assert MessageOk(o, specs, s, s.mail[0]);
    ReplyRefines(o, specs, s, sinkOk);
    ReplyGenuine(o, specs, s, s.mail[0]);
    ReplyKeeps(o, specs, s, sinkOk);
  }

  /** The run ends for want of an owner only at a derivation nobody owns. */
  lemma {:induction false} NoOwnerMeansUncovered(specs: seq<WorkerSpec>, s: State, sinkOk: bool)
    requires |s.phase| == |s.work| == |s.held| == |specs|
    requires CoordinatorReady(specs, s) && Crediting(s) && s.c.outcome == Running
    ensures var r := CoordinatorStep(specs, s, sinkOk).c.outcome;
      r.Failed? && r.fault.NoOwner? ==>
        var e := EventOf(specs, s.mail[0]); e.DerivationEvent? && !Covered(specs, e.drv.system)
  {
  }

  lemma {:induction false} CreditKeepsLog(o: Oracle, specs: seq<WorkerSpec>, l: Ledger, m: Message)
    requires WellBehaved(o) && Coherent(o, l) && OwnedOnly(specs, l.log)
    requires m.Reply? && m.worker < |specs| && m.item in l.pending && Genuine(o, m.item, EventOf(specs, m))
    requires Verdict(specs[m.worker], specs, m.item, EventOf(specs, m)).emit
    ensures Coherent(o, Finish(l, m.item, EventOf(specs, m)))
    ensures LogOk(o, specs, Finish(l, m.item, EventOf(specs, m)).log)
  {
    FinishCoherent(o, l, m.item, EventOf(specs, m));
    EmittedOwned(specs, l.log, m);
    CoherentLogOk(o, specs, Finish(l, m.item, EventOf(specs, m)));
  }

  lemma {:induction false} CoordinateGood(o: Oracle, specs: seq<WorkerSpec>, s: State, sinkOk: bool)
    requires WellBehaved(o) && Good(o, specs, s) && s.c.outcome == Running
    requires CoordinatorReady(specs, s)
    ensures Good(o, specs, CoordinatorStep(specs, s, sinkOk))
  {
    if Crediting(s) {
      var m := s.mail[0];
      CreditStep(o, specs, s, sinkOk);
      if Verdict(specs[m.worker], specs, m.item, EventOf(specs, m)).emit {
        CreditKeepsLog(o, specs, LedgerOf(s), m);
      }
    } else {
      BookkeepingStep(o, specs, s, sinkOk);
    }
  }

  lemma {:induction false} CancelKeeps(o: Oracle, specs: seq<WorkerSpec>, s: State)
    requires Protocol(o, specs, s)
    ensures Protocol(o, specs, s.(cancel := true))
  {
    var s' := s.(cancel := true);
    forall v | 0 <= v < |specs| ensures WorkerOk(specs, s', v) {
      assert WorkerOk(specs, s, v);
    }
    forall k | 0 <= k < |s'.mail| ensures MessageOk(o, specs, s', s'.mail[k]) {
      assert MessageOk(o, specs, s, s.mail[k]);
    }
  }

  lemma {:induction false} StepGood(o: Oracle, specs: seq<WorkerSpec>, s: State, a: Action)
    requires WellBehaved(o) && Good(o, specs, s) && Enabled(specs, s, a)
    ensures Good(o, specs, Apply(o, specs, s, a))
  {
    if a.Coordinate? {
      CoordinateGood(o, specs, s, a.sinkOk);
    } else {
      if a.RequestCancel? {
        CancelKeeps(o, specs, s);
      } else {
        WorkerActionKeeps(o, specs, s, a);
      }
      assert LedgerOf(Apply(o, specs, s, a)) == LedgerOf(s);
    }
  }

  lemma {:induction false} RunGood(o: Oracle, specs: seq<WorkerSpec>, s: State, actions: seq<Action>)
    requires WellBehaved(o) && Good(o, specs, s) && Legal(o, specs, s, actions)
    ensures Good(o, specs, After(o, specs, s, actions))
    decreases |actions|
  {
    if actions != [] {
      StepGood(o, specs, s, actions[0]);
      RunGood(o, specs, Apply(o, specs, s, actions[0]), actions[1..]);
    }
  }

  lemma {:induction false} InitGood(o: Oracle, specs: seq<WorkerSpec>)
    requires WellFormedPool(specs)
    ensures Good(o, specs, Init(specs))
  {
    InitInv(o, specs);
  }
}
