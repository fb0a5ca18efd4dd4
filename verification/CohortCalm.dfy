/** Runs of a contract-keeping environment: in them no receipt fails to be
    built, so what CohortRuns says of calm runs holds of them. */
module CohortCalm {
  import opened Contracts
  import opened ResourceGuard
  import opened ReceiptRules
  import opened Cohort
  import opened CohortRuns

  /** What a contract-keeping environment answers: the arm gives its evidence and
      a backend that completes does so with an outcome. */
  predicate Trusted(x: Oracle) {
    x.armOk && x.wait != Some(WaitGarbage)
  }

  predicate TrustedSchedule(schedule: seq<(Actor, Oracle)>) {
    forall k :: 0 <= k < |schedule| ==> Trusted(schedule[k].1)
  }

  /** No ill-typed outcome is on its way to a receipt. */
  predicate TypedPhase(phase: Phase) {
    && (phase.Confirming? ==> !phase.reported.Garbage?)
    && (phase.Finishing? && phase.after.Persist? ==> !phase.after.draft.reported.Garbage?)
    && (phase.Finishing? && phase.after.Decide? ==> !phase.after.reported.Garbage?)
  }

  predicate TypedSlot(slot: Slot) {
    slot.Busy? ==> TypedPhase(slot.phase)
  }

  predicate TypedSlots(c: State) {
    forall i: nat :: i < |c.slots| ==> TypedSlot(c.slots[i])
  }

  ghost predicate TypedMove(c: State, d: State, i: nat)
    requires i < |c.slots|
  {
    |d.slots| == |c.slots| && TypedSlot(d.slots[i]) && d.slots == c.slots[i := d.slots[i]]
  }

  lemma PersistStaysTyped(c: State, m: State, i: nat, s: SessionId, after: AfterFinish)
    requires i < |c.slots| && m.slots == c.slots && TypedPhase(Finishing(AtOnce, after))
    ensures TypedMove(c, EnterFinish(m, i, s, after), i)
  {
  }

  lemma PutStaysTyped(c: State, m: State, i: nat, s: SessionId, phase: Phase)
    requires i < |c.slots| && m.slots == c.slots && TypedPhase(phase)
    ensures TypedMove(c, Put(m, i, Busy(s, phase)), i)
  {
  }

  lemma ActivationStaysTyped(c: State, m: State, i: nat, s: SessionId)
    requires i < |c.slots| && m.slots == c.slots
    ensures TypedMove(c, AfterActivation(m, i, s), i)
  {
    var e := EventFor(m.guard, s);
    var m1 := Observe(m, e);
    if e.Some? {
      var (status, reason) := ResourceStatus(e.value, NOT_STARTED_PROOF);
      PersistStaysTyped(c, m1, i, s, Persist(
        Draft(status, reason, false, NoOutcome, Some(NOT_STARTED_PROOF), [], None, Some(e.value.code), false)));
    } else if m1.stopNew {
      PersistStaysTyped(c, m1, i, s, Persist(NotStartedDraft()));
    } else {
      PutStaysTyped(c, m1, i, s, Launching);
    }
  }

  lemma PrepareStaysTyped(c: State, i: nat, s: SessionId, x: Oracle)
    requires i < |c.slots|
    ensures TypedMove(c, Prepare(c, i, s, x), i)
  {
    if x.ok {
      var m := c.(guard := c.guard.(activated := c.guard.activated + {s}));
      ActivationStaysTyped(c, m, i, s);
    }
  }

  lemma ActivateStaysTyped(c: State, i: nat, s: SessionId, target: Target, x: Oracle)
    requires i < |c.slots|
    ensures TypedMove(c, Activate(c, i, s, target, x), i)
  {
    var m := c.(guard := CheckTree(c.guard, s, target, Initial, x.tree).0);
    ActivationStaysTyped(c, m, i, s);
    PutStaysTyped(c, m, i, s, ActivatingCache);
  }

  lemma FailedStartStaysTyped(c: State, m: State, i: nat, s: SessionId, error: Exn, proof: Option<StopProof>)
    requires i < |c.slots| && m.slots == c.slots
    ensures TypedMove(c, StartFailed(m, i, s, error, proof), i)
  {
    var e := EventFor(m.guard, s);
    var m1 := MarkUnsafe(Observe(m, e), Stopped(proof));
    PersistStaysTyped(c, m1, i, s, Persist(StartFailedDraft(e, m1.stopNew, error, proof)));
  }

  lemma LaunchStaysTyped(c: State, i: nat, s: SessionId, x: Oracle)
    requires i < |c.slots|
    ensures TypedMove(c, LaunchBackend(c, i, s, x), i)
  {
    FailedStartStaysTyped(c, c, i, s, Drift(), Some(NOT_STARTED_PROOF));
  }

  lemma AcceptStaysTyped(c: State, m: State, i: nat, s: SessionId, r: StartResult, identity: bool, cancelled: Option<Exn>)
    requires i < |c.slots| && m.slots == c.slots
    ensures TypedMove(c, AcceptStart(m, i, s, r, identity, cancelled), i)
  {
    match r {
      case StartRaised(e, p) => FailedStartStaysTyped(c, m, i, s, e, p);
      case GotOther => FailedStartStaysTyped(c, m, i, s, Exn(Some(BackendHandleInvalid), "RuntimeOrchestrationError"), None);
      case GotHandle =>
    }
  }

  lemma HandleStaysTyped(c: State, i: nat, s: SessionId, error: Exn, x: Oracle)
    requires i < |c.slots| && TypedSlot(c.slots[i])
    ensures TypedMove(c, AwaitStart(c, i, s, x), i) && TypedMove(c, StopRefusedStart(c, i, s, error, x), i)
    ensures TypedMove(c, JoinStart(c, i, s, error, x), i)
  {
    if x.start.Some? {
      AcceptStaysTyped(c, Woken(c, s, x), i, s, x.start.value, x.identity, None);
      AcceptStaysTyped(c, c, i, s, x.start.value, x.identity, Some(error));
    }
    FailedStartStaysTyped(c, RecordStop(c, s, x.proof), i, s, error, Some(x.proof));
  }

  lemma StopStaysTyped(c: State, i: nat, s: SessionId, seen: Option<Event>, wall: bool, x: Oracle)
    requires i < |c.slots|
    ensures TypedMove(c, StopEarly(c, i, s, seen, x), i) && TypedMove(c, Halt(c, i, s, seen, wall, x), i)
  {
  }

  lemma ErrorStaysTyped(c: State, i: nat, s: SessionId, error: Exn, x: Oracle)
    requires i < |c.slots|
    ensures TypedMove(c, BeginRunning(c, i, s, x), i) && TypedMove(c, StopAfterWaitError(c, i, s, error, x), i)
    ensures TypedMove(c, StopAfterHostFailure(c, i, s, error, x), i)
  {
  }

  lemma ArbitrateStaysTyped(c: State, i: nat, s: SessionId, x: Oracle)
    requires i < |c.slots| && Trusted(x) && TypedSlot(c.slots[i])
    ensures TypedMove(c, Arbitrate(c, i, s, x), i)
  {
    if x.wait.Some? {
      PutStaysTyped(c, c, i, s, CompletionPhase(x.wait.value));
    }
  }

  lemma ConfirmStaysTyped(c: State, i: nat, s: SessionId, r: Reported, x: Oracle)
    requires i < |c.slots| && !r.Garbage?
    ensures TypedMove(c, Confirm(c, i, s, r, x), i)
  {
  }

  lemma NextStaysTyped(c: State, m: State, i: nat, s: SessionId, o: Outcome, p: StopProof, k: nat, done: seq<string>)
    requires i < |c.slots| && m.slots == c.slots
    ensures TypedMove(c, NextContribution(m, i, s, o, p, k, done), i)
    ensures forall code :: TypedMove(c, PublishFailed(m, i, s, o, p, done, code), i)
  {
    PersistStaysTyped(c, m, i, s, Persist(SucceededDraft(o, p, done)));
    forall code ensures TypedMove(c, PublishFailed(m, i, s, o, p, done, code), i) {
      PersistStaysTyped(c, m, i, s, Persist(PublishFailedDraft(o, p, done, code)));
    }
  }

  lemma PublishStaysTyped(c: State, i: nat, s: SessionId, o: Outcome, p: StopProof, k: nat, done: seq<string>, x: Oracle)
    requires i < |c.slots| && k < |o.contributions| && TypedSlot(c.slots[i])
    ensures TypedMove(c, PublishOne(c, i, s, o, p, k, done, x), i)
  {
    var own := OwnOf(c, s);
    var all := done + [o.contributions[k]];
    NextStaysTyped(c, c, i, s, o, p, k + 1, done);
    NextStaysTyped(c, SetOwn(c, s, own.(arm := Review(own.arm, true, false))), i, s, o, p, k + 1, done);
    NextStaysTyped(c, SetOwn(c, s, own.(arm := Review(own.arm, c.launch.armConfigured, true))), i, s, o, p, k + 1, done);
    NextStaysTyped(c, SetOwn(c, s, LostOwn(c.launch, own)), i, s, o, p, k + 1, done);
    NextStaysTyped(c, SetOwn(c, s, AdmittedOwn(c.launch, own)), i, s, o, p, k + 1, all);
  }

  lemma DeliverStaysTyped(c: State, m: State, i: nat, s: SessionId, r: Receipt, ioOk: bool)
    requires i < |c.slots| && m.slots == c.slots
    ensures TypedMove(c, Deliver(m, i, s, r, ioOk), i)
  {
  }

  lemma RaisedStaysTyped(c: State, m: State, i: nat, s: SessionId, d: Draft)
    requires i < |c.slots| && m.slots == c.slots
    ensures TypedMove(c, BuildRaised(m, i, s, d), i)
  {
    PersistStaysTyped(c, m, i, s, Persist(HostFailedDraft(None, false, Exn(None, "Exception"))));
  }

  lemma WriteStaysTyped(c: State, m: State, i: nat, s: SessionId, d: Draft, x: Oracle)
    requires i < |c.slots| && m.slots == c.slots
    ensures TypedMove(c, Write(m, i, s, d, x), i)
  {
    var e := EventFor(m.guard, s);
    var m1 := Observe(m, e);
    if BuildingRaises(m, d, x) {
      RaisedStaysTyped(c, m1, i, s, d);
    } else {
      DeliverStaysTyped(c, m1, i, s, BuildReceipt(m1, s, Override(d, e)), x.ioOk);
    }
  }

  lemma DecideStaysTyped(c: State, m: State, i: nat, s: SessionId, r: Reported, p: StopProof, x: Oracle)
    requires i < |c.slots| && m.slots == c.slots && !r.Garbage?
    ensures TypedMove(c, DecideOutcome(m, i, s, r, p, x), i)
  {
    var e := EventFor(m.guard, s);
    var m1 := Observe(m, e);
    if e.Some? {
      var (status, reason) := ResourceStatus(e.value, p);
      PersistStaysTyped(c, m1, i, s, Persist(Draft(status, reason, true, r, Some(p), [], None, Some(e.value.code), false)));
    } else if !r.Typed? {
      PutStaysTyped(c, m1, i, s, HostStopping(Exn(None, "AttributeError")));
    } else if !r.outcome.success {
      PersistStaysTyped(c, m1, i, s, Persist(Draft(Failed, r.outcome.reason, true, r, Some(p), [], None, None, false)));
    } else {
      ClearedStaysTyped(c, m1, i, s, r.outcome, p);
    }
  }

  lemma ClearedStaysTyped(c: State, m: State, i: nat, s: SessionId, o: Outcome, p: StopProof)
    requires i < |c.slots| && m.slots == c.slots
    ensures TypedMove(c, Cleared(m, i, s, o, p), i)
  {
  }

  lemma DoneStaysTyped(c: State, m: State, i: nat, s: SessionId, after: AfterFinish, x: Oracle)
    requires i < |c.slots| && m.slots == c.slots && TypedPhase(Finishing(AtOnce, after))
    ensures TypedMove(c, FinishDone(m, i, s, after, x), i)
  {
    var m1 := m.(guard := m.guard.(finished := m.guard.finished + {s}));
    match after {
      case Persist(d) => WriteStaysTyped(c, m1, i, s, d, x);
      case Decide(r, p) => DecideStaysTyped(c, m1, i, s, r, p, x);
    }
  }

  lemma FinishStaysTyped(c: State, i: nat, s: SessionId, stage: Stage, after: AfterFinish, x: Oracle)
    requires i < |c.slots| && TypedPhase(Finishing(stage, after))
    ensures TypedMove(c, FinishStep(c, i, s, stage, after, x), i)
  {
    match stage {
      case AtDisk => PutStaysTyped(c, c.(guard := CheckDisk(c.guard, Terminal, x.disk).0), i, s, Finishing(AtWorkspace, after));
      case AtWorkspace =>
        PutStaysTyped(c, c.(guard := CheckTree(c.guard, s, Workspace, Terminal, x.tree).0), i, s, Finishing(AtCache, after));
      case AtCache => DoneStaysTyped(c, c.(guard := CheckTree(c.guard, s, Cache, Terminal, x.tree).0), i, s, after, x);
      case AtOnce => DoneStaysTyped(c, c, i, s, after, x);
    }
  }

  lemma PhaseStaysTyped(c: State, i: nat, s: SessionId, phase: Phase, x: Oracle)
    requires i < |c.slots| && c.slots[i] == Busy(s, phase) && TypedPhase(phase) && Trusted(x)
    ensures TypedMove(c, PhaseStep(c, i, s, phase, x), i)
  {
    match phase {
      case Preparing => PrepareStaysTyped(c, i, s, x);
      case ActivatingWorkspace => ActivateStaysTyped(c, i, s, Workspace, x);
      case ActivatingCache => ActivateStaysTyped(c, i, s, Cache, x);
      case Launching => LaunchStaysTyped(c, i, s, x);
      case Starting => HandleStaysTyped(c, i, s, Drift(), x);
      case JoiningStart(e) => HandleStaysTyped(c, i, s, e, x);
      case StoppingStart(e) => HandleStaysTyped(c, i, s, e, x);
      case Started => ErrorStaysTyped(c, i, s, Drift(), x);
      case EarlyStopping(seen) => StopStaysTyped(c, i, s, seen, false, x);
      case Running => ArbitrateStaysTyped(c, i, s, x);
      case StoppingAfterWaitError(e) => ErrorStaysTyped(c, i, s, e, x);
      case Confirming(r) => ConfirmStaysTyped(c, i, s, r, x);
      case Halting(seen, wall) => StopStaysTyped(c, i, s, seen, wall, x);
      case Publishing(o, p, k, done) => if k < |o.contributions| { PublishStaysTyped(c, i, s, o, p, k, done, x); }
      case HostStopping(e) => ErrorStaysTyped(c, i, s, e, x);
      case Finishing(stage, after) => FinishStaysTyped(c, i, s, stage, after, x);
    }
  }

  lemma MoveStaysTyped(c: State, d: State, i: nat)
    requires TypedSlots(c) && i < |c.slots| && TypedMove(c, d, i)
    ensures TypedSlots(d)
  {
    forall j: nat | j < |d.slots| ensures TypedSlot(d.slots[j]) {
      assert TypedSlot(c.slots[j]);
    }
  }

  lemma WorkerStaysTyped(c: State, i: nat)
    requires i < |c.slots| && !c.slots[i].Busy?
    ensures TypedMove(c, WorkerNext(c, i), i)
  {
  }

  lemma SettleOneStaysTyped(c: State, i: nat)
    requires i < |c.slots| && !c.slots[i].Busy?
    ensures TypedMove(c, SettleOne(c, i), i)
  {
  }

  lemma SettlerStaysTyped(c: State, i: nat)
    requires i < |c.slots| && !c.slots[i].Busy?
    ensures TypedMove(c, SettleNext(c, i), i)
  {
    if WorkersDone(c) {
      SettleOneStaysTyped(SettleFlags(c), i);
    }
  }

  lemma FreeSlotStaysTyped(c: State, i: nat, x: Oracle)
    requires i < |c.slots| && !c.slots[i].Busy?
    ensures TypedMove(c, SlotStep(c, i, x), i)
  {
    WorkerStaysTyped(c, i);
    SettlerStaysTyped(c, i);
  }

  lemma SlotStaysTyped(c: State, i: nat, x: Oracle)
    requires TypedSlots(c) && Trusted(x) && i < |c.slots|
    ensures TypedSlots(SlotStep(c, i, x))
  {
    assert TypedSlot(c.slots[i]);
    if c.slots[i].Busy? {
      PhaseStaysTyped(c, i, c.slots[i].session, c.slots[i].phase, x);
    } else {
      FreeSlotStaysTyped(c, i, x);
    }
    MoveStaysTyped(c, SlotStep(c, i, x), i);
  }

  lemma StepStaysTyped(c: State, a: Actor, x: Oracle)
    requires TypedSlots(c) && Trusted(x)
    ensures TypedSlots(Step(c, a, x)) && Calm(c, a, x)
  {
    if a.SlotActor? && a.slot < |c.slots| {
      assert TypedSlot(c.slots[a.slot]);
      SlotStaysTyped(c, a.slot, x);
    }
  }

  /** In a contract-keeping run no receipt fails to be built. */
  lemma {:induction false} TrustedIsCalm(c: State, schedule: seq<(Actor, Oracle)>)
    requires TypedSlots(c) && TrustedSchedule(schedule)
    ensures CalmRun(c, schedule) && TypedSlots(Run(c, schedule))
    decreases |schedule|
  {
    if schedule != [] {
      var n := |schedule| - 1;
      TrustedIsCalm(c, schedule[..n]);
      StepStaysTyped(Run(c, schedule[..n]), schedule[n].0, schedule[n].1);
    }
  }
}
