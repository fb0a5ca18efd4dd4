/** Every step of a busy slot keeps the cohort invariant: one lemma per phase. */
module CohortSteps {
  import opened Contracts
  import opened ResourceGuard
  import opened ReceiptRules
  import opened Cohort
  import opened CohortInvariant

  /** The step does not raise while building a receipt. */
  predicate CalmAt(c: State, phase: Phase, x: Oracle) {
    phase.Finishing? && (phase.stage.AtCache? || phase.stage.AtOnce?) && phase.after.Persist? ==>
      !BuildingRaises(c, phase.after.draft, x)
  }

  lemma PutLands(calm: bool, c: State, m: State, i: nat, s: SessionId, phase: Phase)
    requires Ready(calm, c, i, s) && Mid(c, m, s)
    requires PhaseOk(Clean(calm, m), m.launch, m.guard, OwnOf(m, s), s, phase)
    requires Clean(calm, m) && ((m.unsafe && !c.unsafe) || UnknownDraft(c.slots[i])) ==>
               GlobalUncertain(m.guard) || UnknownDraft(Busy(s, phase))
    ensures Lands(calm, c, Put(m, i, Busy(s, phase)), i, s)
  {
  }

  lemma FinishLands(calm: bool, c: State, m: State, i: nat, s: SessionId, after: AfterFinish)
    requires Ready(calm, c, i, s) && Mid(c, m, s)
    requires AfterOk(Clean(calm, m), m.launch, m.guard, OwnOf(m, s), after)
    requires Clean(calm, m) && ((m.unsafe && !c.unsafe) || UnknownDraft(c.slots[i])) ==>
               GlobalUncertain(m.guard) || (after.Persist? && after.draft.status == Unknown)
    ensures Lands(calm, c, EnterFinish(m, i, s, after), i, s)
  {
    var stage := if s in m.guard.finished || s !in m.guard.activated then AtOnce else AtDisk;
    PutLands(calm, c, m, i, s, Finishing(stage, after));
  }

  lemma MidSelf(c: State, s: SessionId)
    requires GuardOk(c.guard)
    ensures Mid(c, c, s)
  {
    MarkingKeepsGuard(c.guard, c.guard);
  }

  /** Flags and the session's own record may change freely on the way. */
  lemma MidFlags(c: State, s: SessionId, m: State)
    requires GuardOk(c.guard)
    requires m == c.(own := m.own, unsafe := m.unsafe, stopNew := m.stopNew)
    requires forall t :: t != s ==> OwnOf(m, t) == OwnOf(c, t)
    requires m.own.Keys <= c.own.Keys + {s}
    requires (c.unsafe ==> m.unsafe) && (c.stopNew ==> m.stopNew)
    ensures Mid(c, m, s)
  {
    MarkingKeepsGuard(c.guard, c.guard);
  }

  lemma ObserveMid(c: State, m: State, s: SessionId, e: Option<Event>)
    requires Mid(c, m, s) && SeenOk(m.guard, s, e)
    ensures Mid(c, Observe(m, e), s)
    ensures OwnOf(Observe(m, e), s) == OwnOf(m, s) && Observe(m, e).guard == m.guard
    ensures Observe(m, e).unsafe ==> m.unsafe || GlobalUncertain(m.guard)
    ensures e.Some? && e.value.uncertain ==> GlobalUncertain(m.guard)
  {
    SeenUncertain(m.guard, s, e);
  }

  lemma OwnMid(c: State, m: State, s: SessionId, o: Own)
    requires Mid(c, m, s)
    ensures Mid(c, SetOwn(m, s, o), s)
    ensures OwnOf(SetOwn(m, s, o), s) == o
  {
  }

  lemma MarkMid(c: State, m: State, s: SessionId, proven: bool)
    requires Mid(c, m, s)
    ensures Mid(c, MarkUnsafe(m, proven), s)
    ensures OwnOf(MarkUnsafe(m, proven), s) == OwnOf(m, s) && MarkUnsafe(m, proven).guard == m.guard
  {
  }

  lemma SeenUncertain(g: Guard, s: SessionId, e: Option<Event>)
    requires GuardOk(g) && SeenOk(g, s, e)
    ensures e.Some? && e.value.uncertain ==> GlobalUncertain(g)
  {
    assert SessionOk(g, s);
  }

  // ---------------------------------------------------------------- up to the handle

  lemma PersistLands(calm: bool, c: State, m: State, i: nat, s: SessionId, d: Draft)
    requires Ready(calm, c, i, s) && Mid(c, m, s)
    requires Clean(calm, m) ==> !UnknownDraft(c.slots[i])
    requires DraftOk(Clean(calm, m), m.launch, m.guard, OwnOf(m, s), d)
    requires m.unsafe && !c.unsafe ==> GlobalUncertain(m.guard) || d.status == Unknown
    ensures Lands(calm, c, BeginPersist(m, i, s, d), i, s)
  {
    FinishLands(calm, c, m, i, s, Persist(d));
  }

  lemma HostFailureLands(calm: bool, c: State, m: State, i: nat, s: SessionId, started: bool, e: Exn)
    requires Ready(calm, c, i, s) && Mid(c, m, s)
    requires Clean(calm, m) ==> !UnknownDraft(c.slots[i])
    requires ValidTally(m.launch, OwnOf(m, s).arm) && History(OwnOf(m, s))
    requires if started then OwnOf(m, s).handle else OwnOf(m, s).handle ==> OwnOf(m, s).stop.Some?
    requires Clean(calm, m) ==> OwnOf(m, s).(stop := None) == FRESH.(handle := started)
    requires m.unsafe && !c.unsafe ==> GlobalUncertain(m.guard)
    ensures Lands(calm, c, HostFailure(m, i, s, started, e), i, s)
  {
    if started {
      PutLands(calm, c, m, i, s, HostStopping(e));
    } else {
      PersistLands(calm, c, m, i, s, HostFailedDraft(None, false, e));
    }
  }

  lemma AfterActivationLands(calm: bool, c: State, m: State, i: nat, s: SessionId)
    requires Ready(calm, c, i, s) && Mid(c, m, s) && !UnknownDraft(c.slots[i])
    requires OwnOf(m, s) == FRESH && s in m.guard.activated && s !in m.guard.finished
    requires m.unsafe == c.unsafe
    ensures Lands(calm, c, AfterActivation(m, i, s), i, s)
  {
    var e := EventFor(m.guard, s);
    var m1 := Observe(m, e);
    ObserveMid(c, m, s, e);
    if e.Some? {
      var (status, reason) := ResourceStatus(e.value, NOT_STARTED_PROOF);
      PersistLands(calm, c, m1, i, s,
        Draft(status, reason, false, NoOutcome, Some(NOT_STARTED_PROOF), [], None, Some(e.value.code), false));
    } else if m1.stopNew {
      PersistLands(calm, c, m1, i, s, NotStartedDraft());
    } else {
      PutLands(calm, c, m1, i, s, Launching);
    }
  }

  lemma PrepareLands(calm: bool, c: State, i: nat, s: SessionId, x: Oracle)
    requires Ready(calm, c, i, s) && c.slots[i].phase == Preparing
    ensures Lands(calm, c, Prepare(c, i, s, x), i, s)
  {
    if !x.ok {
      MidSelf(c, s);
      HostFailureLands(calm, c, c, i, s, false, x.exn);
    } else {
      var m := c.(guard := c.guard.(activated := c.guard.activated + {s}));
      MarkingKeepsGuard(c.guard, m.guard);
      if m.guard.global.Some? {
        AfterActivationLands(calm, c, m, i, s);
      } else {
        PutLands(calm, c, m, i, s, ActivatingWorkspace);
      }
    }
  }

  lemma ActivateLands(calm: bool, c: State, i: nat, s: SessionId, target: Target, x: Oracle)
    requires Ready(calm, c, i, s)
    requires c.slots[i].phase == if target.Workspace? then ActivatingWorkspace else ActivatingCache
    ensures Lands(calm, c, Activate(c, i, s, target, x), i, s)
  {
    CheckTreeKeepsGuard(c.guard, s, target, Initial, x.tree);
    var (g, e) := CheckTree(c.guard, s, target, Initial, x.tree);
    var m := c.(guard := g);
    if target.Workspace? && (e.None? || e.value.disposition == Some(Warn)) {
      PutLands(calm, c, m, i, s, ActivatingCache);
    } else {
      AfterActivationLands(calm, c, m, i, s);
    }
  }

  lemma StartFailedDraftOk(clean: bool, m: State, s: SessionId, e: Option<Event>, error: Exn, proof: Option<StopProof>)
    requires GuardOk(m.guard) && SeenOk(m.guard, s, e)
    requires OwnOf(m, s) == FRESH || (OwnOf(m, s) == HANDLED.(stop := proof) && proof.Some?)
    ensures DraftOk(clean, m.launch, m.guard, OwnOf(m, s), StartFailedDraft(e, m.stopNew, error, proof))
    ensures !Stopped(proof) || (e.Some? && e.value.uncertain) <==>
              StartFailedDraft(e, m.stopNew, error, proof).status == Unknown
  {
    SeenUncertain(m.guard, s, e);
  }

  /** The state in which the receipt of a failed start is drafted. */
  lemma StartFailedMid(calm: bool, c: State, m: State, m1: State, s: SessionId, proof: Option<StopProof>)
    requires Mid(c, m, s) && (m.unsafe && !c.unsafe ==> GlobalUncertain(m.guard))
    requires m1 == MarkUnsafe(Observe(m, EventFor(m.guard, s)), Stopped(proof))
    ensures Mid(c, m1, s) && OwnOf(m1, s) == OwnOf(m, s) && m1.guard == m.guard && m1.launch == m.launch
    ensures m1.unsafe && !c.unsafe ==> GlobalUncertain(m1.guard) || !Stopped(proof)
    ensures Clean(calm, m1) == Clean(calm, m)
  {
    var e := EventFor(m.guard, s);
    ObserveMid(c, m, s, e);
    MarkMid(c, Observe(m, e), s, Stopped(proof));
  }

  lemma StartFailedLands(calm: bool, c: State, m: State, i: nat, s: SessionId, error: Exn, proof: Option<StopProof>)
    requires Ready(calm, c, i, s) && Mid(c, m, s) && !UnknownDraft(c.slots[i])
    requires OwnOf(m, s) == FRESH || (OwnOf(m, s) == HANDLED.(stop := proof) && proof.Some?)
    requires m.unsafe && !c.unsafe ==> GlobalUncertain(m.guard)
    ensures Lands(calm, c, StartFailed(m, i, s, error, proof), i, s)
  {
    var e := EventFor(m.guard, s);
    var m1 := MarkUnsafe(Observe(m, e), Stopped(proof));
    StartFailedMid(calm, c, m, m1, s, proof);
    StartFailedDraftOk(Clean(calm, m1), m1, s, e, error, proof);
    var d := StartFailedDraft(e, m1.stopNew, error, proof);
    PersistLands(calm, c, m1, i, s, d);
    assert StartFailed(m, i, s, error, proof) == BeginPersist(m1, i, s, d);
  }

  lemma LaunchLands(calm: bool, c: State, i: nat, s: SessionId, x: Oracle)
    requires Ready(calm, c, i, s) && c.slots[i].phase == Launching
    ensures Lands(calm, c, LaunchBackend(c, i, s, x), i, s)
  {
    MidSelf(c, s);
    if !x.ok {
      HostFailureLands(calm, c, c, i, s, false, x.exn);
    } else if !x.identity {
      StartFailedLands(calm, c, c, i, s, Drift(), Some(NOT_STARTED_PROOF));
    } else {
      PutLands(calm, c, c, i, s, Starting);
    }
  }

  lemma AcceptStartLands(calm: bool, c: State, m: State, i: nat, s: SessionId, r: StartResult,
                         identity: bool, cancelled: Option<Exn>)
    requires Ready(calm, c, i, s) && Mid(c, m, s) && !UnknownDraft(c.slots[i])
    requires OwnOf(m, s) == FRESH && s in m.guard.activated && s !in m.guard.finished
    requires m.unsafe && !c.unsafe ==> GlobalUncertain(m.guard)
    ensures Lands(calm, c, AcceptStart(m, i, s, r, identity, cancelled), i, s)
  {
    match r {
      case StartRaised(e, p) => StartFailedLands(calm, c, m, i, s, e, p);
      case GotOther =>
        StartFailedLands(calm, c, m, i, s, Exn(Some(BackendHandleInvalid), "RuntimeOrchestrationError"), None);
      case GotHandle =>
        var m1 := SetOwn(m, s, OwnOf(m, s).(handle := true));
        OwnMid(c, m, s, OwnOf(m, s).(handle := true));
        PutLands(calm, c, m1, i, s,
          if !identity then StoppingStart(Drift())
          else if cancelled.Some? then StoppingStart(cancelled.value) else Started);
    }
  }

  lemma WokenMid(c: State, s: SessionId, x: Oracle)
    requires GuardOk(c.guard)
    ensures Mid(c, Woken(c, s, x), s)
    ensures OwnOf(Woken(c, s, x), s) == OwnOf(c, s) && Woken(c, s, x).guard == c.guard
    ensures Woken(c, s, x).unsafe ==> c.unsafe || GlobalUncertain(c.guard)
  {
    MidSelf(c, s);
    ObserveMid(c, c, s, WakeEvent(c.guard, s, x.stale));
  }

  lemma AwaitStartLands(calm: bool, c: State, i: nat, s: SessionId, x: Oracle)
    requires Ready(calm, c, i, s) && c.slots[i].phase == Starting
    ensures Lands(calm, c, AwaitStart(c, i, s, x), i, s)
  {
    var m := Woken(c, s, x);
    WokenMid(c, s, x);
    if x.start.Some? {
      AcceptStartLands(calm, c, m, i, s, x.start.value, x.identity, None);
    } else {
      PutLands(calm, c, m, i, s,
        JoiningStart(JoinError(m.guard, s, (x.sawStop && c.stopNew) || Signalled(c, s, x))));
    }
  }

  lemma JoinStartLands(calm: bool, c: State, i: nat, s: SessionId, error: Exn, x: Oracle)
    requires Ready(calm, c, i, s) && c.slots[i].phase == JoiningStart(error)
    ensures Lands(calm, c, JoinStart(c, i, s, error, x), i, s)
  {
    MidSelf(c, s);
    if x.start.None? {
      PutLands(calm, c, c, i, s, JoiningStart(error));
      assert Put(c, i, c.slots[i]) == c;
    } else {
      AcceptStartLands(calm, c, c, i, s, x.start.value, x.identity, Some(error));
    }
  }

  lemma RecordStopMid(c: State, s: SessionId, p: StopProof)
    requires GuardOk(c.guard)
    ensures Mid(c, MarkUnsafe(RecordStop(c, s, p), p.stopped), s)
    ensures OwnOf(MarkUnsafe(RecordStop(c, s, p), p.stopped), s) == OwnOf(c, s).(stop := Some(p))
    ensures p.stopped ==> MarkUnsafe(RecordStop(c, s, p), p.stopped).unsafe == c.unsafe
  {
    MidFlags(c, s, MarkUnsafe(RecordStop(c, s, p), p.stopped));
  }

  lemma StopRefusedStartLands(calm: bool, c: State, i: nat, s: SessionId, error: Exn, x: Oracle)
    requires Ready(calm, c, i, s) && c.slots[i].phase == StoppingStart(error)
    ensures Lands(calm, c, StopRefusedStart(c, i, s, error, x), i, s)
  {
    MidFlags(c, s, RecordStop(c, s, x.proof));
    StartFailedLands(calm, c, RecordStop(c, s, x.proof), i, s, error, Some(x.proof));
  }

  // ---------------------------------------------------------------- with a handle

  lemma BeginRunningLands(calm: bool, c: State, i: nat, s: SessionId, x: Oracle)
    requires Ready(calm, c, i, s) && c.slots[i].phase == Started
    ensures Lands(calm, c, BeginRunning(c, i, s, x), i, s)
  {
    MidSelf(c, s);
    if !x.ok {
      HostFailureLands(calm, c, c, i, s, true, x.exn);
    } else {
      var e := EventFor(c.guard, s);
      PutLands(calm, c, c, i, s, if c.stopNew || e.Some? then EarlyStopping(e) else Running);
    }
  }

  lemma StopEarlyLands(calm: bool, c: State, i: nat, s: SessionId, seen: Option<Event>, x: Oracle)
    requires Ready(calm, c, i, s) && c.slots[i].phase == EarlyStopping(seen)
    ensures Lands(calm, c, StopEarly(c, i, s, seen, x), i, s)
  {
    var p := x.proof;
    RecordStopMid(c, s, p);
    SeenUncertain(c.guard, s, seen);
    var m := Observe(MarkUnsafe(RecordStop(c, s, p), p.stopped), seen);
    ObserveMid(c, MarkUnsafe(RecordStop(c, s, p), p.stopped), s, seen);
    var (status, reason) :=
      if seen.Some? then ResourceStatus(seen.value, p)
      else if p.stopped then (Cancelled, CohortCancelled) else (Unknown, StopUnproven);
    PersistLands(calm, c, m, i, s,
      Draft(status, reason, true, NoOutcome, Some(p), [], None, EventCode(seen), false));
  }

  lemma InterruptLands(calm: bool, c: State, i: nat, s: SessionId, seen: Option<Event>, wall: bool, x: Oracle)
    requires Ready(calm, c, i, s) && c.slots[i].phase == Running && SeenOk(c.guard, s, seen)
    ensures Lands(calm, c, Interrupt(c, i, s, seen, wall, x), i, s)
  {
    MidSelf(c, s);
    SeenUncertain(c.guard, s, seen);
    var m := Observe(c, seen);
    ObserveMid(c, c, s, seen);
    if !x.ok {
      HostFailureLands(calm, c, m, i, s, true, x.exn);
    } else {
      var m1 := SetOwn(m, s, OwnOf(m, s).(halted := true));
      OwnMid(c, m, s, OwnOf(m, s).(halted := true));
      PutLands(calm, c, m1, i, s, Halting(seen, wall));
    }
  }

  lemma CompletionLands(calm: bool, c: State, i: nat, s: SessionId, w: WaitResult)
    requires Ready(calm, c, i, s) && c.slots[i].phase == Running
    ensures Lands(calm, c, Put(c, i, Busy(s, CompletionPhase(w))), i, s)
  {
    MidSelf(c, s);
    PutLands(calm, c, c, i, s, CompletionPhase(w));
  }

  lemma StillRunningLands(calm: bool, c: State, i: nat, s: SessionId)
    requires Ready(calm, c, i, s) && c.slots[i].phase == Running
    ensures Lands(calm, c, c, i, s)
  {
    MidSelf(c, s);
    PutLands(calm, c, c, i, s, Running);
    assert Put(c, i, c.slots[i]) == c;
  }

  lemma ArbitrateLands(calm: bool, c: State, i: nat, s: SessionId, x: Oracle)
    requires Ready(calm, c, i, s) && c.slots[i].phase == Running
    ensures Lands(calm, c, Arbitrate(c, i, s, x), i, s)
  {
    var wall := x.wall && c.launch.wallLimited;
    if x.wait.Some? {
      CompletionLands(calm, c, i, s, x.wait.value);
    } else if !(x.sawStop && c.stopNew) && !Signalled(c, s, x) && !wall {
      StillRunningLands(calm, c, i, s);
    } else {
      InterruptLands(calm, c, i, s, if Signalled(c, s, x) then WakeEvent(c.guard, s, x.stale) else None, wall, x);
    }
  }

  lemma StopAfterWaitErrorLands(calm: bool, c: State, i: nat, s: SessionId, error: Exn, x: Oracle)
    requires Ready(calm, c, i, s) && c.slots[i].phase == StoppingAfterWaitError(error)
    ensures Lands(calm, c, StopAfterWaitError(c, i, s, error, x), i, s)
  {
    var p := x.proof;
    RecordStopMid(c, s, p);
    PersistLands(calm, c, MarkUnsafe(RecordStop(c, s, p), p.stopped), i, s,
      Draft(if p.stopped then Failed else Unknown, if p.stopped then BackendWaitFailed else StopUnproven,
            true, NoOutcome, Some(p), [], Some(error), Some(BackendWaitFailed), false));
  }

  lemma HaltLands(calm: bool, c: State, i: nat, s: SessionId, seen: Option<Event>, wall: bool, x: Oracle)
    requires Ready(calm, c, i, s) && c.slots[i].phase == Halting(seen, wall)
    ensures Lands(calm, c, Halt(c, i, s, seen, wall, x), i, s)
  {
    var p := x.proof;
    RecordStopMid(c, s, p);
    SeenUncertain(c.guard, s, seen);
    var m := MarkUnsafe(RecordStop(c, s, p), p.stopped);
    var d := Halt(c, i, s, seen, wall, x).slots[i].phase.after.draft;
    assert Halt(c, i, s, seen, wall, x) == BeginPersist(m, i, s, d);
    PersistLands(calm, c, m, i, s, d);
  }

  lemma ConfirmLands(calm: bool, c: State, i: nat, s: SessionId, r: Reported, x: Oracle)
    requires Ready(calm, c, i, s) && c.slots[i].phase == Confirming(r)
    ensures Lands(calm, c, Confirm(c, i, s, r, x), i, s)
  {
    var p := x.proof;
    RecordStopMid(c, s, p);
    var m := MarkUnsafe(RecordStop(c, s, p), p.stopped);
    if p.stopped {
      FinishLands(calm, c, m, i, s, Decide(r, p));
    } else {
      PersistLands(calm, c, m, i, s, Draft(Unknown, StopUnproven, true, r, Some(p), [], None, None, false));
    }
  }

  lemma StopAfterHostFailureLands(calm: bool, c: State, i: nat, s: SessionId, error: Exn, x: Oracle)
    requires Ready(calm, c, i, s) && c.slots[i].phase == HostStopping(error)
    ensures Lands(calm, c, StopAfterHostFailure(c, i, s, error, x), i, s)
  {
    var p := x.proof;
    RecordStopMid(c, s, p);
    PersistLands(calm, c, MarkUnsafe(RecordStop(c, s, p), p.stopped), i, s, HostFailedDraft(Some(p), true, error));
  }

  // ---------------------------------------------------------------- receipts

  lemma OverrideIsProven(g: Guard, o: Own, l: Launch, d: Draft, e: Option<Event>)
    requires DraftOk(true, l, g, o, d) && GuardOk(g)
    requires e.Some? ==> e == g.global || !e.value.uncertain
    requires g.global.Some? ==> e == g.global
    ensures var k := Override(d, e);
            && DraftOk(true, l, g, o, k)
            && (k.status == Unknown && Stopped(k.proof) ==> k.reason == ResourceAccountingUncertain)
            && (GlobalUncertain(g) || d.status == Unknown ==> k.status == Unknown)
  {
  }

  lemma EventForIsLatched(g: Guard, s: SessionId)
    requires GuardOk(g)
    ensures EventFor(g, s).Some? ==> EventFor(g, s) == g.global || !EventFor(g, s).value.uncertain
    ensures GlobalUncertain(g) ==> AccountingUnknown(EvidenceFor(g, s))
  {
    assert SessionOk(g, s);
  }

  /** The heart of producer/validator agreement: a receipt built from a draft
      the host can reach meets every rule of the store, error size apart. */
  lemma BuiltReceiptAccepted(c: State, s: SessionId, d: Draft)
    requires GuardOk(c.guard) && s in c.launch.sessions && c.guard.sessions == c.launch.sessions
    requires DraftOk(true, c.launch, c.guard, OwnOf(c, s), d)
    ensures AcceptsApartFromError(c.launch, BuildReceipt(c, s, Override(d, EventFor(c.guard, s))))
  {
    var e := EventFor(c.guard, s);
    EventForIsLatched(c.guard, s);
    OverrideIsProven(c.guard, OwnOf(c, s), c.launch, d, e);
    EvidenceIsValid(c.guard, s);
  }

  /** A receipt that may be offered to the store for `s`. */
  ghost predicate Deliverable(clean: bool, l: Launch, o: Own, s: SessionId, r: Receipt) {
    && r.session == s
    && Released(l, o)
    && (r.status == Succeeded ==> o.cleared.Some?)
    && (r.started ==> o.handle && r.proof == o.stop)
    && Records(clean, o, r)
    && (clean ==> AcceptsApartFromError(l, r))
    && EventDecides(r)
  }

  lemma BuiltReceiptRecords(clean: bool, c: State, s: SessionId, d: Draft, e: Option<Event>)
    requires DraftOk(clean, c.launch, c.guard, OwnOf(c, s), d)
    ensures Records(clean, OwnOf(c, s), BuildReceipt(c, s, Override(d, e)))
  {
  }

  lemma BuiltReceiptDeliverable(clean: bool, c: State, s: SessionId, d: Draft)
    requires GuardOk(c.guard) && s in c.launch.sessions && c.guard.sessions == c.launch.sessions
    requires DraftOk(clean, c.launch, c.guard, OwnOf(c, s), d)
    ensures Deliverable(clean, c.launch, OwnOf(c, s), s, BuildReceipt(c, s, Override(d, EventFor(c.guard, s))))
  {
    EventForIsLatched(c.guard, s);
    BuiltReceiptRecords(clean, c, s, d, EventFor(c.guard, s));
    if clean {
      BuiltReceiptAccepted(c, s, d);
    }
  }

  lemma DeliverLands(calm: bool, c: State, m: State, i: nat, s: SessionId, r: Receipt, ioOk: bool)
    requires Ready(calm, c, i, s) && Mid(c, m, s)
    requires Deliverable(Clean(calm, m), m.launch, OwnOf(m, s), s, r)
    requires Clean(calm, m) && ((m.unsafe && !c.unsafe) || UnknownDraft(c.slots[i]) || GlobalUncertain(c.guard)) ==>
               r.status == Unknown
    ensures Lands(calm, c, Deliver(m, i, s, r, ioOk), i, s)
  {
  }

  lemma BuildRaisedLands(calm: bool, c: State, m: State, i: nat, s: SessionId, d: Draft)
    requires Ready(calm, c, i, s) && Mid(c, m, s) && !Clean(calm, m)
    requires DraftOk(false, m.launch, m.guard, OwnOf(m, s), d)
    requires m.unsafe && !c.unsafe ==> GlobalUncertain(m.guard)
    ensures Lands(calm, c, BuildRaised(m, i, s, d), i, s)
  {
    if !(d.handling || i == |c.slots| - 1) {
      HostFailureLands(calm, c, m, i, s, d.started, Exn(None, "Exception"));
    }
  }

  lemma WriteLands(calm: bool, c: State, m: State, i: nat, s: SessionId, d: Draft, x: Oracle)
    requires Ready(calm, c, i, s) && Mid(c, m, s) && m.unsafe == c.unsafe
    requires UnknownDraft(c.slots[i]) ==> d.status == Unknown
    requires DraftOk(Clean(calm, m), m.launch, m.guard, OwnOf(m, s), d)
    requires calm ==> !BuildingRaises(m, d, x)
    ensures Lands(calm, c, Write(m, i, s, d, x), i, s)
  {
    var e := EventFor(m.guard, s);
    var m1 := Observe(m, e);
    ObserveMid(c, m, s, e);
    if BuildingRaises(m, d, x) {
      BuildRaisedLands(calm, c, m1, i, s, d);
    } else {
      BuiltReceiptDeliverable(Clean(calm, m1), m1, s, d);
      if Clean(calm, m1) {
        EventForIsLatched(m1.guard, s);
        OverrideIsProven(m1.guard, OwnOf(m1, s), m1.launch, d, e);
      }
      DeliverLands(calm, c, m1, i, s, BuildReceipt(m1, s, Override(d, e)), x.ioOk);
    }
  }

  // ---------------------------------------------------------------- after a proven stop

  lemma DecideLands(calm: bool, c: State, m: State, i: nat, s: SessionId, r: Reported, p: StopProof, x: Oracle)
    requires Ready(calm, c, i, s) && Mid(c, m, s) && m.unsafe == c.unsafe
    requires !UnknownDraft(c.slots[i]) && s in m.guard.finished
    requires AfterOk(Clean(calm, m), m.launch, m.guard, OwnOf(m, s), Decide(r, p))
    ensures Lands(calm, c, DecideOutcome(m, i, s, r, p, x), i, s)
  {
    var e := EventFor(m.guard, s);
    var m1 := Observe(m, e);
    ObserveMid(c, m, s, e);
    if e.Some? {
      var (status, reason) := ResourceStatus(e.value, p);
      PersistLands(calm, c, m1, i, s, Draft(status, reason, true, r, Some(p), [], None, Some(e.value.code), false));
    } else if !r.Typed? {
      HostFailureLands(calm, c, m1, i, s, true, Exn(None, "AttributeError"));
    } else if !r.outcome.success {
      PersistLands(calm, c, m1, i, s, Draft(Failed, r.outcome.reason, true, r, Some(p), [], None, None, false));
    } else {
      ClearedLands(calm, c, m1, i, s, r.outcome, p);
    }
  }

  lemma ClearedLands(calm: bool, c: State, m: State, i: nat, s: SessionId, o: Outcome, p: StopProof)
    requires Ready(calm, c, i, s) && Mid(c, m, s) && !UnknownDraft(c.slots[i])
    requires m.unsafe && !c.unsafe ==> GlobalUncertain(m.guard)
    requires s in m.guard.finished && p.stopped && o.success && OwnOf(m, s) == HANDLED.(stop := Some(p))
    ensures Lands(calm, c, Cleared(m, i, s, o, p), i, s)
  {
    var m1 := SetOwn(m, s, OwnOf(m, s).(cleared := Some(p)));
    OwnMid(c, m, s, OwnOf(m, s).(cleared := Some(p)));
    if o.contributions == [] {
      PersistLands(calm, c, m1, i, s, SucceededDraft(o, p, []));
    } else if m.launch.publisher.NoPublisher? {
      PersistLands(calm, c, m1, i, s, PublishFailedDraft(o, p, [], PmwPublishUnavailable));
    } else {
      PutLands(calm, c, m1, i, s, Publishing(o, p, 0, []));
    }
  }

  // ---------------------------------------------------------------- publication

  /** The session's record while its contributions are being published. */
  ghost predicate Settled(l: Launch, o: Own, oc: Outcome, p: StopProof, k: nat, done: seq<string>) {
    && o.stop == Some(p) && o.cleared == Some(p) && o.handle && History(o)
    && l.publisher.Publisher? && ValidTally(l, o.arm) && o.published == |done| && o.lost == 0
    && |done| + o.arm.rejected == k <= |oc.contributions| && oc.success
    && Subsequence(done, oc.contributions[..k])
  }

  lemma SubsequenceGrows(a: seq<string>, b: seq<string>, k: nat)
    requires k <= |b| && Subsequence(a, b[..k])
    ensures Subsequence(a, b)
    ensures k < |b| ==> Subsequence(a, b[..k + 1]) && Subsequence(a + [b[k]], b[..k + 1])
    decreases |b| - k
  {
    if k < |b| {
      assert b[..k + 1][..k] == b[..k];
      assert (a + [b[k]])[..|a|] == a;
      SubsequenceGrows(a, b, k + 1);
    } else {
      assert b[..k] == b;
    }
  }

  lemma PublishFailedLands(calm: bool, c: State, m: State, i: nat, s: SessionId, oc: Outcome, p: StopProof,
                           k: nat, done: seq<string>, code: Code)
    requires Ready(calm, c, i, s) && Mid(c, m, s) && !UnknownDraft(c.slots[i]) && m.unsafe == c.unsafe
    requires Settled(m.launch, OwnOf(m, s), oc, p, k, done)
    ensures Lands(calm, c, BeginPersist(m, i, s, PublishFailedDraft(oc, p, done, code)), i, s)
  {
    SubsequenceGrows(done, oc.contributions, k);
    PersistLands(calm, c, m, i, s, PublishFailedDraft(oc, p, done, code));
  }

  lemma NextContributionLands(calm: bool, c: State, m: State, i: nat, s: SessionId, oc: Outcome, p: StopProof,
                              k: nat, done: seq<string>)
    requires Ready(calm, c, i, s) && Mid(c, m, s) && !UnknownDraft(c.slots[i]) && m.unsafe == c.unsafe
    requires Settled(m.launch, OwnOf(m, s), oc, p, k, done) && s in m.guard.finished
    ensures Lands(calm, c, NextContribution(m, i, s, oc, p, k, done), i, s)
  {
    SubsequenceGrows(done, oc.contributions, k);
    if k >= |oc.contributions| {
      PersistLands(calm, c, m, i, s, SucceededDraft(oc, p, done));
    } else {
      PutLands(calm, c, m, i, s, Publishing(oc, p, k, done));
    }
  }

  lemma PublishStays(calm: bool, c: State, i: nat, s: SessionId)
    requires Ready(calm, c, i, s) && c.slots[i].phase.Publishing?
    ensures Lands(calm, c, c, i, s)
  {
    MidSelf(c, s);
    PutLands(calm, c, c, i, s, c.slots[i].phase);
    assert Put(c, i, c.slots[i]) == c;
  }

  lemma RefuseOneLands(calm: bool, c: State, i: nat, s: SessionId, oc: Outcome, p: StopProof, k: nat,
                       done: seq<string>, x: Oracle)
    requires Ready(calm, c, i, s) && c.slots[i].phase == Publishing(oc, p, k, done)
    ensures Lands(calm, c, RefuseOne(c, i, s, oc, p, k, done, x), i, s)
  {
    var own := OwnOf(c, s);
    MidSelf(c, s);
    if x.publish.DriftBefore? {
      PublishFailedLands(calm, c, c, i, s, oc, p, k, done, PublicationIdentityDrift);
    } else if !c.launch.armConfigured {
      PublishStays(calm, c, i, s);
    } else if x.publish.ReviewRaised? {
      PublishFailedLands(calm, c, c, i, s, oc, p, k, done, ErrorCode(x.publish.exn, PmwPublishFailed));
    } else {
      var o1 := own.(arm := Review(own.arm, true, false));
      SubsequenceGrows(done, oc.contributions, k);
      OwnMid(c, c, s, o1);
      NextContributionLands(calm, c, SetOwn(c, s, o1), i, s, oc, p, k + 1, done);
    }
  }

  lemma AdmittedSettles(l: Launch, o: Own, oc: Outcome, p: StopProof, k: nat, done: seq<string>)
    requires Settled(l, o, oc, p, k, done) && k < |oc.contributions|
    ensures Settled(l, AdmittedOwn(l, o), oc, p, k + 1, done + [oc.contributions[k]])
  {
    SubsequenceGrows(done, oc.contributions, k);
  }

  lemma AdmitOneLands(calm: bool, c: State, i: nat, s: SessionId, oc: Outcome, p: StopProof, k: nat,
                      done: seq<string>, x: Oracle)
    requires Ready(calm, c, i, s) && c.slots[i].phase == Publishing(oc, p, k, done) && k < |oc.contributions|
    ensures Lands(calm, c, AdmitOne(c, i, s, oc, p, k, done, x), i, s)
  {
    var o1 := AdmittedOwn(c.launch, OwnOf(c, s));
    var m := SetOwn(c, s, o1);
    var all := done + [oc.contributions[k]];
    AdmittedSettles(c.launch, OwnOf(c, s), oc, p, k, done);
    MidSelf(c, s);
    OwnMid(c, c, s, o1);
    if x.publish.DriftAfter? {
      PublishFailedLands(calm, c, m, i, s, oc, p, k + 1, all, PublicationIdentityDrift);
    } else if x.publish.ObserveRaised? {
      if c.launch.armConfigured {
        PublishFailedLands(calm, c, m, i, s, oc, p, k + 1, all, ErrorCode(x.publish.exn, PmwPublishFailed));
      } else {
        PublishStays(calm, c, i, s);
      }
    } else {
      NextContributionLands(calm, c, m, i, s, oc, p, k + 1, all);
    }
  }

  /** The one record that may be published and yet missing from the receipt. */
  lemma LostOneLands(calm: bool, c: State, i: nat, s: SessionId, oc: Outcome, p: StopProof, k: nat,
                     done: seq<string>, code: Code)
    requires Ready(calm, c, i, s) && c.slots[i].phase == Publishing(oc, p, k, done)
    ensures Lands(calm, c, PublishFailed(SetOwn(c, s, LostOwn(c.launch, OwnOf(c, s))), i, s, oc, p, done, code), i, s)
  {
    var o1 := LostOwn(c.launch, OwnOf(c, s));
    MidSelf(c, s);
    OwnMid(c, c, s, o1);
    SubsequenceGrows(done, oc.contributions, k);
    PersistLands(calm, c, SetOwn(c, s, o1), i, s, PublishFailedDraft(oc, p, done, code));
  }

  lemma PublishOneLands(calm: bool, c: State, i: nat, s: SessionId, oc: Outcome, p: StopProof, k: nat,
                        done: seq<string>, x: Oracle)
    requires Ready(calm, c, i, s) && c.slots[i].phase == Publishing(oc, p, k, done) && k < |oc.contributions|
    ensures Lands(calm, c, PublishOne(c, i, s, oc, p, k, done, x), i, s)
  {
    if x.publish.DriftBefore? || x.publish.ReviewRaised? || x.publish.ArmRejects? {
      RefuseOneLands(calm, c, i, s, oc, p, k, done, x);
    } else if x.publish.PublisherRaised? {
      var o1 := OwnOf(c, s).(arm := Review(OwnOf(c, s).arm, c.launch.armConfigured, true));
      MidSelf(c, s);
      OwnMid(c, c, s, o1);
      PublishFailedLands(calm, c, SetOwn(c, s, o1), i, s, oc, p, k, done, ErrorCode(x.publish.exn, PmwPublishFailed));
    } else if x.publish.ResultRaised? {
      LostOneLands(calm, c, i, s, oc, p, k, done, ErrorCode(x.publish.exn, PmwPublishFailed));
    } else {
      AdmitOneLands(calm, c, i, s, oc, p, k, done, x);
    }
  }

  // ---------------------------------------------------------------- terminal measurement

  lemma MeasuredMid(c: State, m: State, s: SessionId)
    requires GuardOk(c.guard) && GuardOk(m.guard) && Grows(c.guard, m.guard)
    requires m == c.(guard := m.guard)
    requires m.guard.activated == c.guard.activated && m.guard.finished == c.guard.finished
    ensures Mid(c, m, s)
    ensures Mid(c, m.(guard := m.guard.(finished := m.guard.finished + {s})), s)
    ensures EventFor(m.guard.(finished := m.guard.finished + {s}), s) == EventFor(m.guard, s)
  {
    var h := m.guard.(finished := m.guard.finished + {s});
    MarkingKeepsGuard(m.guard, h);
    GrowsTransitive(c.guard, m.guard, h);
  }

  lemma FinishDoneLands(calm: bool, c: State, m: State, i: nat, s: SessionId, after: AfterFinish, x: Oracle)
    requires Ready(calm, c, i, s)
    requires c.slots[i].phase.Finishing? && c.slots[i].phase.after == after
    requires m == c.(guard := m.guard) && GuardOk(m.guard) && Grows(c.guard, m.guard)
    requires m.guard.activated == c.guard.activated && m.guard.finished == c.guard.finished
    requires calm && after.Persist? ==> !BuildingRaises(c, after.draft, x)
    ensures Lands(calm, c, FinishDone(m, i, s, after, x), i, s)
  {
    var m1 := m.(guard := m.guard.(finished := m.guard.finished + {s}));
    MeasuredMid(c, m, s);
    match after {
      case Persist(d) => WriteLands(calm, c, m1, i, s, d, x);
      case Decide(r, p) => DecideLands(calm, c, m1, i, s, r, p, x);
    }
  }

  lemma FinishDiskLands(calm: bool, c: State, i: nat, s: SessionId, after: AfterFinish, x: Oracle)
    requires Ready(calm, c, i, s) && c.slots[i].phase == Finishing(AtDisk, after)
    ensures Lands(calm, c, FinishStep(c, i, s, AtDisk, after, x), i, s)
  {
    CheckDiskKeepsGuard(c.guard, Terminal, x.disk);
    var m := c.(guard := CheckDisk(c.guard, Terminal, x.disk).0);
    MeasuredMid(c, m, s);
    PutLands(calm, c, m, i, s, Finishing(AtWorkspace, after));
  }

  lemma FinishWorkspaceLands(calm: bool, c: State, i: nat, s: SessionId, after: AfterFinish, x: Oracle)
    requires Ready(calm, c, i, s) && c.slots[i].phase == Finishing(AtWorkspace, after)
    ensures Lands(calm, c, FinishStep(c, i, s, AtWorkspace, after, x), i, s)
  {
    CheckTreeKeepsGuard(c.guard, s, Workspace, Terminal, x.tree);
    var m := c.(guard := CheckTree(c.guard, s, Workspace, Terminal, x.tree).0);
    MeasuredMid(c, m, s);
    PutLands(calm, c, m, i, s, Finishing(AtCache, after));
  }

  lemma FinishStepLands(calm: bool, c: State, i: nat, s: SessionId, stage: Stage, after: AfterFinish, x: Oracle)
    requires Ready(calm, c, i, s) && c.slots[i].phase == Finishing(stage, after)
    requires calm ==> CalmAt(c, c.slots[i].phase, x)
    ensures Lands(calm, c, FinishStep(c, i, s, stage, after, x), i, s)
  {
    match stage {
      case AtDisk => FinishDiskLands(calm, c, i, s, after, x);
      case AtWorkspace => FinishWorkspaceLands(calm, c, i, s, after, x);
      case AtCache =>
        CheckTreeKeepsGuard(c.guard, s, Cache, Terminal, x.tree);
        FinishDoneLands(calm, c, c.(guard := CheckTree(c.guard, s, Cache, Terminal, x.tree).0), i, s, after, x);
      case AtOnce =>
        MarkingKeepsGuard(c.guard, c.guard);
        FinishDoneLands(calm, c, c, i, s, after, x);
    }
  }
}
