/** When a session is cleared and when it publishes: the two moments of
    publication, step by step and over every run. */
module CohortPublication {
  import opened Contracts
  import opened ResourceGuard
  import opened ReceiptRules
  import opened Cohort
  import opened CohortInvariant
  import opened CohortRuns

  /** Neither moment falls into this step. */
  ghost predicate Unmoved(c: State, d: State, s: SessionId) {
    && OwnOf(d, s).cleared == OwnOf(c, s).cleared && OwnOf(d, s).published == OwnOf(c, s).published
    && OwnOf(d, s).lost == OwnOf(c, s).lost
  }

  /** Nor does the arm review anything. */
  ghost predicate Still(c: State, d: State, s: SessionId) {
    Unmoved(c, d, s) && OwnOf(d, s).arm == OwnOf(c, s).arm
  }

  lemma AfterActivationStill(c: State, i: nat, s: SessionId)
    requires i < |c.slots|
    ensures Still(c, AfterActivation(c, i, s), s)
  {
  }

  lemma HostFailureStill(c: State, i: nat, s: SessionId, started: bool, e: Exn)
    requires i < |c.slots|
    ensures HostFailure(c, i, s, started, e).own == c.own
  {
  }

  lemma PrepareStill(c: State, i: nat, s: SessionId, x: Oracle)
    requires i < |c.slots|
    ensures Still(c, Prepare(c, i, s, x), s)
  {
    if !x.ok {
      HostFailureStill(c, i, s, false, x.exn);
    } else {
      AfterActivationStill(c.(guard := c.guard.(activated := c.guard.activated + {s})), i, s);
    }
  }

  lemma ActivateStill(c: State, i: nat, s: SessionId, target: Target, x: Oracle)
    requires i < |c.slots|
    ensures Still(c, Activate(c, i, s, target, x), s)
  {
    AfterActivationStill(c.(guard := CheckTree(c.guard, s, target, Initial, x.tree).0), i, s);
  }

  lemma PersistStill(c: State, i: nat, s: SessionId, d: Draft)
    requires i < |c.slots|
    ensures BeginPersist(c, i, s, d).own == c.own
  {
  }

  lemma StartFailedStill(c: State, i: nat, s: SessionId, error: Exn, proof: Option<StopProof>)
    requires i < |c.slots|
    ensures Still(c, StartFailed(c, i, s, error, proof), s)
  {
    var e := EventFor(c.guard, s);
    var m := MarkUnsafe(Observe(c, e), Stopped(proof));
    assert m.own == c.own && |m.slots| == |c.slots|;
    PersistStill(m, i, s, StartFailedDraft(e, m.stopNew, error, proof));
  }

  lemma LaunchStill(c: State, i: nat, s: SessionId, x: Oracle)
    requires i < |c.slots|
    ensures Still(c, LaunchBackend(c, i, s, x), s)
  {
    StartFailedStill(c, i, s, Drift(), Some(NOT_STARTED_PROOF));
  }

  lemma AcceptStill(c: State, i: nat, s: SessionId, r: StartResult, identity: bool, cancelled: Option<Exn>)
    requires i < |c.slots|
    ensures Still(c, AcceptStart(c, i, s, r, identity, cancelled), s)
  {
    match r {
      case StartRaised(e, p) => StartFailedStill(c, i, s, e, p);
      case GotOther => StartFailedStill(c, i, s, Exn(Some(BackendHandleInvalid), "RuntimeOrchestrationError"), None);
      case GotHandle =>
    }
  }

  lemma AwaitStill(c: State, i: nat, s: SessionId, x: Oracle)
    requires i < |c.slots|
    ensures Still(c, AwaitStart(c, i, s, x), s)
  {
    if x.start.Some? {
      AcceptStill(Woken(c, s, x), i, s, x.start.value, x.identity, None);
    }
  }

  lemma JoinStill(c: State, i: nat, s: SessionId, error: Exn, x: Oracle)
    requires i < |c.slots|
    ensures Still(c, JoinStart(c, i, s, error, x), s)
  {
    if x.start.Some? {
      AcceptStill(c, i, s, x.start.value, x.identity, Some(error));
    }
  }

  lemma RefusedStill(c: State, i: nat, s: SessionId, error: Exn, x: Oracle)
    requires i < |c.slots|
    ensures Still(c, StopRefusedStart(c, i, s, error, x), s)
  {
    StartFailedStill(RecordStop(c, s, x.proof), i, s, error, Some(x.proof));
  }

  lemma BeginRunningStill(c: State, i: nat, s: SessionId, x: Oracle)
    requires i < |c.slots|
    ensures Still(c, BeginRunning(c, i, s, x), s)
  {
  }

  lemma StopEarlyStill(c: State, i: nat, s: SessionId, seen: Option<Event>, x: Oracle)
    requires i < |c.slots|
    ensures Still(c, StopEarly(c, i, s, seen, x), s)
  {
  }

  lemma StopErrorStill(c: State, i: nat, s: SessionId, error: Exn, x: Oracle)
    requires i < |c.slots|
    ensures Still(c, StopAfterWaitError(c, i, s, error, x), s) && Still(c, StopAfterHostFailure(c, i, s, error, x), s)
  {
  }

  lemma HaltStill(c: State, i: nat, s: SessionId, seen: Option<Event>, wall: bool, x: Oracle)
    requires i < |c.slots|
    ensures Still(c, Halt(c, i, s, seen, wall, x), s)
  {
  }

  lemma InterruptStill(c: State, i: nat, s: SessionId, seen: Option<Event>, wall: bool, x: Oracle)
    requires i < |c.slots|
    ensures Still(c, Interrupt(c, i, s, seen, wall, x), s)
  {
  }

  lemma ArbitrateStill(c: State, i: nat, s: SessionId, x: Oracle)
    requires i < |c.slots|
    ensures Still(c, Arbitrate(c, i, s, x), s)
  {
    if x.wait.None? {
      InterruptStill(c, i, s, if Signalled(c, s, x) then WakeEvent(c.guard, s, x.stale) else None,
                     x.wall && c.launch.wallLimited, x);
    }
  }

  lemma ConfirmStill(c: State, i: nat, s: SessionId, r: Reported, x: Oracle)
    requires i < |c.slots|
    ensures Still(c, Confirm(c, i, s, r, x), s)
  {
  }

  lemma DeliverStill(c: State, i: nat, s: SessionId, r: Receipt, ioOk: bool)
    requires i < |c.slots|
    ensures Deliver(c, i, s, r, ioOk).own == c.own
  {
  }

  lemma RaisedStill(c: State, i: nat, s: SessionId, d: Draft)
    requires i < |c.slots|
    ensures BuildRaised(c, i, s, d).own == c.own
  {
  }

  lemma WriteStill(c: State, i: nat, s: SessionId, d: Draft, x: Oracle)
    requires i < |c.slots|
    ensures Write(c, i, s, d, x).own == c.own
  {
    var e := EventFor(c.guard, s);
    var m := Observe(c, e);
    assert m.own == c.own && |m.slots| == |c.slots|;
    if BuildingRaises(c, d, x) {
      RaisedStill(m, i, s, d);
    } else {
      DeliverStill(m, i, s, BuildReceipt(m, s, Override(d, e)), x.ioOk);
    }
  }

  // ---------------------------------------------------------------- the moment of clearing

  /** The session's stop is proven and its terminal measurement is over and
      clear; nothing of it is published yet. */
  ghost predicate Clears(c: State, d: State, s: SessionId) {
    var (o, n) := (OwnOf(c, s), OwnOf(d, s));
    && o.cleared.None? && o.published == 0
    && n.cleared.Some? && n.cleared.value.stopped && n.stop == n.cleared && !n.halted && n.published == 0
    && n.lost == o.lost && n.arm == o.arm
    && s in d.guard.finished && EventFor(d.guard, s).None?
  }

  lemma ClearedClears(c: State, i: nat, s: SessionId, o: Outcome, p: StopProof)
    requires i < |c.slots| && OwnOf(c, s) == HANDLED.(stop := Some(p)) && p.stopped
    requires s in c.guard.finished && EventFor(c.guard, s).None?
    ensures Clears(c, Cleared(c, i, s, o, p), s)
  {
    var m := SetOwn(c, s, OwnOf(c, s).(cleared := Some(p)));
    if o.contributions == [] {
      assert Cleared(c, i, s, o, p) == BeginPersist(m, i, s, SucceededDraft(o, p, []));
    } else if c.launch.publisher.NoPublisher? {
      assert Cleared(c, i, s, o, p) == BeginPersist(m, i, s, PublishFailedDraft(o, p, [], PmwPublishUnavailable));
    }
  }

  lemma DecideClears(c: State, i: nat, s: SessionId, r: Reported, p: StopProof, x: Oracle)
    requires i < |c.slots| && OwnOf(c, s) == HANDLED.(stop := Some(p)) && p.stopped && s in c.guard.finished
    ensures var d := DecideOutcome(c, i, s, r, p, x); Still(c, d, s) || Clears(c, d, s)
  {
    var e := EventFor(c.guard, s);
    var m := Observe(c, e);
    if e.None? && r.Typed? && r.outcome.success {
      ClearedClears(m, i, s, r.outcome, p);
    }
  }

  lemma DoneClears(c: State, m: State, i: nat, s: SessionId, after: AfterFinish, x: Oracle)
    requires i < |c.slots| && m == c.(guard := m.guard)
    requires after.Decide? ==> OwnOf(c, s) == HANDLED.(stop := Some(after.proof)) && after.proof.stopped
    ensures var d := FinishDone(m, i, s, after, x); Still(c, d, s) || Clears(c, d, s)
  {
    var m1 := m.(guard := m.guard.(finished := m.guard.finished + {s}));
    match after {
      case Persist(d) => WriteStill(m1, i, s, d, x);
      case Decide(r, p) => DecideClears(m1, i, s, r, p, x);
    }
  }

  lemma MeasureStill(c: State, i: nat, s: SessionId, stage: Stage, after: AfterFinish, x: Oracle)
    requires i < |c.slots| && (stage.AtDisk? || stage.AtWorkspace?)
    ensures FinishStep(c, i, s, stage, after, x).own == c.own
  {
  }

  lemma FinishClears(c: State, i: nat, s: SessionId, stage: Stage, after: AfterFinish, x: Oracle)
    requires i < |c.slots|
    requires after.Decide? ==> OwnOf(c, s) == HANDLED.(stop := Some(after.proof)) && after.proof.stopped
    ensures var d := FinishStep(c, i, s, stage, after, x); Still(c, d, s) || Clears(c, d, s)
  {
    match stage {
      case AtCache => DoneClears(c, c.(guard := CheckTree(c.guard, s, Cache, Terminal, x.tree).0), i, s, after, x);
      case AtOnce => DoneClears(c, c, i, s, after, x);
      case _ => MeasureStill(c, i, s, stage, after, x);
    }
  }

  // ---------------------------------------------------------------- the moment of publication

  /** One more record is out, on record or lost; the session had been cleared
      before this step. */
  ghost predicate Publishes(c: State, d: State, s: SessionId, lost: bool) {
    var (o, n) := (OwnOf(c, s), OwnOf(d, s));
    && o.cleared.Some? && o.cleared.value.stopped && o.stop == o.cleared && !o.halted && s in c.guard.finished
    && n.cleared == o.cleared && n.published == o.published + 1
    && n.lost == if lost then o.lost + 1 else o.lost
  }

  /** Whether the arm is asked at all, and if so what it says. */
  function ReviewBy(r: PublishResult): Option<bool> {
    if r.DriftBefore? || r.ReviewRaised? then None else Some(!r.ArmRejects?)
  }

  function Reviewed(l: Launch, t: Tally, review: Option<bool>): Tally {
    if review.None? then t else Review(t, l.armConfigured, review.value)
  }

  lemma PublishStep(c: State, i: nat, s: SessionId, oc: Outcome, p: StopProof, k: nat, done: seq<string>, x: Oracle)
    requires i < |c.slots| && k < |oc.contributions|
    requires PublishingOk(c.launch, OwnOf(c, s), oc, p, k, done) && s in c.guard.finished
    ensures Moves(c, PublishOne(c, i, s, oc, p, k, done, x), s, x.publish.ResultRaised?, ReviewBy(x.publish))
  {
    var o := OwnOf(c, s);
    if x.publish.DriftBefore? || x.publish.ReviewRaised? || x.publish.ArmRejects? {
      RefuseStill(c, i, s, oc, p, k, done, x);
    } else if x.publish.DriftAfter? || x.publish.ObserveRaised? || x.publish.Published? {
      AdmitPublishes(c, i, s, oc, p, k, done, x);
    }
  }

  lemma RefuseStill(c: State, i: nat, s: SessionId, oc: Outcome, p: StopProof, k: nat, done: seq<string>, x: Oracle)
    requires i < |c.slots|
    requires x.publish.DriftBefore? || x.publish.ReviewRaised? || x.publish.ArmRejects?
    ensures Moves(c, RefuseOne(c, i, s, oc, p, k, done, x), s, false, ReviewBy(x.publish))
  {
  }

  lemma AdmitPublishes(c: State, i: nat, s: SessionId, oc: Outcome, p: StopProof, k: nat, done: seq<string>, x: Oracle)
    requires i < |c.slots| && k < |oc.contributions|
    requires PublishingOk(c.launch, OwnOf(c, s), oc, p, k, done) && s in c.guard.finished
    requires x.publish.DriftAfter? || x.publish.ObserveRaised? || x.publish.Published?
    ensures Moves(c, AdmitOne(c, i, s, oc, p, k, done, x), s, false, Some(true))
  {
  }

  // ---------------------------------------------------------------- any step

  ghost predicate Moves(c: State, d: State, s: SessionId, lost: bool, review: Option<bool>) {
    && OwnOf(d, s).arm == Reviewed(c.launch, OwnOf(c, s).arm, review)
    && ((!lost && (Unmoved(c, d, s) || Clears(c, d, s))) || Publishes(c, d, s, lost))
  }

  /** The publisher answered for `s` and its answer could not be projected. */
  predicate LosesIn(phase: Phase, x: Oracle) {
    PublishesIn(phase) && x.publish.ResultRaised?
  }

  /** A record is before the arm or the publisher. */
  predicate PublishesIn(phase: Phase) {
    phase.Publishing? && phase.next < |phase.outcome.contributions|
  }

  predicate PublishesAt(c: State, a: Actor) {
    a.SlotActor? && a.slot < |c.slots| && c.slots[a.slot].Busy? && PublishesIn(c.slots[a.slot].phase)
  }

  function ReviewIn(phase: Phase, x: Oracle): Option<bool> {
    if PublishesIn(phase) then ReviewBy(x.publish) else None
  }

  function ReviewAt(c: State, a: Actor, x: Oracle, s: SessionId): Option<bool> {
    if PublishesAt(c, a) && c.slots[a.slot].session == s then ReviewBy(x.publish) else None
  }

  predicate LosesAt(c: State, a: Actor, x: Oracle, s: SessionId) {
    && a.SlotActor? && a.slot < |c.slots| && c.slots[a.slot].Busy? && c.slots[a.slot].session == s
    && LosesIn(c.slots[a.slot].phase, x)
  }

  lemma PhaseMoves(c: State, i: nat, s: SessionId, x: Oracle)
    requires Ready(false, c, i, s)
    ensures Moves(c, PhaseStep(c, i, s, c.slots[i].phase, x), s, LosesIn(c.slots[i].phase, x),
                  ReviewIn(c.slots[i].phase, x))
  {
    match c.slots[i].phase {
      case Preparing => PrepareStill(c, i, s, x);
      case ActivatingWorkspace => ActivateStill(c, i, s, Workspace, x);
      case ActivatingCache => ActivateStill(c, i, s, Cache, x);
      case Launching => LaunchStill(c, i, s, x);
      case Starting => AwaitStill(c, i, s, x);
      case JoiningStart(e) => JoinStill(c, i, s, e, x);
      case StoppingStart(e) => RefusedStill(c, i, s, e, x);
      case Started => BeginRunningStill(c, i, s, x);
      case EarlyStopping(seen) => StopEarlyStill(c, i, s, seen, x);
      case Running => ArbitrateStill(c, i, s, x);
      case StoppingAfterWaitError(e) => StopErrorStill(c, i, s, e, x);
      case Confirming(r) => ConfirmStill(c, i, s, r, x);
      case Halting(seen, wall) => HaltStill(c, i, s, seen, wall, x);
      case Publishing(o, p, k, done) => PublishStep(c, i, s, o, p, k, done, x);
      case HostStopping(e) => StopErrorStill(c, i, s, e, x);
      case Finishing(stage, after) => FinishClears(c, i, s, stage, after, x);
    }
  }

  lemma WorkerStill(c: State, i: nat, s: SessionId)
    requires i < |c.slots|
    ensures Still(c, WorkerNext(c, i), s)
  {
  }

  lemma SettleOneStill(c: State, i: nat, s: SessionId)
    requires i < |c.slots|
    ensures Still(c, SettleOne(c, i), s)
  {
  }

  lemma SettlerStill(c: State, i: nat, s: SessionId)
    requires i < |c.slots|
    ensures Still(c, SettleNext(c, i), s)
  {
    if WorkersDone(c) {
      SettleOneStill(SettleFlags(c), i, s);
    }
  }

  lemma FreeStepStill(c: State, i: nat, s: SessionId, x: Oracle)
    requires i < |c.slots| && !c.slots[i].Busy?
    ensures Still(c, SlotStep(c, i, x), s)
  {
    WorkerStill(c, i, s);
    SettlerStill(c, i, s);
  }

  /** Whoever moves, a session is untouched, cleared, or publishes one record,
      which is lost exactly if its result raised; its tally grows exactly when the
      arm is asked about a record of its own. */
  lemma StepMoves(c: State, a: Actor, x: Oracle, s: SessionId)
    requires Inv(false, c)
    ensures Moves(c, Step(c, a, x), s, LosesAt(c, a, x, s), ReviewAt(c, a, x, s))
  {
    if a.SlotActor? && a.slot < |c.slots| {
      var i := a.slot;
      if c.slots[i].Busy? {
        var t := c.slots[i].session;
        assert SlotOk(false, c, c.slots[i]);
        PhaseMoves(c, i, t, x);
        PhaseStepLands(false, c, i, t, x);
      } else {
        FreeStepStill(c, i, s, x);
      }
    }
  }
}
