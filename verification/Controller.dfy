/** The mutable objects of a run: the resource guard and the cohort controller.
    Every method is proved to move the object exactly as the step machine does,
    so what CohortTheorems says of runs holds of these objects. */
module Controller {
  import opened Contracts
  import RG = ResourceGuard
  import opened ReceiptRules
  import C = Cohort
  import CohortInvariant
  import CohortRuns
  import CohortTheorems

  class Guard {
    const profile: RG.Profile
    const sessions: seq<SessionId>
    var globalTerminal: Option<RG.Event>
    var sessionTerminal: map<SessionId, RG.Event>
    var warnings: map<SessionId, seq<RG.Event>>
    var signalled: set<SessionId>
    var activated: set<SessionId>
    var finished: set<SessionId>
    var diskChecks: nat
    var latestDisk: Option<RG.DiskSnapshot>
    var workspaces: map<SessionId, RG.TreeRecord>
    var caches: map<SessionId, RG.TreeRecord>

    ghost function View(): RG.Guard
      reads this
    {
      RG.Guard(profile, sessions, globalTerminal, sessionTerminal, warnings, signalled, activated, finished,
               diskChecks, latestDisk, workspaces, caches)
    }

    constructor (p: RG.Profile, ids: seq<SessionId>)
      ensures View() == RG.Create(p, ids)
    {
      profile, sessions := p, ids;
      globalTerminal, sessionTerminal := None, map[];
      warnings := map s | s in ids :: [];
      signalled, activated, finished := {}, {}, {};
      diskChecks, latestDisk := 0, None;
      workspaces := map s | s in ids :: RG.TreeRecord(0, None);
      caches := map s | s in ids :: RG.TreeRecord(0, None);
    }

    method EventFor(s: SessionId) returns (e: Option<RG.Event>)
      ensures e == RG.EventFor(View(), s)
    {
      if globalTerminal.Some? {
        e := globalTerminal;
      } else if s in sessionTerminal {
        e := Some(sessionTerminal[s]);
      } else {
        e := None;
      }
    }

    method Latch(e: RG.Event)
      requires e.scope.SessionScope? ==> e.session.Some?
      modifies this
      ensures View() == RG.Latch(old(View()), e)
      ensures RG.GuardOk(old(View())) && RG.Produced(old(View()), e) ==>
                && RG.GuardOk(View()) && RG.Grows(old(View()), View())
                && (!RG.IsWarning(e) && e.session.Some? ==> RG.EventFor(View(), e.session.value).Some?)
    {
      if RG.GuardOk(View()) && RG.Produced(View(), e) {
        RG.LatchKeepsGuard(View(), e);
      }
      if RG.IsWarning(e) {
        warnings := map s | s in warnings ::
          if e.session == None || e.session == Some(s) then RG.AddWarning(warnings[s], e) else warnings[s];
      } else if e.scope.CohortScope? {
        if globalTerminal.None? {
          globalTerminal := Some(e);
          signalled := set s | s in sessions;
        }
      } else if e.session.value !in sessionTerminal {
        sessionTerminal := sessionTerminal[e.session.value := e];
        signalled := signalled + {e.session.value};
      }
    }

    method CheckDisk(phase: RG.CheckPhase, reading: RG.DiskReading) returns (e: Option<RG.Event>)
      modifies this
      ensures (View(), e) == RG.CheckDisk(old(View()), phase, reading)
      ensures RG.GuardOk(old(View())) ==>
                && RG.GuardOk(View()) && RG.Grows(old(View()), View())
                && (e.Some? && !RG.IsWarning(e.value) ==>
                      globalTerminal == if old(globalTerminal).None? then e else old(globalTerminal))
    {
      if RG.GuardOk(View()) {
        RG.CheckDiskKeepsGuard(View(), phase, reading);
      }
      diskChecks := diskChecks + 1;
      e := None;
      if reading.DiskError? {
        e := Some(RG.UncertainEvent(RG.HostFilesystem, phase, None));
      } else {
        latestDisk := Some(reading.snapshot);
        if reading.snapshot.availableBytes < reading.snapshot.requiredFreeBytes {
          e := Some(RG.DiskEvent(profile, phase, reading.snapshot));
        }
      }
      if e.Some? {
        Latch(e.value);
      }
    }

    method CheckTree(s: SessionId, target: RG.Target, phase: RG.CheckPhase, reading: RG.TreeReading)
      returns (e: Option<RG.Event>)
      modifies this
      ensures (View(), e) == RG.CheckTree(old(View()), s, target, phase, reading)
      ensures RG.GuardOk(old(View())) && s in sessions ==>
                && RG.GuardOk(View()) && RG.Grows(old(View()), View())
                && (e.Some? && !RG.IsWarning(e.value) ==> RG.EventFor(View(), s).Some?)
    {
      if RG.GuardOk(View()) && s in sessions {
        RG.CheckTreeKeepsGuard(View(), s, target, phase, reading);
      }
      RecordTree(s, target, reading);
      e := RG.TreeCheckEvent(profile, s, target, phase, reading);
      if e.Some? {
        Latch(e.value);
      }
    }

    method RecordTree(s: SessionId, target: RG.Target, reading: RG.TreeReading)
      modifies this
      ensures var rec := RG.TreeOf(old(View()), s, target);
              View() == RG.SetTree(old(View()), s, target,
                                   RG.TreeRecord(rec.checks + 1,
                                                 if reading.TreeError? then rec.latest else Some(reading.snapshot)))
    {
      var known := if target.Workspace? then workspaces else caches;
      var rec := if s in known then known[s] else RG.TreeRecord(0, None);
      var latest := if reading.TreeError? then rec.latest else Some(reading.snapshot);
      if target.Workspace? {
        workspaces := workspaces[s := RG.TreeRecord(rec.checks + 1, latest)];
      } else {
        caches := caches[s := RG.TreeRecord(rec.checks + 1, latest)];
      }
    }

    method Evidence(s: SessionId) returns (v: RG.Evidence)
      ensures v == RG.EvidenceFor(View(), s)
      ensures RG.GuardOk(View()) && s in sessions ==> RG.ValidEvidence(v, s)
    {
      if RG.GuardOk(View()) && s in sessions {
        RG.EvidenceIsValid(View(), s);
      }
      var e := EventFor(s);
      var w := if s in workspaces then workspaces[s] else RG.TreeRecord(0, None);
      var c := if s in caches then caches[s] else RG.TreeRecord(0, None);
      v := RG.Evidence(diskChecks, w.checks, c.checks, latestDisk, w.latest, c.latest, e,
                       if s in warnings then warnings[s] else []);
    }

    method MarkActivated(s: SessionId)
      modifies this
      ensures View() == old(View()).(activated := old(View()).activated + {s})
    {
      activated := activated + {s};
    }

    method MarkFinished(s: SessionId)
      modifies this
      ensures View() == old(View()).(finished := old(View()).finished + {s})
    {
      finished := finished + {s};
    }
  }

  class Cohort {
    const launch: Launch
    const guard: Guard
    var cursor: nat
    var settleCursor: nat
    var stopNew: bool
    var unsafe: bool
    var storeFailed: bool
    var slots: seq<C.Slot>
    var own: map<SessionId, C.Own>
    var receipts: map<SessionId, Receipt>
    var offers: seq<C.Offer>

    ghost function View(): C.State
      reads this, guard
    {
      C.State(launch, guard.View(), cursor, settleCursor, stopNew, unsafe, storeFailed, slots, own, receipts, offers)
    }

    constructor (l: Launch, p: RG.Profile, workers: nat, disk: RG.DiskReading)
      ensures fresh(guard)
      ensures View() == C.Begin(l, p, workers, disk)
      ensures CohortInvariant.PlanOk(l) && workers >= 1 ==> CohortInvariant.Inv(false, View())
    {
      launch := l;
      var g := new Guard(p, l.sessions);
      guard := g;
      cursor, settleCursor := 0, 0;
      stopNew, unsafe, storeFailed := false, false, false;
      slots := seq(workers + 1, i => C.Looking);
      own, receipts, offers := map[], map[], [];
      new;
      var e := guard.CheckDisk(RG.Initial, disk);
      ObserveResourceEvent(e);
      if CohortInvariant.PlanOk(l) && workers >= 1 {
        CohortRuns.BeginIsInv(false, l, p, workers, disk);
      }
    }

    method ObserveResourceEvent(e: Option<RG.Event>)
      modifies this
      ensures View() == C.Observe(old(View()), e)
    {
      if e.Some? {
        if e.value.uncertain {
          unsafe, stopNew := true, true;
        } else if e.value.scope.CohortScope? {
          stopNew := true;
        }
      }
    }

    method SetPhase(i: nat, s: SessionId, phase: C.Phase)
      requires i < |slots|
      modifies this
      ensures View() == C.Put(old(View()), i, C.Busy(s, phase))
    {
      slots := slots[i := C.Busy(s, phase)];
    }

    method Persist(i: nat, s: SessionId, d: C.Draft)
      requires i < |slots|
      modifies this
      ensures View() == C.BeginPersist(old(View()), i, s, d)
    {
      EnterFinish(i, s, C.Persist(d));
    }

    method EnterFinish(i: nat, s: SessionId, after: C.AfterFinish)
      requires i < |slots|
      modifies this
      ensures View() == C.EnterFinish(old(View()), i, s, after)
    {
      if s in guard.finished || s !in guard.activated {
        SetPhase(i, s, C.Finishing(C.AtOnce, after));
      } else {
        SetPhase(i, s, C.Finishing(C.AtDisk, after));
      }
    }

    method HostFailure(i: nat, s: SessionId, started: bool, error: Exn)
      requires i < |slots|
      modifies this
      ensures View() == C.HostFailure(old(View()), i, s, started, error)
    {
      if started {
        SetPhase(i, s, C.HostStopping(error));
      } else {
        Persist(i, s, C.HostFailedDraft(None, false, error));
      }
    }

    /** A stop was awaited; an unproven one makes the run unsafe. */
    method StopReturned(s: SessionId, proof: StopProof)
      modifies this
      ensures View() == C.MarkUnsafe(C.RecordStop(old(View()), s, proof), proof.stopped)
    {
      var o := if s in own then own[s] else C.FRESH;
      own := own[s := o.(stop := Some(proof))];
      if !proof.stopped {
        unsafe, stopNew := true, true;
      }
    }

    method Next(i: nat)
      requires i < |slots|
      modifies this
      ensures View() == C.WorkerNext(old(View()), i)
    {
      if stopNew || cursor >= |launch.sessions| {
        slots := slots[i := C.Returned];
      } else {
        slots := slots[i := C.Busy(launch.sessions[cursor], C.Preparing)];
        cursor := cursor + 1;
      }
    }

    /** Reads the result of every worker: is any still running, did any raise? */
    method WorkerResults() returns (done: bool, raised: bool)
      requires |slots| > 0
      ensures done == C.WorkersDone(View()) && raised == C.WorkerRaised(View())
    {
      done, raised := true, false;
      for j := 0 to |slots| - 1
        invariant done == forall k :: 0 <= k < j ==> slots[k].Returned? || slots[k].Raised?
        invariant raised == exists k :: 0 <= k < j && slots[k].Raised?
      {
        done := done && (slots[j].Returned? || slots[j].Raised?);
        raised := raised || slots[j].Raised?;
      }
    }

    method SettleMissing(i: nat)
      requires i < |slots|
      modifies this
      ensures View() == C.SettleNext(old(View()), i)
    {
      var done, raised := WorkerResults();
      if done {
        if raised {
          unsafe, stopNew := true, true;
        }
        SettleOne(i);
      }
    }

    method SettleOne(i: nat)
      requires i < |slots|
      modifies this
      ensures View() == C.SettleOne(old(View()), i)
    {
      if settleCursor >= |launch.sessions| {
        slots := slots[i := C.Returned];
      } else {
        var s := launch.sessions[settleCursor];
        settleCursor := settleCursor + 1;
        if s !in receipts {
          Persist(i, s, C.NotStartedDraft());
        }
      }
    }

    // -------------------------------------------------------------- up to the handle

    method Prepare(i: nat, s: SessionId, x: C.Oracle)
      requires i < |slots|
      modifies this, guard
      ensures View() == C.Prepare(old(View()), i, s, x)
    {
      if !x.ok {
        HostFailure(i, s, false, x.exn);
      } else {
        guard.MarkActivated(s);
        if guard.globalTerminal.Some? {
          AfterActivation(i, s);
        } else {
          SetPhase(i, s, C.ActivatingWorkspace);
        }
      }
    }

    method Activate(i: nat, s: SessionId, target: RG.Target, x: C.Oracle)
      requires i < |slots|
      modifies this, guard
      ensures View() == C.Activate(old(View()), i, s, target, x)
    {
      var e := guard.CheckTree(s, target, RG.Initial, x.tree);
      if target.Workspace? && (e.None? || e.value.disposition == Some(RG.Warn)) {
        SetPhase(i, s, C.ActivatingCache);
      } else {
        AfterActivation(i, s);
      }
    }

    method AfterActivation(i: nat, s: SessionId)
      requires i < |slots|
      modifies this
      ensures View() == C.AfterActivation(old(View()), i, s)
    {
      var e := guard.EventFor(s);
      ObserveResourceEvent(e);
      if e.Some? {
        var (status, reason) := C.ResourceStatus(e.value, C.NOT_STARTED_PROOF);
        Persist(i, s, C.Draft(status, reason, false, C.NoOutcome, Some(C.NOT_STARTED_PROOF), [],
                              None, Some(e.value.code), false));
      } else if stopNew {
        Persist(i, s, C.NotStartedDraft());
      } else {
        SetPhase(i, s, C.Launching);
      }
    }

    method LaunchBackend(i: nat, s: SessionId, x: C.Oracle)
      requires i < |slots|
      modifies this
      ensures View() == C.LaunchBackend(old(View()), i, s, x)
    {
      if !x.ok {
        HostFailure(i, s, false, x.exn);
      } else if !x.identity {
        StartFailed(i, s, C.Drift(), Some(C.NOT_STARTED_PROOF));
      } else {
        SetPhase(i, s, C.Starting);
      }
    }

    method AwaitStart(i: nat, s: SessionId, x: C.Oracle)
      requires i < |slots|
      modifies this
      ensures View() == C.AwaitStart(old(View()), i, s, x)
    {
      var stopping := x.sawStop && stopNew;
      var e := guard.EventFor(s);
      var signalled := x.sawResource && e.Some?;
      if signalled && x.resourceInDone {
        var seen := WakeEvent(s, x.stale);
        ObserveResourceEvent(seen);
      }
      if x.start.Some? {
        AcceptStart(i, s, x.start.value, x.identity, None);
      } else {
        var error :=
          if stopping || signalled
          then Exn(Some(if e.Some? then e.value.code else CohortStop), "RuntimeOrchestrationError")
          else Exn(None, "TimeoutError");
        SetPhase(i, s, C.JoiningStart(error));
      }
    }

    method WakeEvent(s: SessionId, stale: bool) returns (e: Option<RG.Event>)
      ensures e == C.WakeEvent(View().guard, s, stale)
    {
      if stale && s in guard.sessionTerminal {
        e := Some(guard.sessionTerminal[s]);
      } else {
        e := guard.EventFor(s);
      }
    }

    method AcceptStart(i: nat, s: SessionId, r: C.StartResult, identity: bool, cancelled: Option<Exn>)
      requires i < |slots|
      modifies this
      ensures View() == C.AcceptStart(old(View()), i, s, r, identity, cancelled)
    {
      match r {
        case StartRaised(e, p) =>
          StartFailed(i, s, e, p);
        case GotOther =>
          StartFailed(i, s, Exn(Some(BackendHandleInvalid), "RuntimeOrchestrationError"), None);
        case GotHandle =>
          var o := OwnOf(s);
          own := own[s := o.(handle := true)];
          if !identity {
            SetPhase(i, s, C.StoppingStart(C.Drift()));
          } else if cancelled.Some? {
            SetPhase(i, s, C.StoppingStart(cancelled.value));
          } else {
            SetPhase(i, s, C.Started);
          }
      }
    }

    method OwnOf(s: SessionId) returns (o: C.Own)
      ensures o == C.OwnOf(View(), s)
    {
      o := if s in own then own[s] else C.FRESH;
    }

    method JoinStart(i: nat, s: SessionId, error: Exn, x: C.Oracle)
      requires i < |slots|
      modifies this
      ensures View() == C.JoinStart(old(View()), i, s, error, x)
    {
      if x.start.Some? {
        AcceptStart(i, s, x.start.value, x.identity, Some(error));
      }
    }

    method StopRefusedStart(i: nat, s: SessionId, error: Exn, x: C.Oracle)
      requires i < |slots|
      modifies this
      ensures View() == C.StopRefusedStart(old(View()), i, s, error, x)
    {
      var o := OwnOf(s);
      own := own[s := o.(stop := Some(x.proof))];
      StartFailed(i, s, error, Some(x.proof));
    }

    method StartFailed(i: nat, s: SessionId, error: Exn, proof: Option<StopProof>)
      requires i < |slots|
      modifies this
      ensures View() == C.StartFailed(old(View()), i, s, error, proof)
    {
      var e := guard.EventFor(s);
      ObserveResourceEvent(e);
      if proof.None? || !proof.value.stopped {
        unsafe, stopNew := true, true;
      }
      Persist(i, s, C.StartFailedDraft(e, stopNew, error, proof));
    }

    // -------------------------------------------------------------- with a handle

    method BeginRunning(i: nat, s: SessionId, x: C.Oracle)
      requires i < |slots|
      modifies this
      ensures View() == C.BeginRunning(old(View()), i, s, x)
    {
      if !x.ok {
        HostFailure(i, s, true, x.exn);
      } else {
        var e := guard.EventFor(s);
        if stopNew || e.Some? {
          SetPhase(i, s, C.EarlyStopping(e));
        } else {
          SetPhase(i, s, C.Running);
        }
      }
    }

    method StopEarly(i: nat, s: SessionId, seen: Option<RG.Event>, x: C.Oracle)
      requires i < |slots|
      modifies this
      ensures View() == C.StopEarly(old(View()), i, s, seen, x)
    {
      StopReturned(s, x.proof);
      ObserveResourceEvent(seen);
      var status, reason := Cancelled, CohortCancelled;
      if seen.Some? {
        var sr := C.ResourceStatus(seen.value, x.proof);
        status, reason := sr.0, sr.1;
      } else if !x.proof.stopped {
        status, reason := Unknown, StopUnproven;
      }
      Persist(i, s, C.Draft(status, reason, true, C.NoOutcome, Some(x.proof), [], None, C.EventCode(seen), false));
    }

    method Arbitrate(i: nat, s: SessionId, x: C.Oracle)
      requires i < |slots|
      modifies this
      ensures View() == C.Arbitrate(old(View()), i, s, x)
    {
      var wall := x.wall && launch.wallLimited;
      if x.wait.Some? {
        SetPhase(i, s, C.CompletionPhase(x.wait.value));
      } else {
        var e := guard.EventFor(s);
        var signalled := x.sawResource && e.Some?;
        if (x.sawStop && stopNew) || signalled || wall {
          var seen := None;
          if signalled {
            seen := WakeEvent(s, x.stale);
          }
          Interrupt(i, s, seen, wall, x);
        }
      }
    }

    method Interrupt(i: nat, s: SessionId, seen: Option<RG.Event>, wall: bool, x: C.Oracle)
      requires i < |slots|
      modifies this
      ensures View() == C.Interrupt(old(View()), i, s, seen, wall, x)
    {
      ObserveResourceEvent(seen);
      if !x.ok {
        HostFailure(i, s, true, x.exn);
      } else {
        var o := OwnOf(s);
        own := own[s := o.(halted := true)];
        SetPhase(i, s, C.Halting(seen, wall));
      }
    }

    method StopAfterWaitError(i: nat, s: SessionId, error: Exn, x: C.Oracle)
      requires i < |slots|
      modifies this
      ensures View() == C.StopAfterWaitError(old(View()), i, s, error, x)
    {
      StopReturned(s, x.proof);
      var status, reason := Failed, BackendWaitFailed;
      if !x.proof.stopped {
        status, reason := Unknown, StopUnproven;
      }
      Persist(i, s, C.Draft(status, reason, true, C.NoOutcome, Some(x.proof), [],
                            Some(error), Some(BackendWaitFailed), false));
    }

    method Halt(i: nat, s: SessionId, seen: Option<RG.Event>, wall: bool, x: C.Oracle)
      requires i < |slots|
      modifies this
      ensures View() == C.Halt(old(View()), i, s, seen, wall, x)
    {
      var p := x.proof;
      StopReturned(s, p);
      var reported := if p.stopped && x.late.Some? then C.Typed(x.late.value) else C.NoOutcome;
      if seen.Some? {
        var sr := C.ResourceStatus(seen.value, p);
        Persist(i, s, C.Draft(sr.0, sr.1, true, reported, Some(p), [], None, Some(seen.value.code), false));
      } else {
        var reason := if wall then SessionWallLimit else CohortStop;
        var status := if !p.stopped then Unknown else if wall then Failed else Cancelled;
        Persist(i, s, C.Draft(status, if p.stopped then reason else StopUnproven, true, reported, Some(p), [],
                              None, if wall then Some(reason) else None, false));
      }
    }

    method Confirm(i: nat, s: SessionId, reported: C.Reported, x: C.Oracle)
      requires i < |slots|
      modifies this
      ensures View() == C.Confirm(old(View()), i, s, reported, x)
    {
      StopReturned(s, x.proof);
      if x.proof.stopped {
        EnterFinish(i, s, C.Decide(reported, x.proof));
      } else {
        Persist(i, s, C.Draft(Unknown, StopUnproven, true, reported, Some(x.proof), [], None, None, false));
      }
    }

    method StopAfterHostFailure(i: nat, s: SessionId, error: Exn, x: C.Oracle)
      requires i < |slots|
      modifies this
      ensures View() == C.StopAfterHostFailure(old(View()), i, s, error, x)
    {
      StopReturned(s, x.proof);
      Persist(i, s, C.HostFailedDraft(Some(x.proof), true, error));
    }

    // -------------------------------------------------------------- terminal measurement

    method FinishStep(i: nat, s: SessionId, stage: C.Stage, after: C.AfterFinish, x: C.Oracle)
      requires i < |slots|
      modifies this, guard
      ensures View() == C.FinishStep(old(View()), i, s, stage, after, x)
    {
      match stage {
        case AtDisk =>
          var _ := guard.CheckDisk(RG.Terminal, x.disk);
          SetPhase(i, s, C.Finishing(C.AtWorkspace, after));
        case AtWorkspace =>
          var _ := guard.CheckTree(s, RG.Workspace, RG.Terminal, x.tree);
          SetPhase(i, s, C.Finishing(C.AtCache, after));
        case AtCache =>
          var _ := guard.CheckTree(s, RG.Cache, RG.Terminal, x.tree);
          FinishDone(i, s, after, x);
        case AtOnce =>
          FinishDone(i, s, after, x);
      }
    }

    method FinishDone(i: nat, s: SessionId, after: C.AfterFinish, x: C.Oracle)
      requires i < |slots|
      modifies this, guard
      ensures View() == C.FinishDone(old(View()), i, s, after, x)
    {
      guard.MarkFinished(s);
      match after {
        case Persist(d) => Write(i, s, d, x);
        case Decide(r, p) => DecideOutcome(i, s, r, p, x);
      }
    }

    method DecideOutcome(i: nat, s: SessionId, reported: C.Reported, p: StopProof, x: C.Oracle)
      requires i < |slots|
      modifies this
      ensures View() == C.DecideOutcome(old(View()), i, s, reported, p, x)
    {
      var e := guard.EventFor(s);
      ObserveResourceEvent(e);
      if e.Some? {
        var sr := C.ResourceStatus(e.value, p);
        Persist(i, s, C.Draft(sr.0, sr.1, true, reported, Some(p), [], None, Some(e.value.code), false));
      } else if !reported.Typed? {
        HostFailure(i, s, true, Exn(None, "AttributeError"));
      } else if !reported.outcome.success {
        Persist(i, s, C.Draft(Failed, reported.outcome.reason, true, reported, Some(p), [], None, None, false));
      } else {
        Cleared(i, s, reported.outcome, p);
      }
    }

    method Cleared(i: nat, s: SessionId, o: Outcome, p: StopProof)
      requires i < |slots|
      modifies this
      ensures View() == C.Cleared(old(View()), i, s, o, p)
    {
      var mine := OwnOf(s);
      own := own[s := mine.(cleared := Some(p))];
      if o.contributions == [] {
        Persist(i, s, C.SucceededDraft(o, p, []));
      } else if launch.publisher.NoPublisher? {
        Persist(i, s, C.PublishFailedDraft(o, p, [], PmwPublishUnavailable));
      } else {
        SetPhase(i, s, C.Publishing(o, p, 0, []));
      }
    }

    // -------------------------------------------------------------- publication

    method NextContribution(i: nat, s: SessionId, o: Outcome, p: StopProof, k: nat, done: seq<string>)
      requires i < |slots|
      modifies this
      ensures View() == C.NextContribution(old(View()), i, s, o, p, k, done)
    {
      if k >= |o.contributions| {
        Persist(i, s, C.SucceededDraft(o, p, done));
      } else {
        SetPhase(i, s, C.Publishing(o, p, k, done));
      }
    }

    method RefuseOne(i: nat, s: SessionId, o: Outcome, p: StopProof, k: nat, done: seq<string>, x: C.Oracle)
      requires i < |slots|
      modifies this
      ensures View() == C.RefuseOne(old(View()), i, s, o, p, k, done, x)
    {
      if x.publish.DriftBefore? {
        Persist(i, s, C.PublishFailedDraft(o, p, done, PublicationIdentityDrift));
      } else if launch.armConfigured {
        if x.publish.ReviewRaised? {
          Persist(i, s, C.PublishFailedDraft(o, p, done, ErrorCode(x.publish.exn, PmwPublishFailed)));
        } else {
          var mine := OwnOf(s);
          own := own[s := mine.(arm := C.Review(mine.arm, true, false))];
          NextContribution(i, s, o, p, k + 1, done);
        }
      }
    }

    method AdmitOne(i: nat, s: SessionId, o: Outcome, p: StopProof, k: nat, done: seq<string>, x: C.Oracle)
      requires i < |slots| && k < |o.contributions|
      modifies this
      ensures View() == C.AdmitOne(old(View()), i, s, o, p, k, done, x)
    {
      if x.publish.ObserveRaised? && !x.publish.DriftAfter? && !launch.armConfigured {
        return;
      }
      var mine := OwnOf(s);
      own := own[s := C.AdmittedOwn(launch, mine)];
      var all := done + [o.contributions[k]];
      if x.publish.DriftAfter? {
        Persist(i, s, C.PublishFailedDraft(o, p, all, PublicationIdentityDrift));
      } else if x.publish.ObserveRaised? {
        Persist(i, s, C.PublishFailedDraft(o, p, all, ErrorCode(x.publish.exn, PmwPublishFailed)));
      } else {
        NextContribution(i, s, o, p, k + 1, all);
      }
    }

    method PublishOne(i: nat, s: SessionId, o: Outcome, p: StopProof, k: nat, done: seq<string>, x: C.Oracle)
      requires i < |slots| && k < |o.contributions|
      modifies this
      ensures View() == C.PublishOne(old(View()), i, s, o, p, k, done, x)
    {
      if x.publish.DriftBefore? || x.publish.ReviewRaised? || x.publish.ArmRejects? {
        RefuseOne(i, s, o, p, k, done, x);
      } else if x.publish.PublisherRaised? {
        var mine := OwnOf(s);
        own := own[s := mine.(arm := C.Review(mine.arm, launch.armConfigured, true))];
        Persist(i, s, C.PublishFailedDraft(o, p, done, ErrorCode(x.publish.exn, PmwPublishFailed)));
      } else if x.publish.ResultRaised? {
        var mine := OwnOf(s);
        own := own[s := C.LostOwn(launch, mine)];
        Persist(i, s, C.PublishFailedDraft(o, p, done, ErrorCode(x.publish.exn, PmwPublishFailed)));
      } else {
        AdmitOne(i, s, o, p, k, done, x);
      }
    }

    // -------------------------------------------------------------- receipts

    method BuildReceipt(s: SessionId, d: C.Draft) returns (r: Receipt)
      ensures r == C.BuildReceipt(View(), s, d)
    {
      var evidence := guard.Evidence(s);
      var mine := OwnOf(s);
      r := Receipt(s, d.status, d.reason, d.started, d.proof, C.OutcomeValueOf(d.reported), d.publications,
                           C.ErrorValueOf(d.error, d.errorCode), evidence, mine.arm);
    }

    method Write(i: nat, s: SessionId, d: C.Draft, x: C.Oracle)
      requires i < |slots|
      modifies this
      ensures View() == C.Write(old(View()), i, s, d, x)
    {
      var e := guard.EventFor(s);
      ObserveResourceEvent(e);
      if d.reported.Garbage? || (launch.armConfigured && !x.armOk) {
        if d.handling || i == |slots| - 1 {
          slots := slots[i := C.Raised];
        } else {
          HostFailure(i, s, d.started, Exn(None, "Exception"));
        }
      } else {
        var r := BuildReceipt(s, C.Override(d, e));
        Deliver(i, s, r, x.ioOk);
      }
    }

    method Deliver(i: nat, s: SessionId, r: Receipt, ioOk: bool)
      requires i < |slots|
      modifies this
      ensures View() == C.Deliver(old(View()), i, s, r, ioOk)
      ensures forall t :: t != s ==> (t in receipts <==> t in old(receipts))
      ensures forall t :: t != s && t in receipts ==> receipts[t] == old(receipts)[t]
      ensures ioOk && AcceptsReceipt(launch, r) ==>
                s in receipts && receipts[s] == r && storeFailed == old(storeFailed) && stopNew == old(stopNew)
      ensures !(ioOk && AcceptsReceipt(launch, r)) ==> receipts == old(receipts) && storeFailed && stopNew
    {
      offers := offers + [C.Offer(r, storeFailed)];
      if ioOk && AcceptsReceipt(launch, r) {
        receipts := receipts[s := r];
      } else {
        storeFailed, stopNew := true, true;
      }
      slots := slots[i := C.Looking];
    }

    // -------------------------------------------------------------- steps and runs

    /** Phases before there is a handle to use. */
    method StartStep(i: nat, s: SessionId, phase: C.Phase, x: C.Oracle)
      requires i < |slots| && CohortRuns.BeforeHandle(phase)
      modifies this, guard
      ensures View() == C.PhaseStep(old(View()), i, s, phase, x)
    {
      match phase {
        case Preparing => Prepare(i, s, x);
        case ActivatingWorkspace => Activate(i, s, RG.Workspace, x);
        case ActivatingCache => Activate(i, s, RG.Cache, x);
        case Launching => LaunchBackend(i, s, x);
        case Starting => AwaitStart(i, s, x);
        case JoiningStart(e) => JoinStart(i, s, e, x);
        case StoppingStart(e) => StopRefusedStart(i, s, e, x);
      }
    }

    method PhaseStep(i: nat, s: SessionId, phase: C.Phase, x: C.Oracle)
      requires i < |slots|
      modifies this, guard
      ensures View() == C.PhaseStep(old(View()), i, s, phase, x)
    {
      if CohortRuns.BeforeHandle(phase) {
        StartStep(i, s, phase, x);
        return;
      }
      match phase {
        case Started => BeginRunning(i, s, x);
        case EarlyStopping(seen) => StopEarly(i, s, seen, x);
        case Running => Arbitrate(i, s, x);
        case StoppingAfterWaitError(e) => StopAfterWaitError(i, s, e, x);
        case Confirming(r) => Confirm(i, s, r, x);
        case Halting(seen, wall) => Halt(i, s, seen, wall, x);
        case Publishing(o, p, k, done) =>
          if k < |o.contributions| {
            PublishOne(i, s, o, p, k, done, x);
          }
        case HostStopping(e) => StopAfterHostFailure(i, s, e, x);
        case Finishing(stage, after) => FinishStep(i, s, stage, after, x);
      }
    }

    /** Any actor's step keeps the run invariant and every receipt. */
    method Step(a: C.Actor, x: C.Oracle)
      modifies this, guard
      ensures View() == C.Step(old(View()), a, x)
      ensures SafeMove(old(View()), View())
    {
      StepIsSafe(View(), a, x);
      Dispatch(a, x);
    }

    method Dispatch(a: C.Actor, x: C.Oracle)
      modifies this, guard
      ensures View() == C.Step(old(View()), a, x)
    {
      match a {
        case SlotActor(i) =>
          if i < |slots| {
            SlotStep(i, x);
          }
        case LiveDisk =>
          var _ := guard.CheckDisk(RG.Live, x.disk);
        case LiveTree(s, t) =>
          if s in guard.activated && s !in guard.finished && s in launch.sessions {
            var _ := guard.CheckTree(s, t, RG.Live, x.tree);
          }
        case Caller =>
          stopNew := true;
      }
    }

    method SlotStep(i: nat, x: C.Oracle)
      requires i < |slots|
      modifies this, guard
      ensures View() == C.SlotStep(old(View()), i, x)
    {
      match slots[i] {
        case Looking =>
          if i == |slots| - 1 {
            SettleMissing(i);
          } else {
            Next(i);
          }
        case Busy(s, phase) => PhaseStep(i, s, phase, x);
        case Returned =>
        case Raised =>
      }
    }

    method Play(schedule: seq<(C.Actor, C.Oracle)>)
      modifies this, guard
      ensures View() == C.Run(old(View()), schedule)
    {
      for k := 0 to |schedule|
        invariant View() == C.Run(old(View()), schedule[..k])
      {
        Step(schedule[k].0, schedule[k].1);
        assert schedule[..k + 1][..k] == schedule[..k];
      }
      assert schedule[..|schedule|] == schedule;
    }

    // -------------------------------------------------------------- the settlement

    method SettlementValue() returns (v: Settlement)
      ensures v == C.SettlementValue(View())
    {
      var rows := [];
      for k := 0 to |launch.sessions|
        invariant rows == C.Rows(View(), k)
      {
        var s := launch.sessions[k];
        if s in receipts {
          rows := rows + [Row(s, receipts[s].status, receipts[s])];
        }
      }
      var counts := Counts(Statuses(rows));
      var outcome := AllSucceeded;
      if storeFailed || |rows| != |launch.sessions| {
        outcome := SettlementIncomplete;
      } else if unsafe || counts[Unknown] > 0 {
        outcome := Unsafe;
      } else if counts[Cancelled] > 0 {
        outcome := CohortWasCancelled;
      } else if counts[Failed] > 0 {
        outcome := CompletedWithFailures;
      }
      v := Settlement(outcome, counts, rows);
    }
  }

  /** The run invariant, every receipt and a stop survive. */
  ghost predicate SafeMove(c: C.State, d: C.State) {
    CohortInvariant.Inv(false, c) ==>
      && CohortInvariant.Inv(false, d)
      && (forall s :: CohortTheorems.KeepsReceipt(c, d, s))
      && (c.stopNew ==> d.stopNew && d.cursor == c.cursor)
  }

  lemma StepIsSafe(c: C.State, a: C.Actor, x: C.Oracle)
    ensures SafeMove(c, C.Step(c, a, x))
  {
    if CohortInvariant.Inv(false, c) {
      CohortRuns.StepKeepsInv(false, c, a, x);
      forall s ensures CohortTheorems.KeepsReceipt(c, C.Step(c, a, x), s) {
        CohortTheorems.StepKeepsReceipt(c, a, x, s);
      }
      if c.stopNew {
        CohortTheorems.StopIsForever(c, a, x);
      }
    }
  }

  /** A whole cohort, from the first disk check to the settlement.  If the pass
      over missing receipts has run to its end, the store accepts the settlement
      exactly when no write failed and an unsafe run shows an UNKNOWN receipt. */
  method RunPreparedCohort(a: CohortTheorems.Setup, schedule: seq<(C.Actor, C.Oracle)>)
    returns (c: Cohort, v: Settlement)
    requires CohortTheorems.LaunchOk(false, a)
    ensures c.View() == CohortTheorems.RunOf(a, schedule)
    ensures v == C.SettlementValue(c.View())
    ensures CohortTheorems.Finished(c.View()) ==>
              (AcceptsSettlement(a.launch, c.receipts, v) <==>
                 !c.storeFailed && (c.unsafe ==> CohortInvariant.HasUnknownReceipt(c.View())))
  {
    c := new Cohort(a.launch, a.profile, a.workers, a.disk);
    c.Play(schedule);
    v := c.SettlementValue();
    if CohortTheorems.Finished(CohortTheorems.RunOf(a, schedule)) {
      CohortTheorems.FinishedRunsSettle(a, schedule);
    }
  }
}
