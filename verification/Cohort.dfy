/** One cohort run as a step machine.  A slot is a worker or, last, the
    settlement pass over missing receipts; a step is what one slot does between
    two suspension points, answered by an oracle for everything the host does
    not decide: backend, publisher, arm, measurements, disk writes and timing. */
module Cohort {
  import opened Contracts
  import opened ResourceGuard
  import opened ReceiptRules

  datatype StartResult = GotHandle | GotOther | StartRaised(exn: Exn, proof: Option<StopProof>)

  /** A backend may break its contract and complete with something that is no outcome. */
  datatype WaitResult = WaitOutcome(outcome: Outcome) | WaitGarbage | WaitRaised(exn: Exn)

  datatype PublishResult =
    | DriftBefore
    | ReviewRaised(exn: Exn)
    | ArmRejects
    | PublisherRaised(exn: Exn)
    | ResultRaised(exn: Exn)
    | ObserveRaised(exn: Exn)
    | DriftAfter
    | Published

  datatype Oracle = Oracle(
    ok: bool, exn: Exn, identity: bool,
    disk: DiskReading, tree: TreeReading,
    start: Option<StartResult>, wait: Option<WaitResult>,
    sawStop: bool, sawResource: bool, resourceInDone: bool, stale: bool, wall: bool,
    proof: StopProof, late: Option<Outcome>,
    publish: PublishResult, armOk: bool, ioOk: bool)

  datatype Reported = NoOutcome | Typed(outcome: Outcome) | Garbage

  datatype Draft = Draft(
    status: Status, reason: Code, started: bool, reported: Reported,
    proof: Option<StopProof>, publications: seq<string>,
    error: Option<Exn>, errorCode: Option<Code>, handling: bool)

  datatype Stage = AtDisk | AtWorkspace | AtCache | AtOnce

  datatype AfterFinish = Persist(draft: Draft) | Decide(reported: Reported, proof: StopProof)

  datatype Phase =
    | Preparing
    | ActivatingWorkspace
    | ActivatingCache
    | Launching
    | Starting
    | JoiningStart(error: Exn)
    | StoppingStart(error: Exn)
    | Started
    | EarlyStopping(seen: Option<Event>)
    | Running
    | StoppingAfterWaitError(error: Exn)
    | Confirming(reported: Reported)
    | Halting(seen: Option<Event>, wall: bool)
    | Publishing(outcome: Outcome, proof: StopProof, next: nat, done: seq<string>)
    | HostStopping(error: Exn)
    | Finishing(stage: Stage, after: AfterFinish)

  datatype Slot = Looking | Busy(session: SessionId, phase: Phase) | Returned | Raised

  /** What happened to one session so far. */
  datatype Own = Own(
    arm: Tally,
    handle: bool,              // a start returned a handle
    stop: Option<StopProof>,   // the last proof its stop returned
    halted: bool,              // a stop was sent because completion was not in the done set
    cleared: Option<StopProof>, // the proof in hand when the terminal measurement showed no event
    published: nat,
    lost: nat)                 // published, but its result could not be put on record

  datatype Offer = Offer(receipt: Receipt, late: bool)

  datatype State = State(
    launch: Launch, guard: Guard,
    cursor: nat, settleCursor: nat,
    stopNew: bool, unsafe: bool, storeFailed: bool,
    slots: seq<Slot>,
    own: map<SessionId, Own>,
    receipts: map<SessionId, Receipt>,
    offers: seq<Offer>)

  const FRESH := Own(Tally(0, 0, 0), false, None, false, None, 0, 0)

  const NOT_STARTED_PROOF := StopProof(true, NotStarted)

  // ---------------------------------------------------------------- shared helpers

  function Put(c: State, i: nat, slot: Slot): State
    requires i < |c.slots|
  {
    c.(slots := c.slots[i := slot])
  }

  function OwnOf(c: State, s: SessionId): Own {
    if s in c.own then c.own[s] else FRESH
  }

  function SetOwn(c: State, s: SessionId, o: Own): State {
    c.(own := c.own[s := o])
  }

  function Observe(c: State, e: Option<Event>): State {
    match e
    case None => c
    case Some(ev) =>
      if ev.uncertain then c.(unsafe := true, stopNew := true)
      else if ev.scope.CohortScope? then c.(stopNew := true)
      else c
  }

  function MarkUnsafe(c: State, proven: bool): State {
    if proven then c else c.(unsafe := true, stopNew := true)
  }

  function ResourceStatus(e: Event, proof: StopProof): (Status, Code) {
    if e.uncertain then (Unknown, ResourceAccountingUncertain)
    else if !proof.stopped then (Unknown, StopUnproven)
    else (Failed, e.code)
  }

  function EventCode(e: Option<Event>): Option<Code> {
    if e.None? then None else Some(e.value.code)
  }

  function NotStartedDraft(): Draft {
    Draft(Cancelled, NotStarted, false, NoOutcome, Some(NOT_STARTED_PROOF), [], None, None, false)
  }

  /** Entering the terminal measurement; it returns at once when it already ran
      or when the session never activated. */
  function EnterFinish(c: State, i: nat, s: SessionId, after: AfterFinish): State
    requires i < |c.slots|
  {
    var stage := if s in c.guard.finished || s !in c.guard.activated then AtOnce else AtDisk;
    Put(c, i, Busy(s, Finishing(stage, after)))
  }

  function BeginPersist(c: State, i: nat, s: SessionId, d: Draft): State
    requires i < |c.slots|
  {
    EnterFinish(c, i, s, Persist(d))
  }

  function HostFailedDraft(proof: Option<StopProof>, started: bool, e: Exn): Draft {
    var proven := !started || Stopped(proof);
    Draft(if proven then Failed else Unknown, if proven then HostSessionFailed else StopUnproven,
          started, NoOutcome, proof, [], Some(e), Some(HostSessionFailed), true)
  }

  /** The handler around a whole session: stop the handle if there is one. */
  function HostFailure(c: State, i: nat, s: SessionId, started: bool, e: Exn): State
    requires i < |c.slots|
  {
    if started then Put(c, i, Busy(s, HostStopping(e)))
    else BeginPersist(c, i, s, HostFailedDraft(None, false, e))
  }

  function RecordStop(c: State, s: SessionId, p: StopProof): State {
    SetOwn(c, s, OwnOf(c, s).(stop := Some(p)))
  }

  // ---------------------------------------------------------------- dispensing sessions

  function WorkerNext(c: State, i: nat): State
    requires i < |c.slots|
  {
    if c.stopNew || c.cursor >= |c.launch.sessions| then Put(c, i, Returned)
    else Put(c, i, Busy(c.launch.sessions[c.cursor], Preparing)).(cursor := c.cursor + 1)
  }

  predicate WorkersDone(c: State) {
    forall j :: 0 <= j < |c.slots| - 1 ==> c.slots[j].Returned? || c.slots[j].Raised?
  }

  predicate WorkerRaised(c: State) {
    exists j :: 0 <= j < |c.slots| - 1 && c.slots[j].Raised?
  }

  /** A worker that raised makes the whole run unsafe. */
  function SettleFlags(c: State): State {
    if WorkerRaised(c) then c.(unsafe := true, stopNew := true) else c
  }

  function SettleOne(c: State, i: nat): State
    requires i < |c.slots|
  {
    if c.settleCursor >= |c.launch.sessions| then Put(c, i, Returned)
    else
      var s := c.launch.sessions[c.settleCursor];
      var c1 := c.(settleCursor := c.settleCursor + 1);
      if s in c1.receipts then c1 else BeginPersist(c1, i, s, NotStartedDraft())
  }

  /** The pass over missing receipts starts when every worker is done. */
  function SettleNext(c: State, i: nat): State
    requires i < |c.slots|
  {
    if WorkersDone(c) then SettleOne(SettleFlags(c), i) else c
  }

  // ---------------------------------------------------------------- up to the handle

  function Prepare(c: State, i: nat, s: SessionId, x: Oracle): State
    requires i < |c.slots|
  {
    if !x.ok then HostFailure(c, i, s, false, x.exn)
    else
      var c1 := c.(guard := c.guard.(activated := c.guard.activated + {s}));
      if c1.guard.global.Some? then AfterActivation(c1, i, s) else Put(c1, i, Busy(s, ActivatingWorkspace))
  }

  function Activate(c: State, i: nat, s: SessionId, target: Target, x: Oracle): State
    requires i < |c.slots|
  {
    var (g, e) := CheckTree(c.guard, s, target, Initial, x.tree);
    var c1 := c.(guard := g);
    if target.Workspace? && (e.None? || e.value.disposition == Some(Warn))
    then Put(c1, i, Busy(s, ActivatingCache))
    else AfterActivation(c1, i, s)
  }

  function AfterActivation(c: State, i: nat, s: SessionId): State
    requires i < |c.slots|
  {
    var e := EventFor(c.guard, s);
    var c1 := Observe(c, e);
    if e.Some? then
      var (status, reason) := ResourceStatus(e.value, NOT_STARTED_PROOF);
      BeginPersist(c1, i, s, Draft(status, reason, false, NoOutcome, Some(NOT_STARTED_PROOF), [],
                                   None, Some(e.value.code), false))
    else if c1.stopNew then BeginPersist(c1, i, s, NotStartedDraft())
    else Put(c1, i, Busy(s, Launching))
  }

  function Drift(): Exn { Exn(Some(BackendIdentityDrift), "RuntimeOrchestrationError") }

  function LaunchBackend(c: State, i: nat, s: SessionId, x: Oracle): State
    requires i < |c.slots|
  {
    if !x.ok then HostFailure(c, i, s, false, x.exn)
    else if !x.identity then StartFailed(c, i, s, Drift(), Some(NOT_STARTED_PROOF))
    else Put(c, i, Busy(s, Starting))
  }

  /** What the wait on the guard's signal returned: the session's own event may
      have been read before a cohort-wide one was latched. */
  function WakeEvent(g: Guard, s: SessionId, stale: bool): Option<Event> {
    if stale && s in g.terminal then Some(g.terminal[s]) else EventFor(g, s)
  }

  predicate Signalled(c: State, s: SessionId, x: Oracle) {
    x.sawResource && EventFor(c.guard, s).Some?
  }

  /** A wait that saw the guard's signal in its done set observes its event. */
  function Woken(c: State, s: SessionId, x: Oracle): State {
    if Signalled(c, s, x) && x.resourceInDone then Observe(c, WakeEvent(c.guard, s, x.stale)) else c
  }

  function AwaitStart(c: State, i: nat, s: SessionId, x: Oracle): State
    requires i < |c.slots|
  {
    var c1 := Woken(c, s, x);
    if x.start.Some? then AcceptStart(c1, i, s, x.start.value, x.identity, None)
    else Put(c1, i, Busy(s, JoiningStart(JoinError(c1.guard, s, (x.sawStop && c.stopNew) || Signalled(c, s, x)))))
  }

  function JoinError(g: Guard, s: SessionId, signalled: bool): Exn {
    if !signalled then Exn(None, "TimeoutError")
    else
      var e := EventFor(g, s);
      Exn(Some(if e.Some? then e.value.code else CohortStop), "RuntimeOrchestrationError")
  }

  /** `cancelled` is the error of a start that was cancelled and joined; a handle
      it still returns is stopped, not used. */
  function AcceptStart(c: State, i: nat, s: SessionId, r: StartResult, identity: bool,
                       cancelled: Option<Exn>): State
    requires i < |c.slots|
  {
    match r
    case StartRaised(e, p) => StartFailed(c, i, s, e, p)
    case GotOther => StartFailed(c, i, s, Exn(Some(BackendHandleInvalid), "RuntimeOrchestrationError"), None)
    case GotHandle =>
      var c1 := SetOwn(c, s, OwnOf(c, s).(handle := true));
      if !identity then Put(c1, i, Busy(s, StoppingStart(Drift())))
      else if cancelled.Some? then Put(c1, i, Busy(s, StoppingStart(cancelled.value)))
      else Put(c1, i, Busy(s, Started))
  }

  function JoinStart(c: State, i: nat, s: SessionId, error: Exn, x: Oracle): State
    requires i < |c.slots|
  {
    if x.start.None? then c else AcceptStart(c, i, s, x.start.value, x.identity, Some(error))
  }

  function StopRefusedStart(c: State, i: nat, s: SessionId, error: Exn, x: Oracle): State
    requires i < |c.slots|
  {
    StartFailed(RecordStop(c, s, x.proof), i, s, error, Some(x.proof))
  }

  /** The receipt of a start that produced no usable handle. */
  function StartFailedDraft(e: Option<Event>, stopping: bool, error: Exn, proof: Option<StopProof>): Draft {
    var proven := Stopped(proof);
    if e.Some? then
      var ev := e.value;
      var status :=
        if ev.uncertain || !proven then Unknown
        else if ev.scope.CohortScope? then Cancelled else Failed;
      var reason :=
        if ev.uncertain || !proven
        then if ev.uncertain && proven then ResourceAccountingUncertain else StopUnproven
        else ev.code;
      Draft(status, reason, false, NoOutcome, proof, [], Some(error), Some(ev.code), false)
    else
      var code := ErrorCode(error, BackendStartFailed);
      var status :=
        if stopping && proven then Cancelled else if proven then Failed else Unknown;
      var reason :=
        if stopping && proven then NotStarted
        else if proven && code == BackendIdentityDrift then BackendIdentityDrift
        else if proven then BackendStartFailed
        else BackendStartUnproven;
      Draft(status, reason, false, NoOutcome, proof, [], Some(error), Some(code), false)
  }

  function StartFailed(c: State, i: nat, s: SessionId, error: Exn, proof: Option<StopProof>): State
    requires i < |c.slots|
  {
    var e := EventFor(c.guard, s);
    var c1 := MarkUnsafe(Observe(c, e), Stopped(proof));
    BeginPersist(c1, i, s, StartFailedDraft(e, c1.stopNew, error, proof))
  }

  // ---------------------------------------------------------------- with a handle

  function BeginRunning(c: State, i: nat, s: SessionId, x: Oracle): State
    requires i < |c.slots|
  {
    if !x.ok then HostFailure(c, i, s, true, x.exn)
    else
      var e := EventFor(c.guard, s);
      if c.stopNew || e.Some? then Put(c, i, Busy(s, EarlyStopping(e)))
      else Put(c, i, Busy(s, Running))
  }

  function StopEarly(c: State, i: nat, s: SessionId, seen: Option<Event>, x: Oracle): State
    requires i < |c.slots|
  {
    var p := x.proof;
    var c1 := Observe(MarkUnsafe(RecordStop(c, s, p), p.stopped), seen);
    var (status, reason) :=
      if seen.Some? then ResourceStatus(seen.value, p)
      else if p.stopped then (Cancelled, CohortCancelled) else (Unknown, StopUnproven);
    BeginPersist(c1, i, s, Draft(status, reason, true, NoOutcome, Some(p), [], None, EventCode(seen), false))
  }

  /** The arbiter: completion wins whenever it is in the original done set. */
  function Arbitrate(c: State, i: nat, s: SessionId, x: Oracle): State
    requires i < |c.slots|
  {
    var wall := x.wall && c.launch.wallLimited;
    if x.wait.Some? then Put(c, i, Busy(s, CompletionPhase(x.wait.value)))
    else if !(x.sawStop && c.stopNew) && !Signalled(c, s, x) && !wall then c
    else Interrupt(c, i, s, if Signalled(c, s, x) then WakeEvent(c.guard, s, x.stale) else None, wall, x)
  }

  function CompletionPhase(w: WaitResult): Phase {
    match w
    case WaitRaised(e) => StoppingAfterWaitError(e)
    case WaitOutcome(o) => Confirming(Typed(o))
    case WaitGarbage => Confirming(Garbage)
  }

  function Interrupt(c: State, i: nat, s: SessionId, seen: Option<Event>, wall: bool, x: Oracle): State
    requires i < |c.slots|
  {
    var c1 := Observe(c, seen);
    if !x.ok then HostFailure(c1, i, s, true, x.exn)
    else Put(SetOwn(c1, s, OwnOf(c1, s).(halted := true)), i, Busy(s, Halting(seen, wall)))
  }

  function StopAfterWaitError(c: State, i: nat, s: SessionId, error: Exn, x: Oracle): State
    requires i < |c.slots|
  {
    var p := x.proof;
    var c1 := MarkUnsafe(RecordStop(c, s, p), p.stopped);
    BeginPersist(c1, i, s, Draft(if p.stopped then Failed else Unknown,
                                 if p.stopped then BackendWaitFailed else StopUnproven,
                                 true, NoOutcome, Some(p), [], Some(error), Some(BackendWaitFailed), false))
  }

  function Halt(c: State, i: nat, s: SessionId, seen: Option<Event>, wall: bool, x: Oracle): State
    requires i < |c.slots|
  {
    var p := x.proof;
    var c1 := MarkUnsafe(RecordStop(c, s, p), p.stopped);
    var reported := if p.stopped && x.late.Some? then Typed(x.late.value) else NoOutcome;
    if seen.Some? then
      var (status, reason) := ResourceStatus(seen.value, p);
      BeginPersist(c1, i, s, Draft(status, reason, true, reported, Some(p), [], None, Some(seen.value.code), false))
    else
      var reason := if wall then SessionWallLimit else CohortStop;
      BeginPersist(c1, i, s,
        Draft(if !p.stopped then Unknown else if wall then Failed else Cancelled,
              if p.stopped then reason else StopUnproven,
              true, reported, Some(p), [], None, if wall then Some(reason) else None, false))
  }

  function Confirm(c: State, i: nat, s: SessionId, reported: Reported, x: Oracle): State
    requires i < |c.slots|
  {
    var p := x.proof;
    var c1 := MarkUnsafe(RecordStop(c, s, p), p.stopped);
    if p.stopped then EnterFinish(c1, i, s, Decide(reported, p))
    else BeginPersist(c1, i, s, Draft(Unknown, StopUnproven, true, reported, Some(p), [], None, None, false))
  }

  function StopAfterHostFailure(c: State, i: nat, s: SessionId, error: Exn, x: Oracle): State
    requires i < |c.slots|
  {
    var p := x.proof;
    var c1 := MarkUnsafe(RecordStop(c, s, p), p.stopped);
    BeginPersist(c1, i, s, HostFailedDraft(Some(p), true, error))
  }

  // ---------------------------------------------------------------- terminal measurement

  function FinishStep(c: State, i: nat, s: SessionId, stage: Stage, after: AfterFinish, x: Oracle): State
    requires i < |c.slots|
  {
    match stage
    case AtDisk =>
      Put(c.(guard := CheckDisk(c.guard, Terminal, x.disk).0), i, Busy(s, Finishing(AtWorkspace, after)))
    case AtWorkspace =>
      Put(c.(guard := CheckTree(c.guard, s, Workspace, Terminal, x.tree).0), i, Busy(s, Finishing(AtCache, after)))
    case AtCache =>
      FinishDone(c.(guard := CheckTree(c.guard, s, Cache, Terminal, x.tree).0), i, s, after, x)
    case AtOnce =>
      FinishDone(c, i, s, after, x)
  }

  function FinishDone(c: State, i: nat, s: SessionId, after: AfterFinish, x: Oracle): State
    requires i < |c.slots|
  {
    var c1 := c.(guard := c.guard.(finished := c.guard.finished + {s}));
    match after
    case Persist(d) => Write(c1, i, s, d, x)
    case Decide(r, p) => DecideOutcome(c1, i, s, r, p, x)
  }

  function SucceededDraft(o: Outcome, p: StopProof, published: seq<string>): Draft {
    Draft(Succeeded, o.reason, true, Typed(o), Some(p), published, None, None, false)
  }

  function PublishFailedDraft(o: Outcome, p: StopProof, published: seq<string>, code: Code): Draft {
    Draft(Failed, PmwPublishFailed, true, Typed(o), Some(p), published,
          Some(Exn(Some(code), if code == PmwPublishUnavailable then "RuntimeOrchestrationError"
                               else "RuntimePublicationError")),
          Some(code), false)
  }

  function DecideOutcome(c: State, i: nat, s: SessionId, reported: Reported, p: StopProof, x: Oracle): State
    requires i < |c.slots|
  {
    var e := EventFor(c.guard, s);
    var c1 := Observe(c, e);
    if e.Some? then
      var (status, reason) := ResourceStatus(e.value, p);
      BeginPersist(c1, i, s, Draft(status, reason, true, reported, Some(p), [], None, Some(e.value.code), false))
    else if !reported.Typed? then HostFailure(c1, i, s, true, Exn(None, "AttributeError"))
    else if !reported.outcome.success then
      BeginPersist(c1, i, s,
        Draft(Failed, reported.outcome.reason, true, reported, Some(p), [], None, None, false))
    else Cleared(c1, i, s, reported.outcome, p)
  }

  /** Stopped, measured and successful: only now may anything be published. */
  function Cleared(c: State, i: nat, s: SessionId, o: Outcome, p: StopProof): State
    requires i < |c.slots|
  {
    var c1 := SetOwn(c, s, OwnOf(c, s).(cleared := Some(p)));
    if o.contributions == [] then BeginPersist(c1, i, s, SucceededDraft(o, p, []))
    else if c.launch.publisher.NoPublisher? then
      BeginPersist(c1, i, s, PublishFailedDraft(o, p, [], PmwPublishUnavailable))
    else Put(c1, i, Busy(s, Publishing(o, p, 0, [])))
  }

  // ---------------------------------------------------------------- publication

  function Review(t: Tally, armed: bool, admitted: bool): Tally {
    if !armed then t
    else if admitted then Tally(t.reviewed + 1, t.admitted + 1, t.rejected)
    else Tally(t.reviewed + 1, t.admitted, t.rejected + 1)
  }

  function NextContribution(c: State, i: nat, s: SessionId, o: Outcome, p: StopProof, k: nat,
                            done: seq<string>): State
    requires i < |c.slots|
  {
    if k >= |o.contributions| then BeginPersist(c, i, s, SucceededDraft(o, p, done))
    else Put(c, i, Busy(s, Publishing(o, p, k, done)))
  }

  /** The publication was given up: what was published so far stays listed. */
  function PublishFailed(c: State, i: nat, s: SessionId, o: Outcome, p: StopProof, done: seq<string>, code: Code): State
    requires i < |c.slots|
  {
    BeginPersist(c, i, s, PublishFailedDraft(o, p, done, code))
  }

  /** Identity drift, a raising arm or a rejection: the publisher is not called.
      Only a configured arm can raise or reject. */
  function RefuseOne(c: State, i: nat, s: SessionId, o: Outcome, p: StopProof, k: nat,
                     done: seq<string>, x: Oracle): State
    requires i < |c.slots|
  {
    var own := OwnOf(c, s);
    if x.publish.DriftBefore? then PublishFailed(c, i, s, o, p, done, PublicationIdentityDrift)
    else if !c.launch.armConfigured then c
    else if x.publish.ReviewRaised? then
      PublishFailed(c, i, s, o, p, done, ErrorCode(x.publish.exn, PmwPublishFailed))
    else
      NextContribution(SetOwn(c, s, own.(arm := Review(own.arm, true, false))), i, s, o, p, k + 1, done)
  }

  function AdmittedOwn(l: Launch, o: Own): Own {
    o.(arm := Review(o.arm, l.armConfigured, true), published := o.published + 1)
  }

  /** The publisher answered and its answer could not be projected: the record
      is out, but neither listed nor shown to the arm. */
  function LostOwn(l: Launch, o: Own): Own {
    AdmittedOwn(l, o).(lost := o.lost + 1)
  }

  /** The publisher admitted the record; observing it or a later drift may still fail. */
  function AdmitOne(c: State, i: nat, s: SessionId, o: Outcome, p: StopProof, k: nat,
                    done: seq<string>, x: Oracle): State
    requires i < |c.slots| && k < |o.contributions|
  {
    var c1 := SetOwn(c, s, AdmittedOwn(c.launch, OwnOf(c, s)));
    var all := done + [o.contributions[k]];
    if x.publish.DriftAfter? then PublishFailed(c1, i, s, o, p, all, PublicationIdentityDrift)
    else if x.publish.ObserveRaised? then
      if c.launch.armConfigured
      then PublishFailed(c1, i, s, o, p, all, ErrorCode(x.publish.exn, PmwPublishFailed)) else c
    else NextContribution(c1, i, s, o, p, k + 1, all)
  }

  function PublishOne(c: State, i: nat, s: SessionId, o: Outcome, p: StopProof, k: nat,
                      done: seq<string>, x: Oracle): State
    requires i < |c.slots| && k < |o.contributions|
  {
    match x.publish
    case DriftBefore => RefuseOne(c, i, s, o, p, k, done, x)
    case ReviewRaised(_) => RefuseOne(c, i, s, o, p, k, done, x)
    case ArmRejects => RefuseOne(c, i, s, o, p, k, done, x)
    case PublisherRaised(e) =>
      var own := OwnOf(c, s);
      var c1 := SetOwn(c, s, own.(arm := Review(own.arm, c.launch.armConfigured, true)));
      PublishFailed(c1, i, s, o, p, done, ErrorCode(e, PmwPublishFailed))
    case ResultRaised(e) =>
      PublishFailed(SetOwn(c, s, LostOwn(c.launch, OwnOf(c, s))), i, s, o, p, done, ErrorCode(e, PmwPublishFailed))
    case ObserveRaised(_) => AdmitOne(c, i, s, o, p, k, done, x)
    case DriftAfter => AdmitOne(c, i, s, o, p, k, done, x)
    case Published => AdmitOne(c, i, s, o, p, k, done, x)
  }

  // ---------------------------------------------------------------- receipts

  /** A resource event latched by the terminal measurement overrides the draft. */
  function Override(d: Draft, e: Option<Event>): Draft {
    if e.None? then d
    else if e.value.uncertain then
      d.(status := Unknown, reason := ResourceAccountingUncertain, errorCode := Some(ResourceAccountingUncertain))
    else if d.started && d.status != Unknown then
      d.(status := Failed, reason := e.value.code, errorCode := Some(e.value.code))
    else if d.reason == NotStarted then
      d.(reason := e.value.code, errorCode := Some(e.value.code))
    else d
  }

  function OutcomeValueOf(r: Reported): Option<OutcomeValue> {
    if r.Typed? then
      Some(OutcomeValue(r.outcome.success, r.outcome.reason, |r.outcome.contributions|, r.outcome.contributions))
    else None
  }

  function ErrorValueOf(error: Option<Exn>, code: Option<Code>): Option<ErrorValue> {
    if error.None? && code.None? then None
    else
      var selected := if code.Some? then code.value else ErrorCode(error.value, RuntimeSessionFailed);
      Some(ErrorValue(selected, if error.None? then None else Some(SafeType(error.value))))
  }

  function BuildReceipt(c: State, s: SessionId, d: Draft): Receipt {
    Receipt(s, d.status, d.reason, d.started, d.proof, OutcomeValueOf(d.reported), d.publications,
            ErrorValueOf(d.error, d.errorCode), EvidenceFor(c.guard, s), OwnOf(c, s).arm)
  }

  /** Reading the arm's evidence, or an outcome that is none, may raise. */
  predicate BuildingRaises(c: State, d: Draft, x: Oracle) {
    d.reported.Garbage? || (c.launch.armConfigured && !x.armOk)
  }

  /** Inside the handler or the settlement pass nothing is left to catch it. */
  function BuildRaised(c: State, i: nat, s: SessionId, d: Draft): State
    requires i < |c.slots|
  {
    if d.handling || i == |c.slots| - 1 then Put(c, i, Raised)
    else HostFailure(c, i, s, d.started, Exn(None, "Exception"))
  }

  function Write(c: State, i: nat, s: SessionId, d: Draft, x: Oracle): State
    requires i < |c.slots|
  {
    var e := EventFor(c.guard, s);
    var c1 := Observe(c, e);
    if BuildingRaises(c, d, x) then BuildRaised(c1, i, s, d)
    else Deliver(c1, i, s, BuildReceipt(c1, s, Override(d, e)), x.ioOk)
  }

  function Deliver(c: State, i: nat, s: SessionId, r: Receipt, ioOk: bool): State
    requires i < |c.slots|
  {
    var c1 := c.(offers := c.offers + [Offer(r, c.storeFailed)]);
    var c2 :=
      if ioOk && AcceptsReceipt(c.launch, r) then c1.(receipts := c1.receipts[s := r])
      else c1.(storeFailed := true, stopNew := true);
    Put(c2, i, Looking)
  }

  // ---------------------------------------------------------------- steps and runs

  function PhaseStep(c: State, i: nat, s: SessionId, phase: Phase, x: Oracle): State
    requires i < |c.slots|
  {
    match phase
    case Preparing => Prepare(c, i, s, x)
    case ActivatingWorkspace => Activate(c, i, s, Workspace, x)
    case ActivatingCache => Activate(c, i, s, Cache, x)
    case Launching => LaunchBackend(c, i, s, x)
    case Starting => AwaitStart(c, i, s, x)
    case JoiningStart(e) => JoinStart(c, i, s, e, x)
    case StoppingStart(e) => StopRefusedStart(c, i, s, e, x)
    case Started => BeginRunning(c, i, s, x)
    case EarlyStopping(seen) => StopEarly(c, i, s, seen, x)
    case Running => Arbitrate(c, i, s, x)
    case StoppingAfterWaitError(e) => StopAfterWaitError(c, i, s, e, x)
    case Confirming(r) => Confirm(c, i, s, r, x)
    case Halting(seen, wall) => Halt(c, i, s, seen, wall, x)
    case Publishing(o, p, k, done) => if k < |o.contributions| then PublishOne(c, i, s, o, p, k, done, x) else c
    case HostStopping(e) => StopAfterHostFailure(c, i, s, e, x)
    case Finishing(stage, after) => FinishStep(c, i, s, stage, after, x)
  }

  function SlotStep(c: State, i: nat, x: Oracle): State
    requires i < |c.slots|
  {
    match c.slots[i]
    case Looking => if i == |c.slots| - 1 then SettleNext(c, i) else WorkerNext(c, i)
    case Busy(s, phase) => PhaseStep(c, i, s, phase, x)
    case Returned => c
    case Raised => c
  }

  /** Who moves: a slot, one of the guard's live monitors, or the caller cancelling. */
  datatype Actor = SlotActor(slot: nat) | LiveDisk | LiveTree(session: SessionId, target: Target) | Caller

  function Step(c: State, a: Actor, x: Oracle): State {
    match a
    case SlotActor(i) => if i < |c.slots| then SlotStep(c, i, x) else c
    case LiveDisk => c.(guard := CheckDisk(c.guard, Live, x.disk).0)
    case LiveTree(s, t) =>
      if s in c.guard.activated && s !in c.guard.finished && s in c.launch.sessions
      then c.(guard := CheckTree(c.guard, s, t, Live, x.tree).0) else c
    case Caller => c.(stopNew := true)
  }

  /** The state in which the workers are created: the guard has run its initial
      disk check and the controller has observed that check's raw event. */
  function Begin(l: Launch, p: Profile, workers: nat, disk: DiskReading): State {
    var (g, e) := CheckDisk(Create(p, l.sessions), Initial, disk);
    Observe(State(l, g, 0, 0, false, false, false, seq(workers + 1, i => Looking), map[], map[], []), e)
  }

  function Run(c: State, schedule: seq<(Actor, Oracle)>): State
    decreases |schedule|
  {
    if schedule == [] then c
    else
      var n := |schedule| - 1;
      Step(Run(c, schedule[..n]), schedule[n].0, schedule[n].1)
  }

  // ---------------------------------------------------------------- the host's settlement

  function Rows(c: State, k: nat): seq<Row>
    requires k <= |c.launch.sessions|
  {
    if k == 0 then []
    else
      var s := c.launch.sessions[k - 1];
      Rows(c, k - 1) + if s in c.receipts then [Row(s, c.receipts[s].status, c.receipts[s])] else []
  }

  function HostOutcome(c: State, rows: seq<Row>): CohortOutcome {
    var counts := Counts(Statuses(rows));
    if c.storeFailed || |rows| != |c.launch.sessions| then SettlementIncomplete
    else if c.unsafe || counts[Unknown] > 0 then Unsafe
    else if counts[Cancelled] > 0 then CohortWasCancelled
    else if counts[Failed] > 0 then CompletedWithFailures
    else AllSucceeded
  }

  function SettlementValue(c: State): Settlement {
    var rows := Rows(c, |c.launch.sessions|);
    Settlement(HostOutcome(c, rows), Counts(Statuses(rows)), rows)
  }
}
