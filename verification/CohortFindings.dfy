/** Runs that show what the cohort does not keep: settlements the store refuses
    although no write failed, and a receipt it refuses for its spelling. */
module CohortFindings {
  import opened Contracts
  import opened ResourceGuard
  import opened ReceiptRules
  import opened Cohort
  import opened CohortInvariant
  import opened CohortSteps
  import opened CohortTheorems

  // ---------------------------------------------------------------- a worker that raises

  /** Preparation fails and so does reading the arm's evidence for the failure
      receipt; the settlement pass then records the session as NOT_STARTED. */
  function RaisingSchedule(): seq<(Actor, Oracle)> {
    [(SlotActor(0), Quiet(true, true)), (SlotActor(0), Quiet(false, true)), (SlotActor(0), Quiet(true, false)),
     (SlotActor(1), Quiet(true, true)), (SlotActor(1), Quiet(true, true)), (SlotActor(1), Quiet(true, true))]
  }

  function RaisingLaunch(p: Profile): Setup {
    Setup(Launch([0], NoPublisher, true, false), p, 1, IDLE_READING)
  }

  function RaisingStart(p: Profile): State {
    var a := RaisingLaunch(p);
    Begin(a.launch, a.profile, a.workers, a.disk)
  }

  /** The three states of the worker half. */
  function RaisingTaken(p: Profile): State {
    RaisingStart(p).(slots := [Busy(0, Preparing), Looking], cursor := 1)
  }

  function RaisingFailed(p: Profile): State {
    var d := HostFailedDraft(None, false, Exn(None, "E"));
    RaisingStart(p).(slots := [Busy(0, Finishing(AtOnce, Persist(d))), Looking], cursor := 1)
  }

  function RaisingRaised(p: Profile): State {
    var c := RaisingStart(p);
    c.(slots := [Raised, Looking], cursor := 1, guard := c.guard.(finished := {0}))
  }

  function RaisingSettling(p: Profile): State {
    RaisingRaised(p).(slots := [Raised, Busy(0, Finishing(AtOnce, Persist(NotStartedDraft())))],
                      unsafe := true, stopNew := true, settleCursor := 1)
  }

  lemma RaisingStartIs(p: Profile)
    ensures var c := RaisingStart(p);
            && c.slots == [Looking, Looking] && c.launch == RaisingLaunch(p).launch
            && c.cursor == 0 && c.settleCursor == 0 && !c.stopNew && !c.unsafe && !c.storeFailed
            && c.own == map[] && c.receipts == map[] && c.offers == []
            && c.guard.global.None? && c.guard.terminal == map[] && c.guard.sessions == [0]
            && c.guard.activated == {} && c.guard.finished == {}
  {
  }

  lemma RaisingTakes(p: Profile)
    ensures Step(RaisingStart(p), SlotActor(0), Quiet(true, true)) == RaisingTaken(p)
    ensures Step(RaisingTaken(p), SlotActor(0), Quiet(false, true)) == RaisingFailed(p)
  {
    RaisingStartIs(p);
  }

  lemma RaisingRaises(p: Profile)
    ensures Step(RaisingFailed(p), SlotActor(0), Quiet(true, false)) == RaisingRaised(p)
  {
    RaisingStartIs(p);
  }

  lemma RaisingSettles(p: Profile)
    ensures Step(RaisingRaised(p), SlotActor(1), Quiet(true, true)) == RaisingSettling(p)
  {
    RaisingStartIs(p);
    var c := RaisingRaised(p);
    assert WorkersDone(c) && WorkerRaised(c) by { assert c.slots[0].Raised?; }
  }

  /** What a quiet step makes of a draft whose receipt the store accepts. */
  lemma QuietDelivery(c: State, i: nat, s: SessionId, d: Draft)
    requires i < |c.slots| && c.slots[i] == Busy(s, Finishing(AtOnce, Persist(d))) && !d.reported.Garbage?
    requires var m := c.(guard := c.guard.(finished := c.guard.finished + {s}));
             EventFor(m.guard, s).None? && AcceptsReceipt(m.launch, BuildReceipt(m, s, d))
    ensures var n := Step(c, SlotActor(i), Quiet(true, true));
            && n.slots == c.slots[i := Looking] && n.launch == c.launch && n.settleCursor == c.settleCursor
            && n.cursor == c.cursor && n.storeFailed == c.storeFailed && n.unsafe == c.unsafe && n.stopNew == c.stopNew
            && n.own == c.own
            && n.receipts == c.receipts[s := BuildReceipt(c.(guard := c.guard.(finished := c.guard.finished + {s})), s, d)]
  {
  }

  /** A quiet settlement of an untouched session always writes CANCELLED. */
  lemma QuietSettlement(c: State, i: nat, s: SessionId)
    requires i < |c.slots| && s in c.launch.sessions && c.guard.sessions == c.launch.sessions
    requires GuardOk(c.guard) && EventFor(c.guard, s).None? && OwnOf(c, s) == FRESH
    requires c.slots[i] == Busy(s, Finishing(AtOnce, Persist(NotStartedDraft())))
    ensures var d := Step(c, SlotActor(i), Quiet(true, true));
            && d.slots == c.slots[i := Looking] && d.launch == c.launch && d.settleCursor == c.settleCursor
            && d.storeFailed == c.storeFailed && d.unsafe == c.unsafe
            && d.receipts.Keys == c.receipts.Keys + {s} && d.receipts[s].status == Cancelled
  {
    var m := c.(guard := c.guard.(finished := c.guard.finished + {s}));
    MarkingKeepsGuard(c.guard, m.guard);
    LateNotStarted(m, s);
    QuietDelivery(c, i, s, NotStartedDraft());
  }

  lemma RaisingGuard(p: Profile)
    ensures var c := RaisingSettling(p); GuardOk(c.guard) && EventFor(c.guard, 0).None?
  {
    RaisingStartIs(p);
    CreateIsOk(p, [0]);
    CheckDiskKeepsGuard(Create(p, [0]), Initial, IDLE_READING);
    MarkingKeepsGuard(RaisingStart(p).guard, RaisingSettling(p).guard);
  }

  lemma RaisingSettlingIs(p: Profile, c: State)
    requires c == RaisingSettling(p)
    ensures c.slots == [Raised, Busy(0, Finishing(AtOnce, Persist(NotStartedDraft())))]
    ensures c.launch == RaisingLaunch(p).launch && c.launch.sessions == [0] && c.guard.sessions == [0]
    ensures !c.storeFailed && c.unsafe && c.settleCursor == 1 && c.receipts == map[]
    ensures 0 in c.guard.finished && OwnOf(c, 0) == FRESH
  {
    RaisingStartIs(p);
  }

  lemma RaisingDelivers(p: Profile, c: State)
    requires c == RaisingSettling(p)
    ensures var d := Step(c, SlotActor(1), Quiet(true, true));
            && d.slots == [Raised, Looking] && !d.storeFailed && d.unsafe && d.launch == c.launch
            && d.settleCursor == 1 && d.receipts.Keys == {0} && d.receipts[0].status == Cancelled
  {
    RaisingSettlingIs(p, c);
    RaisingGuard(p);
    QuietSettlement(c, 1, 0);
  }

  lemma SettlerCloses(c: State)
    requires c.slots == [Raised, Looking] && c.launch.sessions == [0] && c.settleCursor == 1
    ensures var d := Step(c, SlotActor(1), Quiet(true, true));
            && d.slots == [Raised, Returned] && d.receipts == c.receipts && d.launch == c.launch
            && d.storeFailed == c.storeFailed && (c.unsafe ==> d.unsafe)
  {
    assert WorkersDone(c);
  }

  lemma RaisingRun(p: Profile)
    ensures RunOf(RaisingLaunch(p), RaisingSchedule())
            == Step(Step(RaisingSettling(p), SlotActor(1), Quiet(true, true)), SlotActor(1), Quiet(true, true))
  {
    var c := RaisingStart(p);
    var xs := RaisingSchedule();
    RaisingTakes(p);
    RaisingRaises(p);
    RaisingSettles(p);
    assert xs[..1] == [] + [xs[0]] && xs[..2] == xs[..1] + [xs[1]] && xs[..3] == xs[..2] + [xs[2]];
    assert xs[..4] == xs[..3] + [xs[3]] && xs[..5] == xs[..4] + [xs[4]] && xs == xs[..5] + [xs[5]];
    RunSnoc(c, [], xs[0].0, xs[0].1);
    RunSnoc(c, xs[..1], xs[1].0, xs[1].1);
    RunSnoc(c, xs[..2], xs[2].0, xs[2].1);
    RunSnoc(c, xs[..3], xs[3].0, xs[3].1);
    RunSnoc(c, xs[..4], xs[4].0, xs[4].1);
    RunSnoc(c, xs[..5], xs[5].0, xs[5].1);
  }

  /** A concrete run in which the store refuses the settlement although no write
      failed: unsafe is set, yet the only receipt says CANCELLED. */
  lemma RaisingWorkerRefused(p: Profile)
    ensures var c := RunOf(RaisingLaunch(p), RaisingSchedule());
            && Finished(c) && !c.storeFailed && c.unsafe
            && c.receipts.Keys == {0} && c.receipts[0].status == Cancelled
            && !AcceptsSettlement(c.launch, c.receipts, SettlementValue(c))
  {
    RaisingRun(p);
    RaisingSettlingIs(p, RaisingSettling(p));
    RaisingDelivers(p, RaisingSettling(p));
    SettlerCloses(Step(RaisingSettling(p), SlotActor(1), Quiet(true, true)));
    FinishedRunsSettle(RaisingLaunch(p), RaisingSchedule());
  }

  // ---------------------------------------------------------------- a start without a proof

  ghost predicate QuietGuard(g: Guard) {
    GuardOk(g) && g.sessions == [0] && g.global.None? && g.terminal == map[]
  }

  /** The one session is in `phase`; nothing is latched and nothing delivered. */
  ghost predicate Working(c: State, l: Launch, phase: Phase, active: bool, measured: bool, unsafe: bool) {
    && c.launch == l && l.sessions == [0] && c.slots == [Busy(0, phase), Looking]
    && c.cursor == 1 && c.settleCursor == 0 && c.receipts == map[] && c.offers == [] && c.own == map[]
    && !c.storeFailed && c.unsafe == unsafe && c.stopNew == unsafe && QuietGuard(c.guard)
    && (0 in c.guard.activated <==> active) && (0 in c.guard.finished <==> measured)
  }

  /** The session is delivered; worker and settlement pass are in these slots. */
  ghost predicate Delivered(c: State, l: Launch, status: Status, slots: seq<Slot>, walked: nat) {
    && c.launch == l && l.sessions == [0] && c.slots == slots && c.settleCursor == walked && c.cursor == 1
    && c.receipts.Keys == {0} && c.receipts[0].status == status && !c.storeFailed && c.unsafe && c.stopNew
  }

  type Schedule = seq<(Actor, Oracle)>

  /** The schedules after which the session is where `Working` says. */
  ghost function Reaching(a: Setup, phase: Phase, active: bool, measured: bool, unsafe: bool): iset<Schedule> {
    iset xs: Schedule | Working(RunOf(a, xs), a.launch, phase, active, measured, unsafe)
  }

  ghost function Delivering(a: Setup, status: Status, slots: seq<Slot>, walked: nat): iset<Schedule> {
    iset xs: Schedule | Delivered(RunOf(a, xs), a.launch, status, slots, walked)
  }

  function Also(xs: Schedule, i: nat, x: Oracle): Schedule { xs + [(SlotActor(i), x)] }

  lemma Next(a: Setup, xs: Schedule, i: nat, x: Oracle)
    ensures RunOf(a, Also(xs, i, x)) == Step(RunOf(a, xs), SlotActor(i), x)
  {
    RunSnoc(Begin(a.launch, a.profile, a.workers, a.disk), xs, SlotActor(i), x);
  }

  /** A start that raises without a stop proof. */
  function Unstarted(): Oracle {
    Quiet(true, true).(start := Some(StartRaised(Exn(None, "E"), None)))
  }

  function UnprovenDraft(): Draft { StartFailedDraft(None, true, Exn(None, "E"), None) }

  function HandledDraft(): Draft { HostFailedDraft(None, false, Exn(None, "Exception")) }

  lemma QuietChecks(g: Guard, phase: CheckPhase, target: Target)
    requires QuietGuard(g)
    ensures var h := CheckDisk(g, phase, IDLE_READING).0;
            QuietGuard(h) && h.activated == g.activated && h.finished == g.finished
    ensures var (h, e) := CheckTree(g, 0, target, phase, EMPTY_READING);
            QuietGuard(h) && h.activated == g.activated && h.finished == g.finished && e.None?
  {
    CheckDiskKeepsGuard(g, phase, IDLE_READING);
    CheckTreeKeepsGuard(g, 0, target, phase, EMPTY_READING);
  }

  lemma QuietMarks(g: Guard)
    requires QuietGuard(g)
    ensures QuietGuard(g.(activated := g.activated + {0})) && QuietGuard(g.(finished := g.finished + {0}))
  {
    MarkingKeepsGuard(g, g.(activated := g.activated + {0}));
    MarkingKeepsGuard(g, g.(finished := g.finished + {0}));
  }

  /** One planned session, one worker, a readable disk with room. */
  predicate Alone(a: Setup) {
    a.launch.sessions == [0] && a.workers == 1 && a.disk == IDLE_READING
  }

  ghost predicate Fresh(c: State, l: Launch) {
    && c.launch == l && l.sessions == [0] && c.slots == [Looking, Looking]
    && c.cursor == 0 && c.settleCursor == 0 && c.receipts == map[] && c.offers == [] && c.own == map[]
    && !c.storeFailed && !c.unsafe && !c.stopNew && QuietGuard(c.guard)
    && c.guard.activated == {} && c.guard.finished == {}
  }

  lemma QuietStart(a: Setup)
    requires Alone(a)
    ensures Fresh(RunOf(a, []), a.launch)
  {
    CreateIsOk(a.profile, [0]);
    CheckDiskKeepsGuard(Create(a.profile, [0]), Initial, IDLE_READING);
  }

  lemma QuietTakes(c: State, l: Launch)
    requires Fresh(c, l)
    ensures Working(Step(c, SlotActor(0), Quiet(true, true)), l, Preparing, false, false, false)
  {
  }

  lemma QuietBegins(a: Setup)
    requires Alone(a)
    ensures Also([], 0, Quiet(true, true)) in Reaching(a, Preparing, false, false, false)
  {
    Next(a, [], 0, Quiet(true, true));
    QuietStart(a);
    QuietTakes(RunOf(a, []), a.launch);
  }

  lemma QuietPrepares(a: Setup, xs: Schedule)
    requires xs in Reaching(a, Preparing, false, false, false)
    ensures Also(xs, 0, Quiet(true, true)) in Reaching(a, ActivatingWorkspace, true, false, false)
  {
    Next(a, xs, 0, Quiet(true, true));
    QuietMarks(RunOf(a, xs).guard);
  }

  lemma QuietMeasures(a: Setup, xs: Schedule)
    requires xs in Reaching(a, ActivatingWorkspace, true, false, false)
    ensures Also(xs, 0, Quiet(true, true)) in Reaching(a, ActivatingCache, true, false, false)
  {
    Next(a, xs, 0, Quiet(true, true));
    QuietChecks(RunOf(a, xs).guard, Initial, Workspace);
  }

  lemma QuietActivates(a: Setup, xs: Schedule)
    requires xs in Reaching(a, ActivatingCache, true, false, false)
    ensures Also(xs, 0, Quiet(true, true)) in Reaching(a, Launching, true, false, false)
  {
    Next(a, xs, 0, Quiet(true, true));
    QuietChecks(RunOf(a, xs).guard, Initial, Cache);
  }

  lemma QuietLaunches(a: Setup, xs: Schedule)
    requires xs in Reaching(a, Launching, true, false, false)
    ensures Also(xs, 0, Quiet(true, true)) in Reaching(a, Starting, true, false, false)
  {
    Next(a, xs, 0, Quiet(true, true));
  }

  lemma StartRaises(a: Setup, xs: Schedule)
    requires xs in Reaching(a, Starting, true, false, false)
    ensures Also(xs, 0, Unstarted()) in Reaching(a, Finishing(AtDisk, Persist(UnprovenDraft())), true, false, true)
  {
    Next(a, xs, 0, Unstarted());
    assert Woken(RunOf(a, xs), 0, Unstarted()) == RunOf(a, xs);
  }

  lemma FinishMeasures(a: Setup, xs: Schedule)
    requires xs in Reaching(a, Finishing(AtDisk, Persist(UnprovenDraft())), true, false, true)
    ensures Also(xs, 0, Quiet(true, true)) in Reaching(a, Finishing(AtWorkspace, Persist(UnprovenDraft())), true, false, true)
  {
    Next(a, xs, 0, Quiet(true, true));
    QuietChecks(RunOf(a, xs).guard, Terminal, Workspace);
  }

  lemma FinishMeasuresTree(a: Setup, xs: Schedule)
    requires xs in Reaching(a, Finishing(AtWorkspace, Persist(UnprovenDraft())), true, false, true)
    ensures Also(xs, 0, Quiet(true, true)) in Reaching(a, Finishing(AtCache, Persist(UnprovenDraft())), true, false, true)
  {
    Next(a, xs, 0, Quiet(true, true));
    QuietChecks(RunOf(a, xs).guard, Terminal, Workspace);
  }

  lemma BuildingRaisesOnce(a: Setup, xs: Schedule)
    requires xs in Reaching(a, Finishing(AtCache, Persist(UnprovenDraft())), true, false, true) && a.launch.armConfigured
    ensures Also(xs, 0, Quiet(true, false)) in Reaching(a, Finishing(AtOnce, Persist(HandledDraft())), true, true, true)
  {
    Next(a, xs, 0, Quiet(true, false));
    var c := RunOf(a, xs);
    QuietChecks(c.guard, Terminal, Cache);
    QuietMarks(CheckTree(c.guard, 0, Cache, Terminal, EMPTY_READING).0);
  }

  lemma ExceptionBytes()
    ensures Utf8Bytes("Exception") == 9
  {
    assert Ascii("Exception");
    AsciiBytes("Exception");
  }

  lemma HandledIsBuilt(m: State)
    requires GuardOk(m.guard) && 0 in m.launch.sessions && m.guard.sessions == m.launch.sessions
    requires OwnOf(m, 0) == FRESH && EventFor(m.guard, 0).None?
    ensures AcceptsReceipt(m.launch, BuildReceipt(m, 0, HandledDraft()))
  {
    assert DraftOk(true, m.launch, m.guard, FRESH, HandledDraft());
    BuiltReceiptAccepted(m, 0, HandledDraft());
    ErrorBlockAccepted(HandledDraft().error, HandledDraft().errorCode);
    ExceptionBytes();
  }

  lemma WorkingDelivers(c: State, l: Launch, d: Draft)
    requires Working(c, l, Finishing(AtOnce, Persist(d)), true, true, true) && !d.reported.Garbage?
    requires AcceptsReceipt(l, BuildReceipt(c.(guard := c.guard.(finished := c.guard.finished + {0})), 0, d))
    ensures Delivered(Step(c, SlotActor(0), Quiet(true, true)), l, d.status, [Looking, Looking], 0)
  {
    QuietDelivery(c, 0, 0, d);
  }

  lemma HandlerDelivers(c: State, l: Launch, d: Draft)
    requires Working(c, l, Finishing(AtOnce, Persist(d)), true, true, true) && d == HandledDraft()
    ensures Delivered(Step(c, SlotActor(0), Quiet(true, true)), l, Failed, [Looking, Looking], 0)
  {
    QuietMarks(c.guard);
    HandledIsBuilt(c.(guard := c.guard.(finished := c.guard.finished + {0})));
    WorkingDelivers(c, l, d);
  }

  lemma HandlerWrites(a: Setup, xs: Schedule)
    requires xs in Reaching(a, Finishing(AtOnce, Persist(HandledDraft())), true, true, true)
    ensures Also(xs, 0, Quiet(true, true)) in Delivering(a, Failed, [Looking, Looking], 0)
  {
    Next(a, xs, 0, Quiet(true, true));
    HandlerDelivers(RunOf(a, xs), a.launch, HandledDraft());
  }

  lemma DeliveredRetires(a: Setup, xs: Schedule)
    requires xs in Delivering(a, Failed, [Looking, Looking], 0)
    ensures Also(xs, 0, Quiet(true, true)) in Delivering(a, Failed, [Returned, Looking], 0)
  {
    Next(a, xs, 0, Quiet(true, true));
  }

  lemma DeliveredSkips(a: Setup, xs: Schedule)
    requires xs in Delivering(a, Failed, [Returned, Looking], 0)
    ensures Also(xs, 1, Quiet(true, true)) in Delivering(a, Failed, [Returned, Looking], 1)
  {
    Next(a, xs, 1, Quiet(true, true));
    var c := RunOf(a, xs);
    assert WorkersDone(c) && !WorkerRaised(c);
  }

  lemma DeliveredCloses(a: Setup, xs: Schedule)
    requires xs in Delivering(a, Failed, [Returned, Looking], 1)
    ensures Also(xs, 1, Quiet(true, true)) in Delivering(a, Failed, [Returned, Returned], 1)
  {
    Next(a, xs, 1, Quiet(true, true));
    var c := RunOf(a, xs);
    assert WorkersDone(c) && !WorkerRaised(c);
  }

  lemma QuietlyStarting(a: Setup) returns (xs: Schedule)
    requires Alone(a)
    ensures xs in Reaching(a, Starting, true, false, false)
  {
    var q := Quiet(true, true);
    QuietBegins(a);
    xs := Also([], 0, q);
    QuietPrepares(a, xs);
    xs := Also(xs, 0, q);
    QuietMeasures(a, xs);
    xs := Also(xs, 0, q);
    QuietActivates(a, xs);
    xs := Also(xs, 0, q);
    QuietLaunches(a, xs);
    xs := Also(xs, 0, q);
  }

  lemma UnprovenRaises(a: Setup, before: Schedule) returns (xs: Schedule)
    requires before in Reaching(a, Starting, true, false, false) && a.launch.armConfigured
    ensures xs in Reaching(a, Finishing(AtOnce, Persist(HandledDraft())), true, true, true)
  {
    StartRaises(a, before);
    xs := Also(before, 0, Unstarted());
    FinishMeasures(a, xs);
    xs := Also(xs, 0, Quiet(true, true));
    FinishMeasuresTree(a, xs);
    xs := Also(xs, 0, Quiet(true, true));
    BuildingRaisesOnce(a, xs);
    xs := Also(xs, 0, Quiet(true, false));
  }

  lemma UnprovenSettles(a: Setup, before: Schedule) returns (xs: Schedule)
    requires before in Reaching(a, Finishing(AtOnce, Persist(HandledDraft())), true, true, true)
    ensures xs in Delivering(a, Failed, [Returned, Returned], 1)
  {
    HandlerWrites(a, before);
    xs := Also(before, 0, Quiet(true, true));
    DeliveredRetires(a, xs);
    xs := Also(xs, 0, Quiet(true, true));
    DeliveredSkips(a, xs);
    xs := Also(xs, 1, Quiet(true, true));
    DeliveredCloses(a, xs);
    xs := Also(xs, 1, Quiet(true, true));
  }

  /** A second way to the same refusal, in which no worker raises: a start that
      raised without a stop proof makes the run unsafe, reading the arm's evidence
      for its UNKNOWN receipt raises once, and the handler writes FAILED instead. */
  lemma UnprovenStartRefused(p: Profile) returns (xs: Schedule)
    ensures var c := RunOf(RaisingLaunch(p), xs);
            && Finished(c) && !c.storeFailed && c.unsafe && !WorkerRaised(c)
            && c.receipts.Keys == {0} && c.receipts[0].status == Failed
            && !AcceptsSettlement(c.launch, c.receipts, SettlementValue(c))
  {
    xs := QuietlyStarting(RaisingLaunch(p));
    xs := UnprovenRaises(RaisingLaunch(p), xs);
    xs := UnprovenSettles(RaisingLaunch(p), xs);
    FinishedRunsSettle(RaisingLaunch(p), xs);
  }

  // ---------------------------------------------------------------- a type name too long in bytes

  /** An exception whose type name, cut to 512 characters, has more than 512 bytes. */
  predicate LongName(e: Exn) { Utf8Bytes(SafeType(e)) > MAXIMUM_TYPE_LENGTH }

  function FailsLong(e: Exn): Oracle { Quiet(false, true).(exn := e) }

  function LongDraft(e: Exn): Draft { HostFailedDraft(None, false, e) }

  /** The failure receipt was refused; worker and settlement pass are in these slots. */
  ghost predicate Refused(c: State, l: Launch, slots: seq<Slot>, walked: nat) {
    && c.launch == l && l.sessions == [0] && c.slots == slots && c.settleCursor == walked && c.cursor == 1
    && c.receipts == map[] && c.storeFailed && c.stopNew && !c.unsafe
    && QuietGuard(c.guard) && c.own == map[] && 0 in c.guard.finished
    && |c.offers| == 1 && OneRefusal(c.offers, l)
  }

  ghost predicate OneRefusal(offers: seq<Offer>, l: Launch) {
    |offers| >= 1 && !offers[0].late && AcceptsApartFromError(l, offers[0].receipt) && !AcceptsReceipt(l, offers[0].receipt)
  }

  ghost function Refusing(a: Setup, slots: seq<Slot>, walked: nat): iset<Schedule> {
    iset xs: Schedule | Refused(RunOf(a, xs), a.launch, slots, walked)
  }

  lemma LongFails(a: Setup, xs: Schedule, e: Exn)
    requires xs in Reaching(a, Preparing, false, false, false)
    ensures Also(xs, 0, FailsLong(e)) in Reaching(a, Finishing(AtOnce, Persist(LongDraft(e))), false, false, false)
  {
    Next(a, xs, 0, FailsLong(e));
  }

  lemma LongIsRefused(m: State, e: Exn)
    requires GuardOk(m.guard) && 0 in m.launch.sessions && m.guard.sessions == m.launch.sessions
    requires OwnOf(m, 0) == FRESH && EventFor(m.guard, 0).None? && LongName(e)
    ensures var r := BuildReceipt(m, 0, LongDraft(e)); AcceptsApartFromError(m.launch, r) && !AcceptsReceipt(m.launch, r)
  {
    assert DraftOk(true, m.launch, m.guard, FRESH, LongDraft(e));
    BuiltReceiptAccepted(m, 0, LongDraft(e));
    ErrorBlockAccepted(LongDraft(e).error, LongDraft(e).errorCode);
  }

  lemma WorkingRefused(c: State, l: Launch, d: Draft)
    requires Working(c, l, Finishing(AtOnce, Persist(d)), false, false, false) && !d.reported.Garbage?
    requires var r := BuildReceipt(c.(guard := c.guard.(finished := c.guard.finished + {0})), 0, d);
             AcceptsApartFromError(l, r) && !AcceptsReceipt(l, r)
    ensures Refused(Step(c, SlotActor(0), Quiet(true, true)), l, [Looking, Looking], 0)
  {
    QuietMarks(c.guard);
  }

  lemma LongOffered(c: State, l: Launch, d: Draft, e: Exn)
    requires Working(c, l, Finishing(AtOnce, Persist(d)), false, false, false) && d == LongDraft(e) && LongName(e)
    ensures Refused(Step(c, SlotActor(0), Quiet(true, true)), l, [Looking, Looking], 0)
  {
    QuietMarks(c.guard);
    LongIsRefused(c.(guard := c.guard.(finished := c.guard.finished + {0})), e);
    WorkingRefused(c, l, d);
  }

  lemma LongWrites(a: Setup, xs: Schedule, e: Exn)
    requires xs in Reaching(a, Finishing(AtOnce, Persist(LongDraft(e))), false, false, false) && LongName(e)
    ensures Also(xs, 0, Quiet(true, true)) in Refusing(a, [Looking, Looking], 0)
  {
    Next(a, xs, 0, Quiet(true, true));
    LongOffered(RunOf(a, xs), a.launch, LongDraft(e), e);
  }

  lemma RefusedRetires(a: Setup, xs: Schedule)
    requires xs in Refusing(a, [Looking, Looking], 0)
    ensures Also(xs, 0, Quiet(true, true)) in Refusing(a, [Returned, Looking], 0)
  {
    Next(a, xs, 0, Quiet(true, true));
  }

  lemma RefusedSettles(a: Setup, xs: Schedule)
    requires xs in Refusing(a, [Returned, Looking], 0)
    ensures Also(xs, 1, Quiet(true, true)) in
              Refusing(a, [Returned, Busy(0, Finishing(AtOnce, Persist(NotStartedDraft())))], 1)
  {
    Next(a, xs, 1, Quiet(true, true));
    var c := RunOf(a, xs);
    assert WorkersDone(c) && !WorkerRaised(c);
  }

  /** A late receipt for the same session was accepted. */
  ghost predicate Replaced(c: State, l: Launch, slots: seq<Slot>) {
    && c.launch == l && l.sessions == [0] && c.slots == slots && c.settleCursor == 1 && c.storeFailed
    && |c.offers| == 2 && OneRefusal(c.offers, l)
    && c.offers[1].late && AcceptsReceipt(l, c.offers[1].receipt)
    && c.receipts == map[0 := c.offers[1].receipt] && c.receipts[0].status == Cancelled
  }

  ghost function Replacing(a: Setup, slots: seq<Slot>): iset<Schedule> {
    iset xs: Schedule | Replaced(RunOf(a, xs), a.launch, slots)
  }

  lemma LateIsTaken(c: State, l: Launch)
    requires Refused(c, l, [Returned, Busy(0, Finishing(AtOnce, Persist(NotStartedDraft())))], 1)
    ensures Replaced(Step(c, SlotActor(1), Quiet(true, true)), l, [Returned, Looking])
  {
    var m := c.(guard := c.guard.(finished := c.guard.finished + {0}));
    QuietMarks(c.guard);
    LateNotStarted(m, 0);
    QuietDelivery(c, 1, 0, NotStartedDraft());
  }

  lemma LateWrites(a: Setup, xs: Schedule)
    requires xs in Refusing(a, [Returned, Busy(0, Finishing(AtOnce, Persist(NotStartedDraft())))], 1)
    ensures Also(xs, 1, Quiet(true, true)) in Replacing(a, [Returned, Looking])
  {
    Next(a, xs, 1, Quiet(true, true));
    LateIsTaken(RunOf(a, xs), a.launch);
  }

  lemma ReplacedCloses(a: Setup, xs: Schedule)
    requires xs in Replacing(a, [Returned, Looking])
    ensures Also(xs, 1, Quiet(true, true)) in Replacing(a, [Returned, Returned])
  {
    Next(a, xs, 1, Quiet(true, true));
    var c := RunOf(a, xs);
    assert WorkersDone(c) && !WorkerRaised(c);
  }

  lemma LongRefusal(p: Profile, e: Exn) returns (xs: Schedule)
    requires LongName(e)
    ensures xs in Refusing(RaisingLaunch(p), [Returned, Looking], 0)
  {
    var a := RaisingLaunch(p);
    QuietBegins(a);
    xs := Also([], 0, Quiet(true, true));
    LongFails(a, xs, e);
    xs := Also(xs, 0, FailsLong(e));
    LongWrites(a, xs, e);
    xs := Also(xs, 0, Quiet(true, true));
    RefusedRetires(a, xs);
    xs := Also(xs, 0, Quiet(true, true));
  }

  lemma LongReplaced(a: Setup, before: Schedule) returns (xs: Schedule)
    requires before in Refusing(a, [Returned, Looking], 0)
    ensures xs in Replacing(a, [Returned, Returned])
  {
    RefusedSettles(a, before);
    xs := Also(before, 1, Quiet(true, true));
    LateWrites(a, xs);
    xs := Also(xs, 1, Quiet(true, true));
    ReplacedCloses(a, xs);
    xs := Also(xs, 1, Quiet(true, true));
  }

  /** Preparing fails with such an exception: the store refuses the failure
      receipt for its spelling alone, which counts as a failed write; the
      settlement pass then offers NOT_STARTED for the same session and that is
      what becomes durable. */
  lemma LongNameRefused(p: Profile, e: Exn) returns (xs: Schedule)
    requires LongName(e)
    ensures var c := RunOf(RaisingLaunch(p), xs);
            && Finished(c) && c.storeFailed && |c.offers| == 2
            && !c.offers[0].late && AcceptsApartFromError(c.launch, c.offers[0].receipt)
            && !AcceptsReceipt(c.launch, c.offers[0].receipt)
            && c.offers[1].late && c.receipts == map[0 := c.offers[1].receipt] && c.receipts[0].status == Cancelled
            && !AcceptsSettlement(c.launch, c.receipts, SettlementValue(c))
  {
    xs := LongRefusal(p, e);
    xs := LongReplaced(RaisingLaunch(p), xs);
    FinishedRunsSettle(RaisingLaunch(p), xs);
  }

  /** Three hundred two-byte letters make such a name. */
  lemma AccentedNameIsLong()
    ensures LongName(Exn(None, Repeat('\U{E9}', 300)))
  {
  }
}
