/** Runs in which a durable receipt leaves out what its session published: one
    for a result that cannot be projected, one for a receipt that fails to be
    built after publication. */
module CohortOmissions {
  import opened Contracts
  import opened ResourceGuard
  import opened ReceiptRules
  import opened Cohort
  import opened CohortInvariant
  import opened CohortSteps
  import opened CohortTheorems
  import opened CohortFindings

  /** One planned session of an armed launch with a publisher. */
  function Publisher(p: Profile): Setup {
    Setup(Launch([0], ReceiptRules.Publisher(false), true, false), p, 1, IDLE_READING)
  }

  const PROOF := StopProof(true, NotStarted)

  /** The one session is in `phase` with this history; nothing is latched. */
  ghost predicate Quietly(c: State, l: Launch, phase: Phase, o: Own, measured: bool) {
    && c.launch == l && l.sessions == [0] && c.slots == [Busy(0, phase), Looking] && c.receipts == map[]
    && !c.storeFailed && !c.unsafe && !c.stopNew && OwnOf(c, 0) == o && QuietGuard(c.guard)
    && 0 in c.guard.activated && (0 in c.guard.finished <==> measured) && c.settleCursor == 0
  }

  ghost function Holding(a: Setup, phase: Phase, o: Own, measured: bool): iset<Schedule> {
    iset xs: Schedule | Quietly(RunOf(a, xs), a.launch, phase, o, measured)
  }

  const STOPPED := HANDLED.(stop := Some(PROOF))
  const CLEARED := STOPPED.(cleared := Some(PROOF))

  // ---------------------------------------------------------------- up to the publication

  function Starts(): Oracle { Quiet(true, true).(start := Some(GotHandle)) }

  function Completes(oc: Outcome): Oracle { Quiet(true, true).(wait := Some(WaitOutcome(oc))) }

  lemma HandleTaken(a: Setup, xs: Schedule)
    requires xs in Reaching(a, Starting, true, false, false)
    ensures Also(xs, 0, Starts()) in Holding(a, Started, HANDLED, false)
  {
    Next(a, xs, 0, Starts());
    assert Woken(RunOf(a, xs), 0, Starts()) == RunOf(a, xs);
  }

  lemma BeginsRunning(a: Setup, xs: Schedule)
    requires xs in Holding(a, Started, HANDLED, false)
    ensures Also(xs, 0, Quiet(true, true)) in Holding(a, Running, HANDLED, false)
  {
    Next(a, xs, 0, Quiet(true, true));
  }

  lemma Completing(a: Setup, xs: Schedule, oc: Outcome)
    requires xs in Holding(a, Running, HANDLED, false)
    ensures Also(xs, 0, Completes(oc)) in Holding(a, Confirming(Typed(oc)), HANDLED, false)
  {
    Next(a, xs, 0, Completes(oc));
  }

  lemma Confirmed(a: Setup, xs: Schedule, r: Reported)
    requires xs in Holding(a, Confirming(r), HANDLED, false)
    ensures Also(xs, 0, Quiet(true, true)) in Holding(a, Finishing(AtDisk, Decide(r, PROOF)), STOPPED, false)
  {
    Next(a, xs, 0, Quiet(true, true));
  }

  lemma MeasuredDisk(a: Setup, xs: Schedule, after: AfterFinish)
    requires xs in Holding(a, Finishing(AtDisk, after), STOPPED, false)
    ensures Also(xs, 0, Quiet(true, true)) in Holding(a, Finishing(AtWorkspace, after), STOPPED, false)
  {
    Next(a, xs, 0, Quiet(true, true));
    QuietChecks(RunOf(a, xs).guard, Terminal, Workspace);
  }

  lemma MeasuredTree(a: Setup, xs: Schedule, after: AfterFinish)
    requires xs in Holding(a, Finishing(AtWorkspace, after), STOPPED, false)
    ensures Also(xs, 0, Quiet(true, true)) in Holding(a, Finishing(AtCache, after), STOPPED, false)
  {
    Next(a, xs, 0, Quiet(true, true));
    QuietChecks(RunOf(a, xs).guard, Terminal, Workspace);
  }

  lemma ClearsToPublish(c: State, l: Launch, oc: Outcome)
    requires Quietly(c, l, Finishing(AtCache, Decide(Typed(oc), PROOF)), STOPPED, false)
    requires l.publisher.Publisher? && oc.success && oc.contributions != []
    ensures Quietly(Step(c, SlotActor(0), Quiet(true, true)), l, Phase.Publishing(oc, PROOF, 0, []), CLEARED, true)
  {
    var g := CheckTree(c.guard, 0, Cache, Terminal, EMPTY_READING).0;
    QuietChecks(c.guard, Terminal, Cache);
    QuietMarks(g);
  }

  lemma ReachesPublishing(p: Profile, oc: Outcome) returns (xs: Schedule)
    requires oc.success && oc.contributions != []
    ensures xs in Holding(Publisher(p), Phase.Publishing(oc, PROOF, 0, []), CLEARED, true)
  {
    var (a, q) := (Publisher(p), Quiet(true, true));
    xs := QuietlyStarting(a);
    HandleTaken(a, xs);
    xs := Also(xs, 0, Starts());
    BeginsRunning(a, xs);
    xs := Also(xs, 0, q);
    Completing(a, xs, oc);
    xs := Also(xs, 0, Completes(oc));
    Confirmed(a, xs, Typed(oc));
    xs := Also(xs, 0, q);
    xs := Measured(a, xs, oc);
  }

  lemma Measured(a: Setup, before: Schedule, oc: Outcome) returns (xs: Schedule)
    requires before in Holding(a, Finishing(AtDisk, Decide(Typed(oc), PROOF)), STOPPED, false)
    requires a.launch.publisher.Publisher? && oc.success && oc.contributions != []
    ensures xs in Holding(a, Phase.Publishing(oc, PROOF, 0, []), CLEARED, true)
  {
    var (q, after) := (Quiet(true, true), Decide(Typed(oc), PROOF));
    MeasuredDisk(a, before, after);
    xs := Also(before, 0, q);
    MeasuredTree(a, xs, after);
    xs := Also(xs, 0, q);
    Next(a, xs, 0, q);
    ClearsToPublish(RunOf(a, xs), a.launch, oc);
    xs := Also(xs, 0, q);
  }

  // ---------------------------------------------------------------- writing what was drafted

  /** The session's receipt is durable and lists nothing; `known` says whether it
      has an outcome. */
  ghost predicate Silent(c: State, l: Launch, o: Own, status: Status, known: bool) {
    && c.launch == l && OwnOf(c, 0) == o && c.receipts.Keys == {0} && c.receipts[0].status == status
    && c.receipts[0].publications == [] && c.receipts[0].outcome.Some? == known
  }

  function Marked(c: State): State { c.(guard := c.guard.(finished := c.guard.finished + {0})) }

  lemma Writes(c: State, l: Launch, o: Own, d: Draft)
    requires Quietly(c, l, Finishing(AtOnce, Persist(d)), o, true) && !d.reported.Garbage? && d.publications == []
    requires AcceptsReceipt(l, BuildReceipt(Marked(c), 0, d))
    ensures var n := Step(c, SlotActor(0), Quiet(true, true));
            Silent(n, l, o, d.status, d.reported.Typed?) && !n.storeFailed
  {
    QuietDelivery(c, 0, 0, d);
  }

  // ---------------------------------------------------------------- a result that is lost

  function Loses(): Oracle { Quiet(true, true).(publish := ResultRaised(Exn(None, "E"))) }

  const LOST := CLEARED.(arm := Tally(1, 1, 0), published := 1, lost := 1)

  lemma Projecting(c: State, l: Launch, oc: Outcome)
    requires Quietly(c, l, Phase.Publishing(oc, PROOF, 0, []), CLEARED, true) && l.armConfigured && oc.contributions != []
    ensures Quietly(Step(c, SlotActor(0), Loses()), l,
                    Finishing(AtOnce, Persist(PublishFailedDraft(oc, PROOF, [], PmwPublishFailed))), LOST, true)
  {
  }

  lemma LostDraftOk(l: Launch, g: Guard, oc: Outcome)
    requires l.publisher == ReceiptRules.Publisher(false) && l.armConfigured && oc.contributions != []
    ensures DraftOk(true, l, g, LOST, PublishFailedDraft(oc, PROOF, [], PmwPublishFailed))
  {
  }

  lemma AsciiNameFits(name: string)
    requires Ascii(name) && |name| <= MAXIMUM_TYPE_LENGTH
    ensures ValidError(ErrorValueOf(Some(Exn(Some(PmwPublishFailed), name)), Some(PmwPublishFailed)))
  {
    ErrorBlockAccepted(Some(Exn(Some(PmwPublishFailed), name)), Some(PmwPublishFailed));
  }

  lemma PublicationErrorFits(oc: Outcome)
    ensures var d := PublishFailedDraft(oc, PROOF, [], PmwPublishFailed); ValidError(ErrorValueOf(d.error, d.errorCode))
  {
    assert Ascii("RuntimePublicationError") && |"RuntimePublicationError"| == 23;
    AsciiNameFits("RuntimePublicationError");
  }

  /** A draft whose receipt meets every rule, on a quiet guard. */
  lemma QuietlyAccepted(c: State, l: Launch, o: Own, d: Draft)
    requires Quietly(c, l, Finishing(AtOnce, Persist(d)), o, true)
    requires DraftOk(true, l, Marked(c).guard, o, d) && ValidError(ErrorValueOf(d.error, d.errorCode))
    ensures AcceptsReceipt(l, BuildReceipt(Marked(c), 0, d))
  {
    QuietMarks(c.guard);
    BuiltReceiptAccepted(Marked(c), 0, d);
  }

  lemma LostIsWritten(c: State, l: Launch, oc: Outcome, d: Draft)
    requires Quietly(c, l, Finishing(AtOnce, Persist(d)), LOST, true) && d == PublishFailedDraft(oc, PROOF, [], PmwPublishFailed)
    requires l.publisher == ReceiptRules.Publisher(false) && l.armConfigured && oc.contributions != []
    ensures var n := Step(c, SlotActor(0), Quiet(true, true)); Silent(n, l, LOST, Failed, true) && !n.storeFailed
  {
    LostDraftOk(l, Marked(c).guard, oc);
    PublicationErrorFits(oc);
    QuietlyAccepted(c, l, LOST, d);
    Writes(c, l, LOST, d);
  }

  lemma Projects(a: Setup, xs: Schedule, oc: Outcome)
    requires xs in Holding(a, Phase.Publishing(oc, PROOF, 0, []), CLEARED, true) && a.launch.armConfigured && oc.contributions != []
    ensures Also(xs, 0, Loses()) in
              Holding(a, Finishing(AtOnce, Persist(PublishFailedDraft(oc, PROOF, [], PmwPublishFailed))), LOST, true)
  {
    Next(a, xs, 0, Loses());
    Projecting(RunOf(a, xs), a.launch, oc);
  }

  /** The publisher admits the first record and its answer cannot be projected:
      a durable FAILED receipt lists none of the one record published, and no
      write failed. */
  lemma LostResultUnlisted(p: Profile, oc: Outcome) returns (xs: Schedule)
    requires oc.success && oc.contributions != []
    ensures var c := RunOf(Publisher(p), xs);
            && Silent(c, Publisher(p).launch, LOST, Failed, true) && !c.storeFailed
            && OwnOf(c, 0).published == 1
  {
    var a := Publisher(p);
    var d := PublishFailedDraft(oc, PROOF, [], PmwPublishFailed);
    xs := ReachesPublishing(p, oc);
    Projects(a, xs, oc);
    xs := Also(xs, 0, Loses());
    Next(a, xs, 0, Quiet(true, true));
    LostIsWritten(RunOf(a, xs), a.launch, oc, d);
    xs := Also(xs, 0, Quiet(true, true));
  }

  // ---------------------------------------------------------------- a receipt that fails to be built

  const PUBLISHED := CLEARED.(arm := Tally(1, 1, 0), published := 1)

  function AfterPublication(): Draft { HostFailedDraft(Some(PROOF), true, Exn(None, "Exception")) }

  lemma PublishesOne(a: Setup, xs: Schedule, oc: Outcome)
    requires xs in Holding(a, Phase.Publishing(oc, PROOF, 0, []), CLEARED, true)
    requires a.launch.armConfigured && |oc.contributions| == 1
    ensures Also(xs, 0, Quiet(true, true)) in
              Holding(a, Finishing(AtOnce, Persist(SucceededDraft(oc, PROOF, oc.contributions))), PUBLISHED, true)
  {
    Next(a, xs, 0, Quiet(true, true));
    assert [] + [oc.contributions[0]] == oc.contributions;
  }

  lemma BuildingRaisesThen(a: Setup, xs: Schedule, d: Draft)
    requires xs in Holding(a, Finishing(AtOnce, Persist(d)), PUBLISHED, true)
    requires a.launch.armConfigured && d.started && !d.handling
    ensures Also(xs, 0, Quiet(true, false)) in Holding(a, HostStopping(Exn(None, "Exception")), PUBLISHED, true)
  {
    Next(a, xs, 0, Quiet(true, false));
    QuietMarks(RunOf(a, xs).guard);
  }

  lemma StopsAgain(a: Setup, xs: Schedule)
    requires xs in Holding(a, HostStopping(Exn(None, "Exception")), PUBLISHED, true)
    ensures Also(xs, 0, Quiet(true, true)) in Holding(a, Finishing(AtOnce, Persist(AfterPublication())), PUBLISHED, true)
  {
    Next(a, xs, 0, Quiet(true, true));
  }

  lemma HandlerAccepted(c: State, l: Launch, d: Draft)
    requires Quietly(c, l, Finishing(AtOnce, Persist(d)), PUBLISHED, true) && d == AfterPublication() && l.armConfigured
    ensures AcceptsReceipt(l, BuildReceipt(Marked(c), 0, d))
  {
    QuietMarks(c.guard);
    EvidenceIsValid(Marked(c).guard, 0);
    ErrorBlockAccepted(d.error, d.errorCode);
    ExceptionBytes();
  }

  lemma HandlerIsWritten(c: State, l: Launch, d: Draft)
    requires Quietly(c, l, Finishing(AtOnce, Persist(d)), PUBLISHED, true) && d == AfterPublication() && l.armConfigured
    ensures var n := Step(c, SlotActor(0), Quiet(true, true)); Silent(n, l, PUBLISHED, Failed, false) && !n.storeFailed
  {
    HandlerAccepted(c, l, d);
    Writes(c, l, PUBLISHED, d);
  }

  /** The one record is published and listed, building the SUCCEEDED receipt
      raises once, and the handler stops again and writes FAILED without an
      outcome: no result was lost, no write failed, and nothing is listed. */
  lemma UnbuiltReceiptUnlisted(p: Profile, oc: Outcome) returns (xs: Schedule)
    requires oc.success && |oc.contributions| == 1
    ensures var c := RunOf(Publisher(p), xs);
            && Silent(c, Publisher(p).launch, PUBLISHED, Failed, false) && !c.storeFailed
            && OwnOf(c, 0).published == 1 && OwnOf(c, 0).lost == 0
  {
    var a := Publisher(p);
    xs := ReachesPublishing(p, oc);
    PublishesOne(a, xs, oc);
    xs := Also(xs, 0, Quiet(true, true));
    BuildingRaisesThen(a, xs, SucceededDraft(oc, PROOF, oc.contributions));
    xs := Also(xs, 0, Quiet(true, false));
    StopsAgain(a, xs);
    xs := Also(xs, 0, Quiet(true, true));
    Next(a, xs, 0, Quiet(true, true));
    HandlerIsWritten(RunOf(a, xs), a.launch, AfterPublication());
    xs := Also(xs, 0, Quiet(true, true));
  }

  // ---------------------------------------------------------------- a receipt that fails to be written

  /** Its write failed; worker and settlement pass are in these slots. */
  ghost predicate Unwritten(c: State, l: Launch, o: Own, slots: seq<Slot>, walked: nat) {
    && c.launch == l && l.sessions == [0] && c.slots == slots && c.receipts == map[] && c.settleCursor == walked
    && c.storeFailed && c.stopNew && !c.unsafe && OwnOf(c, 0) == o && QuietGuard(c.guard) && 0 in c.guard.finished
  }

  ghost function Missing(a: Setup, o: Own, slots: seq<Slot>, walked: nat): iset<Schedule> {
    iset xs: Schedule | Unwritten(RunOf(a, xs), a.launch, o, slots, walked)
  }

  function FailsWriting(): Oracle { Quiet(true, true).(ioOk := false) }

  lemma WriteFails(a: Setup, xs: Schedule, o: Own, d: Draft)
    requires xs in Holding(a, Finishing(AtOnce, Persist(d)), o, true) && !d.reported.Garbage?
    ensures Also(xs, 0, FailsWriting()) in Missing(a, o, [Looking, Looking], 0)
  {
    Next(a, xs, 0, FailsWriting());
    QuietMarks(RunOf(a, xs).guard);
  }

  lemma WorkerGoes(a: Setup, xs: Schedule, o: Own)
    requires xs in Missing(a, o, [Looking, Looking], 0)
    ensures Also(xs, 0, Quiet(true, true)) in Missing(a, o, [Returned, Looking], 0)
  {
    Next(a, xs, 0, Quiet(true, true));
  }

  lemma SettlementTakes(a: Setup, xs: Schedule, o: Own)
    requires xs in Missing(a, o, [Returned, Looking], 0)
    ensures Also(xs, 1, Quiet(true, true)) in
              Missing(a, o, [Returned, Busy(0, Finishing(AtOnce, Persist(NotStartedDraft())))], 1)
  {
    Next(a, xs, 1, Quiet(true, true));
    var c := RunOf(a, xs);
    assert WorkersDone(c) && !WorkerRaised(c);
  }

  lemma LateIsWritten(c: State, l: Launch, o: Own)
    requires Unwritten(c, l, o, [Returned, Busy(0, Finishing(AtOnce, Persist(NotStartedDraft())))], 1)
    requires ValidTally(l, o.arm) && o.arm.rejected == 0
    ensures var n := Step(c, SlotActor(1), Quiet(true, true));
            Silent(n, l, o, Cancelled, false) && !n.receipts[0].started
  {
    QuietMarks(c.guard);
    LateNotStarted(Marked(c), 0);
    QuietDelivery(c, 1, 0, NotStartedDraft());
  }

  /** The session ran, published and succeeded; its receipt could not be written,
      and what becomes durable instead says that it never started. */
  lemma UnwrittenReceiptUnlisted(p: Profile, oc: Outcome) returns (xs: Schedule)
    requires oc.success && |oc.contributions| == 1
    ensures var c := RunOf(Publisher(p), xs);
            && Silent(c, Publisher(p).launch, PUBLISHED, Cancelled, false) && !c.receipts[0].started
            && OwnOf(c, 0).published == 1 && OwnOf(c, 0).lost == 0
  {
    var a := Publisher(p);
    xs := ReachesPublishing(p, oc);
    PublishesOne(a, xs, oc);
    xs := Also(xs, 0, Quiet(true, true));
    xs := FailsAndSettles(a, xs, SucceededDraft(oc, PROOF, oc.contributions));
    Next(a, xs, 1, Quiet(true, true));
    LateIsWritten(RunOf(a, xs), a.launch, PUBLISHED);
    xs := Also(xs, 1, Quiet(true, true));
  }

  lemma FailsAndSettles(a: Setup, before: Schedule, d: Draft) returns (xs: Schedule)
    requires before in Holding(a, Finishing(AtOnce, Persist(d)), PUBLISHED, true) && !d.reported.Garbage?
    ensures xs in Missing(a, PUBLISHED, [Returned, Busy(0, Finishing(AtOnce, Persist(NotStartedDraft())))], 1)
  {
    WriteFails(a, before, PUBLISHED, d);
    xs := Also(before, 0, FailsWriting());
    WorkerGoes(a, xs, PUBLISHED);
    xs := Also(xs, 0, Quiet(true, true));
    SettlementTakes(a, xs, PUBLISHED);
    xs := Also(xs, 1, Quiet(true, true));
  }
}
