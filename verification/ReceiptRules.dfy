/** The durable store's own rules for receipts and settlements.  They share no
    code with the host that builds those documents. */
module ReceiptRules {
  import opened Contracts
  import opened ResourceGuard

  const MAXIMUM_PUBLICATIONS := 64

  /** Without a publisher the launch says DISABLED; a publisher states its own mode. */
  datatype Publisher = NoPublisher | Publisher(disabled: bool)

  /** The launch identity, as far as receipts are checked against it. */
  datatype Launch = Launch(sessions: seq<SessionId>, publisher: Publisher, armConfigured: bool, wallLimited: bool)

  datatype OutcomeValue = OutcomeValue(success: bool, reason: Code, count: nat, digests: seq<string>)
  datatype ErrorValue = ErrorValue(code: Code, typeName: Option<string>)
  datatype Tally = Tally(reviewed: nat, admitted: nat, rejected: nat)

  datatype Receipt = Receipt(
    session: SessionId, status: Status, reason: Code, started: bool,
    proof: Option<StopProof>, outcome: Option<OutcomeValue>, publications: seq<string>,
    error: Option<ErrorValue>, guard: Evidence, arm: Tally)

  predicate PublicationDisabled(l: Launch) {
    l.publisher.NoPublisher? || l.publisher.disabled
  }

  predicate ValidOutcome(o: Option<OutcomeValue>) {
    o.Some? ==> o.value.count <= MAXIMUM_CONTRIBUTIONS && |o.value.digests| == o.value.count
  }

  /** The store counts UTF-8 bytes where the host counted characters. */
  predicate ValidError(e: Option<ErrorValue>) {
    e.Some? ==>
      && (e.value.code.Text? ==> e.value.code.text != [] && Utf8Bytes(e.value.code.text) <= MAXIMUM_CODE_LENGTH)
      && (e.value.typeName.Some? ==> Utf8Bytes(e.value.typeName.value) <= MAXIMUM_TYPE_LENGTH)
  }

  predicate ValidTally(l: Launch, t: Tally) {
    && t.admitted + t.rejected == t.reviewed
    && (!l.armConfigured ==> t.reviewed == 0)
  }

  predicate AccountingUnknown(v: Evidence) {
    v.terminal.Some? && v.terminal.value.code == ResourceAccountingUncertain && v.terminal.value.uncertain
  }

  predicate Stopped(p: Option<StopProof>) { p.Some? && p.value.stopped }

  predicate ProvenRunning(p: Option<StopProof>) { p.Some? && !p.value.stopped }

  /** Every record of a finished session is published or rejected; of any
      session, no more than it contributed. */
  predicate AccountingCloses(l: Launch, r: Receipt) {
    var settled := |r.publications| + r.arm.rejected;
    && (PublicationDisabled(l) ==> r.publications == [])
    && (if r.outcome.None? then settled == 0 else settled <= r.outcome.value.count)
    && (r.status == Succeeded ==>
          && r.outcome.Some? && settled == r.outcome.value.count
          && (PublicationDisabled(l) ==> r.outcome.value.count == 0))
  }

  predicate StatusIsProven(r: Receipt) {
    && (r.status == Succeeded ==>
          Stopped(r.proof) && r.outcome.Some? && r.outcome.value.success && r.error.None?)
    && (r.status == Cancelled ==> Stopped(r.proof))
    && (r.status == Failed ==> !ProvenRunning(r.proof))
    && (r.started && r.status != Unknown ==> Stopped(r.proof))
    && (r.status == Unknown && Stopped(r.proof) ==>
          r.reason == ResourceAccountingUncertain && AccountingUnknown(r.guard))
  }

  predicate TerminalInvariants(l: Launch, r: Receipt) {
    StatusIsProven(r) && AccountingCloses(l, r)
  }

  /** Everything but the error block, whose size the host measures differently. */
  predicate AcceptsApartFromError(l: Launch, r: Receipt) {
    && |r.publications| <= MAXIMUM_PUBLICATIONS
    && ValidOutcome(r.outcome)
    && ValidEvidence(r.guard, r.session)
    && ValidTally(l, r.arm)
    && TerminalInvariants(l, r)
  }

  predicate AcceptsReceipt(l: Launch, r: Receipt) {
    AcceptsApartFromError(l, r) && ValidError(r.error)
  }

  // ---------------------------------------------------------------- settlement

  datatype CohortOutcome =
    | SettlementIncomplete | Unsafe | CohortWasCancelled | CompletedWithFailures | AllSucceeded

  /** The digest of a receipt stands for the receipt itself. */
  datatype Row = Row(session: SessionId, status: Status, digest: Receipt)

  datatype Settlement = Settlement(outcome: CohortOutcome, counts: map<Status, nat>, rows: seq<Row>)

  function Count(statuses: seq<Status>, s: Status): nat {
    multiset(statuses)[s]
  }

  function Counts(statuses: seq<Status>): map<Status, nat> {
    map[Succeeded := Count(statuses, Succeeded), Failed := Count(statuses, Failed),
        Cancelled := Count(statuses, Cancelled), Unknown := Count(statuses, Unknown)]
  }

  function ExpectedOutcome(statuses: seq<Status>): CohortOutcome {
    if Unknown in statuses then Unsafe
    else if Cancelled in statuses then CohortWasCancelled
    else if Failed in statuses then CompletedWithFailures
    else AllSucceeded
  }

  predicate RowMatches(row: Row, s: SessionId, durable: map<SessionId, Receipt>) {
    row.session == s && s in durable && row.digest == durable[s] && row.status == durable[s].status
  }

  function Statuses(rows: seq<Row>): seq<Status> {
    seq(|rows|, i requires 0 <= i < |rows| => rows[i].status)
  }

  /** The store re-reads every receipt and recomputes counts and outcome. */
  predicate AcceptsSettlement(l: Launch, durable: map<SessionId, Receipt>, v: Settlement) {
    && |v.rows| == |l.sessions|
    && (forall i :: 0 <= i < |v.rows| ==> RowMatches(v.rows[i], l.sessions[i], durable))
    && v.counts == Counts(Statuses(v.rows))
    && v.outcome == ExpectedOutcome(Statuses(v.rows))
  }
}
