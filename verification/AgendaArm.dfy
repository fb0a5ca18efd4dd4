/** The host's arm: an admission counter as clock, a ledger of admissions, the
    sessions that can still act, and one decision list per session.  Pure
    functions; AgendaHost is the object that mutates. */
module AgendaArm {
  import opened Contracts
  import opened Worklist

  const MAXIMUM_RECORDED_DECISIONS := 64
  const MAXIMUM_RELEASED_CLAIM_REFS := 64
  const MAXIMUM_TICK := 0x7FFF_FFFF_FFFF_FFFF

  datatype ArmName = ArmP | ArmD | ArmA | ArmC
  datatype Instrument = Advisory | Binding | DirectiveInstrument

  /** `admittingSlots` is None for open admission. */
  datatype Config = Config(arm: ArmName, admittingSlots: Option<set<SessionId>>, enforceCitation: bool)

  datatype Candidate =
    | NotContribution
    | Contribution(body: Body, primaryAction: bool)

  datatype Decision = Decision(ordinal: nat, schema: Option<Schema>, instrument: Option<Instrument>, code: Verdict)

  datatype Ledger = Ledger(
    decisions: seq<Decision>, claimRefs: seq<Ref>,
    released: seq<Ref>, releasedAt: Option<nat>, settledTick: Option<nat>)

  datatype Arm = Arm(
    config: Config, sessions: set<SessionId>,
    world: Snapshot, baseTick: nat,
    settled: set<SessionId>, ledgers: map<SessionId, Ledger>, divergences: nat)

  const NO_LEDGER := Ledger([], [], [], None, None)

  predicate Binds(a: ArmName) { a == ArmD || a == ArmA }

  function InstrumentOf(s: Option<Schema>): Instrument {
    if s.None? || s.value.RouteDeclarationSchema? then Advisory
    else if s.value.DirectiveSchema? then DirectiveInstrument
    else Binding
  }

  /** Which typed payloads the arm exposes; telemetry is legal under all. */
  predicate Exposes(a: ArmName, s: Schema) {
    match InstrumentOf(Some(s))
    case Advisory => true
    case Binding => Binds(a)
    case DirectiveInstrument => a == ArmC
  }

  // ---------------------------------------------------------------- opening

  function Refs(entries: seq<Entry>): set<Ref> {
    set k | 0 <= k < |entries| :: entries[k].ref
  }

  predicate DistinctRefs(entries: seq<Entry>) {
    forall i, j :: 0 <= i < j < |entries| ==> entries[i].ref != entries[j].ref
  }

  function Authors(entries: seq<Entry>): set<SessionId> {
    set k | 0 <= k < |entries| && entries[k].content.Some? :: entries[k].content.value.session
  }

  /** Every earlier admission gets the opening tick.  Under open admission every
      author the world already has may admit. */
  function Open(c: Config, sessions: set<SessionId>, base: seq<Entry>): Arm {
    var n := |base|;
    var admitters := if c.admittingSlots.None? then sessions + Authors(base) else c.admittingSlots.value;
    Arm(c, sessions, Snapshot(base, n, map r | r in Refs(base) :: n, admitters), n, {}, map[], 0)
  }

  // ---------------------------------------------------------------- review

  function LedgerOf(a: Arm, s: SessionId): Ledger {
    if s in a.ledgers then a.ledgers[s] else NO_LEDGER
  }

  function SetLedger(a: Arm, s: SessionId, l: Ledger): Arm {
    a.(ledgers := a.ledgers[s := l])
  }

  /** A session outside the launch can never write again. */
  predicate CannotAct(a: Arm, holder: SessionId) {
    holder !in a.sessions || holder in a.settled
  }

  predicate Liveness(v: Verdict) {
    v == TaskClaimConflict || v == LeaseLivenessUndecidable
  }

  /** The host's rule on top of the worklist's: a conflict falls away when every
      blocking lease is held by a session that can no longer act. */
  function ClaimVerdict(a: Arm, t: Ref): Verdict {
    var v := ValidateClaim(a.world, t);
    if !Liveness(v) then v
    else if forall k :: 0 <= k < |a.world.entries| && Blocking(a.world, k, t) ==> CannotAct(a, Holder(a.world, k))
    then Accepted
    else v
  }

  /** `other` answers for the rules of routes, directives, decompositions and
      directive citations, which are not modelled. */
  function VerdictOn(a: Arm, s: SessionId, body: Body, primaryAction: bool, other: Verdict): Verdict {
    match body
    case Plain => if a.config.enforceCitation && primaryAction then other else Accepted
    case Malformed(_, wrongKind) => if wrongKind then RecordKindNotAllowed else PayloadMalformed
    case Proposal(dependencies) => ValidateProposal(a.world, dependencies)
    case Admission(_, _, _) => ValidateAdmission(a.world, body, s)
    case Claim(t, _) => ClaimVerdict(a, t)
    case Release(t, c) => HeldVerdict(a.world, t, c, s)
    case Outcome(_, _, _, _, _) => ValidateOutcome(a.world, body, s)
    case Decomposition => other
    case Directive => other
    case Route => other
  }

  function Decide(a: Arm, s: SessionId, c: Candidate, other: Verdict): Decision {
    var ordinal := |LedgerOf(a, s).decisions| + 1;
    match c
    case NotContribution => Decision(ordinal, None, None, CandidateNotIdentityFree)
    case Contribution(body, primary) =>
      var schema := SchemaOf(body);
      Decision(ordinal, schema, Some(InstrumentOf(schema)),
               if schema.Some? && !Exposes(a.config.arm, schema.value) then OutOfArmInstrument
               else VerdictOn(a, s, body, primary, other))
  }

  function Review(a: Arm, s: SessionId, c: Candidate, other: Verdict): Arm {
    var l := LedgerOf(a, s);
    SetLedger(a, s, l.(decisions := l.decisions + [Decide(a, s, c, other)]))
  }

  // ---------------------------------------------------------------- observe

  /** What the publisher returned: no reference at all, or one, with a content
      digest that is or is not that of the reviewed record. */
  datatype Result = NoReference | Reference(ref: Ref, sameContent: bool)

  function Append(a: Arm, r: Ref, content: Option<Record>): Arm {
    var n := a.world.now + 1;
    a.(world := a.world.(now := n, ticks := a.world.ticks[r := n],
                         entries := a.world.entries + [Entry(r, content)]))
  }

  predicate ClockExhausted(a: Arm, r: Ref) {
    r !in a.world.ticks && a.world.now >= MAXIMUM_TICK
  }

  /** A mismatching record is kept opaque; a known reference is not appended
      again.  Both are counted as divergences. */
  function Admit(a: Arm, r: Ref, content: Option<Record>): Arm {
    var a1 := if content.None? then a.(divergences := a.divergences + 1) else a;
    if r in a1.world.ticks then a1.(divergences := a1.divergences + 1)
    else if ClockExhausted(a, r) then a1
    else Append(a1, r, content)
  }

  function Observe(a: Arm, s: SessionId, c: Candidate, result: Result): Arm {
    match result
    case NoReference => a.(divergences := a.divergences + 1)
    case Reference(r, same) =>
      var a1 := Admit(a, r, if c.Contribution? && same then Some(Record(s, c.body)) else None);
      if ClockExhausted(a, r) || !c.Contribution? || SchemaOf(c.body) != Some(TaskClaimSchema) then a1
      else
        var l := LedgerOf(a1, s);
        SetLedger(a1, s, l.(claimRefs := l.claimRefs + [r]))
  }

  // ---------------------------------------------------------------- settlement

  predicate OccupiesByRef(w: Snapshot, r: Ref) {
    exists k :: 0 <= k < |w.entries| && w.entries[k].ref == r && IsClaim(w, k)
                && Blocking(w, k, w.entries[k].content.value.body.task)
  }

  function OccupyingRefs(w: Snapshot, refs: seq<Ref>): seq<Ref> {
    if refs == [] then []
    else
      var n := |refs| - 1;
      OccupyingRefs(w, refs[..n]) + if OccupiesByRef(w, refs[n]) then [refs[n]] else []
  }

  function Insert(r: Ref, s: seq<Ref>): seq<Ref> {
    if s == [] || r <= s[0] then [r] + s else [s[0]] + Insert(r, s[1..])
  }

  function Sort(s: seq<Ref>): seq<Ref> {
    if s == [] then [] else Insert(s[|s| - 1], Sort(s[..|s| - 1]))
  }

  function First(s: seq<Ref>, n: nat): seq<Ref> {
    if |s| <= n then s else s[..n]
  }

  /** Releases the leases of a session and freezes its clock reading, once. */
  function Settle(a: Arm, s: SessionId): Arm {
    if s in a.settled then a
    else
      var l := LedgerOf(a, s);
      var released := First(Sort(OccupyingRefs(a.world, l.claimRefs)), MAXIMUM_RELEASED_CLAIM_REFS);
      SetLedger(a, s, l.(released := released, releasedAt := Some(a.world.now), settledTick := Some(a.world.now)))
      .(settled := a.settled + {s})
  }

  // ---------------------------------------------------------------- evidence

  /** A counting table in insertion order. */
  type Table<K> = seq<(K, nat)>

  function Bump<K(==)>(t: Table<K>, key: K): Table<K> {
    if t == [] then [(key, 1)]
    else if t[0].0 == key then [(key, t[0].1 + 1)] + t[1..]
    else [t[0]] + Bump(t[1..], key)
  }

  function Get<K(==)>(t: Table<K>, key: K): nat {
    if t == [] then 0 else if t[0].0 == key then t[0].1 else Get(t[1..], key)
  }

  function Total<K>(t: Table<K>): nat {
    if t == [] then 0 else t[0].1 + Total(t[1..])
  }

  datatype Evidence = Evidence(
    reviewed: nat, admitted: nat, rejected: nat,
    verdicts: Table<Verdict>, instruments: Table<Instrument>, bySchema: Table<Schema>,
    released: seq<Ref>, releasedAt: Option<nat>,
    baseTick: nat, settledTick: nat,
    decisions: seq<Decision>, truncated: bool, divergences: nat)

  function Verdicts(ds: seq<Decision>): Table<Verdict> {
    if ds == [] then [] else Bump(Verdicts(ds[..|ds| - 1]), ds[|ds| - 1].code)
  }

  function Attempts(ds: seq<Decision>): Table<Instrument> {
    if ds == [] then [(Advisory, 0), (Binding, 0), (DirectiveInstrument, 0)]
    else
      var d := ds[|ds| - 1];
      if d.instrument.Some? then Bump(Attempts(ds[..|ds| - 1]), d.instrument.value) else Attempts(ds[..|ds| - 1])
  }

  function Schemas(ds: seq<Decision>): Table<Schema> {
    if ds == [] then []
    else
      var d := ds[|ds| - 1];
      if d.schema.Some? then Bump(Schemas(ds[..|ds| - 1]), d.schema.value) else Schemas(ds[..|ds| - 1])
  }

  function AdmittedCount(ds: seq<Decision>): (n: nat)
    ensures n <= |ds|
  {
    if ds == [] then 0
    else AdmittedCount(ds[..|ds| - 1]) + if ds[|ds| - 1].code == Accepted then 1 else 0
  }

  function SessionEvidence(a: Arm, s: SessionId): Evidence {
    var l := LedgerOf(a, s);
    var ds := l.decisions;
    var recorded := if |ds| <= MAXIMUM_RECORDED_DECISIONS then ds else ds[..MAXIMUM_RECORDED_DECISIONS];
    Evidence(|ds|, AdmittedCount(ds), |ds| - AdmittedCount(ds), Verdicts(ds), Attempts(ds), Schemas(ds),
             l.released, l.releasedAt, a.baseTick,
             if l.settledTick.Some? then l.settledTick.value else a.world.now,
             recorded, |ds| > |recorded|, a.divergences)
  }

  // ---------------------------------------------------------------- the store's rules

  predicate StrictlyIncreasing(s: seq<Ref>) {
    forall i, j :: 0 <= i < j < |s| ==> s[i] < s[j]
  }

  predicate ValidRelease(e: Evidence) {
    && |e.released| <= MAXIMUM_RELEASED_CLAIM_REFS
    && StrictlyIncreasing(e.released)
    && (e.released != [] ==> e.releasedAt.Some?)
  }

  predicate ValidDecisions(e: Evidence) {
    && |e.decisions| <= MAXIMUM_RECORDED_DECISIONS
    && |e.decisions| <= e.reviewed
    && (|e.decisions| < e.reviewed ==> e.truncated)
    && forall i :: 0 <= i < |e.decisions| ==> e.decisions[i].ordinal == i + 1
  }

  predicate AcceptsEvidence(e: Evidence) {
    && e.admitted + e.rejected == e.reviewed
    && Total(e.verdicts) == e.reviewed
    && Get(e.verdicts, Accepted) == e.admitted
    && ValidRelease(e)
    && e.baseTick <= e.settledTick
    && ValidDecisions(e)
  }

  // ---------------------------------------------------------------- runs

  /** The publication lock: what was reviewed and admitted, and by whom, until
      the publisher answers. */
  datatype Lock = Unlocked | Held(session: SessionId, candidate: Candidate)

  datatype Host = Host(arm: Arm, lock: Lock)

  /** Settling needs no lock and may fall between a review and its observation. */
  datatype Action =
    | Submit(session: SessionId, candidate: Candidate, other: Verdict)
    | PublisherRaises
    | PublisherReturns(result: Result)
    | Settles(settling: SessionId)

  function Act(h: Host, x: Action): Host {
    match x
    case Submit(s, c, other) =>
      if h.lock != Unlocked || s !in h.arm.sessions then h
      else Host(Review(h.arm, s, c, other),
                if Decide(h.arm, s, c, other).code == Accepted then Held(s, c) else Unlocked)
    case PublisherRaises => h.(lock := Unlocked)
    case PublisherReturns(r) =>
      if h.lock == Unlocked then h else Host(Observe(h.arm, h.lock.session, h.lock.candidate, r), Unlocked)
    case Settles(s) => if s in h.arm.sessions then h.(arm := Settle(h.arm, s)) else h
  }

  function Acts(h: Host, xs: seq<Action>): Host
    decreases |xs|
  {
    if xs == [] then h else Act(Acts(h, xs[..|xs| - 1]), xs[|xs| - 1])
  }
}
