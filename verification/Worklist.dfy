/** The worklist: tasks, exclusive leases with a lifetime in ticks, and the
    verdicts on candidates, over one snapshot of the world. */
module Worklist {
  import opened Contracts

  /** Admission references; only their order and identity matter. */
  type Ref = nat

  datatype Contract = AmfVerifierPass | PeerCheckpoint | DeclaredStatement

  datatype Schema =
    | TaskProposalSchema | TaskAdmissionSchema | TaskClaimSchema | TaskReleaseSchema | TaskOutcomeSchema
    | DecompositionSchema | DirectiveSchema | RouteDeclarationSchema

  /** What a record carries.  `Malformed` declares a treatment schema but rides
      the wrong kind or does not parse, so no rule may see it. */
  datatype Body =
    | Plain
    | Malformed(declared: Schema, wrongKind: bool)
    | Proposal(dependencies: seq<Ref>)
    | Admission(proposal: Option<Ref>, dependencies: seq<Ref>, contract: Contract)
    | Claim(task: Ref, lease: nat)
    | Release(task: Ref, claim: Ref)
    | Outcome(task: Ref, claim: Ref, completed: bool, evidence: Contract, artifacts: bool)
    | Decomposition
    | Directive
    | Route

  /** A bound record: its author is what the host injected. */
  datatype Record = Record(session: SessionId, body: Body)

  /** An admission whose content is not a trusted record stays opaque. */
  datatype Entry = Entry(ref: Ref, content: Option<Record>)

  datatype Snapshot = Snapshot(entries: seq<Entry>, now: nat, ticks: map<Ref, nat>, admitters: set<SessionId>)

  datatype Verdict =
    | Accepted | OutOfArmInstrument | CandidateNotIdentityFree
    | RecordKindNotAllowed | PayloadMalformed
    | TaskUnknown | TaskAlreadyCompleted | TaskDependencyUnknown | TaskDependenciesUnready
    | TaskClaimConflict | LeaseLivenessUndecidable
    | ClaimUnknown | ClaimTaskMismatch | ClaimNotHeldByAuthor | ClaimAlreadyClosed | LeaseExpired
    | CompletionContractMismatch | CompletionEvidenceMissing
    | NotAnAdmittingSlot | ProposalUnknown
    | OtherRejection

  function SchemaOf(b: Body): Option<Schema> {
    match b
    case Plain => None
    case Malformed(s, _) => Some(s)
    case Proposal(_) => Some(TaskProposalSchema)
    case Admission(_, _, _) => Some(TaskAdmissionSchema)
    case Claim(_, _) => Some(TaskClaimSchema)
    case Release(_, _) => Some(TaskReleaseSchema)
    case Outcome(_, _, _, _, _) => Some(TaskOutcomeSchema)
    case Decomposition => Some(DecompositionSchema)
    case Directive => Some(DirectiveSchema)
    case Route => Some(RouteDeclarationSchema)
  }

  // ---------------------------------------------------------------- queries, by position in the snapshot

  /** Entry `k` puts task `t` on the worklist: an admission by an admitting slot. */
  predicate TaskAt(w: Snapshot, k: nat, t: Ref) {
    && k < |w.entries| && w.entries[k].ref == t && w.entries[k].content.Some?
    && w.entries[k].content.value.body.Admission? && w.entries[k].content.value.session in w.admitters
  }

  predicate IsTask(w: Snapshot, t: Ref) {
    exists k :: 0 <= k < |w.entries| && TaskAt(w, k, t)
  }

  predicate IsClaim(w: Snapshot, k: nat) {
    k < |w.entries| && w.entries[k].content.Some? && w.entries[k].content.value.body.Claim?
  }

  function Holder(w: Snapshot, k: nat): SessionId
    requires IsClaim(w, k)
  {
    w.entries[k].content.value.session
  }

  predicate ClaimAt(w: Snapshot, k: nat, t: Ref) {
    IsClaim(w, k) && w.entries[k].content.value.body.task == t
  }

  /** Record `r` closes claim `k`: written by the holder, for the same task. */
  predicate ClosesWith(w: Snapshot, r: Record, k: nat) {
    && IsClaim(w, k)
    && (r.body.Release? || r.body.Outcome?)
    && r.body.claim == w.entries[k].ref
    && r.session == Holder(w, k)
    && r.body.task == w.entries[k].content.value.body.task
  }

  predicate Closes(w: Snapshot, j: nat, k: nat) {
    j < |w.entries| && w.entries[j].content.Some? && ClosesWith(w, w.entries[j].content.value, k)
  }

  predicate Closed(w: Snapshot, k: nat) {
    exists j :: 0 <= j < |w.entries| && Closes(w, j, k)
  }

  predicate Undecidable(w: Snapshot, k: nat)
    requires IsClaim(w, k)
  {
    w.entries[k].ref !in w.ticks
  }

  predicate Expired(w: Snapshot, k: nat)
    requires IsClaim(w, k)
  {
    !Undecidable(w, k) && w.now >= w.ticks[w.entries[k].ref] + w.entries[k].content.value.body.lease
  }

  /** Claim `k` still occupies `t`: neither closed nor expired. */
  predicate Occupying(w: Snapshot, k: nat, t: Ref) {
    ClaimAt(w, k, t) && !Closed(w, k) && !Expired(w, k)
  }

  /** A claim blocks only a task that is on the worklist. */
  predicate Blocking(w: Snapshot, k: nat, t: Ref) {
    IsTask(w, t) && Occupying(w, k, t)
  }

  predicate Blocked(w: Snapshot, t: Ref) {
    exists k :: 0 <= k < |w.entries| && Blocking(w, k, t)
  }

  /** Entry `j` is a completion of `t` by the holder of a claim on it. */
  predicate CompletesAt(w: Snapshot, j: nat, t: Ref) {
    && j < |w.entries| && w.entries[j].content.Some?
    && w.entries[j].content.value.body.Outcome?
    && w.entries[j].content.value.body.completed && w.entries[j].content.value.body.task == t
    && exists k :: 0 <= k < |w.entries| && Closes(w, j, k)
  }

  predicate Completed(w: Snapshot, t: Ref) {
    IsTask(w, t) && exists j :: 0 <= j < |w.entries| && CompletesAt(w, j, t)
  }

  // ---------------------------------------------------------------- verdicts

  function DependencyVerdict(w: Snapshot, dependencies: seq<Ref>): Verdict {
    if exists d :: d in dependencies && !IsTask(w, d) then TaskDependencyUnknown
    else if exists d :: d in dependencies && !Completed(w, d) then TaskDependenciesUnready
    else Accepted
  }

  /** What the task admitted as `t` depends on. */
  function DependenciesFrom(w: Snapshot, t: Ref, k: nat): seq<Ref>
    decreases |w.entries| - k
  {
    if k >= |w.entries| then []
    else if TaskAt(w, k, t) then w.entries[k].content.value.body.dependencies
    else DependenciesFrom(w, t, k + 1)
  }

  /** A lease is granted only when the task is on the worklist, open, ready and
      free, whoever asks. */
  function ValidateClaim(w: Snapshot, t: Ref): Verdict {
    if !IsTask(w, t) then TaskUnknown
    else if Completed(w, t) then TaskAlreadyCompleted
    else
      var ready := DependencyVerdict(w, DependenciesFrom(w, t, 0));
      if ready != Accepted then ready
      else if !Blocked(w, t) then Accepted
      else if forall k :: 0 <= k < |w.entries| && Blocking(w, k, t) ==> Undecidable(w, k)
      then LeaseLivenessUndecidable
      else TaskClaimConflict
  }

  /** The position of the claim admitted under `c`, if there is one. */
  function FindClaim(w: Snapshot, c: Ref, k: nat): (r: Option<nat>)
    ensures r.Some? ==> k <= r.value && IsClaim(w, r.value) && w.entries[r.value].ref == c
    ensures r.None? ==> forall i :: k <= i < |w.entries| && IsClaim(w, i) ==> w.entries[i].ref != c
    decreases |w.entries| - k
  {
    if k >= |w.entries| then None
    else if IsClaim(w, k) && w.entries[k].ref == c then Some(k)
    else FindClaim(w, c, k + 1)
  }

  /** Who may close claim `c` on task `t`. */
  function HeldVerdict(w: Snapshot, t: Ref, c: Ref, author: SessionId): Verdict {
    if !IsTask(w, t) then TaskUnknown
    else
      var k := FindClaim(w, c, 0);
      if k.None? then ClaimUnknown
      else if w.entries[k.value].content.value.body.task != t then ClaimTaskMismatch
      else if Holder(w, k.value) != author then ClaimNotHeldByAuthor
      else if Closed(w, k.value) then ClaimAlreadyClosed
      else Accepted
  }

  function ContractFrom(w: Snapshot, t: Ref, k: nat): Option<Contract>
    decreases |w.entries| - k
  {
    if k >= |w.entries| then None
    else if TaskAt(w, k, t) then Some(w.entries[k].content.value.body.contract)
    else ContractFrom(w, t, k + 1)
  }

  function ValidateOutcome(w: Snapshot, b: Body, author: SessionId): Verdict
    requires b.Outcome?
  {
    var held := HeldVerdict(w, b.task, b.claim, author);
    var k := FindClaim(w, b.claim, 0);
    if held != Accepted || k.None? then held
    else if Expired(w, k.value) then LeaseExpired
    else if Undecidable(w, k.value) then LeaseLivenessUndecidable
    else if !b.completed then Accepted
    else if ContractFrom(w, b.task, 0) != Some(b.evidence) then CompletionContractMismatch
    else if b.evidence == AmfVerifierPass && !b.artifacts then CompletionEvidenceMissing
    else Accepted
  }

  function ValidateProposal(w: Snapshot, dependencies: seq<Ref>): Verdict {
    if exists d :: d in dependencies && !IsTask(w, d) then TaskDependencyUnknown else Accepted
  }

  predicate ProposalKnown(w: Snapshot, p: Ref) {
    exists k :: 0 <= k < |w.entries| && w.entries[k].ref == p && w.entries[k].content.Some?
                && w.entries[k].content.value.body.Proposal?
  }

  function ValidateAdmission(w: Snapshot, b: Body, author: SessionId): Verdict
    requires b.Admission?
  {
    if author !in w.admitters then NotAnAdmittingSlot
    else if b.proposal.Some? && !ProposalKnown(w, b.proposal.value) then ProposalUnknown
    else ValidateProposal(w, b.dependencies)
  }
}
