/** What holds of every run of a cohort: producer/validator agreement on
    receipts and on the settlement, completeness, finality, and no publication
    before proof. */
module CohortTheorems {
  import opened Contracts
  import opened ResourceGuard
  import opened ReceiptRules
  import opened Cohort
  import opened CohortInvariant
  import opened CohortSteps
  import opened CohortRuns
  import opened CohortCalm
  import opened CohortPublication

  /** The start of a run: a plan, its profile, at least one worker, one disk reading. */
  datatype Setup = Setup(launch: Launch, profile: Profile, workers: nat, disk: DiskReading)

  ghost predicate LaunchOk(calm: bool, a: Setup) {
    PlanOk(a.launch) && a.workers >= 1 && EnabledLaunch(calm, a.launch)
  }

  function RunOf(a: Setup, schedule: seq<(Actor, Oracle)>): State {
    Run(Begin(a.launch, a.profile, a.workers, a.disk), schedule)
  }

  /** In this run no receipt fails to be built. */
  predicate CalmRunOf(a: Setup, schedule: seq<(Actor, Oracle)>) {
    CalmRun(Begin(a.launch, a.profile, a.workers, a.disk), schedule)
  }

  /** A run whose backend and arm keep their contracts is such a run. */
  lemma TrustedRunIsCalm(a: Setup, schedule: seq<(Actor, Oracle)>)
    requires TrustedSchedule(schedule)
    ensures CalmRunOf(a, schedule)
  {
    var c := Begin(a.launch, a.profile, a.workers, a.disk);
    assert forall i: nat :: i < |c.slots| ==> c.slots[i] == Looking;
    TrustedIsCalm(c, schedule);
  }

  lemma ReachableInv(calm: bool, a: Setup, schedule: seq<(Actor, Oracle)>)
    requires LaunchOk(calm, a) && (calm ==> CalmRunOf(a, schedule))
    ensures Inv(calm, RunOf(a, schedule))
  {
    BeginIsInv(calm, a.launch, a.profile, a.workers, a.disk);
    RunKeepsInv(calm, Begin(a.launch, a.profile, a.workers, a.disk), schedule);
  }

  // ---------------------------------------------------------------- receipts

  /** In every run in which no receipt fails to be built, each receipt the host
      offers before a durable write failed meets every terminal, accounting and
      guard-evidence rule of the store, the arm's tally included; only the size
      of its error block can still have it refused. */
  lemma OfferedReceiptsAgree(a: Setup, schedule: seq<(Actor, Oracle)>, f: Offer)
    requires LaunchOk(true, a) && CalmRunOf(a, schedule)
    requires f in RunOf(a, schedule).offers && !f.late
    ensures TerminalInvariants(RunOf(a, schedule).launch, f.receipt)
    ensures AcceptsReceipt(RunOf(a, schedule).launch, f.receipt) <==> ValidError(f.receipt.error)
  {
    ReachableInv(true, a, schedule);
    assert OfferOk(true, RunOf(a, schedule).launch, f);
  }

  lemma {:induction false} Utf8BytesBound(s: string)
    ensures |s| <= Utf8Bytes(s) <= 4 * |s|
  {
    if s != [] {
      Utf8BytesBound(s[1..]);
    }
  }

  predicate Ascii(s: string) {
    forall k :: 0 <= k < |s| ==> (s[k] as int) < 0x80
  }

  /** Bytes are as many as characters exactly in ASCII. */
  lemma {:induction false} AsciiBytes(s: string)
    ensures Utf8Bytes(s) == |s| <==> Ascii(s)
  {
    if s != [] {
      AsciiBytes(s[1..]);
      Utf8BytesBound(s[1..]);
      assert forall k :: 0 < k < |s| ==> s[k] == s[1..][k - 1];
    }
  }

  /** The code an error block carries: the one given, else the exception's. */
  function SelectedCode(error: Option<Exn>, code: Option<Code>): Code
    requires error.Some? || code.Some?
  {
    if code.Some? then code.value else ErrorCode(error.value, RuntimeSessionFailed)
  }

  /** The store accepts an error block, wherever its code comes from, exactly
      when code and type name also fit when counted in bytes; what is spelt in
      ASCII always does. */
  lemma ErrorBlockAccepted(error: Option<Exn>, code: Option<Code>)
    requires (error.Some? || code.Some?) && (code.Some? ==> UsableCode(code.value))
    ensures var k := SelectedCode(error, code);
            var fits := && (k.Text? ==> Utf8Bytes(k.text) <= MAXIMUM_CODE_LENGTH)
                        && (error.Some? ==> Utf8Bytes(SafeType(error.value)) <= MAXIMUM_TYPE_LENGTH);
            && (ValidError(ErrorValueOf(error, code)) <==> fits)
            && ((k.Text? ==> Ascii(k.text)) && (error.Some? ==> Ascii(error.value.typeName)) ==> fits)
  {
    var k := SelectedCode(error, code);
    if k.Text? && Ascii(k.text) {
      AsciiBytes(k.text);
    }
    if error.Some? && Ascii(error.value.typeName) {
      AsciiBytes(SafeType(error.value));
    }
  }

  function Repeat(c: char, n: nat): (s: string)
    ensures |s| == n && Utf8Bytes(s) == n * CharBytes(c)
  {
    if n == 0 then [] else [c] + Repeat(c, n - 1)
  }

  /** Sixty-five two-byte letters pass the host's test of a code and fail the store's. */
  lemma AccentedCodeRefused()
    ensures var e := Exn(Some(Text(Repeat('\U{E9}', 65))), "E");
            && ErrorCode(e, BackendStartFailed) == e.code.value
            && !ValidError(ErrorValueOf(Some(e), Some(ErrorCode(e, BackendStartFailed))))
  {
  }

  /** After a failed write the settlement pass offers NOT_STARTED for the same
      session; the store takes that exactly when the arm had rejected nothing. */
  lemma LateNotStarted(c: State, s: SessionId)
    requires GuardOk(c.guard) && s in c.launch.sessions && c.guard.sessions == c.launch.sessions
    requires ValidTally(c.launch, OwnOf(c, s).arm)
    ensures AcceptsReceipt(c.launch, BuildReceipt(c, s, Override(NotStartedDraft(), EventFor(c.guard, s))))
            <==> OwnOf(c, s).arm.rejected == 0
  {
    EvidenceIsValid(c.guard, s);
    EventForIsLatched(c.guard, s);
    assert SessionOk(c.guard, s);
  }

  // ---------------------------------------------------------------- the settlement

  ghost predicate Complete(c: State) {
    forall s :: s in c.launch.sessions ==> s in c.receipts
  }

  lemma {:induction false} RowsOf(c: State, k: nat)
    requires k <= |c.launch.sessions|
    ensures |Rows(c, k)| <= k
    ensures |Rows(c, k)| == k <==> forall j :: 0 <= j < k ==> c.launch.sessions[j] in c.receipts
    ensures |Rows(c, k)| == k ==> forall j :: 0 <= j < k ==>
              Rows(c, k)[j] == Row(c.launch.sessions[j], c.receipts[c.launch.sessions[j]].status,
                                   c.receipts[c.launch.sessions[j]])
  {
    if k > 0 {
      RowsOf(c, k - 1);
    }
  }

  lemma StatusesContain(rows: seq<Row>, s: Status)
    ensures Counts(Statuses(rows))[s] > 0 <==> s in Statuses(rows)
    ensures s in Statuses(rows) <==> exists j :: 0 <= j < |rows| && rows[j].status == s
  {
    if s in Statuses(rows) {
      var j :| 0 <= j < |Statuses(rows)| && Statuses(rows)[j] == s;
      assert rows[j].status == s;
    }
    if j :| 0 <= j < |rows| && rows[j].status == s {
      assert Statuses(rows)[j] == s;
    }
  }

  /** The host and the store compute a settlement independently.  They agree
      exactly when every session has its receipt, no write failed, and a run
      marked unsafe shows an UNKNOWN receipt. */
  lemma SettlementAgreement(c: State)
    requires ShapeOk(c)
    ensures AcceptsSettlement(c.launch, c.receipts, SettlementValue(c)) <==>
              Complete(c) && !c.storeFailed && (c.unsafe ==> HasUnknownReceipt(c))
  {
    var n := |c.launch.sessions|;
    var rows := Rows(c, n);
    RowsOf(c, n);
    StatusesContain(rows, Unknown);
    StatusesContain(rows, Cancelled);
    StatusesContain(rows, Failed);
    if Complete(c) {
      assert forall j :: 0 <= j < n ==> RowMatches(rows[j], c.launch.sessions[j], c.receipts);
      UnknownRow(c, rows);
    } else {
      assert |rows| != n;
    }
  }

  lemma UnknownRow(c: State, rows: seq<Row>)
    requires ShapeOk(c) && Complete(c) && rows == Rows(c, |c.launch.sessions|)
    ensures HasUnknownReceipt(c) <==> exists j :: 0 <= j < |rows| && rows[j].status == Unknown
  {
    RowsOf(c, |c.launch.sessions|);
    if HasUnknownReceipt(c) {
      var s :| s in c.receipts && c.receipts[s].status == Unknown;
      var j :| 0 <= j < |c.launch.sessions| && c.launch.sessions[j] == s;
      assert rows[j].status == Unknown;
    }
    if j :| 0 <= j < |rows| && rows[j].status == Unknown {
      assert c.launch.sessions[j] in c.receipts;
    }
  }

  // ---------------------------------------------------------------- completeness

  function Last(c: State): Slot
    requires |c.slots| > 0
  {
    c.slots[|c.slots| - 1]
  }

  /** Everything the settlement pass has walked over is dealt with. */
  ghost predicate Passed(c: State, s: SessionId) {
    s in c.receipts || c.storeFailed || SettlerHolds(c, s)
  }

  ghost predicate SettlerHolds(c: State, s: SessionId) {
    |c.slots| > 0 && (Last(c).Raised? || (Last(c).Busy? && Last(c).session == s))
  }

  ghost predicate SettleOk(c: State) {
    && |c.slots| >= 2
    && c.settleCursor <= |c.launch.sessions|
    && (forall k :: 0 <= k < c.settleCursor ==> Passed(c, c.launch.sessions[k]))
    && (Last(c).Returned? ==> c.settleCursor == |c.launch.sessions| && WorkersDone(c))
  }

  /** A working slot in a reachable state moves as CohortSteps says. */
  lemma BusyStepLands(c: State, i: nat, x: Oracle)
    requires Inv(false, c) && i < |c.slots| && c.slots[i].Busy?
    ensures Lands(false, c, SlotStep(c, i, x), i, c.slots[i].session)
  {
    assert SlotOk(false, c, c.slots[i]);
    PhaseStepLands(false, c, i, c.slots[i].session, x);
  }

  /** A session dealt with stays so when some slot steps. */
  lemma LandsKeepsPassed(c: State, d: State, i: nat, s: SessionId, t: SessionId)
    requires i < |c.slots| && |c.slots| >= 2 && BusyWith(c, s, i) && Lands(false, c, d, i, s)
    requires Passed(c, t)
    ensures Passed(d, t)
  {
  }

  lemma LandsSettles(c: State, d: State, i: nat, s: SessionId)
    requires SettleOk(c) && i < |c.slots| && BusyWith(c, s, i) && Lands(false, c, d, i, s)
    ensures SettleOk(d)
  {
    forall k | 0 <= k < d.settleCursor ensures Passed(d, d.launch.sessions[k]) {
      LandsKeepsPassed(c, d, i, s, c.launch.sessions[k]);
    }
  }

  lemma BusyStepSettles(c: State, i: nat, x: Oracle)
    requires Inv(false, c) && SettleOk(c) && i < |c.slots| && c.slots[i].Busy?
    ensures SettleOk(SlotStep(c, i, x))
  {
    BusyStepLands(c, i, x);
    LandsSettles(c, SlotStep(c, i, x), i, c.slots[i].session);
  }

  lemma WorkerNextSettles(c: State, i: nat)
    requires SettleOk(c) && i < |c.slots| - 1 && c.slots[i].Looking?
    ensures SettleOk(WorkerNext(c, i))
  {
    var d := WorkerNext(c, i);
    assert Last(d) == Last(c);
    forall k | 0 <= k < d.settleCursor ensures Passed(d, d.launch.sessions[k]) {
      assert Passed(c, c.launch.sessions[k]);
    }
  }

  /** What the pass has walked over depends on slots, receipts and cursor alone. */
  lemma SameSettled(c: State, d: State)
    requires SettleOk(c) && d.launch == c.launch && d.slots == c.slots && d.receipts == c.receipts
    requires d.settleCursor == c.settleCursor && d.storeFailed == c.storeFailed
    ensures SettleOk(d)
  {
    forall k | 0 <= k < d.settleCursor ensures Passed(d, d.launch.sessions[k]) {
      assert Passed(c, c.launch.sessions[k]);
    }
  }

  lemma SettleOneSettles(c: State, i: nat)
    requires SettleOk(c) && i == |c.slots| - 1 && c.slots[i].Looking? && WorkersDone(c)
    ensures SettleOk(SettleOne(c, i))
  {
    var d := SettleOne(c, i);
    forall k | 0 <= k < c.settleCursor ensures Passed(d, d.launch.sessions[k]) {
      assert Passed(c, c.launch.sessions[k]);
    }
  }

  lemma SettleNextSettles(c: State, i: nat)
    requires SettleOk(c) && i == |c.slots| - 1 && c.slots[i].Looking?
    ensures SettleOk(SettleNext(c, i))
  {
    if WorkersDone(c) {
      SameSettled(c, SettleFlags(c));
      SettleOneSettles(SettleFlags(c), i);
    }
  }

  lemma SlotSettles(c: State, i: nat, x: Oracle)
    requires Inv(false, c) && SettleOk(c) && i < |c.slots|
    ensures SettleOk(SlotStep(c, i, x))
  {
    match c.slots[i] {
      case Busy(_, _) => BusyStepSettles(c, i, x);
      case Looking => if i == |c.slots| - 1 { SettleNextSettles(c, i); } else { WorkerNextSettles(c, i); }
      case Returned =>
      case Raised =>
    }
  }

  lemma StepSettles(c: State, a: Actor, x: Oracle)
    requires Inv(false, c) && SettleOk(c)
    ensures SettleOk(Step(c, a, x))
  {
    if a.SlotActor? && a.slot < |c.slots| {
      SlotSettles(c, a.slot, x);
    } else {
      SameSettled(c, Step(c, a, x));
    }
  }

  lemma {:induction false} RunSettles(a: Setup, schedule: seq<(Actor, Oracle)>)
    requires LaunchOk(false, a)
    ensures SettleOk(RunOf(a, schedule))
    decreases |schedule|
  {
    if schedule == [] {
      assert RunOf(a, []).slots == seq(a.workers + 1, i => Looking);
    } else {
      var n := |schedule| - 1;
      RunSettles(a, schedule[..n]);
      ReachableInv(false, a, schedule[..n]);
      StepSettles(RunOf(a, schedule[..n]), schedule[n].0, schedule[n].1);
    }
  }

  /** The settlement pass has run to its end. */
  predicate Finished(c: State) {
    |c.slots| > 0 && c.slots[|c.slots| - 1].Returned?
  }

  /** A finished run without a failed write has one receipt for every planned
      session, whatever backend, publisher and arm did. */
  lemma FinishedRunsAreComplete(a: Setup, schedule: seq<(Actor, Oracle)>)
    requires LaunchOk(false, a)
    requires Finished(RunOf(a, schedule)) && !RunOf(a, schedule).storeFailed
    ensures Complete(RunOf(a, schedule))
  {
    RunSettles(a, schedule);
    var c := RunOf(a, schedule);
    forall s | s in c.launch.sessions ensures s in c.receipts {
      var k :| 0 <= k < |c.launch.sessions| && c.launch.sessions[k] == s;
      assert Passed(c, c.launch.sessions[k]);
    }
  }

  /** Over every finished run: the store accepts the host's settlement exactly
      when no durable write failed and an unsafe run shows an UNKNOWN receipt. */
  lemma FinishedRunsSettle(a: Setup, schedule: seq<(Actor, Oracle)>)
    requires LaunchOk(false, a) && Finished(RunOf(a, schedule))
    ensures var c := RunOf(a, schedule);
            AcceptsSettlement(c.launch, c.receipts, SettlementValue(c)) <==>
              !c.storeFailed && (c.unsafe ==> HasUnknownReceipt(c))
  {
    var c := RunOf(a, schedule);
    ReachableInv(false, a, schedule);
    SettlementAgreement(c);
    if !c.storeFailed {
      FinishedRunsAreComplete(a, schedule);
    }
  }

  /** As long as no receipt fails to be built, a failed write is the only way
      for the two to disagree. */
  lemma CalmRunsSettle(a: Setup, schedule: seq<(Actor, Oracle)>)
    requires LaunchOk(true, a) && CalmRunOf(a, schedule) && Finished(RunOf(a, schedule))
    ensures var c := RunOf(a, schedule);
            AcceptsSettlement(c.launch, c.receipts, SettlementValue(c)) <==> !c.storeFailed
  {
    var c := RunOf(a, schedule);
    FinishedRunsSettle(a, schedule);
    ReachableInv(true, a, schedule);
    if !c.storeFailed && c.unsafe {
      FinishedRunsAreComplete(a, schedule);
      RunSettles(a, schedule);
      assert Doomed(c);
      assert forall i: nat :: i < |c.slots| ==> !UnknownDraft(c.slots[i]);
    }
  }

  /** With contract-keeping backend, publisher and arm, a failed write is the
      only way for the two to disagree. */
  lemma TrustedRunsSettle(a: Setup, schedule: seq<(Actor, Oracle)>)
    requires LaunchOk(true, a) && TrustedSchedule(schedule) && Finished(RunOf(a, schedule))
    ensures var c := RunOf(a, schedule);
            AcceptsSettlement(c.launch, c.receipts, SettlementValue(c)) <==> !c.storeFailed
  {
    TrustedRunIsCalm(a, schedule);
    CalmRunsSettle(a, schedule);
  }

  // ---------------------------------------------------------------- proof before publication

  lemma RecordIsHistory(c: State, s: SessionId)
    requires Inv(false, c)
    ensures History(OwnOf(c, s))
  {
    assert IdleOk(false, c, s);
    if !Idle(c, s) {
      var i: nat :| BusyWith(c, s, i);
      assert SlotOk(false, c, c.slots[i]);
    }
  }

  /** In every state of every run, for every session and whatever its slot is
      doing: a published record implies that the session was stopped, proven so,
      and cleared by its terminal measurement; a session told to stop while it
      ran publishes nothing. */
  lemma NoPublicationBeforeProof(a: Setup, schedule: seq<(Actor, Oracle)>, s: SessionId)
    requires LaunchOk(false, a)
    ensures var o := OwnOf(RunOf(a, schedule), s);
            && (o.published > 0 ==> o.cleared.Some?)
            && (o.cleared.Some? ==> o.cleared.value.stopped && !o.halted && o.handle)
  {
    ReachableInv(false, a, schedule);
    RecordIsHistory(RunOf(a, schedule), s);
  }

  lemma StepGrows(c: State, a: Actor, x: Oracle, s: SessionId)
    requires Inv(false, c)
    ensures OwnOf(c, s).published <= OwnOf(Step(c, a, x), s).published
  {
    StepMoves(c, a, x, s);
  }

  lemma LastGrows(a: Setup, schedule: seq<(Actor, Oracle)>, s: SessionId)
    requires LaunchOk(false, a) && schedule != []
    ensures OwnOf(RunOf(a, schedule[..|schedule| - 1]), s).published <= OwnOf(RunOf(a, schedule), s).published
  {
    var n := |schedule| - 1;
    ReachableInv(false, a, schedule[..n]);
    StepGrows(RunOf(a, schedule[..n]), schedule[n].0, schedule[n].1, s);
  }

  /** The moments of a run at which nothing of the session is published. */
  ghost function Unpublished(a: Setup, schedule: seq<(Actor, Oracle)>, s: SessionId): iset<nat> {
    iset n: nat | n <= |schedule| && OwnOf(RunOf(a, schedule[..n]), s).published == 0
  }

  ghost predicate StepsDown(moments: iset<nat>, n: nat) {
    n + 1 in moments ==> n in moments
  }

  lemma {:induction false} DownTo(moments: iset<nat>, k: nat, n: nat)
    requires k <= n && n in moments && forall m: nat :: StepsDown(moments, m)
    ensures k in moments
    decreases n
  {
    if k < n {
      assert StepsDown(moments, n - 1);
      DownTo(moments, k, n - 1);
    }
  }

  lemma {:induction false} Enters(moments: iset<nat>, n: nat) returns (m: nat)
    requires 0 !in moments && n in moments
    ensures m < n && m !in moments && m + 1 in moments
    decreases n
  {
    m := n - 1;
    if m in moments {
      m := Enters(moments, m);
    }
  }

  lemma UnpublishedBefore(a: Setup, schedule: seq<(Actor, Oracle)>, n: nat, s: SessionId)
    requires LaunchOk(false, a)
    ensures StepsDown(Unpublished(a, schedule, s), n)
  {
    if n + 1 <= |schedule| {
      assert schedule[..n + 1][..n] == schedule[..n];
      LastGrows(a, schedule[..n + 1], s);
    }
  }

  lemma UnpublishedUntil(a: Setup, schedule: seq<(Actor, Oracle)>, k: nat, n: nat, s: SessionId)
    requires LaunchOk(false, a) && k <= n && n in Unpublished(a, schedule, s)
    ensures k in Unpublished(a, schedule, s)
  {
    forall m: nat ensures StepsDown(Unpublished(a, schedule, s), m) {
      UnpublishedBefore(a, schedule, m, s);
    }
    DownTo(Unpublished(a, schedule, s), k, n);
  }

  ghost function ClearedBy(a: Setup, schedule: seq<(Actor, Oracle)>, s: SessionId): iset<nat> {
    iset n: nat | n <= |schedule| && OwnOf(RunOf(a, schedule[..n]), s).cleared.Some?
  }

  lemma ClearsLast(a: Setup, schedule: seq<(Actor, Oracle)>, s: SessionId)
    requires LaunchOk(false, a) && schedule != [] && OwnOf(RunOf(a, schedule), s).cleared.Some?
    requires OwnOf(RunOf(a, schedule[..|schedule| - 1]), s).cleared.None?
    ensures Clears(RunOf(a, schedule[..|schedule| - 1]), RunOf(a, schedule), s)
  {
    var n := |schedule| - 1;
    ReachableInv(false, a, schedule[..n]);
    StepMoves(RunOf(a, schedule[..n]), schedule[n].0, schedule[n].1, s);
  }

  lemma ClearsAt(a: Setup, schedule: seq<(Actor, Oracle)>, n: nat, s: SessionId)
    requires LaunchOk(false, a) && n !in ClearedBy(a, schedule, s) && n + 1 in ClearedBy(a, schedule, s)
    ensures n < |schedule| && Clears(RunOf(a, schedule[..n]), RunOf(a, schedule[..n + 1]), s)
  {
    assert schedule[..n + 1][..n] == schedule[..n];
    ClearsLast(a, schedule[..n + 1], s);
  }

  lemma ClearedOnce(a: Setup, schedule: seq<(Actor, Oracle)>, s: SessionId) returns (n: nat)
    requires LaunchOk(false, a) && OwnOf(RunOf(a, schedule), s).cleared.Some?
    ensures n < |schedule| && Clears(RunOf(a, schedule[..n]), RunOf(a, schedule[..n + 1]), s)
  {
    assert schedule[..|schedule|] == schedule && schedule[..0] == [];
    assert RunOf(a, []).own == map[];
    n := Enters(ClearedBy(a, schedule, s), |schedule|);
    ClearsAt(a, schedule, n, s);
  }

  /** The order of events: whenever a session has published, some earlier step of
      the run found it stopped, measured and clear, and up to the end of that
      step nothing of it was published. */
  lemma PublicationFollowsProof(a: Setup, schedule: seq<(Actor, Oracle)>, s: SessionId) returns (n: nat)
    requires LaunchOk(false, a) && OwnOf(RunOf(a, schedule), s).published > 0
    ensures n + 1 < |schedule| && Clears(RunOf(a, schedule[..n]), RunOf(a, schedule[..n + 1]), s)
    ensures forall k :: 0 <= k <= n + 1 ==> k in Unpublished(a, schedule, s)
  {
    NoPublicationBeforeProof(a, schedule, s);
    n := ClearedOnce(a, schedule, s);
    ClearsEarly(a, schedule, n, s);
    forall k | 0 <= k <= n + 1 ensures k in Unpublished(a, schedule, s) {
      UnpublishedUntil(a, schedule, k, n + 1, s);
    }
  }

  lemma ClearsEarly(a: Setup, schedule: seq<(Actor, Oracle)>, n: nat, s: SessionId)
    requires OwnOf(RunOf(a, schedule), s).published > 0
    requires n < |schedule| && Clears(RunOf(a, schedule[..n]), RunOf(a, schedule[..n + 1]), s)
    ensures n + 1 < |schedule| && n + 1 in Unpublished(a, schedule, s)
  {
    assert schedule[..|schedule|] == schedule;
  }

  /** Some step of the run publishes a record of `s` whose result is lost. */
  ghost predicate LostIn(a: Setup, schedule: seq<(Actor, Oracle)>, s: SessionId)
    decreases |schedule|
  {
    schedule != [] &&
      var n := |schedule| - 1;
      LostIn(a, schedule[..n], s) || LosesAt(RunOf(a, schedule[..n]), schedule[n].0, schedule[n].1, s)
  }

  lemma LastLoses(a: Setup, schedule: seq<(Actor, Oracle)>, s: SessionId)
    requires LaunchOk(false, a) && schedule != []
    ensures var n := |schedule| - 1;
            var c := RunOf(a, schedule[..n]);
            OwnOf(RunOf(a, schedule), s).lost ==
              OwnOf(c, s).lost + if LosesAt(c, schedule[n].0, schedule[n].1, s) then 1 else 0
  {
    var n := |schedule| - 1;
    ReachableInv(false, a, schedule[..n]);
    StepMoves(RunOf(a, schedule[..n]), schedule[n].0, schedule[n].1, s);
  }

  lemma {:induction false} LostIff(a: Setup, schedule: seq<(Actor, Oracle)>, s: SessionId)
    requires LaunchOk(false, a)
    ensures OwnOf(RunOf(a, schedule), s).lost > 0 <==> LostIn(a, schedule, s)
    decreases |schedule|
  {
    if schedule == [] {
      assert RunOf(a, []).own == map[];
    } else {
      LostIff(a, schedule[..|schedule| - 1], s);
      LastLoses(a, schedule, s);
    }
  }

  lemma ReceiptIsIdle(calm: bool, c: State, s: SessionId)
    requires Inv(calm, c) && s in c.receipts
    ensures Released(c.launch, OwnOf(c, s))
    ensures ReceiptFacts(Clean(calm, c), c.launch, OwnOf(c, s), c.receipts[s])
  {
    assert IdleOk(calm, c, s);
    forall i: nat ensures !BusyWith(c, s, i) {
      assert i < |c.slots| ==> SlotOk(calm, c, c.slots[i]);
    }
  }

  /** Over every run, exactly which durable receipts list all that their session
      published: those of a session that published nothing, and those with an
      outcome unless some published record's result was lost.  What is listed are
      contributions in their order; with an outcome at most one record is
      missing, without one all are. */
  lemma ReceiptListsAllIff(a: Setup, schedule: seq<(Actor, Oracle)>, s: SessionId)
    requires LaunchOk(false, a) && s in RunOf(a, schedule).receipts
    ensures var c := RunOf(a, schedule);
            var (o, r) := (OwnOf(c, s), c.receipts[s]);
            && (|r.publications| == o.published <==>
                  o.published == 0 || (r.outcome.Some? && !LostIn(a, schedule, s)))
            && (if r.outcome.Some?
                then Subsequence(r.publications, r.outcome.value.digests) && o.published <= |r.publications| + 1
                else r.publications == [])
            && (|r.publications| < o.published ==> r.status != Succeeded)
  {
    var c := RunOf(a, schedule);
    ReachableInv(false, a, schedule);
    ReceiptIsIdle(false, c, s);
    LostIff(a, schedule, s);
  }

  /** While no write failed and no receipt failed to be built, a lost result is
      the only way for a record to be missing. */
  lemma CalmReceiptListsAllIff(a: Setup, schedule: seq<(Actor, Oracle)>, s: SessionId)
    requires LaunchOk(true, a) && CalmRunOf(a, schedule) && !RunOf(a, schedule).storeFailed
    requires s in RunOf(a, schedule).receipts
    ensures var c := RunOf(a, schedule);
            |c.receipts[s].publications| == OwnOf(c, s).published <==> !LostIn(a, schedule, s)
  {
    var c := RunOf(a, schedule);
    ReachableInv(true, a, schedule);
    ReceiptIsIdle(true, c, s);
    LostIff(a, schedule, s);
  }

  /** What a durable receipt says agrees with what happened: every handle was
      stopped, a session told to stop did not succeed, a start on record had its
      handle stopped with the proof on record, and a terminal resource event
      excludes success. */
  lemma ReceiptsAgreeWithHistory(a: Setup, schedule: seq<(Actor, Oracle)>, s: SessionId)
    requires LaunchOk(false, a) && s in RunOf(a, schedule).receipts
    ensures var c := RunOf(a, schedule);
            var (o, r) := (OwnOf(c, s), c.receipts[s]);
            && (o.halted ==> o.published == 0 && r.status != Succeeded)
            && (o.handle ==> o.stop.Some?)
            && (r.started ==> o.handle && r.proof == o.stop)
            && EventDecides(r)
  {
    ReachableInv(false, a, schedule);
    ReceiptIsIdle(false, RunOf(a, schedule), s);
  }

  ghost predicate KeepsReceipt(c: State, d: State, s: SessionId) {
    s in c.receipts ==> s in d.receipts && d.receipts[s] == c.receipts[s]
  }

  lemma BusyStepKeepsReceipt(c: State, i: nat, x: Oracle, s: SessionId)
    requires Inv(false, c) && i < |c.slots| && c.slots[i].Busy?
    ensures KeepsReceipt(c, PhaseStep(c, i, c.slots[i].session, c.slots[i].phase, x), s)
  {
    assert SlotOk(false, c, c.slots[i]);
    PhaseStepLands(false, c, i, c.slots[i].session, x);
  }

  lemma LookingStepKeepsReceipt(c: State, i: nat, s: SessionId)
    requires i < |c.slots|
    ensures KeepsReceipt(c, WorkerNext(c, i), s) && KeepsReceipt(c, SettleNext(c, i), s)
  {
  }

  lemma StepKeepsReceipt(c: State, a: Actor, x: Oracle, s: SessionId)
    requires Inv(false, c)
    ensures KeepsReceipt(c, Step(c, a, x), s)
  {
    if a.SlotActor? && a.slot < |c.slots| {
      if c.slots[a.slot].Busy? {
        BusyStepKeepsReceipt(c, a.slot, x, s);
      } else {
        LookingStepKeepsReceipt(c, a.slot, s);
      }
    }
  }

  /** A receipt never changes once it is durable. */
  lemma {:induction false} ReceiptsAreFinal(c: State, schedule: seq<(Actor, Oracle)>, s: SessionId)
    requires Inv(false, c) && s in c.receipts
    ensures s in Run(c, schedule).receipts && Run(c, schedule).receipts[s] == c.receipts[s]
    decreases |schedule|
  {
    if schedule != [] {
      var n := |schedule| - 1;
      ReceiptsAreFinal(c, schedule[..n], s);
      RunKeepsInv(false, c, schedule[..n]);
      StepKeepsReceipt(Run(c, schedule[..n]), schedule[n].0, schedule[n].1, s);
    }
  }

  // ---------------------------------------------------------------- single steps of a run

  const IDLE_READING := DiskRead(DiskSnapshot(2, 1, 1))
  const EMPTY_READING := TreeRead(TreeSnapshot(0, 0, 0))

  /** Oracle answers in which nothing special happens. */
  function Quiet(ok: bool, armOk: bool): Oracle {
    Oracle(ok, Exn(None, "E"), true, IDLE_READING, EMPTY_READING, None, None,
           false, false, false, false, false, StopProof(true, NotStarted), None, Published, armOk, true)
  }

  lemma {:induction false} RunSnoc(c: State, schedule: seq<(Actor, Oracle)>, a: Actor, x: Oracle)
    ensures Run(c, schedule + [(a, x)]) == Step(Run(c, schedule), a, x)
  {
    assert (schedule + [(a, x)])[..|schedule|] == schedule;
  }

  // ---------------------------------------------------------------- stopping

  /** Once new sessions are stopped, none is dispensed, in any continuation. */
  lemma {:induction false} NothingDispensedAfterStop(c: State, schedule: seq<(Actor, Oracle)>)
    requires Inv(false, c) && c.stopNew
    ensures Run(c, schedule).cursor == c.cursor && Run(c, schedule).stopNew
    decreases |schedule|
  {
    if schedule != [] {
      var n := |schedule| - 1;
      NothingDispensedAfterStop(c, schedule[..n]);
      RunKeepsInv(false, c, schedule[..n]);
      StopIsForever(Run(c, schedule[..n]), schedule[n].0, schedule[n].1);
    }
  }

  lemma BusyStepStaysStopped(c: State, i: nat, x: Oracle)
    requires Inv(false, c) && c.stopNew && i < |c.slots| && c.slots[i].Busy?
    ensures SlotStep(c, i, x).cursor == c.cursor && SlotStep(c, i, x).stopNew
  {
    BusyStepLands(c, i, x);
  }

  lemma FreeStepStaysStopped(c: State, i: nat, x: Oracle)
    requires i < |c.slots| && c.stopNew && !c.slots[i].Busy?
    ensures SlotStep(c, i, x).cursor == c.cursor && SlotStep(c, i, x).stopNew
  {
    SettlerStaysStopped(c, i);
  }

  lemma SettlerStaysStopped(c: State, i: nat)
    requires i < |c.slots| && c.stopNew
    ensures SettleNext(c, i).cursor == c.cursor && SettleNext(c, i).stopNew
  {
  }

  lemma StopIsForever(c: State, a: Actor, x: Oracle)
    requires Inv(false, c) && c.stopNew
    ensures Step(c, a, x).cursor == c.cursor && Step(c, a, x).stopNew
  {
    if a.SlotActor? && a.slot < |c.slots| {
      if c.slots[a.slot].Busy? {
        BusyStepStaysStopped(c, a.slot, x);
      } else {
        FreeStepStaysStopped(c, a.slot, x);
      }
    }
  }

  /** The initial disk check hands its raw event to the controller: the run is
      stopped from the start exactly if the reading failed or fell short, however
      the profile disposes of a breach. */
  lemma StoppedFromTheStartIff(a: Setup)
    ensures RunOf(a, []).stopNew <==>
              a.disk.DiskError? || a.disk.snapshot.availableBytes < a.disk.snapshot.requiredFreeBytes
  {
  }

  lemma FirstTaken(a: Setup)
    requires LaunchOk(false, a) && !RunOf(a, []).stopNew
    ensures RunOf(a, [(SlotActor(0), Quiet(true, true))]).cursor == 1
  {
    var c := RunOf(a, []);
    assert c.slots == seq(a.workers + 1, i => Looking) && c.cursor == 0 && c.launch == a.launch;
    RunSnoc(c, [], SlotActor(0), Quiet(true, true));
    assert [] + [(SlotActor(0), Quiet(true, true))] == [(SlotActor(0), Quiet(true, true))];
    TakesFirst(c);
  }

  lemma TakesFirst(c: State)
    requires |c.slots| >= 2 && c.slots[0] == Looking && !c.stopNew && c.cursor == 0 && c.launch.sessions != []
    ensures Step(c, SlotActor(0), Quiet(true, true)).cursor == 1
  {
  }

  /** Nothing is ever dispensed exactly when the run is stopped from the start. */
  lemma DispensesNothingIff(a: Setup)
    requires LaunchOk(false, a)
    ensures (forall schedule :: RunOf(a, schedule).cursor == 0) <==> RunOf(a, []).stopNew
  {
    if RunOf(a, []).stopNew {
      forall schedule ensures RunOf(a, schedule).cursor == 0 {
        StoppedAtZero(a, schedule);
      }
    } else {
      FirstTaken(a);
    }
  }

  lemma StoppedAtZero(a: Setup, schedule: seq<(Actor, Oracle)>)
    requires LaunchOk(false, a) && RunOf(a, []).stopNew
    ensures RunOf(a, schedule).cursor == 0
  {
    ReachableInv(false, a, []);
    NothingDispensedAfterStop(RunOf(a, []), schedule);
  }

  /** Under a profile that only warns, and with a readable disk, the check
      latches nothing and signals nobody; and yet no session is dispensed in any
      run exactly if the reading falls short. */
  lemma WarningAtStartRunsNothing(a: Setup)
    requires LaunchOk(false, a) && a.profile.diskReserve == Warn && a.disk.DiskRead?
    ensures RunOf(a, []).guard.global.None? && RunOf(a, []).guard.signalled == {}
    ensures (forall schedule :: RunOf(a, schedule).cursor == 0) <==>
              a.disk.snapshot.availableBytes < a.disk.snapshot.requiredFreeBytes
  {
    StoppedFromTheStartIff(a);
    DispensesNothingIff(a);
  }

  lemma BusyStepKeepsWidth(c: State, i: nat, x: Oracle)
    requires Inv(false, c) && i < |c.slots| && c.slots[i].Busy?
    ensures |SlotStep(c, i, x).slots| == |c.slots| && SlotStep(c, i, x).cursor == c.cursor
  {
    BusyStepLands(c, i, x);
  }

  lemma WorkerKeepsWidth(c: State, i: nat)
    requires i < |c.slots|
    ensures |WorkerNext(c, i).slots| == |c.slots|
  {
  }

  lemma SettlerKeepsWidth(c: State, i: nat)
    requires i < |c.slots|
    ensures |SettleNext(c, i).slots| == |c.slots|
  {
  }

  lemma FreeStepKeepsWidth(c: State, i: nat, x: Oracle)
    requires i < |c.slots| && !c.slots[i].Busy?
    ensures |SlotStep(c, i, x).slots| == |c.slots|
  {
    WorkerKeepsWidth(c, i);
    SettlerKeepsWidth(c, i);
  }

  lemma StepKeepsWidth(c: State, a: Actor, x: Oracle)
    requires Inv(false, c)
    ensures |Step(c, a, x).slots| == |c.slots|
  {
    if a.SlotActor? && a.slot < |c.slots| {
      if c.slots[a.slot].Busy? {
        BusyStepKeepsWidth(c, a.slot, x);
      } else {
        FreeStepKeepsWidth(c, a.slot, x);
      }
    }
  }

  lemma FreeSlotDispenses(c: State, i: nat, x: Oracle)
    requires i < |c.slots| && c.slots[i].Looking? && SlotStep(c, i, x).cursor != c.cursor
    ensures i < |c.slots| - 1 && !c.stopNew && c.cursor < |c.launch.sessions|
    ensures SlotStep(c, i, x).cursor == c.cursor + 1
    ensures SlotStep(c, i, x).slots == c.slots[i := Busy(c.launch.sessions[c.cursor], Preparing)]
  {
  }

  /** The only way the cursor moves: a free worker of a run that is not stopping
      takes the next planned session. */
  lemma DispensesNext(c: State, a: Actor, x: Oracle)
    requires Inv(false, c) && Step(c, a, x).cursor != c.cursor
    ensures a.SlotActor? && a.slot < |c.slots| - 1 && c.slots[a.slot].Looking?
    ensures !c.stopNew && c.cursor < |c.launch.sessions| && Step(c, a, x).cursor == c.cursor + 1
    ensures Step(c, a, x).slots == c.slots[a.slot := Busy(c.launch.sessions[c.cursor], Preparing)]
  {
    if a.SlotActor? && a.slot < |c.slots| {
      if c.slots[a.slot].Busy? {
        BusyStepKeepsWidth(c, a.slot, x);
      } else if c.slots[a.slot].Looking? {
        FreeSlotDispenses(c, a.slot, x);
      }
    }
  }

  lemma {:induction false} RunKeepsWidth(a: Setup, schedule: seq<(Actor, Oracle)>)
    requires LaunchOk(false, a)
    ensures |RunOf(a, schedule).slots| == a.workers + 1
    decreases |schedule|
  {
    if schedule != [] {
      var n := |schedule| - 1;
      RunKeepsWidth(a, schedule[..n]);
      ReachableInv(false, a, schedule[..n]);
      StepKeepsWidth(RunOf(a, schedule[..n]), schedule[n].0, schedule[n].1);
    }
  }

  /** The pool in every run: as many slots as workers plus the settlement pass,
      no session in two of them, and while a worker may still take sessions,
      only the dispensed prefix of the plan has been touched in any way. */
  lemma PoolIsBounded(a: Setup, schedule: seq<(Actor, Oracle)>)
    requires LaunchOk(false, a)
    ensures var c := RunOf(a, schedule);
            && |c.slots| == a.workers + 1 && Exclusive(c)
            && (!WorkersDone(c) ==> TouchedOnlyDispensed(c))
  {
    ReachableInv(false, a, schedule);
    RunKeepsWidth(a, schedule);
  }
}
