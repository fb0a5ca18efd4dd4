/** The invariant of the cohort step machine.  `calm` says that no receipt failed
    to be built and that the publisher, if there is one, is not disabled; `clean`
    that in addition no durable write failed.  Facts marked with them hold only
    while that is so. */
module CohortInvariant {
  import opened Contracts
  import opened ResourceGuard
  import opened ReceiptRules
  import opened Cohort

  const HANDLED := FRESH.(handle := true)

  ghost predicate GlobalUncertain(g: Guard) {
    g.global.Some? && g.global.value.uncertain
  }

  /** An event read earlier is still latched. */
  ghost predicate SeenOk(g: Guard, s: SessionId, e: Option<Event>) {
    e.Some? ==> e == g.global || (s in g.terminal && e.value == g.terminal[s])
  }

  /** Nothing is published before a proven stop and a clear terminal
      measurement, and never by a session that was told to stop. */
  ghost predicate History(o: Own) {
    && (o.published > 0 ==> o.cleared.Some?) && o.lost <= o.published
    && (o.cleared.Some? ==> o.cleared.value.stopped && !o.halted && o.handle)
  }

  /** Every handle was stopped before the session was let go. */
  ghost predicate Released(l: Launch, o: Own) {
    (o.handle ==> o.stop.Some?) && ValidTally(l, o.arm) && History(o)
  }

  /** `a` is `b` with some entries left out. */
  ghost predicate Subsequence(a: seq<string>, b: seq<string>)
    decreases |b|
  {
    if a == [] then true
    else if b == [] then false
    else
      || (a[|a| - 1] == b[|b| - 1] && Subsequence(a[..|a| - 1], b[..|b| - 1]))
      || Subsequence(a, b[..|b| - 1])
  }

  // ---------------------------------------------------------------- drafts

  ghost predicate DraftProven(g: Guard, d: Draft) {
    && (ProvenRunning(d.proof) ==> d.status == Unknown)
    && (d.status == Cancelled ==> Stopped(d.proof))
    && (d.started && d.status != Unknown ==> Stopped(d.proof))
    && (d.status == Unknown && Stopped(d.proof) ==> GlobalUncertain(g))
    && (d.status == Succeeded ==>
          d.reported.Typed? && d.reported.outcome.success && d.error.None? && d.errorCode.None?)
  }

  ghost predicate DraftCloses(l: Launch, o: Own, d: Draft) {
    var settled := |d.publications| + o.arm.rejected;
    && (PublicationDisabled(l) ==> d.publications == [])
    && (!d.reported.Typed? ==> settled == 0)
    && (d.reported.Typed? ==> settled <= |d.reported.outcome.contributions|)
    && (d.status == Succeeded ==>
          && d.reported.Typed? && settled == |d.reported.outcome.contributions|
          && (PublicationDisabled(l) ==> settled == 0))
  }

  /** All that was published is listed, save at most one record whose result was
      lost; then the session did not succeed. */
  ghost predicate Listed(o: Own, status: Status, publications: seq<string>) {
    |publications| + o.lost == o.published && o.lost <= 1 && (o.lost == 1 ==> status != Succeeded)
  }

  /** A draft with an outcome lists what was published, in order; one without
      lists nothing. */
  ghost predicate DraftLists(o: Own, d: Draft) {
    if d.reported.Typed?
    then Listed(o, d.status, d.publications) && Subsequence(d.publications, d.reported.outcome.contributions)
    else d.publications == []
  }

  ghost predicate DraftOk(clean: bool, l: Launch, g: Guard, o: Own, d: Draft) {
    && (d.started ==> o.handle && d.proof == o.stop)
    && (d.status == Succeeded ==> d.started && Stopped(d.proof) && o.cleared.Some?)
    && Released(l, o) && DraftLists(o, d)
    && (clean ==> DraftProven(g, d) && DraftCloses(l, o, d) && (!d.reported.Typed? ==> o.published == 0))
  }

  // ---------------------------------------------------------------- phases

  ghost predicate AfterOk(clean: bool, l: Launch, g: Guard, o: Own, after: AfterFinish) {
    match after
    case Persist(d) => DraftOk(clean, l, g, o, d)
    case Decide(r, p) =>
      o == HANDLED.(stop := Some(p)) && p.stopped
  }

  ghost predicate PublishingOk(l: Launch, o: Own, oc: Outcome, p: StopProof, k: nat, done: seq<string>) {
    && o.stop == Some(p) && o.cleared == Some(p) && o.handle && History(o)
    && l.publisher.Publisher? && ValidTally(l, o.arm) && o.published == |done| && o.lost == 0
    && |done| + o.arm.rejected == k < |oc.contributions| && oc.success
    && Subsequence(done, oc.contributions[..k])
  }

  ghost predicate PhaseOk(clean: bool, l: Launch, g: Guard, o: Own, s: SessionId, phase: Phase) {
    match phase
    case Preparing => o == FRESH && s !in g.activated && s !in g.finished
    case ActivatingWorkspace => o == FRESH && s in g.activated && s !in g.finished
    case ActivatingCache => o == FRESH && s in g.activated && s !in g.finished
    case Launching => o == FRESH && s in g.activated && s !in g.finished
    case Starting => o == FRESH && s in g.activated && s !in g.finished
    case JoiningStart(_) => o == FRESH && s in g.activated && s !in g.finished
    case StoppingStart(_) => o == HANDLED && s in g.activated && s !in g.finished
    case Started => o == HANDLED && s in g.activated && s !in g.finished
    case EarlyStopping(seen) => o == HANDLED && s in g.activated && s !in g.finished && SeenOk(g, s, seen)
    case Running => o == HANDLED && s in g.activated && s !in g.finished
    case StoppingAfterWaitError(_) => o == HANDLED && s in g.activated && s !in g.finished
    case Confirming(_) => o == HANDLED && s in g.activated && s !in g.finished
    case Halting(seen, _) =>
      o == HANDLED.(halted := true) && s in g.activated && s !in g.finished && SeenOk(g, s, seen)
    case HostStopping(_) => o.handle && ValidTally(l, o.arm) && History(o) && (clean ==> o.(stop := None) == HANDLED)
    case Publishing(oc, p, k, done) => PublishingOk(l, o, oc, p, k, done) && s in g.finished
    case Finishing(stage, after) =>
      && (stage == AtOnce <==> s in g.finished || s !in g.activated)
      && AfterOk(clean, l, g, o, after)
  }

  ghost predicate Clean(calm: bool, c: State) {
    calm && !c.storeFailed
  }

  // ---------------------------------------------------------------- the state

  ghost predicate PlanOk(l: Launch) {
    && l.sessions != []
    && forall i, j :: 0 <= i < j < |l.sessions| ==> l.sessions[i] != l.sessions[j]
  }

  ghost predicate SlotOk(calm: bool, c: State, slot: Slot) {
    match slot
    case Busy(s, phase) =>
      && s in c.launch.sessions && s !in c.receipts
      && PhaseOk(Clean(calm, c), c.launch, c.guard, OwnOf(c, s), s, phase)
    case Looking => true
    case Returned => true
    case Raised => !Clean(calm, c)
  }

  ghost predicate BusyWith(c: State, s: SessionId, i: nat) {
    i < |c.slots| && c.slots[i].Busy? && c.slots[i].session == s
  }

  ghost predicate Idle(c: State, s: SessionId) {
    forall i: nat :: !BusyWith(c, s, i)
  }

  /** What a durable receipt says agrees with what happened to its session. */
  ghost predicate ReceiptFacts(clean: bool, l: Launch, o: Own, r: Receipt) {
    && AcceptsReceipt(l, r)
    && (r.status == Succeeded ==> o.cleared.Some?)
    && (r.started ==> o.handle && r.proof == o.stop)
    && Records(clean, o, r)
    && EventDecides(r)
  }

  /** Which published records a receipt lists: with an outcome all but a lost one,
      in their order, without one none; and while the run is clean only a session
      that published nothing has none. */
  ghost predicate Records(clean: bool, o: Own, r: Receipt) {
    && r.arm == o.arm
    && (if r.outcome.Some?
        then Listed(o, r.status, r.publications) && Subsequence(r.publications, r.outcome.value.digests)
        else r.publications == [])
    && (clean && r.outcome.None? ==> o.published == 0)
  }

  /** A terminal resource event excludes success; an uncertain one forces UNKNOWN. */
  ghost predicate EventDecides(r: Receipt) {
    && (r.guard.terminal.Some? ==> r.status != Succeeded)
    && (AccountingUnknown(r.guard) ==> r.status == Unknown)
  }

  /** A session no slot works on: either it has its receipt, or, while the run
      is clean, nothing has happened to it at all. */
  ghost predicate IdleOk(calm: bool, c: State, s: SessionId) {
    Idle(c, s) ==>
      && Released(c.launch, OwnOf(c, s))
      && (s in c.receipts ==> ReceiptFacts(Clean(calm, c), c.launch, OwnOf(c, s), c.receipts[s]))
      && (Clean(calm, c) && s !in c.receipts ==>
            OwnOf(c, s) == FRESH && s !in c.guard.activated && s !in c.guard.finished)
  }

  ghost predicate Exclusive(c: State) {
    forall i: nat, j: nat, s: SessionId {:trigger BusyWith(c, s, i), BusyWith(c, s, j)} ::
      BusyWith(c, s, i) && BusyWith(c, s, j) ==> i == j
  }

  /** While a worker may still take sessions, only the dispensed prefix of the
      plan has been touched. */
  ghost predicate Dispensed(c: State, s: SessionId) {
    c.cursor <= |c.launch.sessions| && s in c.launch.sessions[..c.cursor]
  }

  ghost predicate TouchedOnlyDispensed(c: State) {
    && (forall s :: s in c.receipts ==> Dispensed(c, s))
    && (forall s :: s in c.own || s in c.guard.activated || s in c.guard.finished ==> Dispensed(c, s))
    && (forall i: nat, s {:trigger BusyWith(c, s, i)} :: BusyWith(c, s, i) ==> Dispensed(c, s))
  }

  ghost predicate ShapeOk(c: State) {
    && PlanOk(c.launch)
    && c.guard.sessions == c.launch.sessions
    && |c.slots| >= 2
    && c.cursor <= |c.launch.sessions| && c.settleCursor <= |c.launch.sessions|
    && (forall s :: s in c.receipts ==> s in c.launch.sessions && c.receipts[s].session == s)
    && (!WorkersDone(c) ==> TouchedOnlyDispensed(c) && c.slots[|c.slots| - 1] == Looking)
  }

  // ---------------------------------------------------------------- unsafe runs

  ghost predicate UnknownDraft(slot: Slot) {
    slot.Busy? && slot.phase.Finishing? && slot.phase.after.Persist? && slot.phase.after.draft.status == Unknown
  }

  ghost predicate HasUnknownReceipt(c: State) {
    exists s :: s in c.receipts && c.receipts[s].status == Unknown
  }

  /** Some receipt is UNKNOWN or cannot but become so. */
  ghost predicate Doomed(c: State) {
    || HasUnknownReceipt(c)
    || (GlobalUncertain(c.guard) && exists s :: s in c.launch.sessions && s !in c.receipts)
    || (exists i: nat :: i < |c.slots| && UnknownDraft(c.slots[i]))
  }

  ghost predicate OfferOk(calm: bool, l: Launch, f: Offer) {
    calm && !f.late ==> AcceptsApartFromError(l, f.receipt)
  }

  ghost predicate OffersOk(calm: bool, c: State) {
    forall f :: f in c.offers ==> OfferOk(calm, c.launch, f)
  }

  ghost predicate EnabledLaunch(calm: bool, l: Launch) {
    calm && l.publisher.Publisher? ==> !l.publisher.disabled
  }

  ghost predicate Inv(calm: bool, c: State) {
    && ShapeOk(c)
    && EnabledLaunch(calm, c.launch)
    && GuardOk(c.guard)
    && Exclusive(c)
    && (forall i: nat :: i < |c.slots| ==> SlotOk(calm, c, c.slots[i]))
    && (forall s :: IdleOk(calm, c, s))
    && (Clean(calm, c) && c.unsafe ==> Doomed(c))
    && OffersOk(calm, c)
  }

  // ---------------------------------------------------------------- one slot's move

  /** `m` differs from `c` only in what a step on session `s` may touch, and no
      slot has moved yet. */
  ghost predicate Mid(c: State, m: State, s: SessionId) {
    && m.launch == c.launch && m.cursor == c.cursor && m.settleCursor == c.settleCursor
    && m.slots == c.slots && m.receipts == c.receipts && m.offers == c.offers
    && m.storeFailed == c.storeFailed
    && OthersKept(c, m, s)
    && GuardOk(m.guard) && Grows(c.guard, m.guard)
    && (c.unsafe ==> m.unsafe) && (c.stopNew ==> m.stopNew)
  }

  ghost predicate OthersKept(c: State, m: State, s: SessionId) {
    && (forall t :: t != s ==> OwnOf(m, t) == OwnOf(c, t))
    && m.own.Keys <= c.own.Keys + {s}
    && m.guard.activated <= c.guard.activated + {s}
    && m.guard.finished <= c.guard.finished + {s}
  }

  /** The session of a slot that is about to step. */
  ghost predicate Ready(calm: bool, c: State, i: nat, s: SessionId) {
    && BusyWith(c, s, i)
    && s in c.launch.sessions && c.guard.sessions == c.launch.sessions
    && s !in c.receipts
    && GuardOk(c.guard) && EnabledLaunch(calm, c.launch)
    && PhaseOk(Clean(calm, c), c.launch, c.guard, OwnOf(c, s), s, c.slots[i].phase)
  }

  ghost predicate DoomedHere(d: State, i: nat, s: SessionId) {
    || (GlobalUncertain(d.guard) && s !in d.receipts)
    || (i < |d.slots| && UnknownDraft(d.slots[i]))
    || (s in d.receipts && d.receipts[s].status == Unknown)
  }

  ghost predicate KeepsDoom(calm: bool, c: State, d: State, i: nat, s: SessionId)
    requires i < |c.slots|
  {
    Clean(calm, d) && ((d.unsafe && !c.unsafe) || UnknownDraft(c.slots[i]) || GlobalUncertain(c.guard)) ==>
      DoomedHere(d, i, s)
  }

  /** Where one step of slot `i` on session `s` may lead. */
  ghost predicate Lands(calm: bool, c: State, d: State, i: nat, s: SessionId)
    requires i < |c.slots|
  {
    && d.launch == c.launch && d.cursor == c.cursor && d.settleCursor == c.settleCursor
    && |d.slots| == |c.slots| && d.slots == c.slots[i := d.slots[i]]
    && OthersKept(c, d, s)
    && GuardOk(d.guard) && Grows(c.guard, d.guard)
    && (c.unsafe ==> d.unsafe) && (c.stopNew ==> d.stopNew) && (c.storeFailed ==> d.storeFailed)
    && LedgerLands(calm, c, d, i, s)
    && KeepsDoom(calm, c, d, i, s)
  }

  ghost predicate LedgerLands(calm: bool, c: State, d: State, i: nat, s: SessionId) {
    && i < |d.slots|
    && match d.slots[i]
       case Busy(t, phase) =>
         && t == s && d.receipts == c.receipts && d.offers == c.offers
         && PhaseOk(Clean(calm, d), d.launch, d.guard, OwnOf(d, s), s, phase)
       case Looking =>
         && Released(d.launch, OwnOf(d, s))
         && (s in d.receipts || (d.storeFailed && d.receipts == c.receipts))
         && (s in d.receipts ==>
               && d.receipts == c.receipts[s := d.receipts[s]] && d.receipts[s].session == s
               && |d.offers| > |c.offers| && d.offers[|c.offers|].receipt == d.receipts[s]
               && ReceiptFacts(Clean(calm, d), d.launch, OwnOf(d, s), d.receipts[s]))
         && |d.offers| == |c.offers| + 1 && d.offers[..|c.offers|] == c.offers
         && d.offers[|c.offers|].receipt.session == s
         && d.offers[|c.offers|].receipt.arm == OwnOf(d, s).arm
         && OfferOk(calm, d.launch, d.offers[|c.offers|])
       case Raised =>
         !Clean(calm, d) && Released(d.launch, OwnOf(d, s)) && d.receipts == c.receipts && d.offers == c.offers
       case Returned => false
  }
}
