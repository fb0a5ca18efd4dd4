/** A run that meets every premise of the main theorem: the caller cancels
    before anything starts, and host and store agree on the settlement. */
module CohortExample {
  import opened Contracts
  import opened ResourceGuard
  import opened ReceiptRules
  import opened Cohort
  import opened CohortCalm
  import opened CohortTheorems
  import opened CohortFindings

  const LAUNCH := Launch([0], NoPublisher, false, false)

  function Setting(p: Profile): Setup { Setup(LAUNCH, p, 1, IDLE_READING) }

  function Schedule(): seq<(Actor, Oracle)> {
    [(Caller, Quiet(true, true)), (SlotActor(0), Quiet(true, true)), (SlotActor(1), Quiet(true, true)),
     (SlotActor(1), Quiet(true, true)), (SlotActor(1), Quiet(true, true))]
  }

  function Started(p: Profile): State { Begin(LAUNCH, p, 1, IDLE_READING) }

  function Cancelled(p: Profile): State {
    Started(p).(stopNew := true, slots := [Returned, Looking])
  }

  function Settling(p: Profile): State {
    Cancelled(p).(settleCursor := 1, slots := [Returned, Busy(0, Finishing(AtOnce, Persist(NotStartedDraft())))])
  }

  lemma StartedIs(p: Profile)
    ensures var c := Started(p);
            && c.slots == [Looking, Looking] && c.launch == LAUNCH && c.cursor == 0 && c.settleCursor == 0
            && !c.stopNew && !c.unsafe && !c.storeFailed && c.own == map[] && c.receipts == map[]
            && c.guard.global.None? && c.guard.terminal == map[] && c.guard.sessions == [0]
            && c.guard.activated == {} && c.guard.finished == {}
  {
  }

  lemma Stops(p: Profile)
    ensures Step(Step(Started(p), Caller, Quiet(true, true)), SlotActor(0), Quiet(true, true)) == Cancelled(p)
  {
    StartedIs(p);
  }

  lemma Settles(p: Profile)
    ensures Step(Cancelled(p), SlotActor(1), Quiet(true, true)) == Settling(p)
  {
    StartedIs(p);
    var c := Cancelled(p);
    assert WorkersDone(c) && !WorkerRaised(c);
  }

  lemma SettlingIs(p: Profile)
    ensures var c := Settling(p);
            && GuardOk(c.guard) && EventFor(c.guard, 0).None? && OwnOf(c, 0) == FRESH && c.launch == LAUNCH
            && c.guard.sessions == [0] && !c.storeFailed && c.receipts == map[] && c.settleCursor == 1
  {
    StartedIs(p);
    CreateIsOk(p, [0]);
    CheckDiskKeepsGuard(Create(p, [0]), Initial, IDLE_READING);
  }

  lemma Delivers(p: Profile, c: State)
    requires c == Settling(p)
    ensures var d := Step(c, SlotActor(1), Quiet(true, true));
            && d.slots == [Returned, Looking] && !d.storeFailed && d.launch == LAUNCH && d.settleCursor == 1
            && d.receipts.Keys == {0} && d.receipts[0].status == Status.Cancelled
  {
    SettlingIs(p);
    QuietSettlement(c, 1, 0);
  }

  lemma Closes(c: State)
    requires c.slots == [Returned, Looking] && c.launch == LAUNCH && c.settleCursor == 1
    ensures var d := Step(c, SlotActor(1), Quiet(true, true));
            d.slots == [Returned, Returned] && d.receipts == c.receipts && d.storeFailed == c.storeFailed
  {
    assert WorkersDone(c) && !WorkerRaised(c);
  }

  lemma RunIs(p: Profile)
    ensures RunOf(Setting(p), Schedule())
            == Step(Step(Settling(p), SlotActor(1), Quiet(true, true)), SlotActor(1), Quiet(true, true))
  {
    var c := Started(p);
    var xs := Schedule();
    Stops(p);
    Settles(p);
    assert xs[..1] == [] + [xs[0]] && xs[..2] == xs[..1] + [xs[1]] && xs[..3] == xs[..2] + [xs[2]];
    assert xs[..4] == xs[..3] + [xs[3]] && xs == xs[..4] + [xs[4]];
    RunSnoc(c, [], xs[0].0, xs[0].1);
    RunSnoc(c, xs[..1], xs[1].0, xs[1].1);
    RunSnoc(c, xs[..2], xs[2].0, xs[2].1);
    RunSnoc(c, xs[..3], xs[3].0, xs[3].1);
    RunSnoc(c, xs[..4], xs[4].0, xs[4].1);
  }

  /** A finished, contract-keeping run without a failed write exists, and the
      store accepts its settlement. */
  lemma CancelledRunSettles(p: Profile)
    ensures var c := RunOf(Setting(p), Schedule());
            && LaunchOk(true, Setting(p)) && TrustedSchedule(Schedule()) && Finished(c) && !c.storeFailed
            && c.receipts.Keys == {0} && c.receipts[0].status == Status.Cancelled
            && AcceptsSettlement(c.launch, c.receipts, SettlementValue(c))
  {
    RunIs(p);
    Delivers(p, Settling(p));
    Closes(Step(Settling(p), SlotActor(1), Quiet(true, true)));
    TrustedRunsSettle(Setting(p), Schedule());
  }
}
