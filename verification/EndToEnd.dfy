/** From a published launch to a settlement that stays valid: a cohort run
    writing through the durable store. */
module EndToEnd {
  import opened Contracts
  import opened ReceiptRules
  import opened Cohort
  import opened CohortInvariant
  import opened CohortTheorems
  import L = LaunchStore
  import LT = LaunchTheorems

  ghost predicate Adds(c: State, d: State, s: SessionId) {
    && s in d.receipts && d.receipts == c.receipts[s := d.receipts[s]]
    && d.receipts[s].session == s && AcceptsReceipt(c.launch, d.receipts[s])
  }

  lemma BusyStepAddsOne(c: State, i: nat, x: Oracle) returns (s: Option<SessionId>)
    requires Inv(false, c) && i < |c.slots| && c.slots[i].Busy?
    ensures s.None? ==> SlotStep(c, i, x).receipts == c.receipts
    ensures s.Some? ==> s.value in c.launch.sessions && s.value !in c.receipts && Adds(c, SlotStep(c, i, x), s.value)
  {
    BusyStepLands(c, i, x);
    var t := c.slots[i].session;
    assert SlotOk(false, c, c.slots[i]);
    s := if SlotStep(c, i, x).receipts == c.receipts then None else Some(t);
  }

  ghost predicate SameStore(c: State, d: State) {
    d.receipts == c.receipts && d.launch == c.launch && d.offers == c.offers && d.storeFailed == c.storeFailed
  }

  lemma FlagsAddNone(c: State)
    ensures SameStore(c, SettleFlags(c))
  {
  }

  lemma SettleOneAddsNone(c: State, i: nat)
    requires i < |c.slots|
    ensures SameStore(c, SettleOne(c, i))
  {
  }

  lemma FreeSlotAddsNone(c: State, i: nat, x: Oracle)
    requires i < |c.slots| && !c.slots[i].Busy?
    ensures SameStore(c, SlotStep(c, i, x))
  {
    if c.slots[i].Looking? {
      if i == |c.slots| - 1 {
        SettlerAddsNone(c, i);
      }
    }
  }

  lemma SettlerAddsNone(c: State, i: nat)
    requires i < |c.slots|
    ensures SameStore(c, SettleNext(c, i))
  {
    if WorkersDone(c) {
      FlagsAddNone(c);
      SettleOneAddsNone(SettleFlags(c), i);
    }
  }

  /** Free slots, monitors and the caller write nothing. */
  lemma QuietStepAddsNone(c: State, a: Actor, x: Oracle)
    requires !(a.SlotActor? && a.slot < |c.slots| && c.slots[a.slot].Busy?)
    ensures Step(c, a, x).receipts == c.receipts && Step(c, a, x).launch == c.launch
  {
    if a.SlotActor? && a.slot < |c.slots| {
      FreeSlotAddsNone(c, a.slot, x);
    }
  }

  /** The disk holds exactly the receipts the controller counts as written. */
  ghost predicate Tracks(d: L.Disk, c: State) {
    d.launch == Some(c.launch) && d.receipts == c.receipts
  }

  ghost predicate OnlyReceipts(xs: seq<L.Action>) {
    forall k :: 0 <= k < |xs| ==> xs[k].Receive?
  }

  lemma StoreOne(w: L.World, s: SessionId, r: Receipt)
    requires LT.WorldOk(w) && w.disk.launch.Some? && s in w.disk.launch.value.sessions
    requires r.session == s && AcceptsReceipt(w.disk.launch.value, r) && s !in w.disk.receipts
    ensures L.PutReceipt(w.disk, s, r) == (w.disk.(receipts := w.disk.receipts[s := r]), L.Written)
  {
    LT.VisibleIsComplete(w);
    assert L.SessionComplete(w.disk, s);
  }

  lemma StoreStep(w: L.World, before: seq<L.Action>, c: State, d: State, s: SessionId) returns (xs: seq<L.Action>)
    requires OnlyReceipts(before) && LT.WorldOk(L.Acts(w, before)) && Tracks(L.Acts(w, before).disk, c)
    requires s in c.launch.sessions && s !in c.receipts && Adds(c, d, s) && d.launch == c.launch
    ensures OnlyReceipts(xs) && LT.WorldOk(L.Acts(w, xs)) && Tracks(L.Acts(w, xs).disk, d)
    ensures L.Acts(w, xs).disk.settlement == L.Acts(w, before).disk.settlement
  {
    var x := L.Receive(s, d.receipts[s]);
    xs := before + [x];
    assert xs[..|xs| - 1] == before;
    StoreOne(L.Acts(w, before), s, d.receipts[s]);
    LT.ActKeeps(L.Acts(w, before), x);
  }

  lemma StepKeepsLaunch(c: State, a: Actor, x: Oracle)
    requires Inv(false, c)
    ensures Step(c, a, x).launch == c.launch
  {
    if a.SlotActor? && a.slot < |c.slots| && c.slots[a.slot].Busy? {
      BusyStepLands(c, a.slot, x);
    } else {
      QuietStepAddsNone(c, a, x);
    }
  }

  lemma {:induction false} LaunchStays(a: Setup, schedule: seq<(Actor, Oracle)>)
    requires LaunchOk(false, a)
    ensures RunOf(a, schedule).launch == a.launch
    decreases |schedule|
  {
    if schedule != [] {
      var n := |schedule| - 1;
      LaunchStays(a, schedule[..n]);
      ReachableInv(false, a, schedule[..n]);
      StepKeepsLaunch(RunOf(a, schedule[..n]), schedule[n].0, schedule[n].1);
    }
  }

  /** One more step of the cohort, at most one more write on the store. */
  lemma NextStored(w: L.World, before: seq<L.Action>, c: State, a: Actor, x: Oracle) returns (xs: seq<L.Action>)
    requires Inv(false, c) && OnlyReceipts(before) && LT.WorldOk(L.Acts(w, before)) && Tracks(L.Acts(w, before).disk, c)
    ensures OnlyReceipts(xs) && LT.WorldOk(L.Acts(w, xs)) && Tracks(L.Acts(w, xs).disk, Step(c, a, x))
    ensures L.Acts(w, xs).disk.settlement == L.Acts(w, before).disk.settlement
  {
    StepKeepsLaunch(c, a, x);
    xs := before;
    if a.SlotActor? && a.slot < |c.slots| && c.slots[a.slot].Busy? {
      var s := BusyStepAddsOne(c, a.slot, x);
      if s.Some? {
        xs := StoreStep(w, before, c, Step(c, a, x), s.value);
      }
    } else {
      QuietStepAddsNone(c, a, x);
    }
  }

  /** Every run of the cohort is a run of receipt writes on the store. */
  lemma {:induction false} RunIsStored(a: Setup, schedule: seq<(Actor, Oracle)>, w: L.World)
    returns (xs: seq<L.Action>)
    requires LaunchOk(false, a) && LT.WorldOk(w)
    requires w.disk.launch == Some(a.launch) && w.disk.receipts == map[]
    ensures OnlyReceipts(xs) && LT.WorldOk(L.Acts(w, xs))
    ensures Tracks(L.Acts(w, xs).disk, RunOf(a, schedule))
    ensures L.Acts(w, xs).disk.settlement == w.disk.settlement
    decreases |schedule|
  {
    if schedule == [] {
      xs := [];
    } else {
      var n := |schedule| - 1;
      var before := RunIsStored(a, schedule[..n], w);
      ReachableInv(false, a, schedule[..n]);
      xs := NextStored(w, before, RunOf(a, schedule[..n]), schedule[n].0, schedule[n].1);
    }
  }

  /** An accepted settlement is taken and reads back after anything else. */
  lemma TakenForGood(w: L.World, c: State, later: seq<L.Action>)
    requires LT.WorldOk(w) && Tracks(w.disk, c) && w.disk.settlement.None?
    requires AcceptsSettlement(c.launch, c.receipts, SettlementValue(c))
    ensures L.PutSettlement(w.disk, SettlementValue(c)).1 == L.Written
    ensures L.ReadsBack(L.Acts(L.Act(w, L.Settle(SettlementValue(c))), later).disk, SettlementValue(c))
  {
    var settled := L.Act(w, L.Settle(SettlementValue(c)));
    LT.SettleKeeps(w, SettlementValue(c));
    LT.ActsKeep(settled, later);
    LT.DocumentsAreFinal(settled, later);
  }

  /** Any store on which the launch is published and nothing written yet, any run
      in which no receipt fails to be built and which finishes without a failed
      write: its receipts can be written, the store takes its settlement, and
      whatever any writer or launcher does afterwards the settlement reads back
      valid. */
  lemma SettledForGood(a: Setup, schedule: seq<(Actor, Oracle)>, launching: seq<L.Action>, later: seq<L.Action>)
    returns (receipts: seq<L.Action>)
    requires LaunchOk(true, a) && CalmRunOf(a, schedule)
    requires Finished(RunOf(a, schedule)) && !RunOf(a, schedule).storeFailed
    requires var d := L.Acts(LT.START, launching).disk;
             d.launch == Some(a.launch) && d.receipts == map[] && d.settlement.None?
    ensures OnlyReceipts(receipts)
    ensures var v := SettlementValue(RunOf(a, schedule));
            var w := L.Acts(L.Acts(LT.START, launching), receipts);
            && L.PutSettlement(w.disk, v).1 == L.Written
            && L.ReadsBack(L.Acts(L.Act(w, L.Settle(v)), later).disk, v)
  {
    var w0 := L.Acts(LT.START, launching);
    LT.StartIsOk();
    LT.ActsKeep(LT.START, launching);
    receipts := RunIsStored(a, schedule, w0);
    LaunchStays(a, schedule);
    CalmRunsSettle(a, schedule);
    TakenForGood(L.Acts(w0, receipts), RunOf(a, schedule), later);
  }

  // ---------------------------------------------------------------- writes that report an error

  /** What the store may have done when the cohort has moved from `c` to `d`: a
      receipt the controller counts as written was answered so; one it counts as
      failed may still be on disk. */
  ghost predicate StoreAnswers(c: State, d: State, before: L.World, after: L.World) {
    if |d.offers| <= |c.offers| then after == before
    else
      var r := d.offers[|c.offers|].receipt;
      if r.session in d.receipts
      then L.PutReceipt(before.disk, r.session, r).1 == L.Written && after == L.Act(before, L.Receive(r.session, r))
      else after == before || after == L.Act(before, L.Receive(r.session, r))
  }

  ghost predicate LastAnswers(a: Setup, schedule: seq<(Actor, Oracle)>, before: L.World, after: L.World)
    requires schedule != []
  {
    StoreAnswers(RunOf(a, schedule[..|schedule| - 1]), RunOf(a, schedule), before, after)
  }

  /** The worlds the last step of a run may lead to. */
  ghost function NextWorlds(a: Setup, schedule: seq<(Actor, Oracle)>, before: L.World): iset<L.World>
    requires schedule != []
  {
    iset after: L.World | LastAnswers(a, schedule, before, after)
  }

  /** The store's states along a run, one after each step. */
  ghost predicate JointRun(a: Setup, schedule: seq<(Actor, Oracle)>, ws: seq<L.World>)
    decreases |schedule|
  {
    var n := |schedule|;
    && |ws| == n + 1
    && (n > 0 ==> JointRun(a, schedule[..n - 1], ws[..n]) && ws[n] in NextWorlds(a, schedule, ws[n - 1]))
  }

  /** A step that offers nothing leaves every receipt; one that offers a receipt
      has it counted, alone, or fails the store. */
  ghost predicate OffersOne(c: State, d: State) {
    && d.launch == c.launch && (c.storeFailed ==> d.storeFailed)
    && if |d.offers| <= |c.offers| then d.receipts == c.receipts
       else
         var r := d.offers[|c.offers|].receipt;
         && r.session in c.launch.sessions && r.session !in c.receipts
         && (d.receipts == c.receipts[r.session := r] || (d.receipts == c.receipts && d.storeFailed))
  }

  lemma LandsOffersOne(c: State, d: State, i: nat, s: SessionId)
    requires i < |c.slots| && Lands(false, c, d, i, s) && s in c.launch.sessions && s !in c.receipts
    ensures OffersOne(c, d)
  {
  }

  lemma StepOffersOne(c: State, a: Actor, x: Oracle)
    requires Inv(false, c)
    ensures OffersOne(c, Step(c, a, x))
  {
    if a.SlotActor? && a.slot < |c.slots| {
      if c.slots[a.slot].Busy? {
        BusyStepLands(c, a.slot, x);
        assert SlotOk(false, c, c.slots[a.slot]);
        LandsOffersOne(c, SlotStep(c, a.slot, x), a.slot, c.slots[a.slot].session);
      } else {
        FreeSlotAddsNone(c, a.slot, x);
      }
    }
  }

  /** What a write of one receipt does to the disk. */
  ghost predicate Puts(d: L.Disk, e: L.Disk, r: Receipt, written: bool) {
    && e.launch == d.launch && e.settlement == d.settlement
    && (e.receipts == d.receipts || (r.session !in d.receipts && e.receipts == d.receipts[r.session := r]))
    && (written ==> r.session in e.receipts && e.receipts[r.session] == r)
  }

  lemma ReceivePuts(w: L.World, r: Receipt)
    ensures Puts(w.disk, L.Act(w, L.Receive(r.session, r)).disk, r, L.PutReceipt(w.disk, r.session, r).1 == L.Written)
  {
  }

  /** The disk has every receipt the controller counts; it has more only after a
      write that reported an error. */
  ghost predicate Holds(d: L.Disk, l: Launch, counted: map<SessionId, Receipt>, failed: bool) {
    && d.launch == Some(l)
    && (forall s :: s in counted ==> s in d.receipts && d.receipts[s] == counted[s])
    && (forall s :: s in d.receipts ==> s in counted || failed)
  }

  lemma CountedHolds(d: L.Disk, e: L.Disk, r: Receipt, l: Launch, counted: map<SessionId, Receipt>, failed: bool)
    requires Holds(d, l, counted, failed) && Puts(d, e, r, true) && r.session !in counted
    ensures Holds(e, l, counted[r.session := r], failed)
  {
  }

  lemma FailedHolds(d: L.Disk, e: L.Disk, r: Receipt, l: Launch, counted: map<SessionId, Receipt>, written: bool)
    requires Holds(d, l, counted, true) && Puts(d, e, r, written)
    ensures Holds(e, l, counted, true)
  {
  }

  ghost predicate Backs(w: L.World, c: State) {
    Holds(w.disk, c.launch, c.receipts, c.storeFailed)
  }

  lemma AnswerBacks(c: State, d: State, before: L.World, after: L.World)
    requires OffersOne(c, d) && Backs(before, c) && StoreAnswers(c, d, before, after)
    ensures Backs(after, d) && after.disk.settlement == before.disk.settlement
  {
    if |d.offers| > |c.offers| {
      var r := d.offers[|c.offers|].receipt;
      ReceivePuts(before, r);
      OfferBacks(before, after, r, L.Act(before, L.Receive(r.session, r)),
                 L.PutReceipt(before.disk, r.session, r).1 == L.Written, c, d);
    }
  }

  /** The same for a write that left `put`. */
  lemma OfferBacks(before: L.World, after: L.World, r: Receipt, put: L.World, written: bool, c: State, d: State)
    requires OffersOne(c, d) && Backs(before, c) && |d.offers| > |c.offers| && r == d.offers[|c.offers|].receipt
    requires Puts(before.disk, put.disk, r, written)
    requires if r.session in d.receipts then written && after == put else after == before || after == put
    ensures Backs(after, d) && after.disk.settlement == before.disk.settlement
  {
    if r.session in d.receipts {
      CountedHolds(before.disk, put.disk, r, c.launch, c.receipts, c.storeFailed);
    } else {
      FailedHolds(before.disk, put.disk, r, c.launch, c.receipts, written);
    }
  }

  lemma LastBacks(a: Setup, schedule: seq<(Actor, Oracle)>, before: L.World, after: L.World)
    requires LaunchOk(false, a) && schedule != [] && after in NextWorlds(a, schedule, before)
    requires Backs(before, RunOf(a, schedule[..|schedule| - 1]))
    ensures Backs(after, RunOf(a, schedule)) && after.disk.settlement == before.disk.settlement
  {
    var n := |schedule| - 1;
    ReachableInv(false, a, schedule[..n]);
    StepOffersOne(RunOf(a, schedule[..n]), schedule[n].0, schedule[n].1);
    AnswerBacks(RunOf(a, schedule[..n]), RunOf(a, schedule), before, after);
  }

  ghost predicate BacksAfter(a: Setup, schedule: seq<(Actor, Oracle)>, first: L.World, w: L.World) {
    Backs(w, RunOf(a, schedule)) && w.disk.settlement == first.disk.settlement
  }

  /** The worlds that back a run which started from `first`. */
  ghost function Backing(a: Setup, schedule: seq<(Actor, Oracle)>, first: L.World): iset<L.World> {
    iset w: L.World | BacksAfter(a, schedule, first, w)
  }

  lemma NextBacks(a: Setup, schedule: seq<(Actor, Oracle)>, first: L.World, before: L.World, after: L.World)
    requires LaunchOk(false, a) && schedule != [] && after in NextWorlds(a, schedule, before)
    requires before in Backing(a, schedule[..|schedule| - 1], first)
    ensures after in Backing(a, schedule, first)
  {
    LastBacks(a, schedule, before, after);
  }

  lemma FirstBacks(a: Setup, w: L.World)
    requires w.disk.launch == Some(a.launch) && w.disk.receipts == map[]
    ensures w in Backing(a, [], w)
  {
  }

  /** Over every run and every way its writes may end: what the controller counts
      is on disk, and the disk has no more unless a write reported an error. */
  lemma {:induction false} JointRunBacks(a: Setup, schedule: seq<(Actor, Oracle)>, ws: seq<L.World>)
    requires LaunchOk(false, a) && JointRun(a, schedule, ws)
    requires ws[0].disk.launch == Some(a.launch) && ws[0].disk.receipts == map[]
    ensures ws[|schedule|] in Backing(a, schedule, ws[0])
    decreases |schedule|
  {
    var n := |schedule|;
    if n == 0 {
      FirstBacks(a, ws[0]);
    } else {
      JointRunBacks(a, schedule[..n - 1], ws[..n]);
      assert ws[..n][0] == ws[0] && ws[..n][n - 1] == ws[n - 1];
      NextBacks(a, schedule, ws[0], ws[n - 1], ws[n]);
    }
  }

  lemma IncompleteRefused(d: L.Disk, v: Settlement)
    requires v.outcome == SettlementIncomplete
    ensures L.PutSettlement(d, v).1 != L.Written
  {
  }

  lemma SettlementTaken(d: L.Disk, l: Launch, counted: map<SessionId, Receipt>, v: Settlement)
    requires Holds(d, l, counted, false) && d.settlement.None?
    ensures L.PutSettlement(d, v).1 == L.Written <==> AcceptsSettlement(l, counted, v)
  {
    assert d.receipts == counted;
  }

  /** Over every finished run and every way its writes may end, receipts on disk
      that the controller takes for failed included: the store takes the
      settlement exactly if no write was taken for failed and an unsafe run shows
      an UNKNOWN receipt. */
  lemma StoreTakesIff(a: Setup, schedule: seq<(Actor, Oracle)>, ws: seq<L.World>)
    requires LaunchOk(false, a) && JointRun(a, schedule, ws) && Finished(RunOf(a, schedule))
    requires ws[0].disk.launch == Some(a.launch) && ws[0].disk.receipts == map[] && ws[0].disk.settlement.None?
    ensures var c := RunOf(a, schedule);
            L.PutSettlement(ws[|schedule|].disk, SettlementValue(c)).1 == L.Written <==>
              !c.storeFailed && (c.unsafe ==> HasUnknownReceipt(c))
  {
    var c := RunOf(a, schedule);
    JointRunBacks(a, schedule, ws);
    FinishedRunsSettle(a, schedule);
    assert BacksAfter(a, schedule, ws[0], ws[|schedule|]);
    if c.storeFailed {
      IncompleteRefused(ws[|schedule|].disk, SettlementValue(c));
    } else {
      SettlementTaken(ws[|schedule|].disk, c.launch, c.receipts, SettlementValue(c));
    }
  }

  ghost predicate Keeps(before: L.World, after: L.World) {
    forall s :: s in before.disk.receipts ==>
      s in after.disk.receipts && after.disk.receipts[s] == before.disk.receipts[s]
  }

  /** The worlds that have every receipt of `w`. */
  ghost function Keepers(w: L.World): iset<L.World> {
    iset v: L.World | Keeps(w, v)
  }

  lemma AnswerKeeps(c: State, d: State, before: L.World, after: L.World)
    requires StoreAnswers(c, d, before, after)
    ensures Keeps(before, after)
  {
    if |d.offers| > |c.offers| {
      ReceivePuts(before, d.offers[|c.offers|].receipt);
    }
  }

  lemma LastKeeps(a: Setup, schedule: seq<(Actor, Oracle)>, first: L.World, before: L.World, after: L.World)
    requires schedule != [] && after in NextWorlds(a, schedule, before) && before in Keepers(first)
    ensures after in Keepers(first)
  {
    AnswerKeeps(RunOf(a, schedule[..|schedule| - 1]), RunOf(a, schedule), before, after);
    assert Keeps(first, before);
  }

  lemma SameKeeps(w: L.World)
    ensures w in Keepers(w)
  {
  }

  lemma {:induction false} DiskKeeps(a: Setup, schedule: seq<(Actor, Oracle)>, ws: seq<L.World>, m: nat)
    requires JointRun(a, schedule, ws) && m <= |schedule|
    ensures ws[|schedule|] in Keepers(ws[m])
    decreases |schedule|
  {
    var n := |schedule|;
    if m == n {
      SameKeeps(ws[n]);
    } else {
      DiskKeeps(a, schedule[..n - 1], ws[..n], m);
      assert ws[..n][m] == ws[m] && ws[..n][n - 1] == ws[n - 1];
      LastKeeps(a, schedule, ws[m], ws[n - 1], ws[n]);
    }
  }

  /** A receipt that reached the disk at any moment of a run, counted or taken for
      failed, is on disk at its end: the only one ever counted for its session. */
  lemma LandedStands(a: Setup, schedule: seq<(Actor, Oracle)>, ws: seq<L.World>, m: nat, s: SessionId)
    requires LaunchOk(false, a) && JointRun(a, schedule, ws)
    requires ws[0].disk.launch == Some(a.launch) && ws[0].disk.receipts == map[]
    requires m <= |schedule| && s in ws[m].disk.receipts
    ensures s in ws[|schedule|].disk.receipts && ws[|schedule|].disk.receipts[s] == ws[m].disk.receipts[s]
    ensures s in RunOf(a, schedule).receipts ==> RunOf(a, schedule).receipts[s] == ws[m].disk.receipts[s]
  {
    DiskKeeps(a, schedule, ws, m);
    assert Keeps(ws[m], ws[|schedule|]);
    JointRunBacks(a, schedule, ws);
    assert BacksAfter(a, schedule, ws[0], ws[|schedule|]);
  }
}
