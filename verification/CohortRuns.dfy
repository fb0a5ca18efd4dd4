/** The invariant over every interleaving of workers, monitors, settlement and
    caller, and what follows for whole runs. */
module CohortRuns {
  import opened Contracts
  import opened ResourceGuard
  import opened ReceiptRules
  import opened Cohort
  import opened CohortInvariant
  import opened CohortSteps

  // ---------------------------------------------------------------- a busy slot

  /** Phases before there is a handle to use. */
  predicate BeforeHandle(phase: Phase) {
    || phase.Preparing? || phase.ActivatingWorkspace? || phase.ActivatingCache? || phase.Launching?
    || phase.Starting? || phase.JoiningStart? || phase.StoppingStart?
  }

  lemma StartStepLands(calm: bool, c: State, i: nat, s: SessionId, x: Oracle)
    requires Ready(calm, c, i, s) && BeforeHandle(c.slots[i].phase)
    ensures Lands(calm, c, PhaseStep(c, i, s, c.slots[i].phase, x), i, s)
  {
    match c.slots[i].phase {
      case Preparing => PrepareLands(calm, c, i, s, x);
      case ActivatingWorkspace => ActivateLands(calm, c, i, s, Workspace, x);
      case ActivatingCache => ActivateLands(calm, c, i, s, Cache, x);
      case Launching => LaunchLands(calm, c, i, s, x);
      case Starting => AwaitStartLands(calm, c, i, s, x);
      case JoiningStart(e) => JoinStartLands(calm, c, i, s, e, x);
      case StoppingStart(e) => StopRefusedStartLands(calm, c, i, s, e, x);
    }
  }

  lemma PhaseStepLands(calm: bool, c: State, i: nat, s: SessionId, x: Oracle)
    requires Ready(calm, c, i, s)
    requires calm ==> CalmAt(c, c.slots[i].phase, x)
    ensures Lands(calm, c, PhaseStep(c, i, s, c.slots[i].phase, x), i, s)
  {
    if BeforeHandle(c.slots[i].phase) {
      StartStepLands(calm, c, i, s, x);
      return;
    }
    match c.slots[i].phase {
      case Started => BeginRunningLands(calm, c, i, s, x);
      case EarlyStopping(seen) => StopEarlyLands(calm, c, i, s, seen, x);
      case Running => ArbitrateLands(calm, c, i, s, x);
      case StoppingAfterWaitError(e) => StopAfterWaitErrorLands(calm, c, i, s, e, x);
      case Confirming(r) => ConfirmLands(calm, c, i, s, r, x);
      case Halting(seen, wall) => HaltLands(calm, c, i, s, seen, wall, x);
      case Publishing(o, p, k, done) => PublishOneLands(calm, c, i, s, o, p, k, done, x);
      case HostStopping(e) => StopAfterHostFailureLands(calm, c, i, s, e, x);
      case Finishing(stage, after) => FinishStepLands(calm, c, i, s, stage, after, x);
    }
  }

  // ---------------------------------------------------------------- the other sessions

  /** What one slot relies on survives any step of another. */
  lemma PhaseStable(strong: bool, weak: bool, l: Launch, g: Guard, h: Guard, o: Own, s: SessionId, phase: Phase)
    requires PhaseOk(strong, l, g, o, s, phase) && Grows(g, h)
    requires weak ==> strong
    requires s in h.activated ==> s in g.activated
    requires s in h.finished ==> s in g.finished
    ensures PhaseOk(weak, l, h, o, s, phase)
  {
    assert SessionGrows(g, h, s);
  }

  lemma OtherSlotsKept(calm: bool, c: State, d: State, i: nat, s: SessionId)
    requires Inv(calm, c) && BusyWith(c, s, i) && Lands(calm, c, d, i, s)
    ensures forall j: nat :: j < |d.slots| && j != i ==> SlotOk(calm, d, d.slots[j])
  {
    forall j: nat | j < |d.slots| && j != i ensures SlotOk(calm, d, d.slots[j]) {
      OtherSlotKept(calm, c, d, i, s, j);
    }
  }

  lemma OtherSlotKept(calm: bool, c: State, d: State, i: nat, s: SessionId, j: nat)
    requires Inv(calm, c) && BusyWith(c, s, i) && Lands(calm, c, d, i, s)
    requires j < |d.slots| && j != i
    ensures SlotOk(calm, d, d.slots[j])
  {
    assert SlotOk(calm, c, c.slots[j]);
    if c.slots[j].Busy? {
      var t := c.slots[j].session;
      assert BusyWith(c, t, j);
      PhaseStable(Clean(calm, c), Clean(calm, d), c.launch, c.guard, d.guard, OwnOf(c, t), t, c.slots[j].phase);
    }
  }

  lemma IdleKept(calm: bool, c: State, d: State, i: nat, s: SessionId, t: SessionId)
    requires Inv(calm, c) && BusyWith(c, s, i) && Lands(calm, c, d, i, s)
    ensures IdleOk(calm, d, t)
  {
    if t == s {
      if d.slots[i].Busy? {
        assert BusyWith(d, s, i);
      }
    } else {
      assert IdleOk(calm, c, t);
      if Idle(d, t) {
        forall j: nat ensures !BusyWith(c, t, j) {
          assert !BusyWith(d, t, j);
        }
      }
    }
  }

  lemma ExclusiveKept(calm: bool, c: State, d: State, i: nat, s: SessionId)
    requires Inv(calm, c) && BusyWith(c, s, i) && Lands(calm, c, d, i, s)
    ensures Exclusive(d)
  {
    forall j: nat, k: nat, t: SessionId | BusyWith(d, t, j) && BusyWith(d, t, k) ensures j == k {
      assert BusyWith(c, t, j) && BusyWith(c, t, k);
    }
  }

  lemma SettlerShapeKept(calm: bool, c: State, d: State, i: nat, s: SessionId)
    requires Inv(calm, c) && BusyWith(c, s, i) && Lands(calm, c, d, i, s) && i == |c.slots| - 1
    ensures WorkersDone(d)
  {
    assert WorkersDone(c);
  }

  lemma WorkerShapeKept(calm: bool, c: State, d: State, i: nat, s: SessionId)
    requires Inv(calm, c) && BusyWith(c, s, i) && Lands(calm, c, d, i, s) && i < |c.slots| - 1
    ensures TouchedOnlyDispensed(d) && d.slots[|d.slots| - 1] == Looking
  {
    assert !WorkersDone(c) by { assert !c.slots[i].Returned? && !c.slots[i].Raised?; }
    assert Dispensed(c, s);
    forall t | Dispensed(c, t) ensures Dispensed(d, t) {
    }
    forall j: nat, t: SessionId | BusyWith(d, t, j) ensures Dispensed(d, t) {
      assert BusyWith(c, t, j);
    }
  }

  lemma ShapeKept(calm: bool, c: State, d: State, i: nat, s: SessionId)
    requires Inv(calm, c) && BusyWith(c, s, i) && Lands(calm, c, d, i, s)
    ensures ShapeOk(d)
  {
    if i == |c.slots| - 1 {
      SettlerShapeKept(calm, c, d, i, s);
    } else {
      WorkerShapeKept(calm, c, d, i, s);
    }
  }

  lemma DoomKept(calm: bool, c: State, d: State, i: nat, s: SessionId)
    requires Inv(calm, c) && BusyWith(c, s, i) && Lands(calm, c, d, i, s)
    requires Clean(calm, d) && d.unsafe
    ensures Doomed(d)
  {
    assert SlotOk(calm, c, c.slots[i]);
    if !c.unsafe || UnknownDraft(c.slots[i]) || GlobalUncertain(c.guard) {
      assert DoomedHere(d, i, s);
    } else if HasUnknownReceipt(c) {
      var t :| t in c.receipts && c.receipts[t].status == Unknown;
      assert t in d.receipts && d.receipts[t].status == Unknown;
    } else {
      var j: nat :| j < |c.slots| && UnknownDraft(c.slots[j]);
      assert UnknownDraft(d.slots[j]);
    }
  }

  lemma OffersKept(calm: bool, c: State, d: State, i: nat, s: SessionId)
    requires Inv(calm, c) && BusyWith(c, s, i) && Lands(calm, c, d, i, s)
    ensures OffersOk(calm, d)
  {
    if d.slots[i].Looking? {
      assert d.offers == c.offers + [d.offers[|c.offers|]];
    }
  }

  lemma LandsKeepsInv(calm: bool, c: State, d: State, i: nat, s: SessionId)
    requires Inv(calm, c) && BusyWith(c, s, i) && Lands(calm, c, d, i, s)
    ensures Inv(calm, d)
  {
    assert SlotOk(calm, c, c.slots[i]);
    OtherSlotsKept(calm, c, d, i, s);
    assert SlotOk(calm, d, d.slots[i]);
    ExclusiveKept(calm, c, d, i, s);
    ShapeKept(calm, c, d, i, s);
    forall t ensures IdleOk(calm, d, t) {
      IdleKept(calm, c, d, i, s, t);
    }
    if Clean(calm, d) && d.unsafe {
      DoomKept(calm, c, d, i, s);
    }
    OffersKept(calm, c, d, i, s);
  }

  lemma BusyStepKeepsInv(calm: bool, c: State, i: nat, x: Oracle)
    requires Inv(calm, c) && i < |c.slots| && c.slots[i].Busy?
    requires calm ==> CalmAt(c, c.slots[i].phase, x)
    ensures Inv(calm, SlotStep(c, i, x))
  {
    var s := c.slots[i].session;
    assert SlotOk(calm, c, c.slots[i]);
    PhaseStepLands(calm, c, i, s, x);
    LandsKeepsInv(calm, c, SlotStep(c, i, x), i, s);
  }

  // ---------------------------------------------------------------- taking sessions

  lemma PlanIndex(l: Launch, k: nat)
    requires PlanOk(l) && k < |l.sessions|
    ensures l.sessions[k] !in l.sessions[..k]
  {
  }

  lemma TakenSlots(calm: bool, c: State, i: nat)
    requires Inv(calm, c) && i < |c.slots| - 1 && c.slots[i].Looking?
    requires !c.stopNew && c.cursor < |c.launch.sessions|
    ensures var s := c.launch.sessions[c.cursor];
            && !Dispensed(c, s) && Idle(c, s) && s !in c.receipts
            && OwnOf(c, s) == FRESH && s !in c.guard.activated && s !in c.guard.finished
    ensures !WorkersDone(c)
  {
    PlanIndex(c.launch, c.cursor);
    assert !c.slots[i].Returned? && !c.slots[i].Raised?;
  }

  lemma WorkerTakes(calm: bool, c: State, i: nat)
    requires Inv(calm, c) && i < |c.slots| - 1 && c.slots[i].Looking?
    requires !c.stopNew && c.cursor < |c.launch.sessions|
    ensures Inv(calm, WorkerNext(c, i))
  {
    var s := c.launch.sessions[c.cursor];
    var d := WorkerNext(c, i);
    TakenSlots(calm, c, i);
    forall j: nat | j < |d.slots| ensures SlotOk(calm, d, d.slots[j]) {
      assert SlotOk(calm, c, c.slots[j]);
    }
    forall j: nat, k: nat, t: SessionId | BusyWith(d, t, j) && BusyWith(d, t, k) ensures j == k {
      assert j != i ==> BusyWith(c, t, j);
      assert k != i ==> BusyWith(c, t, k);
    }
    TakenShape(calm, c, i);
    TakenIdle(calm, c, i);
    TakenDoom(calm, c, i);
  }

  lemma TakenShape(calm: bool, c: State, i: nat)
    requires Inv(calm, c) && i < |c.slots| - 1 && c.slots[i].Looking?
    requires !c.stopNew && c.cursor < |c.launch.sessions|
    ensures ShapeOk(WorkerNext(c, i))
  {
    var s := c.launch.sessions[c.cursor];
    var d := WorkerNext(c, i);
    TakenSlots(calm, c, i);
    assert d.launch.sessions[..d.cursor] == c.launch.sessions[..c.cursor] + [s];
    forall j: nat, t: SessionId | BusyWith(d, t, j) ensures Dispensed(d, t) {
      assert j != i ==> BusyWith(c, t, j);
    }
    assert forall t :: Dispensed(c, t) ==> Dispensed(d, t);
  }

  lemma TakenIdle(calm: bool, c: State, i: nat)
    requires Inv(calm, c) && i < |c.slots| - 1 && c.slots[i].Looking?
    requires !c.stopNew && c.cursor < |c.launch.sessions|
    ensures forall t :: IdleOk(calm, WorkerNext(c, i), t)
  {
    var d := WorkerNext(c, i);
    forall t ensures IdleOk(calm, d, t) {
      assert IdleOk(calm, c, t);
      if Idle(d, t) {
        forall j: nat ensures !BusyWith(c, t, j) {
          assert !BusyWith(d, t, j);
        }
      }
    }
  }

  /** Slots that only start or stop looking leave the doom where it was. */
  lemma TakenDoom(calm: bool, c: State, i: nat)
    requires Inv(calm, c) && i < |c.slots| - 1 && c.slots[i].Looking?
    ensures Clean(calm, c) && c.unsafe ==> Doomed(WorkerNext(c, i))
  {
    var d := WorkerNext(c, i);
    if Clean(calm, c) && c.unsafe && !HasUnknownReceipt(c) && exists j: nat :: j < |c.slots| && UnknownDraft(c.slots[j]) {
      var j: nat :| j < |c.slots| && UnknownDraft(c.slots[j]);
      assert UnknownDraft(d.slots[j]);
    }
  }

  lemma WorkerLeaves(calm: bool, c: State, i: nat)
    requires Inv(calm, c) && i < |c.slots| - 1 && c.slots[i].Looking?
    requires c.stopNew || c.cursor >= |c.launch.sessions|
    ensures Inv(calm, WorkerNext(c, i))
  {
    var d := WorkerNext(c, i);
    SlotRetires(calm, c, d, i);
    TakenDoom(calm, c, i);
    assert !WorkersDone(c) by { assert !c.slots[i].Returned? && !c.slots[i].Raised?; }
    forall j: nat, t: SessionId | BusyWith(d, t, j) ensures Dispensed(d, t) {
      assert BusyWith(c, t, j);
    }
  }

  /** A slot goes from looking to returned and nothing else changes. */
  lemma SlotRetires(calm: bool, c: State, d: State, i: nat)
    requires Inv(calm, c) && i < |c.slots| && c.slots[i].Looking?
    requires d == Put(c, i, Returned)
    ensures Exclusive(d)
    ensures forall j: nat :: j < |d.slots| ==> SlotOk(calm, d, d.slots[j])
    ensures forall t :: IdleOk(calm, d, t)
  {
    forall j: nat | j < |d.slots| ensures SlotOk(calm, d, d.slots[j]) {
      assert SlotOk(calm, c, c.slots[j]);
    }
    forall j: nat, t: SessionId ensures BusyWith(d, t, j) <==> BusyWith(c, t, j) {
    }
    forall t ensures IdleOk(calm, d, t) {
      assert IdleOk(calm, c, t);
      if Idle(d, t) {
        forall j: nat ensures !BusyWith(c, t, j) {
          assert !BusyWith(d, t, j);
        }
      }
    }
  }

  // ---------------------------------------------------------------- the settlement pass

  lemma SettlerAlone(c: State)
    requires ShapeOk(c) && WorkersDone(c) && c.slots[|c.slots| - 1].Looking?
    ensures forall s, j: nat :: !BusyWith(c, s, j)
    ensures forall s :: Idle(c, s)
  {
    forall s, j: nat ensures !BusyWith(c, s, j) {
    }
    forall s ensures Idle(c, s) {
      assert forall j: nat :: !BusyWith(c, s, j);
    }
  }

  lemma NothingDoomedSlot(c: State)
    requires ShapeOk(c) && WorkersDone(c) && c.slots[|c.slots| - 1].Looking?
    ensures !exists j: nat :: j < |c.slots| && UnknownDraft(c.slots[j])
  {
  }

  /** Worker errors mark the run unsafe; a clean run has none. */
  lemma SettleFlagsKeepInv(calm: bool, c: State)
    requires Inv(calm, c) && WorkersDone(c)
    ensures Inv(calm, SettleFlags(c))
  {
    var d := SettleFlags(c);
    if WorkerRaised(c) {
      var j :| 0 <= j < |c.slots| - 1 && c.slots[j].Raised?;
      assert SlotOk(calm, c, c.slots[j]);
    }
    forall j: nat | j < |d.slots| ensures SlotOk(calm, d, d.slots[j]) {
      assert SlotOk(calm, c, c.slots[j]);
    }
    forall j: nat, t: SessionId ensures BusyWith(d, t, j) <==> BusyWith(c, t, j) {
    }
    forall t ensures IdleOk(calm, d, t) {
      assert IdleOk(calm, c, t);
      if Idle(d, t) {
        forall j: nat ensures !BusyWith(c, t, j) { assert !BusyWith(d, t, j); }
      }
    }
  }

  lemma SettlerLeaves(calm: bool, c: State, i: nat)
    requires Inv(calm, c) && WorkersDone(c) && i == |c.slots| - 1 && c.slots[i].Looking?
    ensures Inv(calm, Put(c, i, Returned))
  {
    var d := Put(c, i, Returned);
    SlotRetires(calm, c, d, i);
    assert WorkersDone(d);
    NothingDoomedSlot(c);
  }

  lemma SettlerSkips(calm: bool, c: State)
    requires Inv(calm, c) && WorkersDone(c) && c.slots[|c.slots| - 1].Looking?
    requires c.settleCursor < |c.launch.sessions|
    ensures Inv(calm, c.(settleCursor := c.settleCursor + 1))
  {
    var d := c.(settleCursor := c.settleCursor + 1);
    forall j: nat | j < |d.slots| ensures SlotOk(calm, d, d.slots[j]) {
      assert SlotOk(calm, c, c.slots[j]);
    }
    SettlerAlone(c);
    SettlerAlone(d);
    forall t ensures IdleOk(calm, d, t) {
      assert IdleOk(calm, c, t);
    }
    NothingDoomedSlot(c);
  }

  lemma SettlerTakes(calm: bool, c: State, i: nat, s: SessionId)
    requires Inv(calm, c) && WorkersDone(c) && i == |c.slots| - 1 && c.slots[i].Looking?
    requires s in c.launch.sessions && s !in c.receipts
    ensures Inv(calm, BeginPersist(c, i, s, NotStartedDraft()))
  {
    var d := BeginPersist(c, i, s, NotStartedDraft());
    SettlerAlone(c);
    NothingDoomedSlot(c);
    assert IdleOk(calm, c, s);
    assert WorkersDone(d);
    assert BusyWith(d, s, i);
    forall j: nat | j < |d.slots| ensures SlotOk(calm, d, d.slots[j]) {
      assert SlotOk(calm, c, c.slots[j]);
    }
    forall j: nat, t: SessionId | BusyWith(d, t, j) ensures j == i {
      assert !BusyWith(c, t, j);
    }
    forall t ensures IdleOk(calm, d, t) {
      assert IdleOk(calm, c, t);
    }
  }

  lemma SettleOneKeepsInv(calm: bool, c: State, i: nat)
    requires Inv(calm, c) && WorkersDone(c) && i == |c.slots| - 1 && c.slots[i].Looking?
    ensures Inv(calm, SettleOne(c, i))
  {
    if c.settleCursor >= |c.launch.sessions| {
      SettlerLeaves(calm, c, i);
    } else {
      SettlerSkips(calm, c);
      var s := c.launch.sessions[c.settleCursor];
      if s !in c.receipts {
        SettlerTakes(calm, c.(settleCursor := c.settleCursor + 1), i, s);
      }
    }
  }

  lemma SettleNextKeepsInv(calm: bool, c: State, i: nat)
    requires Inv(calm, c) && i == |c.slots| - 1 && c.slots[i].Looking?
    ensures Inv(calm, SettleNext(c, i))
  {
    if WorkersDone(c) {
      SettleFlagsKeepInv(calm, c);
      SettleOneKeepsInv(calm, SettleFlags(c), i);
    }
  }

  // ---------------------------------------------------------------- monitors and caller

  lemma MonitorKeepsInv(calm: bool, c: State, g: Guard)
    requires Inv(calm, c) && GuardOk(g) && Grows(c.guard, g)
    requires g.activated == c.guard.activated && g.finished == c.guard.finished
    ensures Inv(calm, c.(guard := g))
  {
    var d := c.(guard := g);
    forall j: nat | j < |d.slots| ensures SlotOk(calm, d, d.slots[j]) {
      assert SlotOk(calm, c, c.slots[j]);
      if c.slots[j].Busy? {
        var t := c.slots[j].session;
        PhaseStable(Clean(calm, c), Clean(calm, d), c.launch, c.guard, g, OwnOf(c, t), t, c.slots[j].phase);
      }
    }
    SameSlots(calm, c, d);
    if Clean(calm, d) && d.unsafe && !HasUnknownReceipt(c) && !GlobalUncertain(c.guard) {
      var j: nat :| j < |c.slots| && UnknownDraft(c.slots[j]);
      assert UnknownDraft(d.slots[j]);
    }
  }

  /** Nothing about slots, records or receipts changed. */
  lemma SameSlots(calm: bool, c: State, d: State)
    requires Inv(calm, c) && d == c.(guard := d.guard, stopNew := d.stopNew)
    requires d.guard.activated == c.guard.activated && d.guard.finished == c.guard.finished
    requires d.guard.sessions == c.guard.sessions
    ensures ShapeOk(d) && Exclusive(d) && OffersOk(calm, d)
    ensures forall t :: IdleOk(calm, d, t)
  {
    forall j: nat, t: SessionId ensures BusyWith(d, t, j) <==> BusyWith(c, t, j) {
    }
    forall t ensures IdleOk(calm, d, t) {
      assert IdleOk(calm, c, t);
      if Idle(d, t) {
        forall j: nat ensures !BusyWith(c, t, j) { assert !BusyWith(d, t, j); }
      }
    }
    assert forall t :: Dispensed(d, t) <==> Dispensed(c, t);
  }

  lemma CallerKeepsInv(calm: bool, c: State)
    requires Inv(calm, c)
    ensures Inv(calm, c.(stopNew := true))
  {
    var d := c.(stopNew := true);
    SameSlots(calm, c, d);
    forall j: nat | j < |d.slots| ensures SlotOk(calm, d, d.slots[j]) {
      assert SlotOk(calm, c, c.slots[j]);
    }
    if Clean(calm, d) && d.unsafe && !HasUnknownReceipt(c) && exists j: nat :: j < |c.slots| && UnknownDraft(c.slots[j]) {
      var j: nat :| j < |c.slots| && UnknownDraft(c.slots[j]);
      assert UnknownDraft(d.slots[j]);
    }
  }

  // ---------------------------------------------------------------- steps and runs

  /** No receipt fails to be built in this step: the arm gives its evidence and
      the outcome on record, if there is one, is an outcome. */
  predicate Calm(c: State, a: Actor, x: Oracle) {
    a.SlotActor? && a.slot < |c.slots| && c.slots[a.slot].Busy? ==> CalmAt(c, c.slots[a.slot].phase, x)
  }

  predicate CalmRun(c: State, schedule: seq<(Actor, Oracle)>)
    decreases |schedule|
  {
    schedule != [] ==>
      var n := |schedule| - 1;
      CalmRun(c, schedule[..n]) && Calm(Run(c, schedule[..n]), schedule[n].0, schedule[n].1)
  }

  lemma SlotStepKeepsInv(calm: bool, c: State, i: nat, x: Oracle)
    requires Inv(calm, c) && i < |c.slots|
    requires calm ==> Calm(c, SlotActor(i), x)
    ensures Inv(calm, SlotStep(c, i, x))
  {
    match c.slots[i] {
      case Busy(_, _) => BusyStepKeepsInv(calm, c, i, x);
      case Looking =>
        if i == |c.slots| - 1 {
          SettleNextKeepsInv(calm, c, i);
        } else if c.stopNew || c.cursor >= |c.launch.sessions| {
          WorkerLeaves(calm, c, i);
        } else {
          WorkerTakes(calm, c, i);
        }
      case Returned =>
      case Raised =>
    }
  }

  lemma StepKeepsInv(calm: bool, c: State, a: Actor, x: Oracle)
    requires Inv(calm, c)
    requires calm ==> Calm(c, a, x)
    ensures Inv(calm, Step(c, a, x))
  {
    match a {
      case SlotActor(i) => if i < |c.slots| { SlotStepKeepsInv(calm, c, i, x); }
      case LiveDisk =>
        CheckDiskKeepsGuard(c.guard, Live, x.disk);
        MonitorKeepsInv(calm, c, CheckDisk(c.guard, Live, x.disk).0);
      case LiveTree(s, t) =>
        if s in c.guard.activated && s !in c.guard.finished && s in c.launch.sessions {
          CheckTreeKeepsGuard(c.guard, s, t, Live, x.tree);
          MonitorKeepsInv(calm, c, CheckTree(c.guard, s, t, Live, x.tree).0);
        }
      case Caller => CallerKeepsInv(calm, c);
    }
  }

  /** Nothing has happened yet but the first disk check. */
  ghost predicate Opening(c: State) {
    && PlanOk(c.launch) && c.guard.sessions == c.launch.sessions && GuardOk(c.guard)
    && |c.slots| >= 2 && (forall j: nat :: j < |c.slots| ==> c.slots[j] == Looking)
    && c.cursor == 0 && c.settleCursor == 0 && !c.storeFailed
    && c.own == map[] && c.receipts == map[] && c.offers == []
    && c.guard.activated == {} && c.guard.finished == {}
    && (c.unsafe ==> GlobalUncertain(c.guard))
  }

  lemma BeginIsOpening(l: Launch, p: Profile, workers: nat, disk: DiskReading)
    requires PlanOk(l) && workers >= 1
    ensures Opening(Begin(l, p, workers, disk)) && Begin(l, p, workers, disk).launch == l
  {
    CreateIsOk(p, l.sessions);
    CheckDiskKeepsGuard(Create(p, l.sessions), Initial, disk);
  }

  lemma OpeningIsInv(calm: bool, c: State)
    requires Opening(c) && EnabledLaunch(calm, c.launch)
    ensures Inv(calm, c)
  {
    assert c.slots[0].Looking?;
    assert forall j: nat :: j < |c.slots| ==> SlotOk(calm, c, c.slots[j]);
    if c.unsafe {
      assert c.launch.sessions[0] in c.launch.sessions;
    }
  }

  lemma BeginIsInv(calm: bool, l: Launch, p: Profile, workers: nat, disk: DiskReading)
    requires PlanOk(l) && workers >= 1 && EnabledLaunch(calm, l)
    ensures Inv(calm, Begin(l, p, workers, disk))
  {
    BeginIsOpening(l, p, workers, disk);
    OpeningIsInv(calm, Begin(l, p, workers, disk));
  }

  lemma {:induction false} RunKeepsInv(calm: bool, c: State, schedule: seq<(Actor, Oracle)>)
    requires Inv(calm, c)
    requires calm ==> CalmRun(c, schedule)
    ensures Inv(calm, Run(c, schedule))
    decreases |schedule|
  {
    if schedule != [] {
      var n := |schedule| - 1;
      RunKeepsInv(calm, c, schedule[..n]);
      StepKeepsInv(calm, Run(c, schedule[..n]), schedule[n].0, schedule[n].1);
    }
  }
}
