/** Whatever launchers, crashes and writers do in whatever order: one launch at
    most, complete when visible, and receipts and settlement for good. */
module LaunchTheorems {
  import opened Contracts
  import opened ReceiptRules
  import opened LaunchStore

  ghost predicate Started(w: World, i: nat) {
    i < |w.launchers| && w.launchers[i].pc > 0
  }

  /** The one launcher that made the runtime root owns everything there is. */
  ghost predicate Owned(w: World) {
    && (forall i: nat, j: nat {:trigger Started(w, i), Started(w, j)} :: Started(w, i) && Started(w, j) ==> i == j)
    && (forall i: nat :: Started(w, i) ==> LayoutBy(w.disk, w.launchers[i]))
    && ((forall i: nat :: !Started(w, i)) ==> w.disk == EMPTY)
  }

  ghost predicate LayoutBy(d: Disk, x: Launcher) {
    x.pc <= |Program(x.launch)| && LayoutOf(d, x.launch, x.pc)
  }

  ghost predicate DocumentsOk(d: Disk) {
    && (d.receipts != map[] || d.settlement.Some? ==> d.launch.Some?)
    && (forall s :: s in d.receipts ==> d.launch.Some? && ReceiptOk(d, s))
    && (d.settlement.Some? ==> ReadsBack(d, d.settlement.value))
  }

  ghost predicate ReceiptOk(d: Disk, s: SessionId)
    requires s in d.receipts && d.launch.Some?
  {
    d.receipts[s].session == s && AcceptsReceipt(d.launch.value, d.receipts[s])
  }

  ghost predicate WorldOk(w: World) {
    && Owned(w) && DocumentsOk(w.disk)
    && forall i :: 0 <= i < |w.launchers| ==> w.launchers[i].pc <= |Program(w.launchers[i].launch)|
  }

  // ---------------------------------------------------------------- launchers

  lemma ProgramStarts(l: Launch)
    ensures |Program(l)| >= 3 && Program(l)[0] == MakeDir(RuntimeRoot)
    ensures MakeDir(RuntimeRoot) !in Program(l)[1..]
  {
    var p := Program(l);
    forall k | 1 <= k < |p| ensures p[k] != MakeDir(RuntimeRoot) {
      if 2 <= k < |p| - 1 {
        assert p[k] == AllSessionOps(l.sessions)[k - 2];
        SessionOpsIn(l.sessions, MakeDir(RuntimeRoot));
      }
    }
  }

  /** A launcher past its first step has made the runtime root. */
  lemma StartedMadeRoot(d: Disk, x: Launcher)
    requires LayoutBy(d, x) && x.pc > 0
    ensures RuntimeRoot in d.dirs
  {
    ProgramStarts(x.launch);
    assert Program(x.launch)[..x.pc][0] == MakeDir(RuntimeRoot);
  }

  lemma ApplyExtends(d: Disk, l: Launch, pc: nat)
    requires pc < |Program(l)| && LayoutOf(d, l, pc) && Applies(d, Program(l)[pc])
    ensures LayoutOf(Apply(d, Program(l)[pc], l), l, pc + 1)
  {
    assert Program(l)[..pc + 1] == Program(l)[..pc] + [Program(l)[pc]];
  }

  lemma ApplyKeepsDocuments(d: Disk, op: Op, l: Launch)
    requires DocumentsOk(d) && Applies(d, op)
    ensures DocumentsOk(Apply(d, op, l))
    ensures Apply(d, op, l).receipts == d.receipts && Apply(d, op, l).settlement == d.settlement
    ensures d.launch.Some? ==> Apply(d, op, l).launch == d.launch
  {
    forall s | s in d.receipts ensures ReceiptOk(Apply(d, op, l), s) {
      assert ReceiptOk(d, s);
    }
  }

  lemma EmptyLayout(l: Launch)
    ensures LayoutOf(EMPTY, l, 0)
  {
  }

  lemma OnlyOwnerMoves(w: World, i: nat)
    requires WorldOk(w) && i < |w.launchers| && w.launchers[i].pc < |Program(w.launchers[i].launch)|
    requires Applies(w.disk, Program(w.launchers[i].launch)[w.launchers[i].pc])
    ensures LayoutBy(w.disk, w.launchers[i])
    ensures forall j: nat :: Started(w, j) ==> j == i
  {
    var x := w.launchers[i];
    ProgramStarts(x.launch);
    if x.pc == 0 {
      forall j: nat ensures !Started(w, j) {
        if Started(w, j) {
          StartedMadeRoot(w.disk, w.launchers[j]);
        }
      }
      EmptyLayout(x.launch);
    } else {
      assert Started(w, i);
    }
  }

  lemma AdvanceKeepsOwned(w: World, i: nat)
    requires WorldOk(w) && i < |w.launchers| && w.launchers[i].pc < |Program(w.launchers[i].launch)|
    requires w.launchers[i].live && Applies(w.disk, Program(w.launchers[i].launch)[w.launchers[i].pc])
    ensures Owned(AdvanceOne(w, i))
  {
    var v := AdvanceOne(w, i);
    OnlyOwnerMoves(w, i);
    ApplyExtends(w.disk, w.launchers[i].launch, w.launchers[i].pc);
    assert Started(v, i);
    forall j: nat | Started(v, j) ensures j == i {
      assert j != i ==> Started(w, j);
    }
  }

  /** Launchers that only appear or die change nothing. */
  lemma SameProgress(w: World, v: World)
    requires Owned(w) && v.disk == w.disk && |w.launchers| <= |v.launchers|
    requires forall i :: 0 <= i < |w.launchers| ==>
               v.launchers[i].launch == w.launchers[i].launch && v.launchers[i].pc == w.launchers[i].pc
    requires forall i :: |w.launchers| <= i < |v.launchers| ==> v.launchers[i].pc == 0
    ensures Owned(v)
  {
    assert forall i: nat :: Started(v, i) <==> Started(w, i);
    forall i: nat | Started(v, i) ensures LayoutBy(v.disk, v.launchers[i]) {
      assert LayoutBy(w.disk, w.launchers[i]);
    }
  }

  // ---------------------------------------------------------------- documents

  lemma NoLaunchNoDocuments(w: World)
    requires WorldOk(w)
    ensures w.disk.launch.Some? ==> exists i: nat :: Started(w, i)
  {
  }

  /** A document written beside the layout. */
  lemma BesideLayout(w: World, d: Disk)
    requires WorldOk(w) && DocumentsOk(d)
    requires w.disk.launch.Some? && d.dirs == w.disk.dirs && d.launch == w.disk.launch
    requires d.states.Keys == w.disk.states.Keys
    ensures WorldOk(w.(disk := d))
  {
    var v := w.(disk := d);
    assert forall i: nat :: Started(v, i) <==> Started(w, i);
    forall i: nat | Started(v, i) ensures LayoutBy(d, v.launchers[i]) {
      assert LayoutBy(w.disk, w.launchers[i]);
      assert forall s :: s in d.states <==> s in w.disk.states;
    }
  }

  lemma ReceiveKeeps(w: World, s: SessionId, r: Receipt)
    requires WorldOk(w)
    ensures WorldOk(Act(w, Receive(s, r)))
  {
    var d := PutReceipt(w.disk, s, r).0;
    if d != w.disk {
      forall q | q in d.receipts ensures ReceiptOk(d, q) {
        assert q in w.disk.receipts ==> ReceiptOk(w.disk, q);
      }
      if d.settlement.Some? {
        SettlementStays(w.disk, d, d.settlement.value);
      }
      BesideLayout(w, d);
    }
  }

  /** An accepted settlement depends only on receipts that are already there. */
  lemma SettlementStays(d: Disk, e: Disk, v: Settlement)
    requires ReadsBack(d, v) && e.settlement == Some(v) && e.launch == d.launch
    requires forall s :: s in d.receipts ==> s in e.receipts && e.receipts[s] == d.receipts[s]
    ensures ReadsBack(e, v)
  {
    forall i | 0 <= i < |v.rows| ensures RowMatches(v.rows[i], d.launch.value.sessions[i], e.receipts) {
      assert RowMatches(v.rows[i], d.launch.value.sessions[i], d.receipts);
    }
  }

  lemma SettleKeeps(w: World, v: Settlement)
    requires WorldOk(w)
    ensures WorldOk(Act(w, Settle(v)))
  {
    var d := PutSettlement(w.disk, v).0;
    if d != w.disk {
      forall q | q in d.receipts ensures ReceiptOk(d, q) {
        assert ReceiptOk(w.disk, q);
      }
      BesideLayout(w, d);
    }
  }

  lemma RootsHaveStates(l: Launch, s: SessionId)
    requires MakeDir(SessionRoot(s)) in Program(l)
    ensures LinkState(s) in Program(l)
  {
    assert MakeDir(SessionRoot(s)) in AllSessionOps(l.sessions);
    SessionOpsIn(l.sessions, MakeDir(SessionRoot(s)));
    var k :| 0 <= k < |l.sessions| && MakeDir(SessionRoot(s)) in SessionOps(l.sessions[k]);
    assert SessionOps(l.sessions[k])[6] == LinkState(s);
    SessionOpsIn(l.sessions, LinkState(s));
  }

  lemma WritableHasState(w: World, s: SessionId)
    requires WorldOk(w) && w.disk.launch.Some? && SessionRoot(s) in w.disk.dirs
    ensures s in w.disk.states
  {
    NoLaunchNoDocuments(w);
    var i: nat :| Started(w, i);
    var x := w.launchers[i];
    assert LayoutBy(w.disk, x);
    LaunchComesLast(x.launch, x.pc);
    assert Program(x.launch)[..|Program(x.launch)|] == Program(x.launch);
    RootsHaveStates(x.launch, s);
  }

  lemma MarkKeeps(w: World, s: SessionId, text: string)
    requires WorldOk(w)
    ensures WorldOk(Act(w, Mark(s, text)))
  {
    var d := PutState(w.disk, s, text);
    if Writable(w.disk, s) && w.disk.launch.Some? {
      WritableHasState(w, s);
      forall q | q in d.receipts ensures ReceiptOk(d, q) {
        assert ReceiptOk(w.disk, q);
      }
      assert d.states.Keys == w.disk.states.Keys;
      BesideLayout(w, d);
    }
  }

  lemma AdvanceKeeps(w: World, i: nat)
    requires WorldOk(w) && i < |w.launchers|
    ensures WorldOk(AdvanceOne(w, i))
  {
    var x := w.launchers[i];
    if x.live && x.pc < |Program(x.launch)| {
      if Applies(w.disk, Program(x.launch)[x.pc]) {
        AdvanceKeepsOwned(w, i);
        ApplyKeepsDocuments(w.disk, Program(x.launch)[x.pc], x.launch);
      } else {
        SameProgress(w, AdvanceOne(w, i));
      }
    }
  }

  lemma ActKeeps(w: World, a: Action)
    requires WorldOk(w)
    ensures WorldOk(Act(w, a))
  {
    match a {
      case Begin(l) =>
        if Launchable(l) {
          SameProgress(w, Act(w, a));
        }
      case Advance(i) =>
        if i < |w.launchers| {
          AdvanceKeeps(w, i);
        }
      case Crash(i) =>
        if i < |w.launchers| {
          SameProgress(w, Act(w, a));
        }
      case Receive(s, r) => ReceiveKeeps(w, s, r);
      case Settle(v) => SettleKeeps(w, v);
      case Mark(s, text) => MarkKeeps(w, s, text);
    }
  }

  lemma {:induction false} ActsKeep(w: World, xs: seq<Action>)
    requires WorldOk(w)
    ensures WorldOk(Acts(w, xs))
    decreases |xs|
  {
    if xs != [] {
      ActsKeep(w, xs[..|xs| - 1]);
      ActKeeps(Acts(w, xs[..|xs| - 1]), xs[|xs| - 1]);
    }
  }

  // ---------------------------------------------------------------- main results

  const START := World(EMPTY, [])

  lemma StartIsOk()
    ensures WorldOk(START)
  {
  }

  lemma VisibleIsComplete(w: World)
    requires WorldOk(w) && w.disk.launch.Some?
    ensures Complete(w.disk, w.disk.launch.value)
    ensures exists i: nat :: Started(w, i) && w.launchers[i].launch == w.disk.launch.value
                             && w.launchers[i].pc == |Program(w.launchers[i].launch)|
  {
    NoLaunchNoDocuments(w);
    var i: nat :| Started(w, i);
    var x := w.launchers[i];
    assert LayoutBy(w.disk, x);
    LaunchComesLast(x.launch, x.pc);
    WholeLayout(w.disk, x.launch);
  }

  /** At every point of every run, crashes included: if a launch document is
      visible then everything its sessions need is there, and it is the launch
      of the one launcher that ran its whole program. */
  lemma VisibleLaunchIsComplete(xs: seq<Action>)
    ensures var w := Acts(START, xs);
            w.disk.launch.Some? ==>
              && Complete(w.disk, w.disk.launch.value)
              && exists i: nat :: Started(w, i) && w.launchers[i].launch == w.disk.launch.value
                                  && w.launchers[i].pc == |Program(w.launchers[i].launch)|
  {
    StartIsOk();
    ActsKeep(START, xs);
    if Acts(START, xs).disk.launch.Some? {
      VisibleIsComplete(Acts(START, xs));
    }
  }

  ghost predicate Preserves(d: Disk, e: Disk) {
    && (d.launch.Some? ==> e.launch == d.launch)
    && (forall s :: s in d.receipts ==> s in e.receipts && e.receipts[s] == d.receipts[s])
    && (d.settlement.Some? ==> e.settlement == d.settlement)
  }

  lemma ActPreserves(w: World, a: Action)
    requires WorldOk(w)
    ensures Preserves(w.disk, Act(w, a).disk)
  {
    if a.Advance? && a.who < |w.launchers| {
      var x := w.launchers[a.who];
      if x.live && x.pc < |Program(x.launch)| && Applies(w.disk, Program(x.launch)[x.pc]) {
        ApplyKeepsDocuments(w.disk, Program(x.launch)[x.pc], x.launch);
      }
    }
  }

  /** A launch, a receipt or a settlement never changes once it is visible: at
      most one launch is ever published, whoever tries. */
  lemma {:induction false} DocumentsAreFinal(w: World, xs: seq<Action>)
    requires WorldOk(w)
    ensures Preserves(w.disk, Acts(w, xs).disk)
    decreases |xs|
  {
    if xs != [] {
      var n := |xs| - 1;
      DocumentsAreFinal(w, xs[..n]);
      ActsKeep(w, xs[..n]);
      ActPreserves(Acts(w, xs[..n]), xs[n]);
    }
  }

  /** A settlement that was accepted once reads back, valid, for ever after; and
      every receipt that reads back is one the store accepts. */
  lemma SettlementStaysValid(before: seq<Action>, v: Settlement, after: seq<Action>)
    ensures var w := Acts(START, before);
            PutSettlement(w.disk, v).1 == Written ==> ReadsBack(Acts(Act(w, Settle(v)), after).disk, v)
    ensures forall s :: s in Acts(START, before).disk.receipts ==>
              Acts(START, before).disk.launch.Some? && ReceiptOk(Acts(START, before).disk, s)
  {
    StartIsOk();
    ActsKeep(START, before);
    var w := Acts(START, before);
    ActKeeps(w, Settle(v));
    ActsKeep(Act(w, Settle(v)), after);
    DocumentsAreFinal(Act(w, Settle(v)), after);
  }

  /** A launcher that finds a runtime root, complete or not, never gets anywhere. */
  lemma LateLauncherStops(w: World, i: nat)
    requires WorldOk(w) && RuntimeRoot in w.disk.dirs && i < |w.launchers| && w.launchers[i].pc == 0
    ensures Act(w, Advance(i)).disk == w.disk && Act(w, Advance(i)).launchers[i].pc == 0
  {
    ProgramStarts(w.launchers[i].launch);
  }
}
