/** The store as an object.  Each method moves the disk by the operations of
    LaunchStore, so its theorems hold between any two of them. */
module RuntimeStore {
  import opened Contracts
  import opened ReceiptRules
  import L = LaunchStore

  class Store {
    var dirs: set<L.Dir>
    var launch: Option<Launch>
    var states: map<SessionId, L.StateDoc>
    var receipts: map<SessionId, Receipt>
    var settlement: Option<Settlement>

    ghost function View(): L.Disk
      reads this
    {
      L.Disk(dirs, launch, states, receipts, settlement)
    }

    constructor ()
      ensures View() == L.EMPTY
    {
      dirs, launch, states, receipts, settlement := {}, None, map[], map[], None;
    }

    /** One mkdir: the parent must exist and the name must be free. */
    method MakeDir(d: L.Dir) returns (ok: bool)
      modifies this`dirs
      ensures ok == L.Applies(old(View()), L.MakeDir(d))
      ensures dirs == if ok then old(dirs) + {d} else old(dirs)
    {
      ok := d !in dirs && L.ParentExists(L.Disk(dirs, launch, states, receipts, settlement), d);
      if ok {
        dirs := dirs + {d};
      }
    }

    /** Only a disk without a runtime root takes the launch; then nothing in the
        way can stop it, and the whole layout is there before the document. */
    method CreateLaunch(l: Launch) returns (ok: bool)
      requires L.RuntimeRoot !in dirs ==> View() == L.EMPTY
      modifies this
      ensures ok <==> L.Launchable(l) && L.RuntimeRoot !in old(dirs)
      ensures ok ==> launch == Some(l) && dirs == LayoutDirs(l.sessions)
                     && states == PlannedStates(l.sessions, l)
                     && receipts == map[] && settlement == None
      ensures ok ==> View() == L.Perform(old(View()), L.Program(l), l)
      ensures !ok ==> View() == old(View())
    {
      if !L.Launchable(l) {
        return false;
      }
      ok := MakeDir(L.RuntimeRoot);
      if !ok {
        return;
      }
      ok := MakeDir(L.SessionsRoot);
      LayOut(l);
      launch := Some(l);
      CreatedIsPerformed(View(), l);
    }

    /** Every session's directories and PLANNED state, in plan order. */
    method LayOut(l: Launch)
      requires L.Launchable(l) && dirs == {L.RuntimeRoot, L.SessionsRoot} && states == map[]
      modifies this`dirs, this`states
      ensures dirs == LayoutDirs(l.sessions) && states == PlannedStates(l.sessions, l)
    {
      for k := 0 to |l.sessions|
        invariant dirs == LayoutDirs(l.sessions[..k]) && states == PlannedStates(l.sessions[..k], l)
      {
        var s := l.sessions[k];
        assert l.sessions[..k + 1] == l.sessions[..k] + [s];
        assert s !in l.sessions[..k];
        forall n ensures L.SubDir(s, n) !in dirs && L.SessionRoot(s) !in dirs && L.SessionsRoot in dirs {
          LayoutHolds(l.sessions[..k], s, n);
        }
        LayoutHolds(l.sessions[..k], s, L.Private);
        var _ := CreateSession(s);
        LayoutGrows(l.sessions[..k], s);
        states := states[s := L.StateDoc(l, "PLANNED")];
      }
      assert l.sessions[..|l.sessions|] == l.sessions;
    }

    /** Makes one session's root and its five directories. */
    method CreateSession(s: SessionId) returns (ok: bool)
      requires L.SessionsRoot in dirs && L.SessionRoot(s) !in dirs
      requires forall n :: L.SubDir(s, n) !in dirs
      modifies this`dirs
      ensures ok && dirs == old(dirs) + SessionDirs(s)
    {
      ok := MakeDir(L.SessionRoot(s));
      var names := [L.Private, L.Input, L.Workspace, L.Cache, L.Evidence];
      for k := 0 to 5
        invariant ok && dirs == old(dirs) + {L.SessionRoot(s)} + set n | n in names[..k] :: L.SubDir(s, n)
      {
        assert names[..k + 1] == names[..k] + [names[k]];
        assert names[k] !in names[..k];
        ok := MakeDir(L.SubDir(s, names[k]));
      }
      assert names[..5] == names;
    }

    method WriteReceipt(s: SessionId, r: Receipt) returns (result: L.WriteResult)
      modifies this`receipts
      ensures View() == L.PutReceipt(old(View()), s, r).0
      ensures result == L.PutReceipt(old(View()), s, r).1
      ensures forall t :: t in old(receipts) ==> t in receipts && receipts[t] == old(receipts)[t]
      ensures receipts.Keys <= old(receipts).Keys + {s}
      ensures result.Written? ==> s in receipts && receipts[s] == r && launch.Some? && AcceptsReceipt(launch.value, r)
      ensures result.Conflict? ==> s in old(receipts) && old(receipts)[s] != r
    {
      var d := L.Disk(dirs, launch, states, receipts, settlement);
      if !L.Writable(d, s) || launch.None? || r.session != s || !AcceptsReceipt(launch.value, r) {
        return L.Refused;
      }
      if s in receipts {
        return if receipts[s] == r then L.Written else L.Conflict;
      }
      receipts := receipts[s := r];
      result := L.Written;
    }

    /** Re-reads every receipt, row by row, and recomputes counts and outcome. */
    method ValidateSettlement(v: Settlement) returns (ok: bool)
      ensures ok <==> launch.Some? && AcceptsSettlement(launch.value, receipts, v)
    {
      if launch.None? || |v.rows| != |launch.value.sessions| {
        return false;
      }
      var statuses: seq<Status> := [];
      for i := 0 to |v.rows|
        invariant statuses == Statuses(v.rows[..i])
        invariant forall j :: 0 <= j < i ==> RowMatches(v.rows[j], launch.value.sessions[j], receipts)
      {
        var s := launch.value.sessions[i];
        var row := v.rows[i];
        if row.session != s || s !in receipts || row.digest != receipts[s] || row.status != receipts[s].status {
          return false;
        }
        statuses := statuses + [receipts[s].status];
        assert Statuses(v.rows[..i + 1]) == Statuses(v.rows[..i]) + [v.rows[i].status];
      }
      assert v.rows[..|v.rows|] == v.rows;
      var outcome := AllSucceeded;
      if Unknown in statuses {
        outcome := Unsafe;
      } else if Cancelled in statuses {
        outcome := CohortWasCancelled;
      } else if Failed in statuses {
        outcome := CompletedWithFailures;
      }
      ok := v.counts == Counts(statuses) && v.outcome == outcome;
    }

    method WriteSettlement(v: Settlement) returns (result: L.WriteResult)
      modifies this`settlement
      ensures View() == L.PutSettlement(old(View()), v).0
      ensures result == L.PutSettlement(old(View()), v).1
      ensures old(settlement).Some? ==> settlement == old(settlement)
      ensures result.Written? <==> L.ReadsBack(View(), v)
      ensures result.Conflict? ==> old(settlement).Some? && old(settlement) != Some(v)
    {
      var ok := ValidateSettlement(v);
      if !ok {
        return L.Refused;
      }
      if settlement.Some? {
        return if settlement == Some(v) then L.Written else L.Conflict;
      }
      settlement := Some(v);
      result := L.Written;
    }
  }

  function SessionDirs(s: SessionId): set<L.Dir> {
    {L.SessionRoot(s), L.SubDir(s, L.Private), L.SubDir(s, L.Input), L.SubDir(s, L.Workspace),
     L.SubDir(s, L.Cache), L.SubDir(s, L.Evidence)}
  }

  function LayoutDirs(ss: seq<SessionId>): set<L.Dir> {
    if ss == [] then {L.RuntimeRoot, L.SessionsRoot}
    else LayoutDirs(ss[..|ss| - 1]) + SessionDirs(ss[|ss| - 1])
  }

  function PlannedStates(ss: seq<SessionId>, l: Launch): map<SessionId, L.StateDoc> {
    map s | s in ss :: L.StateDoc(l, "PLANNED")
  }

  lemma LayoutGrows(ss: seq<SessionId>, s: SessionId)
    ensures LayoutDirs(ss + [s]) == LayoutDirs(ss) + SessionDirs(s)
  {
    assert (ss + [s])[..|ss|] == ss;
  }

  lemma {:induction false} LayoutHolds(ss: seq<SessionId>, s: SessionId, n: L.SubName)
    ensures L.SessionRoot(s) in LayoutDirs(ss) <==> s in ss
    ensures L.SubDir(s, n) in LayoutDirs(ss) <==> s in ss
    ensures L.RuntimeRoot in LayoutDirs(ss) && L.SessionsRoot in LayoutDirs(ss)
    decreases |ss|
  {
    if ss != [] {
      LayoutHolds(ss[..|ss| - 1], s, n);
      assert ss == ss[..|ss| - 1] + [ss[|ss| - 1]];
    }
  }

  // ---------------------------------------------------------------- the launcher's program

  function Laid(ss: seq<SessionId>, l: Launch): L.Disk {
    L.Disk(LayoutDirs(ss), None, PlannedStates(ss, l), map[], None)
  }

  lemma {:induction false} PerformAppend(d: L.Disk, xs: seq<L.Op>, ys: seq<L.Op>, l: Launch)
    ensures L.Perform(d, xs + ys, l) == L.Perform(L.Perform(d, xs, l), ys, l)
    ensures L.Smooth(d, xs + ys, l) <==> L.Smooth(d, xs, l) && L.Smooth(L.Perform(d, xs, l), ys, l)
    decreases |ys|
  {
    if ys == [] {
      assert xs + ys == xs;
    } else {
      var n := |ys| - 1;
      assert (xs + ys)[..|xs| + n] == xs + ys[..n];
      PerformAppend(d, xs, ys[..n], l);
    }
  }

  lemma PerformOne(d: L.Disk, xs: seq<L.Op>, op: L.Op, l: Launch)
    ensures L.Perform(d, xs + [op], l) == L.Apply(L.Perform(d, xs, l), op, l)
    ensures L.Smooth(d, xs + [op], l) <==> L.Smooth(d, xs, l) && L.Applies(L.Perform(d, xs, l), op)
  {
    assert (xs + [op])[..|xs|] == xs;
  }

  /** A session's seven operations. */
  lemma SessionPerforms(d: L.Disk, s: SessionId, l: Launch)
    requires L.SessionsRoot in d.dirs && L.SessionRoot(s) !in d.dirs && s !in d.states
    requires forall n :: L.SubDir(s, n) !in d.dirs
    ensures L.Smooth(d, L.SessionOps(s), l)
    ensures L.Perform(d, L.SessionOps(s), l)
            == d.(dirs := d.dirs + SessionDirs(s), states := d.states[s := L.StateDoc(l, "PLANNED")])
  {
    var o := L.SessionOps(s);
    assert o[..1] == [] + [o[0]] && o[..2] == o[..1] + [o[1]] && o[..3] == o[..2] + [o[2]] && o[..4] == o[..3] + [o[3]];
    assert o[..5] == o[..4] + [o[4]] && o[..6] == o[..5] + [o[5]] && o == o[..6] + [o[6]];
    PerformOne(d, [], o[0], l);
    PerformOne(d, o[..1], o[1], l);
    PerformOne(d, o[..2], o[2], l);
    PerformOne(d, o[..3], o[3], l);
    PerformOne(d, o[..4], o[4], l);
    PerformOne(d, o[..5], o[5], l);
    PerformOne(d, o[..6], o[6], l);
  }

  lemma NextSession(ss: seq<SessionId>, s: SessionId, l: Launch)
    requires s !in ss
    ensures L.Smooth(Laid(ss, l), L.SessionOps(s), l) && L.Perform(Laid(ss, l), L.SessionOps(s), l) == Laid(ss + [s], l)
  {
    forall m ensures L.SubDir(s, m) !in LayoutDirs(ss) {
      LayoutHolds(ss, s, m);
    }
    LayoutHolds(ss, s, L.Private);
    SessionPerforms(Laid(ss, l), s, l);
    LayoutGrows(ss, s);
    assert PlannedStates(ss + [s], l) == PlannedStates(ss, l)[s := L.StateDoc(l, "PLANNED")];
  }

  lemma {:induction false} SessionsPerform(ss: seq<SessionId>, l: Launch)
    requires forall i, j :: 0 <= i < j < |ss| ==> ss[i] != ss[j]
    ensures L.Smooth(Laid([], l), L.AllSessionOps(ss), l) && L.Perform(Laid([], l), L.AllSessionOps(ss), l) == Laid(ss, l)
    decreases |ss|
  {
    if ss != [] {
      var n := |ss| - 1;
      assert ss == ss[..n] + [ss[n]];
      SessionsPerform(ss[..n], l);
      NextSession(ss[..n], ss[n], l);
      PerformAppend(Laid([], l), L.AllSessionOps(ss[..n]), L.SessionOps(ss[n]), l);
    }
  }

  /** On an empty disk the whole program meets no obstacle and leaves the full
      layout under its launch document. */
  lemma ProgramPerforms(l: Launch)
    requires L.Launchable(l)
    ensures L.Smooth(L.EMPTY, L.Program(l), l)
    ensures L.Perform(L.EMPTY, L.Program(l), l) == Laid(l.sessions, l).(launch := Some(l))
  {
    var roots := [L.MakeDir(L.RuntimeRoot), L.MakeDir(L.SessionsRoot)];
    var made := roots + L.AllSessionOps(l.sessions);
    assert roots == [] + [roots[0]] + [roots[1]];
    PerformOne(L.EMPTY, [], roots[0], l);
    PerformOne(L.EMPTY, [roots[0]], roots[1], l);
    assert L.Perform(L.EMPTY, roots, l) == Laid([], l);
    SessionsPerform(l.sessions, l);
    PerformAppend(L.EMPTY, roots, L.AllSessionOps(l.sessions), l);
    LayoutHolds(l.sessions, 0, L.Private);
    PerformOne(L.EMPTY, made, L.LinkLaunch, l);
  }

  lemma CreatedIsPerformed(d: L.Disk, l: Launch)
    requires L.Launchable(l) && d == Laid(l.sessions, l).(launch := Some(l))
    ensures d == L.Perform(L.EMPTY, L.Program(l), l)
  {
    ProgramPerforms(l);
  }

  lemma {:induction false} SmoothAt(d: L.Disk, ops: seq<L.Op>, n: nat, l: Launch)
    requires L.Smooth(d, ops, l) && n < |ops|
    ensures L.Applies(L.Perform(d, ops[..n], l), ops[n])
    decreases |ops|
  {
    var m := |ops| - 1;
    if n < m {
      SmoothAt(d, ops[..m], n, l);
      assert ops[..m][..n] == ops[..n];
    }
  }

  function Advances(i: nat, n: nat): seq<L.Action> {
    if n == 0 then [] else Advances(i, n - 1) + [L.Advance(i)]
  }

  lemma AdvanceApplies(w: L.World, i: nat, l: Launch, n: nat)
    requires i < |w.launchers| && w.launchers[i] == L.Launcher(l, n, true) && n < |L.Program(l)|
    requires L.Applies(w.disk, L.Program(l)[n])
    ensures L.Act(w, L.Advance(i)) == L.World(L.Apply(w.disk, L.Program(l)[n], l), w.launchers[i := L.Launcher(l, n + 1, true)])
  {
  }

  lemma NextPerforms(l: Launch, n: nat)
    requires L.Launchable(l) && n < |L.Program(l)|
    ensures L.Applies(L.Perform(L.EMPTY, L.Program(l)[..n], l), L.Program(l)[n])
    ensures L.Perform(L.EMPTY, L.Program(l)[..n + 1], l)
            == L.Apply(L.Perform(L.EMPTY, L.Program(l)[..n], l), L.Program(l)[n], l)
  {
    ProgramPerforms(l);
    SmoothAt(L.EMPTY, L.Program(l), n, l);
    assert L.Program(l)[..n + 1] == L.Program(l)[..n] + [L.Program(l)[n]];
    PerformOne(L.EMPTY, L.Program(l)[..n], L.Program(l)[n], l);
  }

  lemma AdvancesNext(w: L.World, i: nat, n: nat)
    ensures L.Acts(w, Advances(i, n + 1)) == L.Act(L.Acts(w, Advances(i, n)), L.Advance(i))
  {
    var xs := Advances(i, n + 1);
    assert xs[..|xs| - 1] == Advances(i, n);
  }

  ghost predicate Performed(w: L.World, i: nat, l: Launch, n: nat)
    requires n <= |L.Program(l)|
  {
    && w.disk == L.Perform(L.EMPTY, L.Program(l)[..n], l)
    && i < |w.launchers| && w.launchers[i] == L.Launcher(l, n, true)
  }

  /** A launcher that works alone on an empty disk performs its program step by
      step; CreateLaunch leaves what it leaves at the end. */
  lemma {:induction false} AloneCompletes(w: L.World, i: nat, l: Launch, n: nat)
    requires w.disk == L.EMPTY && i < |w.launchers| && w.launchers[i] == L.Launcher(l, 0, true)
    requires L.Launchable(l) && n <= |L.Program(l)|
    ensures Performed(L.Acts(w, Advances(i, n)), i, l, n)
    decreases n
  {
    if n > 0 {
      AloneCompletes(w, i, l, n - 1);
      AdvancesNext(w, i, n - 1);
      NextPerforms(l, n - 1);
      AdvanceApplies(L.Acts(w, Advances(i, n - 1)), i, l, n - 1);
    }
  }
}
