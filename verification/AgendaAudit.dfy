/** The worklist's own audit under the host's rules: exactly which admissions
    break it, over every run, and that only the host's override lets a claim do so. */
module AgendaAudit {
  import opened Contracts
  import opened Worklist
  import opened AgendaArm
  import opened AgendaTheorems

  /** The worklist's audit counts every lease that is neither closed nor
      expired, whoever holds it. */
  ghost predicate AuditOk(w: Snapshot) {
    forall i: nat, j: nat, t: Ref {:trigger Blocking(w, i, t), Blocking(w, j, t)} ::
      Blocking(w, i, t) && Blocking(w, j, t) ==> i == j
  }

  /** Claim `k` on `t` is open and its lease outlives the next admission. */
  ghost predicate Survives(w: Snapshot, k: nat, t: Ref) {
    && ClaimAt(w, k, t) && !Closed(w, k)
    && (w.entries[k].ref in w.ticks ==>
          w.now + 1 < w.ticks[w.entries[k].ref] + w.entries[k].content.value.body.lease)
  }

  ghost predicate Held(w: Snapshot, t: Ref) {
    exists k: nat :: Survives(w, k, t)
  }

  /** Some record already closes the claim that `r` is going to be. */
  ghost predicate Foretold(w: Snapshot, r: Ref, s: SessionId, t: Ref) {
    exists j: nat :: ForetellsAt(w, j, r, s, t)
  }

  ghost predicate ForetellsAt(w: Snapshot, j: nat, r: Ref, s: SessionId, t: Ref) {
    && j < |w.entries| && w.entries[j].content.Some? && w.entries[j].content.value.session == s
    && var b := w.entries[j].content.value.body;
       (b.Release? || b.Outcome?) && b.claim == r && b.task == t
  }

  /** A claim breaks the audit when it blocks, and a lease of its task survives it. */
  ghost predicate ClaimBreaks(w: Snapshot, r: Ref, c: Record) {
    && c.body.Claim? && c.body.lease > 0 && IsTask(w, c.body.task)
    && Held(w, c.body.task) && !Foretold(w, r, c.session, c.body.task)
  }

  /** An admission does when two leases already wait for the task it lists. */
  ghost predicate ListingBreaks(w: Snapshot, r: Ref, c: Record) {
    && c.body.Admission? && c.session in w.admitters
    && exists i: nat, j: nat :: i < j && Survives(w, i, r) && Survives(w, j, r)
  }

  ghost predicate Breaks(w: Snapshot, r: Ref, c: Option<Record>) {
    c.Some? && (ClaimBreaks(w, r, c.value) || ListingBreaks(w, r, c.value))
  }

  // ---------------------------------------------------------------- one admission

  lemma OldLeases(a: Arm, r: Ref, c: Option<Record>, k: nat, t: Ref)
    requires ClockOk(a) && r !in a.world.ticks && k < |a.world.entries|
    ensures Occupying(Append(a, r, c).world, k, t) ==> Survives(a.world, k, t) && Occupying(a.world, k, t)
    ensures c.None? || !(c.value.body.Release? || c.value.body.Outcome?) ==>
              (Survives(a.world, k, t) ==> Occupying(Append(a, r, c).world, k, t))
  {
    var w := Append(a, r, c).world;
    FreshRef(a, r);
    assert w.entries[k] == a.world.entries[k];
    if Occupying(w, k, t) {
      AppendShrinks(a, r, c, k, t);
    }
    if !Closed(a.world, k) && Closed(w, k) {
      var j :| 0 <= j < |w.entries| && Closes(w, j, k);
      assert j < |a.world.entries| ==> Closes(a.world, j, k);
    }
  }

  lemma TasksAfter(a: Arm, r: Ref, c: Option<Record>, t: Ref)
    ensures IsTask(Append(a, r, c).world, t) <==>
              IsTask(a.world, t) || (t == r && c.Some? && c.value.body.Admission? && c.value.session in a.world.admitters)
  {
    var w := Append(a, r, c).world;
    var n := |a.world.entries|;
    if IsTask(w, t) {
      var k :| 0 <= k < |w.entries| && TaskAt(w, k, t);
      assert k < n ==> TaskAt(a.world, k, t);
    }
    if IsTask(a.world, t) {
      var k :| 0 <= k < n && TaskAt(a.world, k, t);
      assert TaskAt(w, k, t);
    }
    if t == r && c.Some? && c.value.body.Admission? && c.value.session in a.world.admitters {
      assert TaskAt(w, n, t);
    }
  }

  /** The new entry blocks exactly as a claim with a lifetime, on a listed task,
      that nothing has closed in advance. */
  lemma NewLease(a: Arm, r: Ref, c: Option<Record>, t: Ref)
    requires ClockOk(a) && r !in a.world.ticks
    ensures Blocking(Append(a, r, c).world, |a.world.entries|, t) <==>
              && c.Some? && c.value.body.Claim? && c.value.body.task == t && c.value.body.lease > 0
              && IsTask(a.world, t) && !Foretold(a.world, r, c.value.session, t)
  {
    var w := Append(a, r, c).world;
    var n := |a.world.entries|;
    TasksAfter(a, r, c, t);
    if c.Some? && c.value.body.Claim? && c.value.body.task == t {
      if Foretold(a.world, r, c.value.session, t) {
        var j: nat :| ForetellsAt(a.world, j, r, c.value.session, t);
        assert Closes(w, j, n);
      }
      if Closed(w, n) {
        var j :| 0 <= j < |w.entries| && Closes(w, j, n);
        assert ForetellsAt(a.world, j, r, c.value.session, t);
      }
    }
  }

  /** Exactly when an admission keeps the audit, over the world before it. */
  lemma AppendAuditIff(a: Arm, r: Ref, c: Option<Record>)
    requires ClockOk(a) && r !in a.world.ticks && AuditOk(a.world)
    ensures AuditOk(Append(a, r, c).world) <==> !Breaks(a.world, r, c)
  {
    if Breaks(a.world, r, c) {
      BreakingFails(a, r, c);
    } else {
      var w := Append(a, r, c).world;
      forall i: nat, j: nat, t: Ref | Blocking(w, i, t) && Blocking(w, j, t) ensures i == j {
        if i < j {
          TwoBlockers(a, r, c, i, j, t);
        } else if j < i {
          TwoBlockers(a, r, c, j, i, t);
        }
      }
    }
  }

  lemma BreakingFails(a: Arm, r: Ref, c: Option<Record>)
    requires ClockOk(a) && r !in a.world.ticks && Breaks(a.world, r, c)
    ensures !AuditOk(Append(a, r, c).world)
  {
    var w := Append(a, r, c).world;
    if ClaimBreaks(a.world, r, c.value) {
      var t := c.value.body.task;
      var k: nat :| Survives(a.world, k, t);
      NewLease(a, r, c, t);
      OldLeases(a, r, c, k, t);
      TasksAfter(a, r, c, t);
      assert Blocking(w, k, t) && Blocking(w, |a.world.entries|, t);
    } else {
      var i: nat, j: nat :| i < j && Survives(a.world, i, r) && Survives(a.world, j, r);
      TasksAfter(a, r, c, r);
      OldLeases(a, r, c, i, r);
      OldLeases(a, r, c, j, r);
      assert Blocking(w, i, r) && Blocking(w, j, r);
    }
  }

  /** Two blockers after an admission were two before, or it breaks the audit. */
  lemma TwoBlockers(a: Arm, r: Ref, c: Option<Record>, i: nat, j: nat, t: Ref)
    requires ClockOk(a) && r !in a.world.ticks
    requires i < j && Blocking(Append(a, r, c).world, i, t) && Blocking(Append(a, r, c).world, j, t)
    ensures Breaks(a.world, r, c) || (Blocking(a.world, i, t) && Blocking(a.world, j, t))
  {
    OldLeases(a, r, c, i, t);
    TasksAfter(a, r, c, t);
    if j == |a.world.entries| {
      NewLease(a, r, c, t);
    } else {
      OldLeases(a, r, c, j, t);
    }
  }

  /** A claim granted by the worklist's own rule keeps its audit, and one that
      breaks it would have been refused by that rule. */
  lemma WorklistRuleKeepsAudit(a: Arm, r: Ref, s: SessionId, t: Ref, lease: nat)
    requires ClockOk(a) && r !in a.world.ticks && AuditOk(a.world)
    ensures var w := Append(a, r, Some(Record(s, Claim(t, lease)))).world;
            && (ValidateClaim(a.world, t) == Accepted ==> AuditOk(w))
            && (!AuditOk(w) ==> Blocked(a.world, t))
  {
    AppendAuditIff(a, r, Some(Record(s, Claim(t, lease))));
    if IsTask(a.world, t) && Held(a.world, t) {
      var k: nat :| Survives(a.world, k, t);
      assert Blocking(a.world, k, t);
    }
  }

  // ---------------------------------------------------------------- runs

  lemma SameAppend(a: Arm, b: Arm, r: Ref, c: Option<Record>)
    requires a.world == b.world
    ensures Append(a, r, c).world == Append(b, r, c).world
  {
  }

  /** What the publisher's answer admits, if it admits anything. */
  function Admitted(h: Host, r: Ref, same: bool): Option<Record>
    requires h.lock.Held?
  {
    if h.lock.candidate.Contribution? && same then Some(Record(h.lock.session, h.lock.candidate.body)) else None
  }

  ghost predicate Admits(h: Host, x: Action) {
    && x.PublisherReturns? && h.lock.Held? && x.result.Reference?
    && x.result.ref !in h.arm.world.ticks && h.arm.world.now < MAXIMUM_TICK
  }

  ghost predicate StepBreaks(h: Host, x: Action) {
    Admits(h, x) && Breaks(h.arm.world, x.result.ref, Admitted(h, x.result.ref, x.result.sameContent))
  }

  /** The world changes only by an admission. */
  lemma ActWorld(h: Host, x: Action)
    ensures !Admits(h, x) ==> Act(h, x).arm.world == h.arm.world
    ensures Admits(h, x) ==>
              Act(h, x).arm.world == Append(h.arm, x.result.ref, Admitted(h, x.result.ref, x.result.sameContent)).world
    ensures Act(h, x).arm.baseTick == h.arm.baseTick && Act(h, x).arm.sessions == h.arm.sessions
    ensures h.arm.settled <= Act(h, x).arm.settled
  {
    if Admits(h, x) {
      var c := Admitted(h, x.result.ref, x.result.sameContent);
      SameAppend(h.arm, CountMismatch(h.arm, c), x.result.ref, c);
    }
  }

  lemma ActAudit(h: Host, x: Action)
    requires ClockOk(h.arm)
    ensures ClockOk(Act(h, x).arm)
    ensures AuditOk(h.arm.world) ==> (AuditOk(Act(h, x).arm.world) <==> !StepBreaks(h, x))
  {
    ActWorld(h, x);
    if Admits(h, x) {
      var (r, c) := (x.result.ref, Admitted(h, x.result.ref, x.result.sameContent));
      FreshRef(h.arm, r);
      assert ClockOk(Append(h.arm, r, c));
      if AuditOk(h.arm.world) {
        AppendAuditIff(h.arm, r, c);
      }
    }
  }

  /** The audit holds before and after each of these actions. */
  ghost predicate AlwaysAudited(h: Host, xs: seq<Action>)
    decreases |xs|
  {
    AuditOk(Acts(h, xs).arm.world) && (xs != [] ==> AlwaysAudited(h, xs[..|xs| - 1]))
  }

  ghost predicate NeverBreaks(h: Host, xs: seq<Action>)
    decreases |xs|
  {
    xs != [] ==> NeverBreaks(h, xs[..|xs| - 1]) && !StepBreaks(Acts(h, xs[..|xs| - 1]), xs[|xs| - 1])
  }

  lemma {:induction false} RunsAudit(h: Host, xs: seq<Action>)
    requires ClockOk(h.arm)
    ensures ClockOk(Acts(h, xs).arm)
    ensures AlwaysAudited(h, xs) <==> AuditOk(h.arm.world) && NeverBreaks(h, xs)
    decreases |xs|
  {
    if xs != [] {
      RunsAudit(h, xs[..|xs| - 1]);
      ActAudit(Acts(h, xs[..|xs| - 1]), xs[|xs| - 1]);
    }
  }

  /** Over every run: the worklist's audit holds throughout exactly if it holds
      at the opening and no admission breaks it. */
  lemma AuditHoldsIff(c: Config, sessions: set<SessionId>, base: seq<Entry>, xs: seq<Action>)
    requires DistinctRefs(base)
    ensures AlwaysAudited(Opened(c, sessions, base), xs) <==>
              AuditOk(Open(c, sessions, base).world) && NeverBreaks(Opened(c, sessions, base), xs)
  {
    OpenClock(c, sessions, base);
    RunsAudit(Opened(c, sessions, base), xs);
  }

  // ---------------------------------------------------------------- only the override breaks it

  /** Every claim names an entry of the ledger. */
  ghost predicate ClaimsKnown(w: Snapshot) {
    forall k: nat :: IsClaim(w, k) ==> w.entries[k].content.value.body.task in Refs(w.entries)
  }

  /** A claim on its way out has been granted: its task is listed and vacant. */
  ghost predicate LockGranted(h: Host) {
    h.lock.Held? && h.lock.candidate.Contribution? && h.lock.candidate.body.Claim? ==>
      var t := h.lock.candidate.body.task;
      IsTask(h.arm.world, t) && Vacant(h.arm, t)
  }

  ghost predicate Watched(h: Host) {
    ClockOk(h.arm) && ClaimsKnown(h.arm.world) && LockGranted(h)
  }

  lemma VacantStays(a: Arm, b: Arm, t: Ref)
    requires Vacant(a, t) && b.world == a.world && b.sessions == a.sessions && a.settled <= b.settled
    ensures Vacant(b, t)
  {
    forall k: nat ensures !Occupies(b, k, t) {
      assert !Occupies(a, k, t);
    }
  }

  lemma ActGrants(h: Host, x: Action)
    requires LockGranted(h)
    ensures LockGranted(Act(h, x))
  {
    var g := Act(h, x);
    ActWorld(h, x);
    if g.lock.Held? && g.lock.candidate.Contribution? && g.lock.candidate.body.Claim? {
      var t := g.lock.candidate.body.task;
      if h.lock.Unlocked? {
        ClaimGrantedIff(h.arm, t);
      }
      VacantStays(h.arm, g.arm, t);
    }
  }

  lemma AdmissionKnown(a: Arm, r: Ref, c: Option<Record>)
    requires ClockOk(a) && ClaimsKnown(a.world)
    requires c.Some? && c.value.body.Claim? ==> IsTask(a.world, c.value.body.task)
    ensures ClaimsKnown(Append(a, r, c).world)
  {
    var w := Append(a, r, c).world;
    var n := |a.world.entries|;
    forall q | q in Refs(a.world.entries) ensures q in Refs(w.entries) {
      var k :| 0 <= k < n && a.world.entries[k].ref == q;
      assert w.entries[k].ref == q;
    }
    forall k: nat | IsClaim(w, k) ensures w.entries[k].content.value.body.task in Refs(w.entries) {
      if k < n {
        assert IsClaim(a.world, k);
      } else {
        var t := c.value.body.task;
        var i :| 0 <= i < n && TaskAt(a.world, i, t);
        assert a.world.entries[i].ref in Refs(a.world.entries);
      }
    }
  }

  lemma ActWatched(h: Host, x: Action)
    requires Watched(h)
    ensures Watched(Act(h, x))
  {
    ActWorld(h, x);
    ActAudit(h, x);
    ActGrants(h, x);
    if Admits(h, x) {
      AdmissionKnown(h.arm, x.result.ref, Admitted(h, x.result.ref, x.result.sameContent));
    }
  }

  lemma {:induction false} RunsWatched(h: Host, xs: seq<Action>)
    requires Watched(h)
    ensures Watched(Acts(h, xs))
    decreases |xs|
  {
    if xs != [] {
      RunsWatched(h, xs[..|xs| - 1]);
      ActWatched(Acts(h, xs[..|xs| - 1]), xs[|xs| - 1]);
    }
  }

  /** A claim that lands on a surviving lease of a session that can no longer
      act, which the worklist's own rule would have refused. */
  ghost predicate OverrideBreaks(h: Host, x: Action) {
    && Admits(h, x) && x.result.sameContent && h.lock.candidate.Contribution? && h.lock.candidate.body.Claim?
    && var (t, r, w) := (h.lock.candidate.body.task, x.result.ref, h.arm.world);
       && h.lock.candidate.body.lease > 0 && !Foretold(w, r, h.lock.session, t)
       && ValidateClaim(w, t) != Accepted
       && exists k: nat :: Survives(w, k, t) && CannotAct(h.arm, Holder(w, k))
  }

  /** In a world whose claims name its own entries, nothing but such a claim
      breaks the audit. */
  lemma OnlyOverrideBreaks(h: Host, x: Action)
    requires Watched(h)
    ensures StepBreaks(h, x) <==> OverrideBreaks(h, x)
  {
    if Admits(h, x) {
      var w := h.arm.world;
      var (r, c) := (x.result.ref, Admitted(h, x.result.ref, x.result.sameContent));
      assert forall k: nat :: !Survives(w, k, r) by {
        FreshRef(h.arm, r);
        forall k: nat ensures !Survives(w, k, r) {
          assert IsClaim(w, k) ==> w.entries[k].content.value.body.task in Refs(w.entries);
        }
      }
      if c.Some? && c.value.body.Claim? {
        HeldIsOverridden(h, c.value.body.task);
      }
    }
  }

  lemma HeldIsOverridden(h: Host, t: Ref)
    requires Watched(h) && IsTask(h.arm.world, t) && Vacant(h.arm, t)
    ensures Held(h.arm.world, t) <==> exists k: nat :: Survives(h.arm.world, k, t) && CannotAct(h.arm, Holder(h.arm.world, k))
    ensures Held(h.arm.world, t) ==> ValidateClaim(h.arm.world, t) != Accepted
  {
    var w := h.arm.world;
    if Held(w, t) {
      var k: nat :| Survives(w, k, t);
      assert Occupying(w, k, t);
      assert !Occupies(h.arm, k, t);
      assert Blocking(w, k, t);
    }
  }

  ghost predicate NeverOverridden(h: Host, xs: seq<Action>)
    decreases |xs|
  {
    xs != [] ==> NeverOverridden(h, xs[..|xs| - 1]) && !OverrideBreaks(Acts(h, xs[..|xs| - 1]), xs[|xs| - 1])
  }

  lemma {:induction false} BreaksAreOverrides(h: Host, xs: seq<Action>)
    requires Watched(h)
    ensures NeverBreaks(h, xs) <==> NeverOverridden(h, xs)
    decreases |xs|
  {
    if xs != [] {
      BreaksAreOverrides(h, xs[..|xs| - 1]);
      RunsWatched(h, xs[..|xs| - 1]);
      OnlyOverrideBreaks(Acts(h, xs[..|xs| - 1]), xs[|xs| - 1]);
    }
  }

  /** Over every run on a world whose claims name its own entries: the audit
      holds throughout exactly if it holds at the opening and the host never
      publishes a claim its release rule let through over a surviving lease. */
  lemma AuditFailsOnlyByOverride(c: Config, sessions: set<SessionId>, base: seq<Entry>, xs: seq<Action>)
    requires DistinctRefs(base) && ClaimsKnown(Open(c, sessions, base).world)
    ensures AlwaysAudited(Opened(c, sessions, base), xs) <==>
              AuditOk(Open(c, sessions, base).world) && NeverOverridden(Opened(c, sessions, base), xs)
  {
    AuditHoldsIff(c, sessions, base, xs);
    OpenClock(c, sessions, base);
    BreaksAreOverrides(Opened(c, sessions, base), xs);
  }
}
