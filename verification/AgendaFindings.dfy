/** Two things the arm does not keep, each with a run that shows it, and one
    it does: completed tasks stay closed to claims. */
module AgendaFindings {
  import opened Contracts
  import opened Worklist
  import opened AgendaArm
  import opened AgendaTheorems
  import opened AgendaEvidence
  import opened AgendaAudit

  // ---------------------------------------------------------------- completion is final

  lemma AppendKeepsTask(a: Arm, r: Ref, c: Option<Record>, t: Ref)
    requires IsTask(a.world, t)
    ensures IsTask(Append(a, r, c).world, t)
  {
    var k :| 0 <= k < |a.world.entries| && TaskAt(a.world, k, t);
    assert TaskAt(Append(a, r, c).world, k, t);
  }

  lemma AppendKeepsCompleted(a: Arm, r: Ref, c: Option<Record>, t: Ref)
    requires Completed(a.world, t)
    ensures Completed(Append(a, r, c).world, t)
  {
    var w := Append(a, r, c).world;
    AppendKeepsTask(a, r, c, t);
    var j :| 0 <= j < |a.world.entries| && CompletesAt(a.world, j, t);
    var k :| 0 <= k < |a.world.entries| && Closes(a.world, j, k);
    assert Closes(w, j, k);
    assert CompletesAt(w, j, t);
  }

  lemma ActKeepsCompleted(h: Host, x: Action, t: Ref)
    requires Completed(h.arm.world, t)
    ensures Completed(Act(h, x).arm.world, t)
  {
    if x.PublisherReturns? && h.lock.Held? && x.result.Reference? {
      var c := h.lock.candidate;
      var content := if c.Contribution? && x.result.sameContent then Some(Record(h.lock.session, c.body)) else None;
      AppendKeepsCompleted(CountMismatch(h.arm, content), x.result.ref, content, t);
    }
  }

  lemma {:induction false} CompletionIsFinal(h: Host, xs: seq<Action>, t: Ref)
    requires Completed(h.arm.world, t)
    ensures Completed(Acts(h, xs).arm.world, t)
    ensures ClaimVerdict(Acts(h, xs).arm, t) == TaskAlreadyCompleted
    decreases |xs|
  {
    if xs != [] {
      CompletionIsFinal(h, xs[..|xs| - 1], t);
      ActKeepsCompleted(Acts(h, xs[..|xs| - 1]), xs[|xs| - 1], t);
    }
  }

  // ---------------------------------------------------------------- example runs

  const TASK := Record(9, Admission(None, [], DeclaredStatement))
  const BASE := [Entry(0, Some(TASK)), Entry(1, Some(TASK))]
  const CONFIG := Config(ArmD, None, false)

  function ClaimOn(t: Ref): Candidate { Contribution(Claim(t, 5), false) }

  function ClaimEntry(r: Ref, s: SessionId, t: Ref): Entry { Entry(r, Some(Record(s, Claim(t, 5)))) }

  /** A world of the two tasks and some claims. */
  ghost predicate OnlyClaims(w: Snapshot) {
    && |w.entries| >= 2 && w.entries[..2] == BASE && 9 in w.admitters
    && forall k :: 2 <= k < |w.entries| ==> IsClaim(w, k)
  }

  lemma NothingClosed(w: Snapshot, k: nat)
    requires OnlyClaims(w)
    ensures !Closed(w, k)
  {
    forall j | 0 <= j < |w.entries| ensures !Closes(w, j, k) {
      assert j < 2 ==> w.entries[j] == BASE[j];
      assert j >= 2 ==> IsClaim(w, j);
    }
  }

  lemma TasksOf(w: Snapshot, t: Ref)
    requires OnlyClaims(w) && t < 2
    ensures IsTask(w, t) && !Completed(w, t) && DependenciesFrom(w, t, 0) == []
  {
    assert w.entries[0] == BASE[0] && w.entries[1] == BASE[1];
    assert TaskAt(w, t, t);
    assert t == 1 ==> DependenciesFrom(w, t, 0) == DependenciesFrom(w, t, 1);
    forall j | 0 <= j < |w.entries| ensures !CompletesAt(w, j, t) {
      assert j < 2 ==> w.entries[j] == BASE[j];
      assert j >= 2 ==> IsClaim(w, j);
    }
  }

  lemma Granted(a: Arm, s: SessionId, t: Ref)
    requires OnlyClaims(a.world) && t < 2 && Vacant(a, t) && Binds(a.config.arm)
    ensures Decide(a, s, ClaimOn(t), Accepted).code == Accepted
  {
    TasksOf(a.world, t);
    ClaimGrantedIff(a, t);
  }

  /** One granted claim, published under reference `r`. */
  function Publishing(s: SessionId, t: Ref, r: Ref): seq<Action> {
    [Submit(s, ClaimOn(t), Accepted), PublisherReturns(Reference(r, true))]
  }

  lemma ActsTwo(h: Host, x: Action, y: Action)
    ensures Acts(h, [x, y]) == Act(Act(h, x), y)
  {
    assert [x, y][..1] == [x] && [x][..0] == [];
    assert Acts(h, [x]) == Act(Acts(h, []), x);
  }

  lemma SubmittedClaim(h: Host, s: SessionId, t: Ref)
    requires h.lock.Unlocked? && s in h.arm.sessions
    requires OnlyClaims(h.arm.world) && t < 2 && Vacant(h.arm, t) && Binds(h.arm.config.arm)
    ensures var g := Act(h, Submit(s, ClaimOn(t), Accepted));
            && g.lock == Held(s, ClaimOn(t)) && g.arm == Review(h.arm, s, ClaimOn(t), Accepted)
            && g.arm.world == h.arm.world && LedgerOf(g.arm, s).claimRefs == LedgerOf(h.arm, s).claimRefs
  {
    Granted(h.arm, s, t);
  }

  lemma ObservedClaim(a: Arm, s: SessionId, t: Ref, r: Ref)
    requires a.world.now < MAXIMUM_TICK
    ensures var b := Observe(a, s, ClaimOn(t), Reference(r, true));
            && b.settled == a.settled && b.sessions == a.sessions && b.config == a.config
            && LedgerOf(b, s).claimRefs == LedgerOf(a, s).claimRefs + [r]
            && b.world == if r in a.world.ticks then a.world else Append(a, r, Some(Record(s, Claim(t, 5)))).world
  {
  }

  /** What publishing one granted claim does to the host. */
  lemma PublishedClaim(h: Host, s: SessionId, t: Ref, r: Ref)
    requires h.lock.Unlocked? && s in h.arm.sessions
    requires OnlyClaims(h.arm.world) && t < 2 && Vacant(h.arm, t) && Binds(h.arm.config.arm)
    requires h.arm.world.now < MAXIMUM_TICK
    ensures var g := Acts(h, Publishing(s, t, r));
            && g.lock.Unlocked? && g.arm.settled == h.arm.settled && g.arm.sessions == h.arm.sessions
            && g.arm.config == h.arm.config
            && LedgerOf(g.arm, s).claimRefs == LedgerOf(h.arm, s).claimRefs + [r]
            && g.arm.world == if r in h.arm.world.ticks then h.arm.world
                              else Append(h.arm, r, Some(Record(s, Claim(t, 5)))).world
  {
    var x, y := Submit(s, ClaimOn(t), Accepted), PublisherReturns(Reference(r, true));
    ActsTwo(h, x, y);
    var g := Act(h, x);
    SubmittedClaim(h, s, t);
    ObservedClaim(g.arm, s, t, r);
    assert Act(g, y) == Host(Observe(g.arm, s, ClaimOn(t), Reference(r, true)), Unlocked);
    SameAppend(h.arm, g.arm, r, Some(Record(s, Claim(t, 5))));
  }

  function Start(): Host { Opened(CONFIG, {0, 1}, BASE) }

  lemma StartIs()
    ensures OnlyClaims(Start().arm.world) && Start().arm.world.now == 2 && Start().arm.sessions == {0, 1}
    ensures Start().arm.world.entries == BASE && Start().arm.settled == {} && Start().arm.config == CONFIG
    ensures Start().arm.world.ticks.Keys == {0, 1} && HostOk(Start()) && LedgerOf(Start().arm, 0).claimRefs == []
    ensures Vacant(Start().arm, 0) && Vacant(Start().arm, 1)
  {
    var w := Start().arm.world;
    assert w.entries[0].content.value.session in Authors(BASE);
    assert Refs(BASE) == {0, 1} by {
      assert BASE[0].ref in Refs(BASE) && BASE[1].ref in Refs(BASE);
    }
    assert forall k: nat :: !IsClaim(w, k);
    OpenedIsOk(CONFIG, {0, 1}, BASE);
  }

  function Claimed(): Host { Acts(Start(), Publishing(0, 0, 2)) }

  lemma ClaimedIs()
    ensures var h := Claimed();
            && h.lock.Unlocked? && h.arm.settled == {} && h.arm.sessions == {0, 1} && h.arm.config == CONFIG
            && LedgerOf(h.arm, 0).claimRefs == [2]
            && h.arm.world.entries == BASE + [ClaimEntry(2, 0, 0)] && h.arm.world.now == 3
            && 2 in h.arm.world.ticks && h.arm.world.ticks[2] == 3 && h.arm.world.ticks.Keys == {0, 1, 2}
            && OnlyClaims(h.arm.world)
  {
    StartIs();
    PublishedClaim(Start(), 0, 0, 2);
  }

  lemma SettledHolder(h: Host)
    requires h.arm.settled == {} && h.arm.sessions == {0, 1} && h.arm.world.entries == BASE + [ClaimEntry(2, 0, 0)]
    ensures var g := Acts(h, [Settles(0)]);
            && g.lock == h.lock && g.arm.world == h.arm.world && g.arm.settled == {0}
            && g.arm.sessions == {0, 1} && g.arm.config == h.arm.config && Vacant(g.arm, 0)
  {
    assert [Settles(0)][..0] == [];
    assert Acts(h, [Settles(0)]) == Act(Acts(h, []), Settles(0));
  }

  lemma ReleasedIs()
    ensures var g := Acts(Claimed(), [Settles(0)]);
            && g.lock.Unlocked? && g.arm.world == Claimed().arm.world && g.arm.settled == {0}
            && g.arm.sessions == {0, 1} && g.arm.config == CONFIG && Vacant(g.arm, 0)
  {
    ClaimedIs();
    SettledHolder(Claimed());
  }

  lemma TwoLeasesBlock(w: Snapshot)
    requires OnlyClaims(w) && |w.entries| == 4
    requires w.entries[2] == ClaimEntry(2, 0, 0) && w.entries[3] == ClaimEntry(3, 1, 0)
    requires w.now == 4 && 2 in w.ticks && w.ticks[2] == 3 && 3 in w.ticks && w.ticks[3] == 4
    ensures !AuditOk(w)
  {
    NothingClosed(w, 2);
    NothingClosed(w, 3);
    TasksOf(w, 0);
    assert Blocking(w, 2, 0) && Blocking(w, 3, 0);
  }

  /** The run: claim, settle the holder, claim again under another session. */
  function ClaimedTwice(): Host { Acts(Acts(Claimed(), [Settles(0)]), Publishing(1, 0, 3)) }

  lemma ClaimedTwiceIs()
    ensures var w := ClaimedTwice().arm.world;
            && w.entries == BASE + [ClaimEntry(2, 0, 0), ClaimEntry(3, 1, 0)] && w.now == 4
            && 2 in w.ticks && w.ticks[2] == 3 && 3 in w.ticks && w.ticks[3] == 4 && 9 in w.admitters
  {
    ClaimedIs();
    ReleasedIs();
    PublishedClaim(Acts(Claimed(), [Settles(0)]), 1, 0, 3);
  }

  /** The host grants the second lease, keeps its own rule, and the worklist's
      audit fails. */
  lemma OverrideFailsAudit()
    ensures AuditOk(Start().arm.world) && !AuditOk(ClaimedTwice().arm.world)
    ensures Exclusive(ClaimedTwice().arm)
  {
    assert forall k: nat :: !IsClaim(Start().arm.world, k);
    ClaimedTwiceIs();
    TwoLeasesBlock(ClaimedTwice().arm.world);
    ClaimedTwiceIsExclusive();
  }

  lemma ClaimedTwiceIsExclusive()
    ensures Exclusive(ClaimedTwice().arm)
  {
    ClaimedKeeps([Settles(0)]);
    ActsKeep(Acts(Claimed(), [Settles(0)]), Publishing(1, 0, 3));
  }

  lemma RepeatedClaims()
    ensures var h := Acts(Claimed(), Publishing(0, 1, 2));
            && h.arm.settled == {} && h.arm.world == Claimed().arm.world
            && LedgerOf(h.arm, 0).claimRefs == [2, 2]
  {
    ClaimedIs();
    var h := Claimed();
    assert Vacant(h.arm, 1);
    PublishedClaim(h, 0, 1, 2);
  }

  lemma StartIsExclusive()
    ensures Exclusive(Start().arm)
  {
    assert forall k: nat :: !IsClaim(Start().arm.world, k);
  }

  lemma ClaimedKeeps(xs: seq<Action>)
    ensures HostOk(Acts(Claimed(), xs)) && Exclusive(Acts(Claimed(), xs).arm)
  {
    StartIs();
    StartIsExclusive();
    ActsKeep(Start(), Publishing(0, 0, 2));
    ActsKeep(Claimed(), xs);
  }

  lemma ClaimedOccupies()
    ensures OccupyingRefs(Claimed().arm.world, [2, 2]) == [2, 2]
  {
    ClaimedIs();
    var w := Claimed().arm.world;
    NothingClosed(w, 2);
    TasksOf(w, 0);
    assert Blocking(w, 2, 0);
    assert OccupiesByRef(w, 2);
    assert [2, 2][..1] == [2] && [2][..0] == [];
    assert OccupyingRefs(w, [2]) == OccupyingRefs(w, []) + [2];
  }

  /** The run: one session claims two tasks and the publisher names both
      admissions alike.  The released references repeat and the store refuses
      the evidence of a session the host considers settled. */
  lemma RepeatedReferenceRefused()
    ensures var h := Acts(Claimed(), Publishing(0, 1, 2));
            !AcceptsEvidence(SessionEvidence(Settle(h.arm, 0), 0))
  {
    RepeatedClaims();
    ClaimedKeeps(Publishing(0, 1, 2));
    ClaimedOccupies();
    SettledEvidenceAcceptedIff(Acts(Claimed(), Publishing(0, 1, 2)), 0);
  }
}
