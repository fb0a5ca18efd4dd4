/** Lease exclusivity, closure and accounting over every interleaving of
    publications and settlements. */
module AgendaTheorems {
  import opened Contracts
  import opened Worklist
  import opened AgendaArm

  // ---------------------------------------------------------------- the clock

  /** The admission counter: one tick per admission, the opening tick for all
      that predate the launch. */
  ghost predicate ClockOk(a: Arm) {
    var w := a.world;
    && DistinctRefs(w.entries)
    && w.now == |w.entries| && a.baseTick <= w.now
    && (forall r :: r in w.ticks ==> r in Refs(w.entries))
    && (forall k :: 0 <= k < |w.entries| ==>
          w.entries[k].ref in w.ticks
          && w.ticks[w.entries[k].ref] == if k < a.baseTick then a.baseTick else k + 1)
  }

  lemma OpenClock(c: Config, sessions: set<SessionId>, base: seq<Entry>)
    requires DistinctRefs(base)
    ensures ClockOk(Open(c, sessions, base))
  {
    var w := Open(c, sessions, base).world;
    assert forall k :: 0 <= k < |base| ==> base[k].ref in Refs(base);
  }

  lemma FreshRef(a: Arm, r: Ref)
    requires ClockOk(a) && r !in a.world.ticks
    ensures forall k :: 0 <= k < |a.world.entries| ==> a.world.entries[k].ref != r
    ensures ClockOk(Append(a, r, None))
    ensures forall c :: ClockOk(Append(a, r, c))
  {
    forall c ensures ClockOk(Append(a, r, c)) {
      var w := Append(a, r, c).world;
      var n := |a.world.entries|;
      assert forall k :: 0 <= k < n ==> w.entries[k] == a.world.entries[k];
      forall q | q in w.ticks ensures q in Refs(w.entries) {
        if q == r {
          assert w.entries[n].ref == r;
        } else {
          var k :| 0 <= k < n && a.world.entries[k].ref == q;
          assert w.entries[k].ref == q;
        }
      }
    }
  }

  // ---------------------------------------------------------------- leases

  /** Claim `k` occupies `t` and its holder can still act. */
  ghost predicate Occupies(a: Arm, k: nat, t: Ref) {
    Occupying(a.world, k, t) && !CannotAct(a, Holder(a.world, k))
  }

  ghost predicate Vacant(a: Arm, t: Ref) {
    forall k: nat :: !Occupies(a, k, t)
  }

  ghost predicate Exclusive(a: Arm) {
    forall i: nat, j: nat, t: Ref {:trigger Occupies(a, i, t), Occupies(a, j, t)} ::
      Occupies(a, i, t) && Occupies(a, j, t) ==> i == j
  }

  /** What a claim verdict means: granted exactly when the task is on the
      worklist, open and ready, and nobody who can still act occupies it. */
  lemma ClaimGrantedIff(a: Arm, t: Ref)
    ensures ClaimVerdict(a, t) == Accepted <==>
              && IsTask(a.world, t) && !Completed(a.world, t)
              && DependencyVerdict(a.world, DependenciesFrom(a.world, t, 0)) == Accepted
              && Vacant(a, t)
  {
    if IsTask(a.world, t) && !Vacant(a, t) {
      var k: nat :| Occupies(a, k, t);
      assert Blocking(a.world, k, t);
    }
    if IsTask(a.world, t) && Vacant(a, t) {
      forall k | 0 <= k < |a.world.entries| && Blocking(a.world, k, t)
        ensures CannotAct(a, Holder(a.world, k))
      {
        assert !Occupies(a, k, t);
      }
    }
  }

  /** Old leases only shrink when an admission is appended: time moves on and
      closures stay. */
  lemma AppendShrinks(a: Arm, r: Ref, c: Option<Record>, k: nat, t: Ref)
    requires ClockOk(a) && r !in a.world.ticks
    requires k < |a.world.entries| && Occupying(Append(a, r, c).world, k, t)
    ensures Occupying(a.world, k, t)
  {
    var w := Append(a, r, c).world;
    FreshRef(a, r);
    assert forall j :: 0 <= j < |a.world.entries| ==> w.entries[j] == a.world.entries[j];
    if Closed(a.world, k) {
      var j :| 0 <= j < |a.world.entries| && Closes(a.world, j, k);
      assert Closes(w, j, k);
    }
  }

  lemma AppendKeepsExclusive(a: Arm, r: Ref, c: Option<Record>)
    requires ClockOk(a) && r !in a.world.ticks && Exclusive(a)
    requires c.Some? && c.value.body.Claim? ==> Vacant(a, c.value.body.task)
    ensures Exclusive(Append(a, r, c))
  {
    var b := Append(a, r, c);
    var n := |a.world.entries|;
    forall i: nat, j: nat, t: Ref | Occupies(b, i, t) && Occupies(b, j, t) ensures i == j {
      if i < n { AppendShrinks(a, r, c, i, t); assert Occupies(a, i, t); }
      if j < n { AppendShrinks(a, r, c, j, t); assert Occupies(a, j, t); }
    }
  }

  // ---------------------------------------------------------------- closures

  /** A record of this launch that closes a lease closes one that exists. */
  ghost predicate ClosesKnown(a: Arm, j: nat) {
    && j < |a.world.entries| && a.world.entries[j].content.Some?
    && var b := a.world.entries[j].content.value.body;
       b.Release? || b.Outcome? ==> exists k: nat :: k < j && Closes(a.world, j, k)
  }

  /** No record of this launch closes a lease that was closed before it. */
  ghost predicate ClosedOnce(a: Arm) {
    && (forall j: nat :: a.baseTick <= j < |a.world.entries| && a.world.entries[j].content.Some? ==> ClosesKnown(a, j))
    && (forall i: nat, j: nat, k: nat {:trigger Closes(a.world, i, k), Closes(a.world, j, k)} ::
          i < j && a.baseTick <= j && Closes(a.world, i, k) ==> !Closes(a.world, j, k))
  }

  lemma HeldClaimIsOpen(a: Arm, s: SessionId, b: Body, k: nat)
    requires ClockOk(a) && (b.Release? || b.Outcome?)
    requires HeldVerdict(a.world, b.task, b.claim, s) == Accepted
    ensures exists i: nat :: ClosesWith(a.world, Record(s, b), i)
    ensures ClosesWith(a.world, Record(s, b), k) ==> !Closed(a.world, k)
  {
    var i := FindClaim(a.world, b.claim, 0).value;
    assert ClosesWith(a.world, Record(s, b), i);
  }

  /** What was reviewed and admitted may be appended. */
  ghost predicate Admissible(a: Arm, c: Record) {
    && (c.body.Claim? ==> Vacant(a, c.body.task))
    && (c.body.Release? || c.body.Outcome? ==>
          && (exists i: nat :: ClosesWith(a.world, c, i))
          && forall k: nat :: ClosesWith(a.world, c, k) ==> !Closed(a.world, k))
  }

  lemma AppendKeepsClosers(a: Arm, r: Ref, c: Option<Record>, j: nat, k: nat)
    requires ClockOk(a) && r !in a.world.ticks && j < |a.world.entries| && k < |a.world.entries|
    ensures Closes(Append(a, r, c).world, j, k) <==> Closes(a.world, j, k)
  {
  }

  /** The record just appended closes exactly what it was reviewed to close. */
  lemma NewCloser(a: Arm, r: Ref, c: Record, k: nat)
    requires ClockOk(a) && r !in a.world.ticks && k < |a.world.entries|
    ensures Closes(Append(a, r, Some(c)).world, |a.world.entries|, k) <==> ClosesWith(a.world, c, k)
  {
  }

  lemma AppendKeepsKnown(a: Arm, r: Ref, c: Option<Record>, j: nat)
    requires ClockOk(a) && r !in a.world.ticks && ClosedOnce(a)
    requires c.Some? ==> Admissible(a, c.value)
    requires a.baseTick <= j <= |a.world.entries|
    requires Append(a, r, c).world.entries[j].content.Some?
    ensures ClosesKnown(Append(a, r, c), j)
  {
    var n := |a.world.entries|;
    var b := Append(a, r, c);
    var body := b.world.entries[j].content.value.body;
    if body.Release? || body.Outcome? {
      if j < n {
        assert ClosesKnown(a, j);
        var k: nat :| k < j && Closes(a.world, j, k);
        AppendKeepsClosers(a, r, c, j, k);
      } else {
        var k: nat :| ClosesWith(a.world, c.value, k);
        NewCloser(a, r, c.value, k);
      }
    }
  }

  lemma AppendClosesOnce(a: Arm, r: Ref, c: Option<Record>, i: nat, j: nat, k: nat)
    requires ClockOk(a) && r !in a.world.ticks && ClosedOnce(a)
    requires c.Some? ==> Admissible(a, c.value)
    requires i < j <= |a.world.entries| && a.baseTick <= j
    requires Closes(Append(a, r, c).world, i, k)
    ensures !Closes(Append(a, r, c).world, j, k)
  {
    var n := |a.world.entries|;
    var w := Append(a, r, c).world;
    FreshRef(a, r);
    assert j < n && a.world.entries[j].content.Some? ==> ClosesKnown(a, j);
    if k < n {
      AppendKeepsClosers(a, r, c, i, k);
      if j < n {
        AppendKeepsClosers(a, r, c, j, k);
      } else if c.Some? {
        NewCloser(a, r, c.value, k);
        assert Closed(a.world, k);
      }
    }
  }

  lemma AppendKeepsClosedOnce(a: Arm, r: Ref, c: Option<Record>)
    requires ClockOk(a) && r !in a.world.ticks && ClosedOnce(a)
    requires c.Some? ==> Admissible(a, c.value)
    ensures ClosedOnce(Append(a, r, c))
  {
    var b := Append(a, r, c);
    forall j: nat | a.baseTick <= j < |b.world.entries| && b.world.entries[j].content.Some? ensures ClosesKnown(b, j) {
      AppendKeepsKnown(a, r, c, j);
    }
    forall i: nat, j: nat, k: nat | i < j && a.baseTick <= j && Closes(b.world, i, k) ensures !Closes(b.world, j, k) {
      if j <= |a.world.entries| {
        AppendClosesOnce(a, r, c, i, j, k);
      }
    }
  }

  // ---------------------------------------------------------------- ledgers

  ghost predicate LedgerOk(a: Arm, l: Ledger) {
    && (forall i :: 0 <= i < |l.decisions| ==> l.decisions[i].ordinal == i + 1)
    && |l.released| <= MAXIMUM_RELEASED_CLAIM_REFS
    && (l.released != [] ==> l.releasedAt.Some?)
    && (l.settledTick.Some? ==> a.baseTick <= l.settledTick.value <= a.world.now)
  }

  ghost predicate LedgersOk(a: Arm) {
    forall s :: s in a.ledgers ==> LedgerOk(a, a.ledgers[s])
  }

  // ---------------------------------------------------------------- the invariant of a run

  ghost predicate LockOk(h: Host) {
    h.lock.Held? ==>
      && h.lock.session in h.arm.sessions
      && (h.lock.candidate.Contribution? ==> Admissible(h.arm, Record(h.lock.session, h.lock.candidate.body)))
  }

  /** What every run keeps, whether or not its leases are exclusive. */
  ghost predicate Sound(a: Arm) {
    ClockOk(a) && ClosedOnce(a) && LedgersOk(a)
  }

  /** `b` comes after `a`: sound, and exclusive if `a` was. */
  ghost predicate Follows(a: Arm, b: Arm) {
    Sound(b) && (Exclusive(a) ==> Exclusive(b))
  }

  ghost predicate HostOk(h: Host) {
    Sound(h.arm) && LockOk(h)
  }

  /** Parts of the arm the leases depend on. */
  ghost predicate SameWorld(a: Arm, b: Arm) {
    b.world == a.world && b.baseTick == a.baseTick && b.sessions == a.sessions && a.settled <= b.settled
  }

  lemma SameWorldKeeps(a: Arm, b: Arm)
    requires SameWorld(a, b) && ClockOk(a) && ClosedOnce(a)
    ensures ClockOk(b) && ClosedOnce(b) && (Exclusive(a) ==> Exclusive(b))
  {
    assert forall k: nat, t: Ref :: Occupies(b, k, t) ==> Occupies(a, k, t);
    forall j: nat | a.baseTick <= j < |b.world.entries| && b.world.entries[j].content.Some? ensures ClosesKnown(b, j) {
      assert ClosesKnown(a, j);
    }
  }

  lemma SameWorldAdmits(a: Arm, b: Arm, c: Record)
    requires SameWorld(a, b) && Admissible(a, c)
    ensures Admissible(b, c)
  {
    if c.body.Claim? {
      forall k: nat ensures !Occupies(b, k, c.body.task) {
        assert !Occupies(a, k, c.body.task);
      }
    }
  }

  /** An admitted candidate may be appended. */
  lemma AdmittedIsAdmissible(a: Arm, s: SessionId, c: Candidate, other: Verdict)
    requires ClockOk(a) && c.Contribution? && Decide(a, s, c, other).code == Accepted
    ensures Admissible(a, Record(s, c.body))
  {
    match c.body {
      case Claim(t, _) => ClaimGrantedIff(a, t);
      case Release(_, _) =>
        HeldClaimIsOpen(a, s, c.body, 0);
        forall k: nat | ClosesWith(a.world, Record(s, c.body), k) ensures !Closed(a.world, k) {
          HeldClaimIsOpen(a, s, c.body, k);
        }
      case Outcome(_, _, _, _, _) =>
        HeldClaimIsOpen(a, s, c.body, 0);
        forall k: nat | ClosesWith(a.world, Record(s, c.body), k) ensures !Closed(a.world, k) {
          HeldClaimIsOpen(a, s, c.body, k);
        }
      case _ =>
    }
  }

  lemma CountingKeeps(a: Arm, b: Arm)
    requires Sound(a) && b == a.(divergences := b.divergences)
    ensures Follows(a, b)
  {
    SameWorldKeeps(a, b);
    assert forall s :: s in b.ledgers ==> LedgerOk(a, a.ledgers[s]);
  }

  lemma AppendKeeps(a: Arm, r: Ref, c: Option<Record>)
    requires Sound(a) && r !in a.world.ticks
    requires c.Some? ==> Admissible(a, c.value)
    ensures Follows(a, Append(a, r, c))
  {
    FreshRef(a, r);
    if Exclusive(a) {
      AppendKeepsExclusive(a, r, c);
    }
    AppendKeepsClosedOnce(a, r, c);
    assert forall s :: s in a.ledgers ==> LedgerOk(a, a.ledgers[s]);
  }

  ghost predicate Trusted(a: Arm, c: Option<Record>) {
    c.Some? ==> Admissible(a, c.value)
  }

  function CountMismatch(a: Arm, c: Option<Record>): Arm {
    if c.None? then a.(divergences := a.divergences + 1) else a
  }

  lemma CountMismatchKeeps(a: Arm, c: Option<Record>)
    requires Sound(a) && Trusted(a, c)
    ensures Follows(a, CountMismatch(a, c)) && Trusted(CountMismatch(a, c), c)
  {
    CountingKeeps(a, CountMismatch(a, c));
    if c.Some? {
      SameWorldAdmits(a, CountMismatch(a, c), c.value);
    }
  }

  lemma AdmitKeeps(a: Arm, r: Ref, c: Option<Record>)
    requires Sound(a) && Trusted(a, c)
    ensures Follows(a, Admit(a, r, c)) && Admit(a, r, c).sessions == a.sessions
  {
    CountMismatchKeeps(a, c);
    var a1 := CountMismatch(a, c);
    if r in a1.world.ticks {
      CountingKeeps(a1, Admit(a, r, c));
    } else if !ClockExhausted(a, r) {
      AppendKeeps(a1, r, c);
    }
  }

  lemma LedgerUpdateKeeps(a: Arm, s: SessionId, l: Ledger)
    requires Sound(a) && LedgerOk(a, l)
    ensures Follows(a, SetLedger(a, s, l))
  {
    SameWorldKeeps(a, SetLedger(a, s, l));
    assert forall q :: q in a.ledgers ==> LedgerOk(a, a.ledgers[q]);
  }

  // ---------------------------------------------------------------- the arm by itself

  lemma ReviewIsSound(a: Arm, s: SessionId, c: Candidate, other: Verdict)
    requires Sound(a)
    ensures Follows(a, Review(a, s, c, other))
    ensures c.Contribution? && Decide(a, s, c, other).code == Accepted ==>
              Admissible(Review(a, s, c, other), Record(s, c.body))
  {
    var l := LedgerOf(a, s);
    assert LedgerOk(a, l);
    LedgerUpdateKeeps(a, s, l.(decisions := l.decisions + [Decide(a, s, c, other)]));
    if c.Contribution? && Decide(a, s, c, other).code == Accepted {
      AdmittedIsAdmissible(a, s, c, other);
      SameWorldAdmits(a, Review(a, s, c, other), Record(s, c.body));
    }
  }

  lemma ReviewKeeps(h: Host, s: SessionId, c: Candidate, other: Verdict)
    requires HostOk(h) && s in h.arm.sessions && h.lock.Unlocked?
    ensures HostOk(Act(h, Submit(s, c, other))) && Follows(h.arm, Act(h, Submit(s, c, other)).arm)
  {
    ReviewIsSound(h.arm, s, c, other);
  }

  /** Appending, or counting a repeated reference, or refusing at the last tick. */
  lemma AppendIsSound(a: Arm, r: Ref, c: Option<Record>)
    requires Sound(a) && Trusted(a, c)
    ensures Follows(a, if r in a.world.ticks then a.(divergences := a.divergences + 1)
                       else if ClockExhausted(a, r) then a else Append(a, r, c))
  {
    if r in a.world.ticks {
      CountingKeeps(a, a.(divergences := a.divergences + 1));
    } else if !ClockExhausted(a, r) {
      AppendKeeps(a, r, c);
    }
  }

  lemma ObserveIsSound(a: Arm, s: SessionId, c: Candidate, result: Result)
    requires Sound(a) && (c.Contribution? ==> Admissible(a, Record(s, c.body)))
    ensures Follows(a, Observe(a, s, c, result))
  {
    match result {
      case NoReference =>
        CountingKeeps(a, Observe(a, s, c, result));
      case Reference(r, same) =>
        var content := if c.Contribution? && same then Some(Record(s, c.body)) else None;
        AdmitKeeps(a, r, content);
        var a1 := Admit(a, r, content);
        var l := LedgerOf(a1, s);
        assert LedgerOk(a1, l);
        LedgerUpdateKeeps(a1, s, l.(claimRefs := l.claimRefs + [r]));
    }
  }

  ghost predicate Observable(a: Arm, s: SessionId, c: Candidate) {
    c.Contribution? ==> Admissible(a, Record(s, c.body))
  }

  lemma ObserveFollows(a: Arm, s: SessionId, c: Candidate, result: Result)
    ensures Sound(a) && Observable(a, s, c) ==> Follows(a, Observe(a, s, c, result))
  {
    if Sound(a) && Observable(a, s, c) {
      ObserveIsSound(a, s, c, result);
    }
  }

  lemma ObserveKeeps(h: Host, result: Result)
    requires HostOk(h) && h.lock.Held?
    ensures HostOk(Act(h, PublisherReturns(result))) && Follows(h.arm, Act(h, PublisherReturns(result)).arm)
  {
    ObserveIsSound(h.arm, h.lock.session, h.lock.candidate, result);
  }

  lemma SettleIsSound(a: Arm, s: SessionId)
    requires Sound(a)
    ensures Follows(a, Settle(a, s))
  {
    SettleKeeps(Host(a, Unlocked), s);
  }

  lemma SettleKeeps(h: Host, s: SessionId)
    requires HostOk(h)
    ensures HostOk(h.(arm := Settle(h.arm, s))) && Follows(h.arm, Settle(h.arm, s))
  {
    var b := Settle(h.arm, s);
    SameWorldKeeps(h.arm, b);
    if h.lock.Held? && h.lock.candidate.Contribution? {
      SameWorldAdmits(h.arm, b, Record(h.lock.session, h.lock.candidate.body));
    }
    forall q | q in b.ledgers ensures LedgerOk(b, b.ledgers[q]) {
      assert q in h.arm.ledgers ==> LedgerOk(h.arm, h.arm.ledgers[q]);
    }
  }

  lemma ActKeeps(h: Host, x: Action)
    requires HostOk(h)
    ensures HostOk(Act(h, x)) && Follows(h.arm, Act(h, x).arm)
  {
    match x {
      case Submit(s, c, other) =>
        if h.lock.Unlocked? && s in h.arm.sessions {
          ReviewKeeps(h, s, c, other);
        }
      case PublisherRaises =>
      case PublisherReturns(r) =>
        if h.lock.Held? {
          ObserveKeeps(h, r);
        }
      case Settles(s) =>
        SettleKeeps(h, s);
    }
  }

  lemma {:induction false} ActsKeep(h: Host, xs: seq<Action>)
    requires HostOk(h)
    ensures HostOk(Acts(h, xs)) && Follows(h.arm, Acts(h, xs).arm)
    decreases |xs|
  {
    if xs != [] {
      ActsKeep(h, xs[..|xs| - 1]);
      ActKeeps(Acts(h, xs[..|xs| - 1]), xs[|xs| - 1]);
    }
  }

  // ---------------------------------------------------------------- main results

  /** A world no session of this launch has written to. */
  lemma ForeignWorldIsExclusive(c: Config, sessions: set<SessionId>, base: seq<Entry>)
    requires Authors(base) !! sessions
    ensures Exclusive(Open(c, sessions, base))
  {
    var a := Open(c, sessions, base);
    forall k: nat, t: Ref ensures !Occupies(a, k, t) {
      if IsClaim(a.world, k) {
        assert Holder(a.world, k) in Authors(base);
      }
    }
  }

  function Opened(c: Config, sessions: set<SessionId>, base: seq<Entry>): Host {
    Host(Open(c, sessions, base), Unlocked)
  }

  function ArmAfter(c: Config, sessions: set<SessionId>, base: seq<Entry>, xs: seq<Action>): Arm {
    Acts(Opened(c, sessions, base), xs).arm
  }

  lemma OpenedIsOk(c: Config, sessions: set<SessionId>, base: seq<Entry>)
    requires DistinctRefs(base)
    ensures HostOk(Opened(c, sessions, base))
  {
    OpenClock(c, sessions, base);
  }

  /** Whatever is submitted, however publications answer and wherever
      settlements fall, each task has at most one lease held by a session that
      can still act -- exactly when the opening world does. */
  lemma LeaseExclusivity(c: Config, sessions: set<SessionId>, base: seq<Entry>)
    requires DistinctRefs(base)
    ensures (forall xs :: Exclusive(ArmAfter(c, sessions, base, xs))) <==> Exclusive(Open(c, sessions, base))
  {
    assert ArmAfter(c, sessions, base, []) == Open(c, sessions, base);
    if Exclusive(Open(c, sessions, base)) {
      forall xs ensures Exclusive(ArmAfter(c, sessions, base, xs)) {
        OpenedIsOk(c, sessions, base);
        ActsKeep(Opened(c, sessions, base), xs);
      }
    }
  }

  /** The clock counts admissions; entry `i` of this launch carries tick `i + 1`,
      and no lease this launch closes was closed before. */
  lemma ClockAndClosures(c: Config, sessions: set<SessionId>, base: seq<Entry>, xs: seq<Action>)
    requires DistinctRefs(base)
    ensures ClockOk(ArmAfter(c, sessions, base, xs))
    ensures ClosedOnce(ArmAfter(c, sessions, base, xs))
  {
    OpenedIsOk(c, sessions, base);
    ActsKeep(Opened(c, sessions, base), xs);
  }
}
