/** The settlement evidence of an arm against the store's rules for it. */
module AgendaEvidence {
  import opened Contracts
  import opened Worklist
  import opened AgendaArm
  import opened AgendaTheorems
  import ReceiptRules

  // ---------------------------------------------------------------- counting

  lemma {:induction false} BumpCounts<K>(t: Table<K>, key: K, other: K)
    ensures Total(Bump(t, key)) == Total(t) + 1
    ensures Get(Bump(t, key), other) == Get(t, other) + if other == key then 1 else 0
  {
    if t != [] && t[0].0 != key {
      BumpCounts(t[1..], key, other);
    }
  }

  function Codes(ds: seq<Decision>): seq<Verdict> {
    seq(|ds|, i requires 0 <= i < |ds| => ds[i].code)
  }

  function Occurrences(ds: seq<Decision>, v: Verdict): nat { multiset(Codes(ds))[v] }

  lemma OccurrencesOfSnoc(ds: seq<Decision>, v: Verdict)
    requires ds != []
    ensures Occurrences(ds, v) == Occurrences(ds[..|ds| - 1], v) + if ds[|ds| - 1].code == v then 1 else 0
  {
    var n := |ds| - 1;
    assert Codes(ds) == Codes(ds[..n]) + [ds[n].code];
  }

  /** The verdict table counts every decision once, under its own verdict. */
  lemma {:induction false} VerdictsCount(ds: seq<Decision>, v: Verdict)
    ensures Total(Verdicts(ds)) == |ds|
    ensures Get(Verdicts(ds), v) == Occurrences(ds, v)
    ensures AdmittedCount(ds) == Occurrences(ds, Accepted)
    decreases |ds|
  {
    if ds != [] {
      var n := |ds| - 1;
      VerdictsCount(ds[..n], v);
      BumpCounts(Verdicts(ds[..n]), ds[n].code, v);
      OccurrencesOfSnoc(ds, v);
      OccurrencesOfSnoc(ds, Accepted);
    }
  }

  // ---------------------------------------------------------------- sorting

  predicate Sorted(s: seq<Ref>) {
    forall i, j :: 0 <= i < j < |s| ==> s[i] <= s[j]
  }

  predicate Distinct(s: seq<Ref>) {
    forall i, j :: 0 <= i < j < |s| ==> s[i] != s[j]
  }

  lemma {:induction false} InsertAdds(r: Ref, s: seq<Ref>)
    ensures multiset(Insert(r, s)) == multiset{r} + multiset(s)
    ensures |Insert(r, s)| == |s| + 1
  {
    if s != [] {
      assert s == [s[0]] + s[1..];
      if r > s[0] {
        InsertAdds(r, s[1..]);
      }
    }
  }

  lemma {:induction false} InsertBounded(r: Ref, s: seq<Ref>, low: Ref)
    requires low <= r && forall k :: 0 <= k < |s| ==> low <= s[k]
    ensures forall k :: 0 <= k < |Insert(r, s)| ==> low <= Insert(r, s)[k]
  {
    if s != [] && r > s[0] {
      InsertBounded(r, s[1..], low);
    }
  }

  lemma {:induction false} InsertSorts(r: Ref, s: seq<Ref>)
    requires Sorted(s)
    ensures Sorted(Insert(r, s))
  {
    if s != [] && r > s[0] {
      InsertSorts(r, s[1..]);
      InsertBounded(r, s[1..], s[0]);
    }
  }

  lemma {:induction false} SortSorts(s: seq<Ref>)
    ensures Sorted(Sort(s)) && multiset(Sort(s)) == multiset(s) && |Sort(s)| == |s|
    decreases |s|
  {
    if s != [] {
      var n := |s| - 1;
      SortSorts(s[..n]);
      InsertSorts(s[n], Sort(s[..n]));
      InsertAdds(s[n], Sort(s[..n]));
      assert s == s[..n] + [s[n]];
    }
  }

  lemma {:induction false} DistinctIsSingle(s: seq<Ref>)
    ensures Distinct(s) <==> forall r :: multiset(s)[r] <= 1
    decreases |s|
  {
    if s != [] {
      var n := |s| - 1;
      DistinctIsSingle(s[..n]);
      assert s == s[..n] + [s[n]];
      assert Distinct(s) <==> Distinct(s[..n]) && s[n] !in s[..n];
      assert forall r :: multiset(s)[r] == multiset(s[..n])[r] + if r == s[n] then 1 else 0;
      assert s[n] in s[..n] <==> multiset(s[..n])[s[n]] >= 1;
    }
  }

  /** Sorted, and strictly so exactly when nothing repeats. */
  lemma StrictIffDistinct(t: seq<Ref>)
    requires Sorted(t)
    ensures StrictlyIncreasing(t) <==> Distinct(t)
  {
    if Distinct(t) {
      forall i, j | 0 <= i < j < |t| ensures t[i] < t[j] {
        assert t[i] <= t[j] && t[i] != t[j];
      }
    }
  }

  /** Sorting gives a strictly increasing list exactly when nothing repeats. */
  lemma SortIsStrictIff(s: seq<Ref>)
    ensures StrictlyIncreasing(Sort(s)) <==> Distinct(s)
  {
    SortSorts(s);
    DistinctIsSingle(s);
    DistinctIsSingle(Sort(s));
    StrictIffDistinct(Sort(s));
  }

  // ---------------------------------------------------------------- agreement

  /** The store's rules for the evidence come down to one: the released
      references must increase strictly. */
  lemma LedgerEvidenceIff(a: Arm, s: SessionId)
    requires ClockOk(a) && LedgersOk(a)
    ensures AcceptsEvidence(SessionEvidence(a, s)) <==> StrictlyIncreasing(LedgerOf(a, s).released)
  {
    var l := LedgerOf(a, s);
    assert LedgerOk(a, l);
    VerdictsCount(l.decisions, Accepted);
  }

  /** So it is at every moment of every run, from any opening world. */
  lemma EvidenceAcceptedIff(c: Config, sessions: set<SessionId>, base: seq<Entry>, xs: seq<Action>, s: SessionId)
    requires DistinctRefs(base)
    ensures var a := ArmAfter(c, sessions, base, xs);
            AcceptsEvidence(SessionEvidence(a, s)) <==> StrictlyIncreasing(LedgerOf(a, s).released)
  {
    OpenedIsOk(c, sessions, base);
    ActsKeep(Opened(c, sessions, base), xs);
    LedgerEvidenceIff(ArmAfter(c, sessions, base, xs), s);
  }

  /** The three counts of the evidence are what receipt accounting needs. */
  lemma EvidenceTally(a: Arm, s: SessionId, launch: ReceiptRules.Launch)
    requires launch.armConfigured
    ensures var e := SessionEvidence(a, s);
            && ReceiptRules.ValidTally(launch, ReceiptRules.Tally(e.reviewed, e.admitted, e.rejected))
            && e.admitted == Occurrences(LedgerOf(a, s).decisions, Accepted)
  {
    VerdictsCount(LedgerOf(a, s).decisions, Accepted);
  }

  /** The references a settlement of `s` would keep: the least 64 that occupy. */
  function Released(a: Arm, s: SessionId): seq<Ref> {
    First(Sort(OccupyingRefs(a.world, LedgerOf(a, s).claimRefs)), MAXIMUM_RELEASED_CLAIM_REFS)
  }

  /** At settlement, in every run: accepted exactly when the occupying references
      that are kept are all different; if there are no more than 64, when all the
      occupying references the session was given are. */
  lemma SettledEvidenceAcceptedIff(h: Host, s: SessionId)
    requires HostOk(h) && s !in h.arm.settled
    ensures AcceptsEvidence(SessionEvidence(Settle(h.arm, s), s)) <==> Distinct(Released(h.arm, s))
    ensures var refs := OccupyingRefs(h.arm.world, LedgerOf(h.arm, s).claimRefs);
            |refs| <= MAXIMUM_RELEASED_CLAIM_REFS ==> (Distinct(Released(h.arm, s)) <==> Distinct(refs))
  {
    var refs := OccupyingRefs(h.arm.world, LedgerOf(h.arm, s).claimRefs);
    SortSorts(refs);
    SortIsStrictIff(refs);
    StrictIffDistinct(Released(h.arm, s));
    StrictIffDistinct(Sort(refs));
    SettleKeeps(h, s);
    LedgerEvidenceIff(Settle(h.arm, s), s);
  }

  // ---------------------------------------------------------------- fresh references

  ghost predicate LedgerFresh(a: Arm, l: Ledger) {
    && StrictlyIncreasing(l.released) && Distinct(l.claimRefs)
    && forall r :: r in l.claimRefs ==> r in a.world.ticks
  }

  ghost predicate Fresh(a: Arm) {
    forall s :: s in a.ledgers ==> LedgerFresh(a, a.ledgers[s])
  }

  lemma {:induction false} OccupyingRefsDistinct(w: Snapshot, refs: seq<Ref>)
    requires Distinct(refs)
    ensures Distinct(OccupyingRefs(w, refs))
    ensures forall r :: r in OccupyingRefs(w, refs) ==> r in refs
    decreases |refs|
  {
    if refs != [] {
      var n := |refs| - 1;
      OccupyingRefsDistinct(w, refs[..n]);
      assert refs[n] !in refs[..n];
    }
  }

  lemma SettleKeepsFresh(a: Arm, s: SessionId)
    requires Fresh(a)
    ensures Fresh(Settle(a, s))
  {
    var l := LedgerOf(a, s);
    assert LedgerFresh(a, l);
    OccupyingRefsDistinct(a.world, l.claimRefs);
    SortIsStrictIff(OccupyingRefs(a.world, l.claimRefs));
    var b := Settle(a, s);
    forall q | q in b.ledgers ensures LedgerFresh(b, b.ledgers[q]) {
      assert q in a.ledgers ==> LedgerFresh(a, a.ledgers[q]);
    }
  }

  lemma ReviewKeepsFresh(a: Arm, s: SessionId, c: Candidate, other: Verdict)
    requires Fresh(a)
    ensures Fresh(Review(a, s, c, other))
  {
    var b := Review(a, s, c, other);
    forall q | q in b.ledgers ensures LedgerFresh(b, b.ledgers[q]) {
      assert q in a.ledgers ==> LedgerFresh(a, a.ledgers[q]);
    }
  }

  lemma ObserveKeepsFresh(a: Arm, s: SessionId, c: Candidate, result: Result)
    requires Fresh(a)
    requires result.Reference? ==> result.ref !in a.world.ticks
    ensures Fresh(Observe(a, s, c, result))
  {
    var b := Observe(a, s, c, result);
    forall q | q in b.ledgers ensures LedgerFresh(b, b.ledgers[q]) {
      assert q in a.ledgers ==> LedgerFresh(a, a.ledgers[q]);
    }
  }

  /** The publisher never returns a reference the host already knows. */
  ghost predicate FreshAnswers(h: Host, xs: seq<Action>)
    decreases |xs|
  {
    xs != [] ==>
      var n := |xs| - 1;
      && FreshAnswers(h, xs[..n])
      && (xs[n].PublisherReturns? && xs[n].result.Reference? ==> xs[n].result.ref !in Acts(h, xs[..n]).arm.world.ticks)
  }

  lemma {:induction false} ActsKeepFresh(h: Host, xs: seq<Action>)
    requires Fresh(h.arm) && FreshAnswers(h, xs)
    ensures Fresh(Acts(h, xs).arm)
    decreases |xs|
  {
    if xs != [] {
      var n := |xs| - 1;
      ActsKeepFresh(h, xs[..n]);
      var g := Acts(h, xs[..n]);
      match xs[n] {
        case Submit(s, c, other) => ReviewKeepsFresh(g.arm, s, c, other);
        case PublisherRaises =>
        case PublisherReturns(r) =>
          if g.lock.Held? {
            ObserveKeepsFresh(g.arm, g.lock.session, g.lock.candidate, r);
          }
        case Settles(s) => SettleKeepsFresh(g.arm, s);
      }
    }
  }

  /** With a publisher that never repeats a reference, the store accepts every
      session's evidence at every moment of every run. */
  lemma FreshRunsAccepted(c: Config, sessions: set<SessionId>, base: seq<Entry>, xs: seq<Action>, s: SessionId)
    requires DistinctRefs(base) && FreshAnswers(Opened(c, sessions, base), xs)
    ensures AcceptsEvidence(SessionEvidence(ArmAfter(c, sessions, base, xs), s))
  {
    var h := Opened(c, sessions, base);
    ActsKeepFresh(h, xs);
    EvidenceAcceptedIff(c, sessions, base, xs, s);
    assert LedgerFresh(Acts(h, xs).arm, LedgerOf(Acts(h, xs).arm, s));
  }
}
