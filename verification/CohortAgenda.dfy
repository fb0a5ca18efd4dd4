/** A cohort and its arm together: every review, publication and receipt of a run
    is answered by one arm under one publication lock. */
module CohortAgenda {
  import opened Contracts
  import opened ReceiptRules
  import opened Cohort
  import opened CohortInvariant
  import opened CohortPublication
  import opened CohortTheorems
  import E = EndToEnd
  import A = AgendaArm
  import AT = AgendaTheorems
  import AE = AgendaEvidence
  import W = Worklist

  // ---------------------------------------------------------------- the arm's turn

  ghost predicate AllSettle(xs: seq<A.Action>) {
    forall k :: 0 <= k < |xs| ==> xs[k].Settles?
  }

  /** `s` submits a candidate that is admitted; what its publisher answers comes
      last, and other sessions may settle while it is out. */
  ghost predicate Admitted(h: A.Host, s: SessionId, xs: seq<A.Action>) {
    && |xs| >= 2 && xs[0].Submit? && xs[0].session == s
    && A.Decide(h.arm, s, xs[0].candidate, xs[0].other).code == W.Accepted
    && AllSettle(xs[1..|xs| - 1])
  }

  /** What the arm goes through while one record of `s` is dealt with. */
  ghost predicate Turn(h: A.Host, s: SessionId, r: PublishResult, xs: seq<A.Action>) {
    match r
    case DriftBefore => xs == []
    case ReviewRaised(_) => xs == []
    case ArmRejects =>
      && |xs| == 1 && xs[0].Submit? && xs[0].session == s
      && A.Decide(h.arm, s, xs[0].candidate, xs[0].other).code != W.Accepted
    case PublisherRaised(_) => Admitted(h, s, xs) && xs[|xs| - 1].PublisherRaises?
    case ResultRaised(_) => Admitted(h, s, xs) && xs[|xs| - 1].PublisherRaises?
    case ObserveRaised(_) => Admitted(h, s, xs) && (xs[|xs| - 1].PublisherRaises? || xs[|xs| - 1].PublisherReturns?)
    case DriftAfter => Admitted(h, s, xs) && xs[|xs| - 1].PublisherReturns?
    case Published => Admitted(h, s, xs) && xs[|xs| - 1].PublisherReturns?
  }

  /** Any other step leaves the arm alone but for settlements; a receipt is
      offered only after its session was settled. */
  ghost predicate OtherTurn(c: State, d: State, xs: seq<A.Action>) {
    AllSettle(xs) && (|d.offers| > |c.offers| ==> A.Settles(d.offers[|c.offers|].receipt.session) in xs)
  }

  ghost predicate TurnOf(c: State, who: Actor, x: Oracle, h: A.Host, xs: seq<A.Action>) {
    if PublishesAt(c, who) then Turn(h, c.slots[who.slot].session, x.publish, xs)
    else OtherTurn(c, Step(c, who, x), xs)
  }

  // ---------------------------------------------------------------- counting

  function DecisionsOf(h: A.Host, s: SessionId): seq<A.Decision> { A.LedgerOf(h.arm, s).decisions }

  function TallyOver(ds: seq<A.Decision>): Tally {
    Tally(|ds|, A.AdmittedCount(ds), |ds| - A.AdmittedCount(ds))
  }

  function TallyOf(h: A.Host, s: SessionId): Tally { TallyOver(DecisionsOf(h, s)) }

  ghost predicate SameDecisions(h: A.Host, g: A.Host) {
    g.arm.sessions == h.arm.sessions && forall q :: DecisionsOf(g, q) == DecisionsOf(h, q)
  }

  lemma ReturnDecides(h: A.Host, r: A.Result)
    ensures SameDecisions(h, A.Act(h, A.PublisherReturns(r))) && A.Act(h, A.PublisherReturns(r)).lock == A.Unlocked
  {
  }

  lemma SettleDecides(h: A.Host, s: SessionId)
    ensures SameDecisions(h, A.Act(h, A.Settles(s))) && A.Act(h, A.Settles(s)).lock == h.lock
  {
  }

  /** One decision more for `s`, none for any other session. */
  ghost predicate Decides(h: A.Host, g: A.Host, s: SessionId, d: A.Decision) {
    && g.arm.sessions == h.arm.sessions
    && forall q :: DecisionsOf(g, q) == if q == s then DecisionsOf(h, q) + [d] else DecisionsOf(h, q)
  }

  lemma SubmitDecides(h: A.Host, s: SessionId, c: A.Candidate, other: W.Verdict)
    requires h.lock == A.Unlocked && s in h.arm.sessions
    ensures var g := A.Act(h, A.Submit(s, c, other));
            && Decides(h, g, s, A.Decide(h.arm, s, c, other))
            && (g.lock.Held? <==> A.Decide(h.arm, s, c, other).code == W.Accepted)
  {
  }

  lemma {:induction false} SettlingDecidesNone(h: A.Host, xs: seq<A.Action>)
    requires AllSettle(xs)
    ensures SameDecisions(h, A.Acts(h, xs)) && A.Acts(h, xs).lock == h.lock
    decreases |xs|
  {
    if xs != [] {
      var n := |xs| - 1;
      SettlingDecidesNone(h, xs[..n]);
      SettleDecides(A.Acts(h, xs[..n]), xs[n].settling);
    }
  }

  /** The lock is held from the admission until the publisher answers. */
  lemma {:induction false} AdmissionHolds(h: A.Host, s: SessionId, xs: seq<A.Action>)
    requires h.lock == A.Unlocked && s in h.arm.sessions
    requires xs != [] && xs[0].Submit? && xs[0].session == s && AllSettle(xs[1..])
    requires A.Decide(h.arm, s, xs[0].candidate, xs[0].other).code == W.Accepted
    ensures Decides(h, A.Acts(h, xs), s, A.Decide(h.arm, s, xs[0].candidate, xs[0].other))
    ensures A.Acts(h, xs).lock.Held?
    decreases |xs|
  {
    var n := |xs| - 1;
    if n == 0 {
      assert A.Acts(h, xs[..0]) == h;
      SubmitDecides(h, s, xs[0].candidate, xs[0].other);
    } else {
      assert xs[..n][1..] == xs[1..][..n - 1];
      AdmissionHolds(h, s, xs[..n]);
      assert xs[n] == xs[1..][n - 1];
      SettleDecides(A.Acts(h, xs[..n]), xs[n].settling);
    }
  }

  lemma AdmittedDecides(h: A.Host, s: SessionId, xs: seq<A.Action>)
    requires h.lock == A.Unlocked && s in h.arm.sessions && Admitted(h, s, xs)
    requires xs[|xs| - 1].PublisherRaises? || xs[|xs| - 1].PublisherReturns?
    ensures Decides(h, A.Acts(h, xs), s, A.Decide(h.arm, s, xs[0].candidate, xs[0].other))
    ensures A.Acts(h, xs).lock == A.Unlocked
  {
    var n := |xs| - 1;
    assert xs[..n][1..] == xs[1..n];
    AdmissionHolds(h, s, xs[..n]);
    if xs[n].PublisherReturns? {
      ReturnDecides(A.Acts(h, xs[..n]), xs[n].result);
    }
  }

  lemma RejectedDecides(h: A.Host, s: SessionId, xs: seq<A.Action>)
    requires h.lock == A.Unlocked && s in h.arm.sessions && Turn(h, s, ArmRejects, xs)
    ensures Decides(h, A.Acts(h, xs), s, A.Decide(h.arm, s, xs[0].candidate, xs[0].other))
    ensures A.Acts(h, xs).lock == A.Unlocked
  {
    assert A.Acts(h, xs[..0]) == h;
    SubmitDecides(h, s, xs[0].candidate, xs[0].other);
  }

  /** The tally of `s` grows as the cohort counts, that of every other session
      stays. */
  ghost predicate Counts(h: A.Host, g: A.Host, s: SessionId, review: Option<bool>) {
    && g.arm.sessions == h.arm.sessions
    && forall q :: TallyOf(g, q) ==
         if q == s && review.Some? then Review(TallyOf(h, q), true, review.value) else TallyOf(h, q)
  }

  lemma OneMore(ds: seq<A.Decision>, d: A.Decision)
    ensures TallyOver(ds + [d]) == Review(TallyOver(ds), true, d.code == W.Accepted)
  {
    assert (ds + [d])[..|ds|] == ds;
  }

  lemma DecidingCounts(h: A.Host, g: A.Host, s: SessionId, d: A.Decision)
    requires Decides(h, g, s, d)
    ensures Counts(h, g, s, Some(d.code == W.Accepted))
  {
    OneMore(DecisionsOf(h, s), d);
  }

  lemma TurnCounts(h: A.Host, s: SessionId, r: PublishResult, xs: seq<A.Action>)
    requires h.lock == A.Unlocked && s in h.arm.sessions && Turn(h, s, r, xs)
    ensures Counts(h, A.Acts(h, xs), s, ReviewBy(r)) && A.Acts(h, xs).lock == A.Unlocked
  {
    if !(r.DriftBefore? || r.ReviewRaised?) {
      if r.ArmRejects? {
        RejectedDecides(h, s, xs);
      } else {
        AdmittedDecides(h, s, xs);
      }
      DecidingCounts(h, A.Acts(h, xs), s, A.Decide(h.arm, s, xs[0].candidate, xs[0].other));
    }
  }

  // ---------------------------------------------------------------- cohort and arm

  function Planned(l: Launch): set<SessionId> { set s | s in l.sessions }

  /** The arm is free and counts for every session what the cohort counts. */
  ghost predicate MatchedTallies(c: State, h: A.Host) {
    && h.lock == A.Unlocked && h.arm.sessions == Planned(c.launch)
    && forall s :: OwnOf(c, s).arm == TallyOf(h, s)
  }

  lemma PublishMatches(c: State, who: Actor, x: Oracle, h: A.Host, xs: seq<A.Action>)
    requires Inv(false, c) && c.launch.armConfigured && MatchedTallies(c, h)
    requires PublishesAt(c, who) && Turn(h, c.slots[who.slot].session, x.publish, xs)
    requires Step(c, who, x).launch == c.launch
    ensures MatchedTallies(Step(c, who, x), A.Acts(h, xs))
  {
    var s := c.slots[who.slot].session;
    assert SlotOk(false, c, c.slots[who.slot]);
    TurnCounts(h, s, x.publish, xs);
    forall q ensures OwnOf(Step(c, who, x), q).arm == TallyOf(A.Acts(h, xs), q) {
      StepMoves(c, who, x, q);
    }
  }

  lemma OtherMatches(c: State, who: Actor, x: Oracle, h: A.Host, xs: seq<A.Action>)
    requires Inv(false, c) && MatchedTallies(c, h)
    requires !PublishesAt(c, who) && AllSettle(xs) && Step(c, who, x).launch == c.launch
    ensures MatchedTallies(Step(c, who, x), A.Acts(h, xs))
  {
    SettlingDecidesNone(h, xs);
    forall q ensures OwnOf(Step(c, who, x), q).arm == TallyOf(A.Acts(h, xs), q) {
      StepMoves(c, who, x, q);
    }
  }

  /** The arm is sound and, with `newRefs`, was only ever given references it did
      not know. */
  ghost predicate HostFit(newRefs: bool, h: A.Host) {
    AT.HostOk(h) && (newRefs ==> AE.Fresh(h.arm))
  }

  lemma TurnFits(newRefs: bool, h: A.Host, xs: seq<A.Action>)
    requires HostFit(newRefs, h) && (newRefs ==> AE.FreshAnswers(h, xs))
    ensures HostFit(newRefs, A.Acts(h, xs))
  {
    AT.ActsKeep(h, xs);
    if newRefs {
      AE.ActsKeepFresh(h, xs);
    }
  }

  lemma StepMatches(c: State, who: Actor, x: Oracle, h: A.Host, xs: seq<A.Action>)
    requires Inv(false, c) && c.launch.armConfigured && MatchedTallies(c, h) && TurnOf(c, who, x, h, xs)
    ensures MatchedTallies(Step(c, who, x), A.Acts(h, xs))
  {
    E.StepKeepsLaunch(c, who, x);
    if PublishesAt(c, who) {
      PublishMatches(c, who, x, h, xs);
    } else {
      OtherMatches(c, who, x, h, xs);
    }
  }

  // ---------------------------------------------------------------- joint runs

  /** During the last step of a run the arm goes through `xs`, with `newRefs` given
      references it does not know, and is left as `after`. */
  ghost predicate LastTurn(newRefs: bool, a: Setup, schedule: seq<(Actor, Oracle)>, before: A.Host,
                           xs: seq<A.Action>, after: A.Host)
    requires schedule != []
  {
    var n := |schedule| - 1;
    && TurnOf(RunOf(a, schedule[..n]), schedule[n].0, schedule[n].1, before, xs)
    && (newRefs ==> AE.FreshAnswers(before, xs)) && after == A.Acts(before, xs)
  }

  ghost predicate MayBecome(newRefs: bool, a: Setup, schedule: seq<(Actor, Oracle)>, before: A.Host, after: A.Host)
    requires schedule != []
  {
    exists xs :: LastTurn(newRefs, a, schedule, before, xs, after)
  }

  /** What the last step of a run may make of the arm. */
  ghost function NextHosts(newRefs: bool, a: Setup, schedule: seq<(Actor, Oracle)>, before: A.Host): iset<A.Host>
    requires schedule != []
  {
    iset after: A.Host | MayBecome(newRefs, a, schedule, before, after)
  }

  /** The arm along a run, one state after each step of the cohort. */
  ghost predicate Joined(newRefs: bool, a: Setup, schedule: seq<(Actor, Oracle)>, hs: seq<A.Host>)
    decreases |schedule|
  {
    var n := |schedule|;
    && |hs| == n + 1
    && (n > 0 ==>
          Joined(newRefs, a, schedule[..n - 1], hs[..n]) && hs[n] in NextHosts(newRefs, a, schedule, hs[n - 1]))
  }

  ghost predicate MatchedAfter(newRefs: bool, a: Setup, schedule: seq<(Actor, Oracle)>, h: A.Host) {
    MatchedTallies(RunOf(a, schedule), h) && HostFit(newRefs, h)
  }

  ghost function Matching(newRefs: bool, a: Setup, schedule: seq<(Actor, Oracle)>): iset<A.Host> {
    iset h: A.Host | MatchedAfter(newRefs, a, schedule, h)
  }

  lemma LastMatches(newRefs: bool, a: Setup, schedule: seq<(Actor, Oracle)>, before: A.Host, after: A.Host)
    requires LaunchOk(false, a) && a.launch.armConfigured && schedule != []
    requires before in Matching(newRefs, a, schedule[..|schedule| - 1])
    requires after in NextHosts(newRefs, a, schedule, before)
    ensures after in Matching(newRefs, a, schedule)
  {
    var n := |schedule| - 1;
    var xs :| LastTurn(newRefs, a, schedule, before, xs, after);
    ReachableInv(false, a, schedule[..n]);
    E.LaunchStays(a, schedule[..n]);
    TurnFits(newRefs, before, xs);
    StepMatches(RunOf(a, schedule[..n]), schedule[n].0, schedule[n].1, before, xs);
  }

  lemma OpeningMatches(newRefs: bool, a: Setup, config: A.Config, base: seq<W.Entry>)
    requires A.DistinctRefs(base)
    ensures AT.Opened(config, Planned(a.launch), base) in Matching(newRefs, a, [])
  {
    AT.OpenedIsOk(config, Planned(a.launch), base);
  }

  /** Over every run of a cohort together with its arm, the arm's ledgers give for
      every session the counts its receipt will show. */
  lemma {:induction false} JoinedMatches(newRefs: bool, a: Setup, schedule: seq<(Actor, Oracle)>, hs: seq<A.Host>)
    requires LaunchOk(false, a) && a.launch.armConfigured
    requires Joined(newRefs, a, schedule, hs) && hs[0] in Matching(newRefs, a, [])
    ensures hs[|schedule|] in Matching(newRefs, a, schedule)
    decreases |schedule|
  {
    var n := |schedule|;
    if n == 0 {
      assert schedule == [];
    } else {
      JoinedMatches(newRefs, a, schedule[..n - 1], hs[..n]);
      assert hs[..n][n - 1] == hs[n - 1];
      LastMatches(newRefs, a, schedule, hs[n - 1], hs[n]);
    }
  }

  // ---------------------------------------------------------------- every run has its arm

  ghost predicate NamesNone(xs: seq<A.Action>) {
    forall k :: 0 <= k < |xs| ==> !(xs[k].PublisherReturns? && xs[k].result.Reference?)
  }

  lemma {:induction false} NamelessIsFresh(h: A.Host, xs: seq<A.Action>)
    requires NamesNone(xs)
    ensures AE.FreshAnswers(h, xs)
    decreases |xs|
  {
    if xs != [] {
      NamelessIsFresh(h, xs[..|xs| - 1]);
    }
  }

  /** Whatever a publication is answered, some candidate and some publisher answer
      it so. */
  lemma SomeTurn(h: A.Host, s: SessionId, r: PublishResult) returns (xs: seq<A.Action>)
    ensures Turn(h, s, r, xs) && NamesNone(xs)
  {
    var admitted := A.Submit(s, A.Contribution(W.Plain, false), W.Accepted);
    match r {
      case DriftBefore => xs := [];
      case ReviewRaised(_) => xs := [];
      case ArmRejects => xs := [A.Submit(s, A.NotContribution, W.Accepted)];
      case PublisherRaised(_) => xs := [admitted, A.PublisherRaises];
      case ResultRaised(_) => xs := [admitted, A.PublisherRaises];
      case _ => xs := [admitted, A.PublisherReturns(A.NoReference)];
    }
  }

  lemma SomeOtherTurn(c: State, d: State) returns (xs: seq<A.Action>)
    ensures OtherTurn(c, d, xs) && NamesNone(xs)
  {
    xs := if |d.offers| > |c.offers| then [A.Settles(d.offers[|c.offers|].receipt.session)] else [];
  }

  lemma SomeTurnOf(c: State, who: Actor, x: Oracle, h: A.Host) returns (xs: seq<A.Action>)
    ensures TurnOf(c, who, x, h, xs) && AE.FreshAnswers(h, xs)
  {
    if PublishesAt(c, who) {
      xs := SomeTurn(h, c.slots[who.slot].session, x.publish);
    } else {
      xs := SomeOtherTurn(c, Step(c, who, x));
    }
    NamelessIsFresh(h, xs);
  }

  lemma SomeNextHost(newRefs: bool, a: Setup, schedule: seq<(Actor, Oracle)>, before: A.Host) returns (after: A.Host)
    requires schedule != []
    ensures after in NextHosts(newRefs, a, schedule, before)
  {
    var n := |schedule| - 1;
    var xs := SomeTurnOf(RunOf(a, schedule[..n]), schedule[n].0, schedule[n].1, before);
    after := A.Acts(before, xs);
    assert LastTurn(newRefs, a, schedule, before, xs, after);
  }

  /** The answers a cohort is given are no more than an arm can give: every run at
      all goes together with some arm. */
  lemma {:induction false} EveryRunJoins(newRefs: bool, a: Setup, schedule: seq<(Actor, Oracle)>, h: A.Host)
    returns (hs: seq<A.Host>)
    ensures Joined(newRefs, a, schedule, hs) && hs[0] == h
    decreases |schedule|
  {
    if schedule == [] {
      hs := [h];
    } else {
      var before := EveryRunJoins(newRefs, a, schedule[..|schedule| - 1], h);
      var after := SomeNextHost(newRefs, a, schedule, before[|schedule| - 1]);
      hs := before + [after];
      assert hs[..|schedule|] == before;
    }
  }

  // ---------------------------------------------------------------- the receipt and its block

  lemma {:induction false} SettlingSettles(h: A.Host, xs: seq<A.Action>, s: SessionId)
    requires AllSettle(xs) && A.Settles(s) in xs && s in h.arm.sessions
    ensures s in A.Acts(h, xs).arm.settled
    decreases |xs|
  {
    var n := |xs| - 1;
    SettlingDecidesNone(h, xs[..n]);
    if xs[n] != A.Settles(s) {
      SettlingSettles(h, xs[..n], s);
    }
  }

  /** The last step of the run offers `f`. */
  ghost predicate OffersLast(a: Setup, schedule: seq<(Actor, Oracle)>, f: Offer) {
    && schedule != []
    && |RunOf(a, schedule).offers| > |RunOf(a, schedule[..|schedule| - 1]).offers|
    && RunOf(a, schedule).offers[|RunOf(a, schedule[..|schedule| - 1]).offers|] == f
  }

  ghost predicate Shows(c: State, d: State) {
    |d.offers| > |c.offers| ==>
      var r := d.offers[|c.offers|].receipt;
      r.session in c.launch.sessions && r.arm == OwnOf(d, r.session).arm
  }

  lemma LandsShows(c: State, d: State, i: nat, s: SessionId)
    requires i < |c.slots| && Lands(false, c, d, i, s) && s in c.launch.sessions
    ensures Shows(c, d)
  {
  }

  lemma FailedOffersNone(c: State, i: nat, s: SessionId, o: Outcome, p: StopProof, done: seq<string>, code: Code)
    requires i < |c.slots|
    ensures PublishFailed(c, i, s, o, p, done, code).offers == c.offers
  {
  }

  lemma NextOffersNone(c: State, i: nat, s: SessionId, o: Outcome, p: StopProof, k: nat, done: seq<string>)
    requires i < |c.slots|
    ensures NextContribution(c, i, s, o, p, k, done).offers == c.offers
  {
  }

  lemma RefuseOffersNone(c: State, i: nat, s: SessionId, o: Outcome, p: StopProof, k: nat, done: seq<string>, x: Oracle)
    requires i < |c.slots|
    ensures RefuseOne(c, i, s, o, p, k, done, x).offers == c.offers
  {
    if x.publish.DriftBefore? {
      FailedOffersNone(c, i, s, o, p, done, PublicationIdentityDrift);
    } else if x.publish.ReviewRaised? {
      FailedOffersNone(c, i, s, o, p, done, ErrorCode(x.publish.exn, PmwPublishFailed));
    } else {
      var own := OwnOf(c, s);
      NextOffersNone(SetOwn(c, s, own.(arm := Review(own.arm, true, false))), i, s, o, p, k + 1, done);
    }
  }

  lemma AdmitOffersNone(c: State, i: nat, s: SessionId, o: Outcome, p: StopProof, k: nat, done: seq<string>, x: Oracle)
    requires i < |c.slots| && k < |o.contributions|
    ensures AdmitOne(c, i, s, o, p, k, done, x).offers == c.offers
  {
    var m := SetOwn(c, s, AdmittedOwn(c.launch, OwnOf(c, s)));
    var all := done + [o.contributions[k]];
    if x.publish.DriftAfter? {
      FailedOffersNone(m, i, s, o, p, all, PublicationIdentityDrift);
    } else if x.publish.ObserveRaised? {
      FailedOffersNone(m, i, s, o, p, all, ErrorCode(x.publish.exn, PmwPublishFailed));
    } else {
      NextOffersNone(m, i, s, o, p, k + 1, all);
    }
  }

  lemma PublishOffersNone(c: State, i: nat, s: SessionId, o: Outcome, p: StopProof, k: nat, done: seq<string>, x: Oracle)
    requires i < |c.slots| && k < |o.contributions|
    ensures PublishOne(c, i, s, o, p, k, done, x).offers == c.offers
  {
    match x.publish {
      case PublisherRaised(e) =>
        var own := OwnOf(c, s);
        var m := SetOwn(c, s, own.(arm := Review(own.arm, c.launch.armConfigured, true)));
        FailedOffersNone(m, i, s, o, p, done, ErrorCode(e, PmwPublishFailed));
      case ResultRaised(e) =>
        var m := SetOwn(c, s, LostOwn(c.launch, OwnOf(c, s)));
        FailedOffersNone(m, i, s, o, p, done, ErrorCode(e, PmwPublishFailed));
      case _ =>
        RefuseOffersNone(c, i, s, o, p, k, done, x);
        AdmitOffersNone(c, i, s, o, p, k, done, x);
    }
  }

  lemma PublishingOffersNone(c: State, who: Actor, x: Oracle)
    requires PublishesAt(c, who)
    ensures Step(c, who, x).offers == c.offers
  {
    var phase := c.slots[who.slot].phase;
    PublishOffersNone(c, who.slot, c.slots[who.slot].session, phase.outcome, phase.proof, phase.next, phase.done, x);
  }

  lemma StepShowsTally(c: State, who: Actor, x: Oracle)
    requires Inv(false, c)
    ensures Shows(c, Step(c, who, x))
  {
    if who.SlotActor? && who.slot < |c.slots| {
      if c.slots[who.slot].Busy? {
        BusyStepLands(c, who.slot, x);
        assert SlotOk(false, c, c.slots[who.slot]);
        LandsShows(c, SlotStep(c, who.slot, x), who.slot, c.slots[who.slot].session);
      } else {
        E.FreeSlotAddsNone(c, who.slot, x);
      }
    }
  }

  lemma OfferShowsTally(newRefs: bool, a: Setup, schedule: seq<(Actor, Oracle)>, f: Offer, before: A.Host, after: A.Host)
    requires LaunchOk(false, a) && OffersLast(a, schedule, f) && after in NextHosts(newRefs, a, schedule, before)
    requires before.arm.sessions == Planned(a.launch)
    ensures f.receipt.arm == OwnOf(RunOf(a, schedule), f.receipt.session).arm
    ensures f.receipt.session in after.arm.settled
  {
    var n := |schedule| - 1;
    var xs :| LastTurn(newRefs, a, schedule, before, xs, after);
    ReachableInv(false, a, schedule[..n]);
    E.LaunchStays(a, schedule[..n]);
    StepShowsTally(RunOf(a, schedule[..n]), schedule[n].0, schedule[n].1);
    if PublishesAt(RunOf(a, schedule[..n]), schedule[n].0) {
      PublishingOffersNone(RunOf(a, schedule[..n]), schedule[n].0, schedule[n].1);
    }
    SettlingSettles(before, xs, f.receipt.session);
  }

  /** The receipt and its arm block, as the store reads them. */
  ghost predicate StoreAccepts(l: Launch, r: Receipt, e: A.Evidence) {
    AcceptsReceipt(l, r) && A.AcceptsEvidence(e) && ShowsCounts(r, e)
  }

  ghost predicate ShowsCounts(r: Receipt, e: A.Evidence) {
    r.arm == Tally(e.reviewed, e.admitted, e.rejected)
  }

  /** What the settlement kept for `s` does not repeat. */
  predicate KeptApart(h: A.Host, s: SessionId) {
    A.StrictlyIncreasing(A.LedgerOf(h.arm, s).released)
  }

  lemma FitEvidence(newRefs: bool, h: A.Host, s: SessionId)
    requires HostFit(newRefs, h)
    ensures A.AcceptsEvidence(A.SessionEvidence(h.arm, s)) <==> KeptApart(h, s)
    ensures newRefs ==> KeptApart(h, s)
  {
    AE.LedgerEvidenceIff(h.arm, s);
    if newRefs {
      assert AE.LedgerFresh(h.arm, A.LedgerOf(h.arm, s));
    }
  }

  /** In every run of a cohort with its arm, a receipt is offered with its session
      settled, and the arm's block read then shows the counts the receipt is
      accounted with and is accepted exactly when the released references do not
      repeat -- whatever raised before.  With a fresh publisher they never do. */
  lemma OfferedBlockIff(
    newRefs: bool, a: Setup, schedule: seq<(Actor, Oracle)>,
    config: A.Config, base: seq<W.Entry>, hs: seq<A.Host>, f: Offer)
    requires LaunchOk(false, a) && a.launch.armConfigured && A.DistinctRefs(base)
    requires Joined(newRefs, a, schedule, hs) && hs[0] == AT.Opened(config, Planned(a.launch), base)
    requires OffersLast(a, schedule, f)
    ensures var arm := hs[|schedule|].arm;
            && f.receipt.session in arm.settled
            && ShowsCounts(f.receipt, A.SessionEvidence(arm, f.receipt.session))
            && (A.AcceptsEvidence(A.SessionEvidence(arm, f.receipt.session)) <==>
                  KeptApart(hs[|schedule|], f.receipt.session))
    ensures newRefs ==> KeptApart(hs[|schedule|], f.receipt.session)
  {
    var n := |schedule| - 1;
    OpeningMatches(newRefs, a, config, base);
    JoinedMatches(newRefs, a, schedule[..n], hs[..n + 1]);
    JoinedMatches(newRefs, a, schedule, hs);
    E.LaunchStays(a, schedule[..n]);
    assert MatchedAfter(newRefs, a, schedule[..n], hs[n]) && MatchedAfter(newRefs, a, schedule, hs[n + 1]);
    OfferShowsTally(newRefs, a, schedule, f, hs[n], hs[n + 1]);
    FitEvidence(newRefs, hs[n + 1], f.receipt.session);
  }

  /** If moreover no receipt failed to be built and no write failed, the store
      accepts receipt and block together exactly when the error block fits and the
      released references do not repeat; with a fresh publisher the error block
      alone decides. */
  lemma OfferedTogetherIff(
    newRefs: bool, a: Setup, schedule: seq<(Actor, Oracle)>,
    config: A.Config, base: seq<W.Entry>, hs: seq<A.Host>, f: Offer)
    requires LaunchOk(true, a) && CalmRunOf(a, schedule) && a.launch.armConfigured && A.DistinctRefs(base)
    requires Joined(newRefs, a, schedule, hs) && hs[0] == AT.Opened(config, Planned(a.launch), base)
    requires OffersLast(a, schedule, f) && !f.late
    ensures StoreAccepts(a.launch, f.receipt, A.SessionEvidence(hs[|schedule|].arm, f.receipt.session)) <==>
              ValidError(f.receipt.error) && KeptApart(hs[|schedule|], f.receipt.session)
    ensures newRefs ==>
              (StoreAccepts(a.launch, f.receipt, A.SessionEvidence(hs[|schedule|].arm, f.receipt.session)) <==>
                 ValidError(f.receipt.error))
  {
    OfferedBlockIff(newRefs, a, schedule, config, base, hs, f);
    E.LaunchStays(a, schedule);
    OfferedReceiptsAgree(a, schedule, f);
  }
}
