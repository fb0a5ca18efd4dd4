/** The arm as the object the host mutates.  Its methods move it as AgendaArm's
    functions do; the publication lock is AgendaArm's `Host`. */
module AgendaHost {
  import opened Contracts
  import W = Worklist
  import A = AgendaArm
  import AT = AgendaTheorems

  class Arm {
    const config: A.Config
    const sessions: set<SessionId>
    const admitters: set<SessionId>
    const baseTick: nat
    var entries: seq<W.Entry>
    var ticks: map<W.Ref, nat>
    var now: nat
    var settled: set<SessionId>
    var ledgers: map<SessionId, A.Ledger>
    var divergences: nat

    ghost function View(): A.Arm
      reads this
    {
      A.Arm(config, sessions, W.Snapshot(entries, now, ticks, admitters), baseTick, settled, ledgers, divergences)
    }

    constructor (c: A.Config, ids: set<SessionId>, base: seq<W.Entry>)
      ensures View() == A.Open(c, ids, base)
      ensures A.DistinctRefs(base) ==> AT.Sound(View())
      ensures A.Authors(base) !! ids ==> AT.Exclusive(View())
    {
      config, sessions := c, ids;
      admitters := if c.admittingSlots.None? then ids + A.Authors(base) else c.admittingSlots.value;
      baseTick, now := |base|, |base|;
      entries := base;
      ticks := map r | r in A.Refs(base) :: |base|;
      settled, ledgers, divergences := {}, map[], 0;
      new;
      if A.DistinctRefs(base) {
        AT.OpenClock(c, ids, base);
      }
      if A.Authors(base) !! ids {
        AT.ForeignWorldIsExclusive(c, ids, base);
      }
    }

    function Snapshot(): W.Snapshot
      reads this
    {
      W.Snapshot(entries, now, ticks, admitters)
    }

    method Ledger(s: SessionId) returns (l: A.Ledger)
      ensures l == A.LedgerOf(View(), s)
    {
      l := if s in ledgers then ledgers[s] else A.NO_LEDGER;
    }

    /** Vacates a conflict when no blocking holder can still act. */
    method ClaimVerdict(t: W.Ref) returns (v: W.Verdict)
      ensures v == A.ClaimVerdict(View(), t)
    {
      var w := Snapshot();
      v := W.ValidateClaim(w, t);
      if !A.Liveness(v) {
        return;
      }
      for k := 0 to |entries|
        invariant forall j :: 0 <= j < k && W.Blocking(w, j, t) ==> A.CannotAct(View(), W.Holder(w, j))
      {
        if W.Blocking(w, k, t) {
          var holder := W.Holder(w, k);
          if holder in sessions && holder !in settled {
            return;
          }
        }
      }
      v := W.Accepted;
    }

    method Verdict(s: SessionId, body: W.Body, primary: bool, other: W.Verdict) returns (v: W.Verdict)
      ensures v == A.VerdictOn(View(), s, body, primary, other)
    {
      var w := Snapshot();
      match body {
        case Plain => v := if config.enforceCitation && primary then other else W.Accepted;
        case Malformed(_, wrongKind) => v := if wrongKind then W.RecordKindNotAllowed else W.PayloadMalformed;
        case Proposal(dependencies) => v := W.ValidateProposal(w, dependencies);
        case Admission(_, _, _) => v := W.ValidateAdmission(w, body, s);
        case Claim(t, _) => v := ClaimVerdict(t);
        case Release(t, c) => v := W.HeldVerdict(w, t, c, s);
        case Outcome(_, _, _, _, _) => v := W.ValidateOutcome(w, body, s);
        case _ => v := other;
      }
    }

    /** Only the session's ledger moves; what is admitted may be appended. */
    method Review(s: SessionId, c: A.Candidate, other: W.Verdict) returns (d: A.Decision)
      modifies this`ledgers
      ensures View() == A.Review(old(View()), s, c, other)
      ensures d == A.Decide(old(View()), s, c, other)
      ensures AT.Sound(old(View())) ==>
                && AT.Follows(old(View()), View())
                && (c.Contribution? && d.code == W.Accepted ==> AT.Admissible(View(), W.Record(s, c.body)))
    {
      var l := Ledger(s);
      if AT.Sound(View()) {
        AT.ReviewIsSound(View(), s, c, other);
      }
      var ordinal := |l.decisions| + 1;
      match c {
        case NotContribution =>
          d := A.Decision(ordinal, None, None, W.CandidateNotIdentityFree);
        case Contribution(body, primary) =>
          var schema := W.SchemaOf(body);
          var code := W.OutOfArmInstrument;
          if schema.None? || A.Exposes(config.arm, schema.value) {
            code := Verdict(s, body, primary, other);
          }
          d := A.Decision(ordinal, schema, Some(A.InstrumentOf(schema)), code);
      }
      ledgers := ledgers[s := l.(decisions := l.decisions + [d])];
    }

    /** False when the clock is exhausted and the caller sees an error. */
    method Append(r: W.Ref, content: Option<W.Record>) returns (ok: bool)
      modifies this
      ensures ok == !A.ClockExhausted(old(View()), r)
      ensures View() == if r in old(ticks) then old(View()).(divergences := old(divergences) + 1)
                        else if !ok then old(View()) else A.Append(old(View()), r, content)
      ensures AT.Sound(old(View())) && AT.Trusted(old(View()), content) ==> AT.Follows(old(View()), View())
    {
      if AT.Sound(View()) && AT.Trusted(View(), content) {
        AT.AppendIsSound(View(), r, content);
      }
      ok := true;
      if r in ticks {
        divergences := divergences + 1;
      } else if now >= A.MAXIMUM_TICK {
        ok := false;
      } else {
        now := now + 1;
        ticks := ticks[r := now];
        entries := entries + [W.Entry(r, content)];
      }
    }

    method Observe(s: SessionId, c: A.Candidate, result: A.Result)
      modifies this
      ensures View() == A.Observe(old(View()), s, c, result)
      ensures AT.Sound(old(View())) && AT.Observable(old(View()), s, c) ==> AT.Follows(old(View()), View())
    {
      AT.ObserveFollows(View(), s, c, result);
      Take(s, c, result);
    }

    method Take(s: SessionId, c: A.Candidate, result: A.Result)
      modifies this
      ensures View() == A.Observe(old(View()), s, c, result)
    {
      if result.NoReference? {
        divergences := divergences + 1;
        return;
      }
      var content := None;
      if c.Contribution? && result.sameContent {
        content := Some(W.Record(s, c.body));
      }
      if content.None? {
        divergences := divergences + 1;
      }
      var ok := Append(result.ref, content);
      if ok && c.Contribution? && W.SchemaOf(c.body) == Some(W.TaskClaimSchema) {
        var l := Ledger(s);
        ledgers := ledgers[s := l.(claimRefs := l.claimRefs + [result.ref])];
      }
    }

    method Settle(s: SessionId)
      modifies this
      ensures View() == A.Settle(old(View()), s)
      ensures AT.Sound(old(View())) ==> AT.Follows(old(View()), View())
    {
      if AT.Sound(View()) {
        AT.SettleIsSound(View(), s);
      }
      if s in settled {
        return;
      }
      var l := Ledger(s);
      var refs := [];
      for k := 0 to |l.claimRefs|
        invariant refs == A.OccupyingRefs(Snapshot(), l.claimRefs[..k])
        invariant View() == old(View())
      {
        assert l.claimRefs[..k + 1][..k] == l.claimRefs[..k];
        if A.OccupiesByRef(Snapshot(), l.claimRefs[k]) {
          refs := refs + [l.claimRefs[k]];
        }
      }
      assert l.claimRefs[..|l.claimRefs|] == l.claimRefs;
      var released := A.First(A.Sort(refs), A.MAXIMUM_RELEASED_CLAIM_REFS);
      settled := settled + {s};
      ledgers := ledgers[s := l.(released := released, releasedAt := Some(now), settledTick := Some(now))];
    }

    /** One pass over the decisions fills every count. */
    method SessionEvidence(s: SessionId) returns (e: A.Evidence)
      ensures e == A.SessionEvidence(View(), s)
    {
      var l := Ledger(s);
      var ds := l.decisions;
      var verdicts, bySchema, admitted := [], [], 0;
      var instruments := [(A.Advisory, 0), (A.Binding, 0), (A.DirectiveInstrument, 0)];
      for k := 0 to |ds|
        invariant verdicts == A.Verdicts(ds[..k]) && bySchema == A.Schemas(ds[..k])
        invariant instruments == A.Attempts(ds[..k]) && admitted == A.AdmittedCount(ds[..k])
      {
        assert ds[..k + 1][..k] == ds[..k];
        verdicts := A.Bump(verdicts, ds[k].code);
        if ds[k].instrument.Some? {
          instruments := A.Bump(instruments, ds[k].instrument.value);
        }
        if ds[k].schema.Some? {
          bySchema := A.Bump(bySchema, ds[k].schema.value);
        }
        if ds[k].code == W.Accepted {
          admitted := admitted + 1;
        }
      }
      assert ds[..|ds|] == ds;
      var recorded := if |ds| <= A.MAXIMUM_RECORDED_DECISIONS then ds else ds[..A.MAXIMUM_RECORDED_DECISIONS];
      e := A.Evidence(|ds|, admitted, |ds| - admitted, verdicts, instruments, bySchema, l.released, l.releasedAt,
                      baseTick, if l.settledTick.Some? then l.settledTick.value else now,
                      recorded, |ds| > |recorded|, divergences);
    }
  }
}
