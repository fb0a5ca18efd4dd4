/** Claiming the next invocation ordinal with exclusive creation, by any number
    of invocations at once. */
module KitOrdinals {
  import opened Contracts

  const MAXIMUM_INVOCATIONS: nat := 100_000

  /** An invocation counts the receipts, probes upward, claims, then writes its
      verdict. */
  datatype Invocation =
    | Counting
    | Probing(candidate: nat)
    | Claimed(ordinal: nat)
    | Published(number: nat)
    | LimitReached
    | Crashed

  datatype Evidence = Evidence(receipts: set<nat>, verdicts: set<nat>, invocations: seq<Invocation>)

  const EMPTY := Evidence({}, {}, [])

  /** A count made while others claim may miss names, but sees no more than are
      there. */
  datatype Action =
    | Begin
    | Count(who: nat, count: nat)
    | Probe(prober: nat)
    | Publish(publisher: nat)
    | Crash(dead: nat)

  function Set(e: Evidence, i: nat, x: Invocation): Evidence
    requires i < |e.invocations|
  {
    e.(invocations := e.invocations[i := x])
  }

  function CountStep(e: Evidence, i: nat, count: nat): Evidence
    requires i < |e.invocations|
  {
    if e.invocations[i] != Counting || count > |e.receipts| then e else Set(e, i, Probing(count + 1))
  }

  function ProbeStep(e: Evidence, i: nat): Evidence
    requires i < |e.invocations|
  {
    match e.invocations[i]
    case Probing(k) =>
      if k > MAXIMUM_INVOCATIONS then Set(e, i, LimitReached)
      else if k in e.receipts then Set(e, i, Probing(k + 1))
      else Set(e, i, Claimed(k)).(receipts := e.receipts + {k})
    case _ => e
  }

  /** The verdict file is created exclusively too: an existing one is an error. */
  function PublishStep(e: Evidence, i: nat): Evidence
    requires i < |e.invocations|
  {
    match e.invocations[i]
    case Claimed(k) =>
      if k in e.verdicts then Set(e, i, Crashed) else Set(e, i, Published(k)).(verdicts := e.verdicts + {k})
    case _ => e
  }

  function Act(e: Evidence, a: Action): Evidence {
    match a
    case Begin => e.(invocations := e.invocations + [Counting])
    case Count(i, n) => if i < |e.invocations| then CountStep(e, i, n) else e
    case Probe(i) => if i < |e.invocations| then ProbeStep(e, i) else e
    case Publish(i) => if i < |e.invocations| then PublishStep(e, i) else e
    case Crash(i) =>
      if i < |e.invocations| && !e.invocations[i].Published? then Set(e, i, Crashed) else e
  }

  function Acts(e: Evidence, xs: seq<Action>): Evidence
    decreases |xs|
  {
    if xs == [] then e else Act(Acts(e, xs[..|xs| - 1]), xs[|xs| - 1])
  }

  // ---------------------------------------------------------------- the invariant

  function UpTo(n: nat): (s: set<nat>)
    ensures |s| == n && forall k :: k in s <==> 1 <= k <= n
  {
    if n == 0 then {} else UpTo(n - 1) + {n}
  }

  function Ordinal(x: Invocation): Option<nat> {
    match x
    case Claimed(k) => Some(k)
    case Published(k) => Some(k)
    case _ => None
  }

  ghost predicate Holds(e: Evidence, i: nat, k: nat) {
    i < |e.invocations| && Ordinal(e.invocations[i]) == Some(k)
  }

  ghost predicate Inv(e: Evidence) {
    && e.receipts == UpTo(|e.receipts|) && |e.receipts| <= MAXIMUM_INVOCATIONS
    && (forall i: nat :: i < |e.invocations| ==> InvocationOk(e, e.invocations[i]))
    && (forall i: nat, k: nat {:trigger Holds(e, i, k)} :: Holds(e, i, k) ==> k in e.receipts)
    && (forall i: nat, j: nat, k: nat {:trigger Holds(e, i, k), Holds(e, j, k)} ::
          Holds(e, i, k) && Holds(e, j, k) ==> i == j)
    && e.verdicts <= e.receipts
  }

  /** A prober has seen every smaller name; a claimed verdict is still to come;
      the limit is reported only when every ordinal is taken. */
  ghost predicate InvocationOk(e: Evidence, x: Invocation) {
    match x
    case Probing(k) => 1 <= k <= |e.receipts| + 1
    case Claimed(k) => k !in e.verdicts
    case LimitReached => |e.receipts| == MAXIMUM_INVOCATIONS
    case _ => true
  }

  lemma ClaimIsNext(e: Evidence, k: nat)
    requires e.receipts == UpTo(|e.receipts|) && 1 <= k <= |e.receipts| + 1 && k !in e.receipts
    ensures k == |e.receipts| + 1 && e.receipts + {k} == UpTo(|e.receipts| + 1)
  {
  }

  lemma ProbeKeeps(e: Evidence, i: nat)
    requires Inv(e) && i < |e.invocations| && e.invocations[i].Probing?
    ensures Inv(ProbeStep(e, i))
  {
    var k := e.invocations[i].candidate;
    var d := ProbeStep(e, i);
    assert InvocationOk(e, e.invocations[i]);
    if k <= MAXIMUM_INVOCATIONS && k !in e.receipts {
      ClaimIsNext(e, k);
      assert |e.receipts + {k}| == |e.receipts| + 1;
      forall j: nat | j < |d.invocations| ensures InvocationOk(d, d.invocations[j]) {
        assert InvocationOk(e, e.invocations[j]);
      }
      assert forall j: nat, o: nat :: Holds(d, j, o) && j != i ==> Holds(e, j, o);
    } else {
      forall j: nat | j < |d.invocations| ensures InvocationOk(d, d.invocations[j]) {
        assert InvocationOk(e, e.invocations[j]);
      }
      assert forall j: nat, o: nat :: Holds(d, j, o) ==> Holds(e, j, o);
    }
  }

  lemma PublishKeeps(e: Evidence, i: nat)
    requires Inv(e) && i < |e.invocations|
    ensures Inv(PublishStep(e, i))
  {
    var d := PublishStep(e, i);
    if e.invocations[i].Claimed? {
      assert Holds(e, i, e.invocations[i].ordinal);
      forall j: nat | j < |d.invocations| ensures InvocationOk(d, d.invocations[j]) {
        assert InvocationOk(e, e.invocations[j]);
        assert e.invocations[j].Claimed? ==> Holds(e, j, e.invocations[j].ordinal);
      }
      assert forall j: nat, o: nat :: Holds(d, j, o) ==> Holds(e, j, o);
    }
  }

  /** An invocation moves on, or dies, without claiming. */
  lemma QuietKeeps(e: Evidence, i: nat, x: Invocation)
    requires Inv(e) && i < |e.invocations| && InvocationOk(e, x) && Ordinal(x).None?
    ensures Inv(Set(e, i, x))
  {
    var d := Set(e, i, x);
    forall j: nat | j < |d.invocations| ensures InvocationOk(d, d.invocations[j]) {
      assert InvocationOk(e, e.invocations[j]);
    }
    forall j: nat, o: nat | Holds(d, j, o) ensures Holds(e, j, o) {
    }
  }

  lemma BeginKeeps(e: Evidence)
    requires Inv(e)
    ensures Inv(Act(e, Begin))
  {
    var d := Act(e, Begin);
    forall j: nat | j < |d.invocations| ensures InvocationOk(d, d.invocations[j]) {
      assert j < |e.invocations| ==> InvocationOk(e, e.invocations[j]);
    }
    forall j: nat, o: nat | Holds(d, j, o) ensures Holds(e, j, o) {
    }
  }

  lemma CountKeeps(e: Evidence, i: nat, n: nat)
    requires Inv(e)
    ensures Inv(Act(e, Count(i, n)))
  {
    if i < |e.invocations| && e.invocations[i] == Counting && n <= |e.receipts| {
      QuietKeeps(e, i, Probing(n + 1));
    }
  }

  lemma ProbedKeeps(e: Evidence, i: nat)
    requires Inv(e)
    ensures Inv(Act(e, Probe(i)))
  {
    if i < |e.invocations| && e.invocations[i].Probing? {
      ProbeKeeps(e, i);
    }
  }

  lemma PublishedKeeps(e: Evidence, i: nat)
    requires Inv(e)
    ensures Inv(Act(e, Publish(i)))
  {
    if i < |e.invocations| {
      PublishKeeps(e, i);
    }
  }

  lemma CrashKeeps(e: Evidence, i: nat)
    requires Inv(e)
    ensures Inv(Act(e, Crash(i)))
  {
    if i < |e.invocations| && !e.invocations[i].Published? {
      QuietKeeps(e, i, Crashed);
    }
  }

  lemma ActKeeps(e: Evidence, a: Action)
    requires Inv(e)
    ensures Inv(Act(e, a))
  {
    match a {
      case Begin => BeginKeeps(e);
      case Count(i, n) => CountKeeps(e, i, n);
      case Probe(i) => ProbedKeeps(e, i);
      case Publish(i) => PublishedKeeps(e, i);
      case Crash(i) => CrashKeeps(e, i);
    }
  }

  lemma {:induction false} ActsKeep(e: Evidence, xs: seq<Action>)
    requires Inv(e)
    ensures Inv(Acts(e, xs))
    decreases |xs|
  {
    if xs != [] {
      ActsKeep(e, xs[..|xs| - 1]);
      ActKeeps(Acts(e, xs[..|xs| - 1]), xs[|xs| - 1]);
    }
  }

  /** Under every interleaving, crashes included: the receipt names are 1 to n,
      no ordinal is claimed twice, and the limit is reported only when full. */
  lemma OrdinalsAreGapFree(xs: seq<Action>, i: nat, j: nat)
    ensures var e := Acts(EMPTY, xs);
            && e.receipts == UpTo(|e.receipts|) && |e.receipts| <= MAXIMUM_INVOCATIONS
            && (forall k: nat :: Holds(e, i, k) && Holds(e, j, k) ==> i == j)
            && (i < |e.invocations| && e.invocations[i].LimitReached? ==> |e.receipts| == MAXIMUM_INVOCATIONS)
  {
    ActsKeep(EMPTY, xs);
    var e := Acts(EMPTY, xs);
    assert i < |e.invocations| ==> InvocationOk(e, e.invocations[i]);
  }

  /** Whoever claimed an ordinal finds its verdict name free. */
  lemma VerdictNeverCollides(xs: seq<Action>, i: nat)
    requires i < |Acts(EMPTY, xs).invocations| && Acts(EMPTY, xs).invocations[i].Claimed?
    ensures PublishStep(Acts(EMPTY, xs), i).invocations[i] == Published(Acts(EMPTY, xs).invocations[i].ordinal)
  {
    ActsKeep(EMPTY, xs);
    assert InvocationOk(Acts(EMPTY, xs), Acts(EMPTY, xs).invocations[i]);
  }

  /** The program of one invocation that meets no other: it counts, then probes
      in a loop, and claims the next ordinal or reports the limit. */
  method ClaimOrdinal(receipts: set<nat>, counted: nat) returns (ordinal: Option<nat>, after: set<nat>)
    requires receipts == UpTo(|receipts|) && |receipts| <= MAXIMUM_INVOCATIONS && counted <= |receipts|
    ensures ordinal == if |receipts| < MAXIMUM_INVOCATIONS then Some(|receipts| + 1) else None
    ensures after == UpTo(if ordinal.Some? then |receipts| + 1 else |receipts|)
  {
    var candidate := counted + 1;
    while candidate <= MAXIMUM_INVOCATIONS
      invariant 1 <= candidate <= |receipts| + 1
    {
      if candidate !in receipts {
        ClaimIsNext(Evidence(receipts, {}, []), candidate);
        return Some(candidate), receipts + {candidate};
      }
      candidate := candidate + 1;
    }
    return None, receipts;
  }
}
