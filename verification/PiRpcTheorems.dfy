/** Over every run of the protocol: gap-free ordinals, requests observed before
    their responses, answers that belong to their calls. */
module PiRpcTheorems {
  import opened Contracts
  import opened PiRpc

  function IdOf(p: Phase): Option<RequestId> {
    match p
    case Queued => None
    case Numbered(id) => Some(id)
    case Writing(id) => Some(id)
    case Observing(id) => Some(id)
    case Awaiting(id) => Some(id)
    case Returned(id, _) => Some(id)
    case GaveUp(_) => None
  }

  /** A call between its number and its end. */
  predicate InFlight(p: Phase) {
    p.Numbered? || p.Writing? || p.Observing? || p.Awaiting?
  }

  ghost predicate Named(c: State, i: nat, id: RequestId) {
    i < |c.calls| && IdOf(c.calls[i].phase) == Some(id)
  }

  // ---------------------------------------------------------------- numbers and answers

  ghost predicate NumbersOk(c: State) {
    && (forall i: nat, id: RequestId {:trigger Named(c, i, id)} :: Named(c, i, id) ==> 1 <= id <= c.requestCount)
    && (forall i: nat, j: nat, id: RequestId {:trigger Named(c, i, id), Named(c, j, id)} ::
          Named(c, i, id) && Named(c, j, id) ==> i == j)
    && (forall id :: id in c.wire || id in c.mismatched || id in c.pending ==> 1 <= id <= c.requestCount)
  }

  predicate Answers(x: Call, id: RequestId, f: Frame) {
    f == Response(Some(id), x.command)
  }

  ghost predicate CallOk(c: State, i: nat)
    requires i < |c.calls|
  {
    var x := c.calls[i];
    && (x.phase.Returned? ==> Answers(x, x.phase.id, x.phase.answer) && x.future == Resolved(x.phase.answer))
    && (IdOf(x.phase).Some? && x.future.Resolved? ==> Answers(x, IdOf(x.phase).value, x.future.frame))
    && (x.phase.Queued? ==> x.future.Unresolved?)
    && (IdOf(x.phase).Some? && IdOf(x.phase).value in c.mismatched ==> x.future.Unresolved? && InFlight(x.phase))
    && (InFlight(x.phase) && x.future.Unresolved? ==>
          var id := IdOf(x.phase).value;
          if id in c.pending then id !in c.mismatched else id in c.mismatched)
  }

  ghost predicate PendingOk(c: State, id: RequestId)
    requires id in c.pending
  {
    var i := c.pending[id];
    Named(c, i, id) && InFlight(c.calls[i].phase) && c.calls[i].future.Unresolved?
  }

  ghost predicate AnswersOk(c: State) {
    && (forall i :: 0 <= i < |c.calls| ==> CallOk(c, i))
    && (forall id :: id in c.pending ==> PendingOk(c, id))
    && (c.mismatched != {} ==> c.failed && c.reader.Stopped?)
  }

  // ---------------------------------------------------------------- locks

  predicate HoldsSend(p: Phase) {
    p.Numbered? || p.Writing? || p.Observing?
  }

  ghost predicate LocksOk(c: State) {
    && (forall i: nat :: i < |c.calls| ==> (HoldsSend(c.calls[i].phase) <==> c.sendLock == Some(i)))
    && (forall i: nat :: i < |c.calls| ==>
          (c.observed && (c.calls[i].phase.Writing? || c.calls[i].phase.Observing?) <==> c.lock == ByCall(i)))
    && (c.observed && c.reader.Reporting? <==> c.lock == ByReader)
    && (c.lock.ByCall? ==> c.lock.call < |c.calls|)
    && (c.sendLock.Some? ==> c.sendLock.value < |c.calls|)
    && (forall i: nat :: i < |c.calls| && c.calls[i].phase.Observing? ==> c.observed)
  }

  // ---------------------------------------------------------------- the log

  ghost predicate LogOk(c: State) {
    && |c.log| == c.observationCount
    && (forall k :: 0 <= k < |c.log| ==> c.log[k].ordinal == k + 1)
    && (!c.observed ==> c.log == [])
  }

  /** The request was handed over and, if it was observed at all, that is done. */
  ghost predicate Sent(c: State, id: RequestId) {
    && id in c.wire && 1 <= id <= c.requestCount
    && forall i: nat :: !Unsent(c, i, id)
  }

  ghost predicate WireOk(c: State) {
    && (forall i: nat :: i < |c.calls| && c.calls[i].phase.Numbered? ==> c.calls[i].phase.id !in c.wire)
    && (forall i: nat :: i < |c.calls| && c.calls[i].phase.Writing? ==> c.calls[i].phase.id in c.wire)
    && (forall k :: 0 <= k < |c.log| && c.log[k].what.HostToPi? ==> Sent(c, c.log[k].what.id))
  }

  predicate IsResponseTo(o: Observed, id: RequestId) {
    o.PiToHost? && o.frame.Response? && o.frame.id == Some(id)
  }

  predicate RequestAt(log: seq<Observation>, p: int, id: RequestId) {
    0 <= p < |log| && log[p].what == HostToPi(id)
  }

  /** For a peer that answers only what it was sent. */
  ghost predicate OrderOk(c: State) {
    && (c.reader.Holding? && c.reader.frame.Response? && c.reader.frame.id.Some? ==> c.reader.frame.id.value in c.wire)
    && (forall q, id: RequestId :: 0 <= q < |c.log| && IsResponseTo(c.log[q].what, id) ==> Sent(c, id))
    && (forall p, q, id: RequestId ::
          RequestAt(c.log, p, id) && 0 <= q < |c.log| && IsResponseTo(c.log[q].what, id) ==> p < q)
  }

  ghost predicate Inv(c: State) {
    NumbersOk(c) && AnswersOk(c) && LocksOk(c) && LogOk(c) && WireOk(c)
  }

  // ---------------------------------------------------------------- numbers and answers, step by step

  lemma SetFailureKeeps(c: State)
    requires NumbersOk(c) && AnswersOk(c)
    ensures NumbersOk(SetFailure(c)) && AnswersOk(SetFailure(c))
  {
    var d := SetFailure(c);
    assert forall i: nat, id: RequestId :: Named(d, i, id) <==> Named(c, i, id);
    forall i | 0 <= i < |d.calls| ensures CallOk(d, i) {
      assert CallOk(c, i);
      if !c.failed && InFlight(c.calls[i].phase) && c.calls[i].future.Unresolved? {
        var id := IdOf(c.calls[i].phase).value;
        if id in c.pending {
          assert PendingOk(c, id);
          assert Named(c, i, id);
        }
      }
    }
  }

  lemma StartKeeps(c: State, command: Command)
    requires NumbersOk(c) && AnswersOk(c)
    ensures NumbersOk(StartCall(c, command)) && AnswersOk(StartCall(c, command))
  {
    var d := StartCall(c, command);
    assert forall i: nat, id: RequestId :: Named(d, i, id) <==> Named(c, i, id);
    forall i | 0 <= i < |d.calls| ensures CallOk(d, i) {
      assert i < |c.calls| ==> CallOk(c, i);
    }
    forall id | id in d.pending ensures PendingOk(d, id) {
      assert PendingOk(c, id);
    }
  }

  lemma TakeNumberKeeps(c: State, i: nat)
    requires NumbersOk(c) && AnswersOk(c) && i < |c.calls|
    ensures NumbersOk(TakeNumber(c, i)) && AnswersOk(TakeNumber(c, i))
  {
    var d := TakeNumber(c, i);
    if d != c {
      var n := c.requestCount + 1;
      assert CallOk(c, i);
      assert forall j: nat, id: RequestId :: j != i ==> (Named(d, j, id) <==> Named(c, j, id));
      forall j | 0 <= j < |d.calls| ensures CallOk(d, j) {
        assert CallOk(c, j);
        assert j != i && IdOf(c.calls[j].phase).Some? ==> Named(c, j, IdOf(c.calls[j].phase).value);
      }
      forall id | id in d.pending ensures PendingOk(d, id) {
        assert id != n ==> PendingOk(c, id);
      }
    }
  }

  /** A step that moves call `i` on without touching its number or future. */
  lemma MoveKeeps(c: State, d: State, i: nat)
    requires NumbersOk(c) && AnswersOk(c) && i < |c.calls| && |d.calls| == |c.calls|
    requires d.calls == c.calls[i := c.calls[i].(phase := d.calls[i].phase)]
    requires InFlight(c.calls[i].phase) && InFlight(d.calls[i].phase)
    requires IdOf(d.calls[i].phase) == IdOf(c.calls[i].phase)
    requires d.pending == c.pending && d.mismatched == c.mismatched && d.requestCount == c.requestCount
    requires d.failed == c.failed && d.reader == c.reader
    requires d.wire <= c.wire + {IdOf(c.calls[i].phase).value}
    ensures NumbersOk(d) && AnswersOk(d)
  {
    assert forall j: nat, id: RequestId :: Named(d, j, id) <==> Named(c, j, id);
    assert Named(c, i, IdOf(c.calls[i].phase).value);
    forall j | 0 <= j < |d.calls| ensures CallOk(d, j) {
      assert CallOk(c, j);
    }
    forall id | id in d.pending ensures PendingOk(d, id) {
      assert PendingOk(c, id);
    }
  }

  lemma DropKeeps(c: State, i: nat, id: RequestId, e: CallError)
    requires NumbersOk(c) && AnswersOk(c) && Named(c, i, id) && InFlight(c.calls[i].phase)
    ensures NumbersOk(DropCall(c, i, id, e)) && AnswersOk(DropCall(c, i, id, e))
  {
    var d := DropCall(c, i, id, e);
    assert forall j: nat, k: RequestId :: Named(d, j, k) ==> Named(c, j, k);
    forall j | 0 <= j < |d.calls| ensures CallOk(d, j) {
      assert CallOk(c, j);
      assert IdOf(c.calls[j].phase) == Some(id) ==> Named(c, j, id);
    }
    forall k | k in d.pending ensures PendingOk(d, k) {
      assert PendingOk(c, k);
      assert Named(c, c.pending[k], k);
    }
  }

  /** A waiting call takes the outcome of its future. */
  lemma ResumeKeeps(c: State, i: nat)
    requires NumbersOk(c) && AnswersOk(c) && i < |c.calls|
    ensures NumbersOk(Resume(c, i)) && AnswersOk(Resume(c, i))
  {
    var d := Resume(c, i);
    assert CallOk(c, i);
    assert forall j: nat, k: RequestId :: Named(d, j, k) ==> Named(c, j, k);
    forall j | 0 <= j < |d.calls| ensures CallOk(d, j) {
      assert CallOk(c, j);
    }
    forall k | k in d.pending ensures PendingOk(d, k) {
      assert PendingOk(c, k);
    }
  }

  /** Only the reader's own state changes. */
  lemma ReaderMoves(c: State, d: State)
    requires NumbersOk(c) && AnswersOk(c)
    requires d == c.(reader := d.reader, lock := d.lock, observationCount := d.observationCount, log := d.log)
    requires c.reader.Stopped? ==> d.reader.Stopped?
    ensures NumbersOk(d) && AnswersOk(d)
  {
    assert forall j: nat, k: RequestId :: Named(d, j, k) <==> Named(c, j, k);
    forall j | 0 <= j < |d.calls| ensures CallOk(d, j) {
      assert CallOk(c, j);
    }
    forall k | k in d.pending ensures PendingOk(d, k) {
      assert PendingOk(c, k);
    }
  }

  lemma MismatchKeeps(c: State, f: Frame)
    requires NumbersOk(c) && AnswersOk(c) && f.Response? && f.id.Some? && f.id.value in c.pending
    requires c.calls[c.pending[f.id.value]].command != f.command
    requires c.pending[f.id.value] < |c.calls|
    ensures NumbersOk(Match(c, f)) && AnswersOk(Match(c, f))
  {
    var (id, i) := (f.id.value, c.pending[f.id.value]);
    assert PendingOk(c, id);
    var m := c.(pending := Without(c.pending, id), mismatched := c.mismatched + {id}, reader := Stopped);
    var d := Match(c, f);
    assert d == SetFailure(m);
    assert forall j: nat, k: RequestId :: Named(d, j, k) <==> Named(c, j, k);
    forall j | 0 <= j < |d.calls| ensures CallOk(d, j) {
      MismatchCall(c, m, id, j);
    }
    forall k | k in d.pending ensures PendingOk(d, k) {
      assert PendingOk(c, k);
    }
  }

  lemma MismatchCall(c: State, m: State, id: RequestId, j: nat)
    requires NumbersOk(c) && AnswersOk(c) && id in c.pending && j < |c.calls|
    requires m == c.(pending := Without(c.pending, id), mismatched := c.mismatched + {id}, reader := Stopped)
    ensures CallOk(SetFailure(m), j)
  {
    assert PendingOk(c, id);
    assert CallOk(c, j);
    var x := c.calls[j];
    forall o | o in m.pending && m.pending[o] == j ensures IdOf(x.phase) == Some(o) {
      assert PendingOk(c, o);
    }
    if IdOf(x.phase).Some? {
      var k := IdOf(x.phase).value;
      assert Named(c, j, k);
      if k in c.pending {
        assert PendingOk(c, k);
        assert Named(c, c.pending[k], k);
        assert k != id ==> k in m.pending && m.pending[k] == j;
      }
      assert k == id ==> forall o :: o in m.pending ==> m.pending[o] != j;
      assert k in c.mismatched ==> forall o :: o in m.pending ==> m.pending[o] != j;
    }
  }

  lemma ResolveKeeps(c: State, f: Frame)
    requires NumbersOk(c) && AnswersOk(c) && f.Response? && f.id.Some? && f.id.value in c.pending
    requires c.pending[f.id.value] < |c.calls| && c.calls[c.pending[f.id.value]].command == f.command
    requires !c.reader.Stopped?
    ensures NumbersOk(Match(c, f)) && AnswersOk(Match(c, f))
  {
    var (id, i) := (f.id.value, c.pending[f.id.value]);
    var d := Match(c, f);
    assert PendingOk(c, id);
    assert forall j: nat, k: RequestId :: Named(d, j, k) <==> Named(c, j, k);
    forall j | 0 <= j < |d.calls| ensures CallOk(d, j) {
      assert CallOk(c, j);
      assert IdOf(c.calls[j].phase) == Some(id) ==> Named(c, j, id);
    }
    forall k | k in d.pending ensures PendingOk(d, k) {
      assert PendingOk(c, k);
      assert Named(c, c.pending[k], k);
    }
  }

  lemma HandleKeeps(c: State, ok: bool)
    requires NumbersOk(c) && AnswersOk(c)
    ensures NumbersOk(HandleFrame(c, ok)) && AnswersOk(HandleFrame(c, ok))
  {
    if c.reader.Reporting? {
      var f := c.reader.frame;
      var c1 := c.(lock := if c.observed then Open else c.lock);
      ReaderMoves(c, c1);
      if !ok || !f.Response? || f.id.None? || f.id.value !in c1.pending {
        ReaderMoves(c1, c1.(reader := Stopped));
        SetFailureKeeps(c1.(reader := Stopped));
        ReaderMoves(c1, c1.(reader := Reading));
      } else {
        assert PendingOk(c1, f.id.value);
        if c1.calls[c1.pending[f.id.value]].command != f.command {
          MismatchKeeps(c1, f);
        } else {
          ResolveKeeps(c1, f);
        }
      }
    }
  }

  lemma CallStepKeeps(c: State, i: nat, ok: bool)
    requires NumbersOk(c) && AnswersOk(c) && i < |c.calls|
    ensures NumbersOk(WriteRequest(c, i)) && AnswersOk(WriteRequest(c, i))
    ensures NumbersOk(Drained(c, i, ok)) && AnswersOk(Drained(c, i, ok))
  {
    var p := c.calls[i].phase;
    if p.Numbered? && !(c.observed && c.lock != Open) {
      MoveKeeps(c, WriteRequest(c, i), i);
    }
    if p.Writing? {
      assert Named(c, i, p.id);
      if ok {
        MoveKeeps(c, Drained(c, i, ok), i);
      } else {
        DropKeeps(c, i, p.id, WriteFailed);
        SameCalls(DropCall(c, i, p.id, WriteFailed), Drained(c, i, ok));
      }
    }
  }

  /** Locks and the log are no part of numbers and answers. */
  lemma SameCalls(c: State, d: State)
    requires NumbersOk(c) && AnswersOk(c)
    requires d == c.(lock := d.lock, sendLock := d.sendLock, observationCount := d.observationCount, log := d.log)
    ensures NumbersOk(d) && AnswersOk(d)
  {
    assert forall j: nat, k: RequestId :: Named(d, j, k) <==> Named(c, j, k);
    forall j | 0 <= j < |d.calls| ensures CallOk(d, j) {
      assert CallOk(c, j);
    }
    forall k | k in d.pending ensures PendingOk(d, k) {
      assert PendingOk(c, k);
    }
  }

  lemma ObservedKeeps(c: State, i: nat, ok: bool)
    requires NumbersOk(c) && AnswersOk(c) && i < |c.calls|
    ensures NumbersOk(RequestObserved(c, i, ok)) && AnswersOk(RequestObserved(c, i, ok))
  {
    var p := c.calls[i].phase;
    if p.Observing? {
      assert Named(c, i, p.id);
      if ok {
        MoveKeeps(c, RequestObserved(c, i, ok), i);
      } else {
        DropKeeps(c, i, p.id, ObserverFailed);
        SameCalls(DropCall(c, i, p.id, ObserverFailed),
                  DropCall(c, i, p.id, ObserverFailed).(sendLock := None, lock := Open));
        SetFailureKeeps(DropCall(c, i, p.id, ObserverFailed).(sendLock := None, lock := Open));
      }
    }
  }

  lemma ActKeepsAnswers(c: State, a: Action)
    requires NumbersOk(c) && AnswersOk(c)
    ensures NumbersOk(Act(c, a)) && AnswersOk(Act(c, a))
  {
    match a {
      case Starts(command) => StartKeeps(c, command);
      case TakesNumber(i) => if i < |c.calls| { TakeNumberKeeps(c, i); }
      case Writes(i) => if i < |c.calls| { CallStepKeeps(c, i, true); }
      case Drains(i, ok) => if i < |c.calls| { CallStepKeeps(c, i, ok); }
      case IsObserved(i, ok) => if i < |c.calls| { ObservedKeeps(c, i, ok); }
      case Resumes(i) => if i < |c.calls| { ResumeKeeps(c, i); }
      case TimesOut(i) =>
        if i < |c.calls| && c.calls[i].phase.Awaiting? && c.calls[i].future.Unresolved? {
          assert Named(c, i, c.calls[i].phase.id);
          DropKeeps(c, i, c.calls[i].phase.id, ResponseTimeout);
        }
      case Reads(f) => ReadKeeps(c, f);
      case Reports => if c.reader.Holding? { ReaderMoves(c, ReportFrame(c)); }
      case Handles(ok) => HandleKeeps(c, ok);
      case StopsReading => ReaderMoves(c, Act(c, a));
    }
  }

  lemma ReadKeeps(c: State, f: Option<Frame>)
    requires NumbersOk(c) && AnswersOk(c)
    ensures NumbersOk(ReadFrame(c, f)) && AnswersOk(ReadFrame(c, f))
  {
    if c.reader.Reading? {
      if f.None? {
        ReaderMoves(c, c.(reader := Stopped));
        SetFailureKeeps(c.(reader := Stopped));
      } else {
        ReaderMoves(c, ReadFrame(c, f));
      }
    }
  }

  // ---------------------------------------------------------------- locks, step by step

  /** Failing the pending futures moves no call, no lock and no log entry. */
  lemma FailureKeepsPhases(c: State)
    ensures var d := SetFailure(c);
            && |d.calls| == |c.calls| && d == c.(failed := true, calls := d.calls, pending := d.pending)
            && (forall i :: 0 <= i < |c.calls| ==>
                  d.calls[i].phase == c.calls[i].phase && d.calls[i].command == c.calls[i].command)
  {
  }

  ghost predicate SamePhases(c: State, d: State) {
    && |d.calls| == |c.calls| && (forall i :: 0 <= i < |c.calls| ==> d.calls[i].phase == c.calls[i].phase)
    && d.observed == c.observed && d.sendLock == c.sendLock
  }

  lemma SamePhasesLocks(c: State, d: State)
    requires LocksOk(c) && SamePhases(c, d)
    requires (d.lock == c.lock && (d.reader.Reporting? <==> c.reader.Reporting?))
             || (c.lock == Open && d.lock == ByReader && d.reader.Reporting? && c.observed)
             || (c.observed && c.reader.Reporting? && d.lock == Open && !d.reader.Reporting?)
             || (!c.observed && d.lock == c.lock)
    ensures LocksOk(d)
  {
  }

  lemma FailurePhases(c: State)
    ensures var d := SetFailure(c);
            SamePhases(c, d) && d.lock == c.lock && d.wire == c.wire && d.log == c.log && d.reader == c.reader
            && d.requestCount == c.requestCount && d.observationCount == c.observationCount
  {
    FailureKeepsPhases(c);
  }

  lemma MatchPhases(c: State, f: Frame)
    requires AnswersOk(c) && f.Response?
    ensures var d := Match(c, f);
            SamePhases(c, d) && d.lock == c.lock && d.wire == c.wire && d.log == c.log && !d.reader.Reporting?
            && d.requestCount == c.requestCount && !d.reader.Holding? && d.observationCount == c.observationCount
  {
    if f.id.None? || f.id.value !in c.pending {
      FailurePhases(c.(reader := Stopped));
    } else {
      assert PendingOk(c, f.id.value);
      FailurePhases(c.(pending := Without(c.pending, f.id.value), mismatched := c.mismatched + {f.id.value},
                       reader := Stopped));
    }
  }

  lemma HandlePhases(c: State, ok: bool)
    requires AnswersOk(c) && c.reader.Reporting?
    ensures var d := HandleFrame(c, ok);
            SamePhases(c, d) && d.wire == c.wire && d.log == c.log && !d.reader.Reporting? && !d.reader.Holding?
            && d.lock == (if c.observed then Open else c.lock) && d.requestCount == c.requestCount
            && d.observationCount == c.observationCount
  {
    var c1 := c.(lock := if c.observed then Open else c.lock);
    FailureKeepsPhases(c1.(reader := Stopped));
    assert AnswersOk(c1) by {
      LockAside(c, c1);
    }
    if c.reader.frame.Response? {
      MatchPhases(c1, c.reader.frame);
    }
  }

  lemma LockAside(c: State, d: State)
    requires AnswersOk(c) && d == c.(lock := d.lock)
    ensures AnswersOk(d)
  {
    forall j | 0 <= j < |d.calls| ensures CallOk(d, j) {
      assert CallOk(c, j);
    }
    forall k | k in d.pending ensures PendingOk(d, k) {
      assert PendingOk(c, k);
    }
  }

  lemma HandleLocks(c: State, ok: bool)
    requires LocksOk(c) && AnswersOk(c)
    ensures LocksOk(HandleFrame(c, ok))
  {
    if c.reader.Reporting? {
      HandlePhases(c, ok);
      SamePhasesLocks(c, HandleFrame(c, ok));
    }
  }

  lemma CallLocks(c: State, i: nat, ok: bool)
    requires LocksOk(c) && i < |c.calls|
    ensures LocksOk(TakeNumber(c, i)) && LocksOk(WriteRequest(c, i)) && LocksOk(Drained(c, i, ok))
  {
  }

  lemma ObservedLocks(c: State, i: nat, ok: bool)
    requires LocksOk(c) && i < |c.calls|
    ensures LocksOk(RequestObserved(c, i, ok))
  {
    var p := c.calls[i].phase;
    if p.Observing? && !ok {
      var m := DropCall(c, i, p.id, ObserverFailed).(sendLock := None, lock := Open);
      assert LocksOk(m);
      FailureKeepsPhases(m);
      SamePhasesLocks(m, SetFailure(m));
    }
  }

  lemma ReaderLocks(c: State, f: Option<Frame>)
    requires LocksOk(c)
    ensures LocksOk(ReadFrame(c, f)) && LocksOk(ReportFrame(c))
  {
    FailureKeepsPhases(c.(reader := Stopped));
    if c.reader.Reading? {
      SamePhasesLocks(c, ReadFrame(c, f));
    }
    if c.reader.Holding? {
      SamePhasesLocks(c, ReportFrame(c));
    }
  }

  lemma ResumeLocks(c: State, i: nat)
    requires LocksOk(c) && i < |c.calls|
    ensures LocksOk(Resume(c, i))
  {
  }

  lemma GiveUpLocks(c: State, i: nat)
    requires LocksOk(c) && i < |c.calls|
    ensures LocksOk(GiveUp(c, i))
  {
  }

  lemma StartLocks(c: State, command: Command)
    requires LocksOk(c)
    ensures LocksOk(StartCall(c, command))
  {
  }

  lemma ActLocks(c: State, a: Action)
    requires LocksOk(c) && AnswersOk(c)
    ensures LocksOk(Act(c, a))
  {
    match a {
      case Starts(command) => StartLocks(c, command);
      case TakesNumber(i) => if i < |c.calls| { CallLocks(c, i, true); }
      case Writes(i) => if i < |c.calls| { CallLocks(c, i, true); }
      case Drains(i, ok) => if i < |c.calls| { CallLocks(c, i, ok); }
      case IsObserved(i, ok) => if i < |c.calls| { ObservedLocks(c, i, ok); }
      case Resumes(i) => if i < |c.calls| { ResumeLocks(c, i); }
      case TimesOut(i) => if i < |c.calls| { GiveUpLocks(c, i); }
      case Reads(f) => ReaderLocks(c, f);
      case Reports => ReaderLocks(c, None);
      case Handles(ok) => HandleLocks(c, ok);
      case StopsReading => if c.reader.Reading? { SamePhasesLocks(c, Act(c, a)); }
    }
  }

  predicate ReaderAction(a: Action) {
    a.Reads? || a.Reports? || a.Handles? || a.StopsReading?
  }

  /** What the reader's steps leave alone. */
  lemma ReaderLeaves(c: State, a: Action)
    requires AnswersOk(c) && ReaderAction(a)
    ensures var d := Act(c, a);
            SamePhases(c, d) && d.wire == c.wire && d.requestCount == c.requestCount
  {
    match a {
      case Reads(f) => FailureKeepsPhases(c.(reader := Stopped));
      case Handles(ok) => if c.reader.Reporting? { HandlePhases(c, ok); }
      case _ =>
    }
  }

  // ---------------------------------------------------------------- the log, step by step

  /** What a step may do to the log: nothing, or one entry under the lock. */
  ghost predicate LogStep(c: State, d: State) {
    && d.observed == c.observed
    && (|| (d.log == c.log && d.observationCount == c.observationCount)
        || (c.observed && d.observationCount == c.observationCount + 1 && |d.log| == |c.log| + 1
            && d.log[..|c.log|] == c.log && d.log[|c.log|].ordinal == d.observationCount))
  }

  lemma CallLogs(c: State, a: Action)
    requires LocksOk(c) && !ReaderAction(a)
    ensures LogStep(c, Act(c, a))
  {
    if a.IsObserved? && a.i < |c.calls| && c.calls[a.i].phase.Observing? {
      ObservedPhases(c, a.i, a.ok);
    }
  }

  lemma ActLogs(c: State, a: Action)
    requires AnswersOk(c) && LocksOk(c)
    ensures LogStep(c, Act(c, a))
  {
    match a {
      case Reads(f) => FailureKeepsPhases(c.(reader := Stopped));
      case Reports =>
      case Handles(ok) => if c.reader.Reporting? { HandlePhases(c, ok); }
      case StopsReading =>
      case _ => CallLogs(c, a);
    }
  }

  lemma LogStepKeeps(c: State, d: State)
    requires LogOk(c) && LogStep(c, d)
    ensures LogOk(d)
  {
    forall k | 0 <= k < |d.log| ensures d.log[k].ordinal == k + 1 {
      assert k < |c.log| ==> d.log[k] == d.log[..|c.log|][k];
    }
  }

  // ---------------------------------------------------------------- requests before responses

  /** The phases of no request on the wire move back before its write. */
  ghost predicate SentStays(c: State, d: State) {
    && c.wire <= d.wire && c.requestCount <= d.requestCount && d.observed == c.observed
    && |c.calls| <= |d.calls|
    && forall i: nat, id: RequestId :: 1 <= id <= c.requestCount && Unsent(d, i, id) ==> Unsent(c, i, id)
  }

  ghost predicate Unsent(c: State, i: nat, id: RequestId) {
    i < |c.calls| && (c.calls[i].phase == Numbered(id) || (c.observed && c.calls[i].phase == Writing(id)))
  }

  lemma SentIsForever(c: State, d: State, id: RequestId)
    requires Sent(c, id) && SentStays(c, d)
    ensures Sent(d, id)
  {
  }

  lemma DrainSent(c: State, i: nat, ok: bool)
    requires i < |c.calls|
    ensures SentStays(c, Drained(c, i, ok)) && SentStays(c, WriteRequest(c, i))
  {
  }

  lemma NumberSent(c: State, i: nat, command: Command)
    ensures SentStays(c, StartCall(c, command))
    ensures i < |c.calls| ==> SentStays(c, TakeNumber(c, i))
  {
  }

  lemma EndSent(c: State, i: nat)
    requires i < |c.calls|
    ensures SentStays(c, Resume(c, i)) && SentStays(c, GiveUp(c, i))
  {
  }

  lemma CallSent(c: State, a: Action)
    requires NumbersOk(c) && LocksOk(c) && !ReaderAction(a)
    ensures SentStays(c, Act(c, a))
  {
    match a {
      case IsObserved(i, ok) => if i < |c.calls| && c.calls[i].phase.Observing? { ObservedPhases(c, i, ok); }
      case Drains(i, ok) => if i < |c.calls| { DrainSent(c, i, ok); }
      case Writes(i) => if i < |c.calls| { DrainSent(c, i, true); }
      case Starts(command) => NumberSent(c, 0, command);
      case TakesNumber(i) => NumberSent(c, i, "");
      case Resumes(i) => if i < |c.calls| { EndSent(c, i); }
      case TimesOut(i) => if i < |c.calls| { EndSent(c, i); }
      case _ =>
    }
  }

  lemma ActSent(c: State, a: Action)
    requires NumbersOk(c) && AnswersOk(c) && LocksOk(c)
    ensures SentStays(c, Act(c, a))
  {
    if ReaderAction(a) {
      ReaderLeaves(c, a);
    } else {
      CallSent(c, a);
    }
  }

  lemma ObservedPhases(c: State, i: nat, ok: bool)
    requires i < |c.calls| && c.calls[i].phase.Observing?
    ensures var d := RequestObserved(c, i, ok);
            && |d.calls| == |c.calls| && d.wire == c.wire && d.log == c.log && d.requestCount == c.requestCount
            && d.reader == c.reader && d.observed == c.observed
            && (forall j :: 0 <= j < |c.calls| && j != i ==> d.calls[j].phase == c.calls[j].phase)
            && !d.calls[i].phase.Numbered? && !d.calls[i].phase.Writing?
  {
    if !ok {
      FailureKeepsPhases(DropCall(c, i, c.calls[i].phase.id, ObserverFailed).(sendLock := None, lock := Open));
    }
  }

  /** A request that is only numbered has not been handed over. */
  lemma NumberedStaysOff(c: State, a: Action, i: nat)
    requires NumbersOk(c) && WireOk(c) && i < |Act(c, a).calls| && Act(c, a).calls[i].phase.Numbered?
    requires !ReaderAction(a)
    ensures Act(c, a).calls[i].phase.id !in Act(c, a).wire
  {
    match a {
      case Writes(j) => WriteLeavesNumbered(c, j, i);
      case IsObserved(j, ok) => if j < |c.calls| && c.calls[j].phase.Observing? { ObservedPhases(c, j, ok); }
      case _ =>
    }
  }

  lemma WriteLeavesNumbered(c: State, j: nat, i: nat)
    requires NumbersOk(c) && WireOk(c) && i < |c.calls|
    requires Act(c, Writes(j)).calls[i].phase.Numbered?
    ensures Act(c, Writes(j)).calls[i].phase.id !in Act(c, Writes(j)).wire
  {
    if j < |c.calls| && c.calls[j].phase.Numbered? {
      assert Named(c, j, c.calls[j].phase.id);
      assert i != j ==> Named(c, i, c.calls[i].phase.id);
    }
  }

  /** A request being written has been handed over. */
  lemma WritingStaysOn(c: State, a: Action, i: nat)
    requires WireOk(c) && i < |Act(c, a).calls| && Act(c, a).calls[i].phase.Writing? && !ReaderAction(a)
    ensures Act(c, a).calls[i].phase.id in Act(c, a).wire
  {
    if a.IsObserved? && a.i < |c.calls| && c.calls[a.i].phase.Observing? {
      ObservedPhases(c, a.i, a.ok);
    }
  }

  /** The only step that logs a request is the end of its write. */
  lemma NewRequestIsSent(c: State, a: Action)
    requires Inv(c) && |Act(c, a).log| == |c.log| + 1 && Act(c, a).log[|c.log|].what.HostToPi?
    ensures Sent(Act(c, a), Act(c, a).log[|c.log|].what.id)
  {
    match a {
      case Drains(i, ok) =>
        if i < |c.calls| && c.calls[i].phase.Writing? {
          var id := c.calls[i].phase.id;
          assert Named(c, i, id);
          forall j: nat | j < |c.calls| && j != i ensures c.calls[j].phase != Numbered(id) && c.calls[j].phase != Writing(id) {
            assert IdOf(c.calls[j].phase) == Some(id) ==> Named(c, j, id);
          }
        }
      case IsObserved(i, ok) => if i < |c.calls| && c.calls[i].phase.Observing? { ObservedPhases(c, i, ok); }
      case Handles(ok) => if c.reader.Reporting? { HandlePhases(c, ok); }
      case _ =>
    }
  }

  lemma LoggedStaysSent(c: State, a: Action, k: nat)
    requires Inv(c) && k < |Act(c, a).log| && Act(c, a).log[k].what.HostToPi?
    ensures Sent(Act(c, a), Act(c, a).log[k].what.id)
  {
    var d := Act(c, a);
    ActLogs(c, a);
    if k < |c.log| {
      assert d.log[k] == d.log[..|c.log|][k];
      ActSent(c, a);
      SentIsForever(c, d, c.log[k].what.id);
    } else {
      NewRequestIsSent(c, a);
    }
  }

  lemma ActKeepsWire(c: State, a: Action)
    requires Inv(c)
    ensures WireOk(Act(c, a))
  {
    var d := Act(c, a);
    forall i: nat | i < |d.calls| && d.calls[i].phase.Numbered? ensures d.calls[i].phase.id !in d.wire {
      if ReaderAction(a) {
        ReaderLeaves(c, a);
      } else {
        NumberedStaysOff(c, a, i);
      }
    }
    forall i: nat | i < |d.calls| && d.calls[i].phase.Writing? ensures d.calls[i].phase.id in d.wire {
      if ReaderAction(a) {
        ReaderLeaves(c, a);
      } else {
        WritingStaysOn(c, a, i);
      }
    }
    forall k | 0 <= k < |d.log| && d.log[k].what.HostToPi? ensures Sent(d, d.log[k].what.id) {
      LoggedStaysSent(c, a, k);
    }
  }

  /** The peer answers only requests that were handed over to it. */
  ghost predicate HonestAct(c: State, a: Action) {
    a.Reads? && a.frame.Some? && a.frame.value.Response? && a.frame.value.id.Some? ==> a.frame.value.id.value in c.wire
  }

  lemma HoldingStays(c: State, a: Action)
    requires Inv(c) && OrderOk(c) && HonestAct(c, a)
    ensures var d := Act(c, a);
            d.reader.Holding? && d.reader.frame.Response? && d.reader.frame.id.Some? ==> d.reader.frame.id.value in d.wire
  {
    ActSent(c, a);
    match a {
      case IsObserved(i, ok) => if i < |c.calls| && c.calls[i].phase.Observing? { ObservedPhases(c, i, ok); }
      case Reads(f) => FailureKeepsPhases(c.(reader := Stopped));
      case Handles(ok) => if c.reader.Reporting? { HandlePhases(c, ok); }
      case _ =>
    }
  }

  /** What the one new log entry of a step can be. */
  lemma NewEntry(c: State, a: Action)
    requires Inv(c) && |Act(c, a).log| == |c.log| + 1
    ensures var e := Act(c, a).log[|c.log|].what;
            || (e.PiToHost? && c.observed && c.lock == Open && c.reader == Holding(e.frame))
            || (e.HostToPi? && c.observed && exists i: nat :: i < |c.calls| && c.calls[i].phase == Writing(e.id))
  {
    match a {
      case IsObserved(i, ok) => if i < |c.calls| && c.calls[i].phase.Observing? { ObservedPhases(c, i, ok); }
      case Reads(f) => FailureKeepsPhases(c.(reader := Stopped));
      case Handles(ok) => if c.reader.Reporting? { HandlePhases(c, ok); }
      case _ =>
    }
  }

  lemma HeldIsSent(c: State, id: RequestId)
    requires Inv(c) && c.observed && c.lock == Open && id in c.wire
    ensures Sent(c, id)
  {
    forall i: nat ensures !Unsent(c, i, id) {
      assert i < |c.calls| && c.calls[i].phase.Numbered? ==> c.calls[i].phase.id !in c.wire;
    }
  }

  lemma LoggedWasSent(c: State, a: Action, q: nat, id: RequestId)
    requires Inv(c) && OrderOk(c) && q < |Act(c, a).log| && IsResponseTo(Act(c, a).log[q].what, id)
    ensures Sent(c, id)
  {
    ActLogs(c, a);
    if q < |c.log| {
      assert Act(c, a).log[q] == Act(c, a).log[..|c.log|][q];
    } else {
      NewEntry(c, a);
      HeldIsSent(c, id);
    }
  }

  lemma ResponseStaysSent(c: State, a: Action, q: nat, id: RequestId)
    requires Inv(c) && OrderOk(c) && q < |Act(c, a).log| && IsResponseTo(Act(c, a).log[q].what, id)
    ensures Sent(Act(c, a), id)
  {
    LoggedWasSent(c, a, q, id);
    ActSent(c, a);
    SentIsForever(c, Act(c, a), id);
  }

  lemma OldEntry(c: State, a: Action, k: nat)
    requires Inv(c) && k < |c.log|
    ensures k < |Act(c, a).log| && Act(c, a).log[k] == c.log[k]
  {
    ActLogs(c, a);
    assert Act(c, a).log[..|c.log|][k] == c.log[k];
  }

  /** A request is not logged after a response to it. */
  lemma NoLateRequest(c: State, a: Action, id: RequestId)
    requires Inv(c) && Sent(c, id) && |Act(c, a).log| == |c.log| + 1
    ensures Act(c, a).log[|c.log|].what != HostToPi(id)
  {
    NewEntry(c, a);
    forall i: nat | i < |c.calls| && c.observed ensures c.calls[i].phase != Writing(id) {
      assert !Unsent(c, i, id);
    }
  }

  lemma OrderStays(c: State, a: Action, p: nat, q: nat, id: RequestId)
    requires Inv(c) && OrderOk(c)
    requires RequestAt(Act(c, a).log, p, id) && q < |Act(c, a).log| && IsResponseTo(Act(c, a).log[q].what, id)
    ensures p < q
  {
    ActLogs(c, a);
    if q < |c.log| {
      OldEntry(c, a, q);
      assert Sent(c, id);
      if p < |c.log| {
        OldEntry(c, a, p);
        assert RequestAt(c.log, p, id);
      } else {
        NoLateRequest(c, a, id);
      }
    }
  }

  lemma ActKeepsOrder(c: State, a: Action)
    requires Inv(c) && OrderOk(c) && HonestAct(c, a)
    ensures OrderOk(Act(c, a))
  {
    var d := Act(c, a);
    HoldingStays(c, a);
    forall q, id: RequestId | 0 <= q < |d.log| && IsResponseTo(d.log[q].what, id) ensures Sent(d, id) {
      ResponseStaysSent(c, a, q, id);
    }
    forall p, q, id: RequestId | RequestAt(d.log, p, id) && 0 <= q < |d.log| && IsResponseTo(d.log[q].what, id)
      ensures p < q
    {
      OrderStays(c, a, p, q, id);
    }
  }

  // ---------------------------------------------------------------- main results

  lemma ActKeeps(c: State, a: Action)
    requires Inv(c)
    ensures Inv(Act(c, a))
  {
    ActKeepsAnswers(c, a);
    ActLocks(c, a);
    ActLogs(c, a);
    LogStepKeeps(c, Act(c, a));
    ActKeepsWire(c, a);
  }

  lemma {:induction false} ActsKeep(c: State, xs: seq<Action>)
    requires Inv(c)
    ensures Inv(Acts(c, xs))
    decreases |xs|
  {
    if xs != [] {
      ActsKeep(c, xs[..|xs| - 1]);
      ActKeeps(Acts(c, xs[..|xs| - 1]), xs[|xs| - 1]);
    }
  }

  lemma InitialIsOk(observed: bool)
    ensures Inv(Initial(observed)) && OrderOk(Initial(observed))
  {
  }

  /** Ordinals count both directions without a gap, in every run. */
  lemma OrdinalsAreGapFree(observed: bool, xs: seq<Action>)
    ensures var c := Acts(Initial(observed), xs);
            |c.log| == c.observationCount && forall k :: 0 <= k < |c.log| ==> c.log[k].ordinal == k + 1
  {
    InitialIsOk(observed);
    ActsKeep(Initial(observed), xs);
  }

  ghost predicate Honest(c: State, xs: seq<Action>)
    decreases |xs|
  {
    xs != [] ==> Honest(c, xs[..|xs| - 1]) && HonestAct(Acts(c, xs[..|xs| - 1]), xs[|xs| - 1])
  }

  lemma {:induction false} ActsKeepOrder(c: State, xs: seq<Action>)
    requires Inv(c) && OrderOk(c) && Honest(c, xs)
    ensures OrderOk(Acts(c, xs))
    decreases |xs|
  {
    if xs != [] {
      ActsKeepOrder(c, xs[..|xs| - 1]);
      ActsKeep(c, xs[..|xs| - 1]);
      ActKeepsOrder(Acts(c, xs[..|xs| - 1]), xs[|xs| - 1]);
    }
  }

  /** For a peer that answers only what it was sent, every response is observed
      after its request, however early it becomes readable. */
  lemma ResponsesFollowRequests(observed: bool, xs: seq<Action>, p: nat, q: nat, id: RequestId)
    requires Honest(Initial(observed), xs)
    requires RequestAt(Acts(Initial(observed), xs).log, p, id)
    requires q < |Acts(Initial(observed), xs).log| && IsResponseTo(Acts(Initial(observed), xs).log[q].what, id)
    ensures Acts(Initial(observed), xs).log[p].ordinal < Acts(Initial(observed), xs).log[q].ordinal
  {
    InitialIsOk(observed);
    ActsKeep(Initial(observed), xs);
    ActsKeepOrder(Initial(observed), xs);
  }

  /** A call that returns got a response with its own number and command, and no
      other call has that number. */
  lemma ReturnsOwnAnswer(observed: bool, xs: seq<Action>, i: nat, j: nat)
    requires i < |Acts(Initial(observed), xs).calls| && Acts(Initial(observed), xs).calls[i].phase.Returned?
    ensures var c := Acts(Initial(observed), xs);
            && c.calls[i].phase.answer == Response(Some(c.calls[i].phase.id), c.calls[i].command)
            && (Named(c, j, c.calls[i].phase.id) ==> j == i)
  {
    InitialIsOk(observed);
    ActsKeep(Initial(observed), xs);
    var c := Acts(Initial(observed), xs);
    assert CallOk(c, i);
    assert Named(c, i, c.calls[i].phase.id);
  }

  ghost predicate FutureKept(c: State, d: State, i: nat) {
    i < |c.calls| && !c.calls[i].future.Unresolved? ==> i < |d.calls| && d.calls[i].future == c.calls[i].future
  }

  /** A response settles at most the future of the call it names. */
  lemma MatchKeepsFutures(c: State, f: Frame)
    requires f.Response?
    ensures |Match(c, f).calls| == |c.calls|
    ensures forall j: nat :: FutureKept(c, Match(c, f), j)
    ensures forall j :: 0 <= j < |c.calls| ==> Match(c, f).calls[j].phase == c.calls[j].phase
  {
  }

  lemma HandleKeepsFutures(c: State, ok: bool, i: nat)
    ensures FutureKept(c, HandleFrame(c, ok), i)
  {
    if c.reader.Reporting? && c.reader.frame.Response? {
      MatchKeepsFutures(c.(lock := if c.observed then Open else c.lock), c.reader.frame);
    }
  }

  lemma CallKeepsFutures(c: State, j: nat, ok: bool, i: nat)
    requires j < |c.calls|
    ensures FutureKept(c, Drained(c, j, ok), i) && FutureKept(c, RequestObserved(c, j, ok), i)
  {
  }

  lemma ActKeepsFuture(c: State, a: Action, i: nat)
    ensures FutureKept(c, Act(c, a), i)
  {
    match a {
      case Handles(ok) => HandleKeepsFutures(c, ok, i);
      case Drains(j, ok) => if j < |c.calls| { CallKeepsFutures(c, j, ok, i); }
      case IsObserved(j, ok) => if j < |c.calls| { CallKeepsFutures(c, j, ok, i); }
      case _ =>
    }
  }

  /** The number a call takes is nobody else's. */
  lemma NextNumberIsNew(c: State, i: nat)
    requires Inv(c) && i < |c.calls|
    ensures var d := TakeNumber(c, i);
            d.requestCount > c.requestCount ==> forall j: nat :: j != i ==> !Named(d, j, d.requestCount)
  {
    var d := TakeNumber(c, i);
    if d.requestCount > c.requestCount {
      forall j: nat | j != i ensures !Named(d, j, d.requestCount) {
        assert !Named(c, j, d.requestCount);
      }
    }
  }

  /** A future is settled at most once. */
  lemma {:induction false} FuturesAreFinal(c: State, xs: seq<Action>, i: nat)
    ensures FutureKept(c, Acts(c, xs), i)
    decreases |xs|
  {
    if xs != [] {
      FuturesAreFinal(c, xs[..|xs| - 1], i);
      ActKeepsFuture(Acts(c, xs[..|xs| - 1]), xs[|xs| - 1], i);
    }
  }

  /** Which waiting calls a failed transport leaves without an answer: those
      answered with a wrong command, and those numbered after the failure. */
  lemma LeftWaitingIff(observed: bool, xs: seq<Action>, i: nat)
    requires i < |Acts(Initial(observed), xs).calls| && Acts(Initial(observed), xs).calls[i].phase.Awaiting?
    ensures var c := Acts(Initial(observed), xs);
            var id := c.calls[i].phase.id;
            c.calls[i].future.Unresolved? <==> id in c.mismatched || id in c.pending
  {
    InitialIsOk(observed);
    ActsKeep(Initial(observed), xs);
    var c := Acts(Initial(observed), xs);
    assert CallOk(c, i);
    var id := c.calls[i].phase.id;
    assert Named(c, i, id);
    if id in c.pending {
      assert PendingOk(c, id);
    }
  }

  /** A call that awaits its answer when one with a wrong command comes waits
      on, whatever happens afterwards, until its own time-out. */
  lemma {:induction false} MismatchOnlyTimesOut(c: State, xs: seq<Action>, i: nat)
    requires Inv(c) && i < |c.calls| && c.calls[i].phase.Awaiting? && c.calls[i].phase.id in c.mismatched
    ensures c.failed
    ensures i < |Acts(c, xs).calls|
    ensures var (x, id) := (Acts(c, xs).calls[i], c.calls[i].phase.id);
            || x.phase == GaveUp(ResponseTimeout)
            || (x.phase == Awaiting(id) && id in Acts(c, xs).mismatched && x.future.Unresolved?)
    decreases |xs|
  {
    var id := c.calls[i].phase.id;
    if xs != [] {
      MismatchOnlyTimesOut(c, xs[..|xs| - 1], i);
      ActsKeep(c, xs[..|xs| - 1]);
      StuckStep(Acts(c, xs[..|xs| - 1]), xs[|xs| - 1], i, id);
    }
    ActsKeep(c, xs);
    assert Stuck(Acts(c, xs), i, id) && CallOk(Acts(c, xs), i);
  }

  ghost predicate Stuck(c: State, i: nat, id: RequestId) {
    i < |c.calls| && (c.calls[i].phase == GaveUp(ResponseTimeout) || (c.calls[i].phase == Awaiting(id) && id in c.mismatched))
  }

  lemma StuckStep(c: State, a: Action, i: nat, id: RequestId)
    requires Inv(c) && Stuck(c, i, id)
    ensures Stuck(Act(c, a), i, id)
  {
    assert CallOk(c, i);
    if ReaderAction(a) {
      ReaderLeaves(c, a);
    } else if a.IsObserved? && a.i < |c.calls| && c.calls[a.i].phase.Observing? {
      ObservedStuck(c, a.i, a.ok, i, id);
    }
  }

  lemma ObservedStuck(c: State, j: nat, ok: bool, i: nat, id: RequestId)
    requires Stuck(c, i, id) && j < |c.calls| && c.calls[j].phase.Observing?
    ensures Stuck(RequestObserved(c, j, ok), i, id)
  {
    ObservedPhases(c, j, ok);
    if !ok {
      FailureKeepsPhases(DropCall(c, j, c.calls[j].phase.id, ObserverFailed).(sendLock := None, lock := Open));
    }
  }

  /** The same answer met earlier, in any phase after the number was taken: the
      call never returns and is never failed with the transport. */
  lemma {:induction false} MismatchNeverReturns(c: State, xs: seq<Action>, i: nat)
    requires Inv(c) && i < |c.calls| && IdOf(c.calls[i].phase).Some? && IdOf(c.calls[i].phase).value in c.mismatched
    ensures c.failed
    ensures i < |Acts(c, xs).calls| && !Acts(c, xs).calls[i].phase.Returned?
    ensures Acts(c, xs).calls[i].phase != GaveUp(TransportFailed)
  {
    MismatchStays(c, xs, i);
  }

  ghost predicate Left(c: State, i: nat) {
    && i < |c.calls| && !c.calls[i].phase.Returned? && !c.calls[i].phase.Queued?
    && c.calls[i].phase != GaveUp(TransportFailed)
    && (IdOf(c.calls[i].phase).Some? ==> IdOf(c.calls[i].phase).value in c.mismatched)
  }

  lemma LeftStep(c: State, a: Action, i: nat)
    requires Inv(c) && Left(c, i)
    ensures Left(Act(c, a), i)
  {
    assert CallOk(c, i);
    if ReaderAction(a) {
      ReaderLeaves(c, a);
    } else if a.IsObserved? && a.i < |c.calls| && c.calls[a.i].phase.Observing? {
      ObservedLeft(c, a.i, a.ok, i);
    }
  }

  lemma ObservedLeft(c: State, j: nat, ok: bool, i: nat)
    requires Left(c, i) && j < |c.calls| && c.calls[j].phase.Observing?
    ensures Left(RequestObserved(c, j, ok), i)
  {
    ObservedPhases(c, j, ok);
    if !ok {
      FailureKeepsPhases(DropCall(c, j, c.calls[j].phase.id, ObserverFailed).(sendLock := None, lock := Open));
    }
  }

  lemma {:induction false} MismatchStays(c: State, xs: seq<Action>, i: nat)
    requires Inv(c) && i < |c.calls| && IdOf(c.calls[i].phase).Some? && IdOf(c.calls[i].phase).value in c.mismatched
    ensures Left(Acts(c, xs), i)
    decreases |xs|
  {
    if xs == [] {
      assert CallOk(c, i);
    } else {
      MismatchStays(c, xs[..|xs| - 1], i);
      ActsKeep(c, xs[..|xs| - 1]);
      LeftStep(Acts(c, xs[..|xs| - 1]), xs[|xs| - 1], i);
    }
  }

  // ---------------------------------------------------------------- a run that gets there

  /** The call is numbered and registered. */
  function Asked(x: Command): State {
    Initial(true).(requestCount := 1, calls := [Call(x, Numbered(1), Unresolved)], pending := map[1 := 0], sendLock := Some(0))
  }

  /** It is written, observed and waiting. */
  function Waiting(x: Command): State {
    Asked(x).(observationCount := 1, calls := [Call(x, Awaiting(1), Unresolved)], sendLock := None,
              log := [Observation(1, HostToPi(1))], wire := {1})
  }

  /** An answer with its number is before the reader. */
  function Answered(x: Command, y: Command): State {
    Waiting(x).(observationCount := 2, reader := Reporting(Response(Some(1), y)), lock := ByReader,
                log := [Observation(1, HostToPi(1)), Observation(2, PiToHost(Response(Some(1), y)))])
  }

  lemma ActsNext(c: State, xs: seq<Action>, a: Action)
    ensures Acts(c, xs + [a]) == Act(Acts(c, xs), a)
  {
    assert (xs + [a])[..|xs|] == xs;
  }

  lemma Asking(x: Command)
    ensures Acts(Initial(true), [Starts(x)] + [TakesNumber(0)]) == Asked(x)
  {
    ActsNext(Initial(true), [], Starts(x));
    ActsNext(Initial(true), [Starts(x)], TakesNumber(0));
    assert [] + [Starts(x)] == [Starts(x)];
    assert StartCall(Initial(true), x).calls == [Call(x, Queued, Unresolved)];
  }

  lemma Sending(x: Command, xs: seq<Action>)
    requires Acts(Initial(true), xs) == Asked(x)
    ensures Acts(Initial(true), xs + [Writes(0)] + [Drains(0, true)] + [IsObserved(0, true)]) == Waiting(x)
  {
    ActsNext(Initial(true), xs, Writes(0));
    ActsNext(Initial(true), xs + [Writes(0)], Drains(0, true));
    ActsNext(Initial(true), xs + [Writes(0)] + [Drains(0, true)], IsObserved(0, true));
  }

  lemma Answering(x: Command, y: Command, xs: seq<Action>)
    requires Acts(Initial(true), xs) == Waiting(x)
    ensures Acts(Initial(true), xs + [Reads(Some(Response(Some(1), y)))] + [Reports]) == Answered(x, y)
  {
    ActsNext(Initial(true), xs, Reads(Some(Response(Some(1), y))));
    ActsNext(Initial(true), xs + [Reads(Some(Response(Some(1), y)))], Reports);
  }

  /** One call and one answer with its number and another command: the transport
      fails, and the call is left waiting for its time-out. */
  lemma MismatchHappens(x: Command, y: Command) returns (xs: seq<Action>)
    requires x != y
    ensures var c := Acts(Initial(true), xs);
            && |c.calls| == 1 && c.calls[0].phase == Awaiting(1) && c.calls[0].future.Unresolved?
            && 1 in c.mismatched && c.failed
  {
    Asking(x);
    xs := [Starts(x)] + [TakesNumber(0)];
    Sending(x, xs);
    xs := xs + [Writes(0)] + [Drains(0, true)] + [IsObserved(0, true)];
    Answering(x, y, xs);
    xs := xs + [Reads(Some(Response(Some(1), y)))] + [Reports];
    ActsNext(Initial(true), xs, Handles(true));
    xs := xs + [Handles(true)];
    assert Without(map[1 := 0], 1) == map[];
  }
}
