/** The transport as an object: each method is one step of PiRpc. */
module PiTransport {
  import opened Contracts
  import P = PiRpc
  import T = PiRpcTheorems

  class Transport {
    const observed: bool
    var requestCount: nat
    var observationCount: nat
    var calls: seq<P.Call>
    var pending: map<P.RequestId, nat>
    var sendLock: Option<nat>
    var lock: P.Lock
    var reader: P.Reader
    var failed: bool
    var log: seq<P.Observation>
    ghost var wire: set<P.RequestId>
    ghost var mismatched: set<P.RequestId>

    ghost function View(): P.State
      reads this
    {
      P.State(observed, requestCount, observationCount, calls, pending, sendLock, lock, reader, failed, log, wire, mismatched)
    }

    constructor (withObserver: bool)
      ensures View() == P.Initial(withObserver)
    {
      observed := withObserver;
      requestCount, observationCount, calls, pending := 0, 0, [], map[];
      sendLock, lock, reader, failed, log := None, P.Open, P.Reading, false, [];
      wire, mismatched := {}, {};
    }

    /** The first failure wins: it is given to every future still pending. */
    method SetFailure()
      modifies this
      ensures View() == P.SetFailure(old(View()))
    {
      if failed {
        return;
      }
      failed := true;
      var settled: seq<P.Call> := [];
      for i := 0 to |calls|
        invariant |settled| == i
        invariant forall j :: 0 <= j < i ==> settled[j] == P.FailPending(old(View()))[j]
        invariant View() == old(View()).(failed := true)
      {
        var x := calls[i];
        if x.future.Unresolved? && (exists id :: id in pending && pending[id] == i) {
          settled := settled + [x.(future := P.Excepted)];
        } else {
          settled := settled + [x];
        }
      }
      assert settled == P.FailPending(old(View()));
      calls := settled;
      pending := map[];
    }

    method ObserveFrame(what: P.Observed)
      modifies this`observationCount, this`log
      ensures View() == P.Observe(old(View()), what)
    {
      observationCount := observationCount + 1;
      log := log + [P.Observation(observationCount, what)];
    }

    method StartCall(command: P.Command) returns (i: nat)
      modifies this`calls
      ensures View() == P.StartCall(old(View()), command)
      ensures i == |old(calls)|
    {
      i := |calls|;
      calls := calls + [P.Call(command, if failed then P.GaveUp(P.AlreadyFailed) else P.Queued, P.Unresolved)];
    }

    method TakeNumber(i: nat)
      requires i < |calls|
      modifies this
      ensures View() == P.TakeNumber(old(View()), i)
      ensures T.Inv(old(View())) ==>
                && T.Inv(View())
                && (requestCount > old(requestCount) ==> forall j: nat :: j != i ==> !T.Named(View(), j, requestCount))
    {
      if T.Inv(View()) {
        T.ActKeeps(View(), P.TakesNumber(i));
        T.NextNumberIsNew(View(), i);
      }
      if calls[i].phase.Queued? && sendLock.None? {
        requestCount := requestCount + 1;
        pending := pending[requestCount := i];
        calls := calls[i := calls[i].(phase := P.Numbered(requestCount))];
        sendLock := Some(i);
      }
    }

    method WriteRequest(i: nat)
      requires i < |calls|
      modifies this
      ensures View() == P.WriteRequest(old(View()), i)
    {
      if calls[i].phase.Numbered? && (!observed || lock == P.Open) {
        var id := calls[i].phase.id;
        if observed {
          lock := P.ByCall(i);
        }
        calls := calls[i := calls[i].(phase := P.Writing(id))];
        wire := wire + {id};
      }
    }

    method DropCall(i: nat, id: P.RequestId, e: P.CallError)
      requires i < |calls|
      modifies this`calls, this`pending
      ensures View() == P.DropCall(old(View()), i, id, e)
    {
      pending := P.Without(pending, id);
      var future := if calls[i].future.Unresolved? then P.Dropped else calls[i].future;
      calls := calls[i := calls[i].(phase := P.GaveUp(e), future := future)];
    }

    method Drained(i: nat, ok: bool)
      requires i < |calls|
      modifies this
      ensures View() == P.Drained(old(View()), i, ok)
    {
      if !calls[i].phase.Writing? {
        return;
      }
      var id := calls[i].phase.id;
      if !ok {
        DropCall(i, id, P.WriteFailed);
        sendLock := None;
        if observed {
          lock := P.Open;
        }
      } else if observed {
        calls := calls[i := calls[i].(phase := P.Observing(id))];
        ObserveFrame(P.HostToPi(id));
      } else {
        calls := calls[i := calls[i].(phase := P.Awaiting(id))];
        sendLock := None;
      }
    }

    method RequestObserved(i: nat, ok: bool)
      requires i < |calls|
      modifies this
      ensures View() == P.RequestObserved(old(View()), i, ok)
    {
      if !calls[i].phase.Observing? {
        return;
      }
      var id := calls[i].phase.id;
      if ok {
        calls := calls[i := calls[i].(phase := P.Awaiting(id))];
        sendLock, lock := None, P.Open;
      } else {
        DropCall(i, id, P.ObserverFailed);
        sendLock, lock := None, P.Open;
        SetFailure();
      }
    }

    method Resume(i: nat)
      requires i < |calls|
      modifies this`calls
      ensures View() == P.Resume(old(View()), i)
    {
      var x := calls[i];
      if x.phase.Awaiting? && x.future.Resolved? {
        calls := calls[i := x.(phase := P.Returned(x.phase.id, x.future.frame))];
      } else if x.phase.Awaiting? && x.future.Excepted? {
        calls := calls[i := x.(phase := P.GaveUp(P.TransportFailed))];
      }
    }

    method GiveUp(i: nat)
      requires i < |calls|
      modifies this
      ensures View() == P.GiveUp(old(View()), i)
    {
      if calls[i].phase.Awaiting? && calls[i].future.Unresolved? {
        DropCall(i, calls[i].phase.id, P.ResponseTimeout);
      }
    }

    method ReadFrame(f: Option<P.Frame>)
      modifies this
      ensures View() == P.ReadFrame(old(View()), f)
    {
      if reader.Reading? {
        if f.None? {
          reader := P.Stopped;
          SetFailure();
        } else {
          reader := P.Holding(f.value);
        }
      }
    }

    method ReportFrame()
      modifies this
      ensures View() == P.ReportFrame(old(View()))
    {
      if reader.Holding? && (!observed || lock == P.Open) {
        var f := reader.frame;
        reader := P.Reporting(f);
        if observed {
          lock := P.ByReader;
          ObserveFrame(P.PiToHost(f));
        }
      }
    }

    /** The pending entry goes first, then the command is compared. */
    method Match(f: P.Frame)
      requires f.Response?
      modifies this
      ensures View() == P.Match(old(View()), f)
      ensures |calls| == |old(calls)| && forall j :: 0 <= j < |calls| ==> calls[j].phase == old(calls)[j].phase
      ensures forall j: nat :: T.FutureKept(old(View()), View(), j)
    {
      T.MatchKeepsFutures(View(), f);
      if f.id.None? || f.id.value !in pending {
        reader := P.Stopped;
        SetFailure();
        return;
      }
      var id, i := f.id.value, pending[f.id.value];
      pending := P.Without(pending, id);
      if i < |calls| {
        if calls[i].command != f.command {
          mismatched := mismatched + {id};
          reader := P.Stopped;
          SetFailure();
        } else {
          if calls[i].future.Unresolved? {
            calls := calls[i := calls[i].(future := P.Resolved(f))];
          }
          reader := P.Reading;
        }
      }
    }

    method HandleFrame(ok: bool)
      modifies this
      ensures View() == P.HandleFrame(old(View()), ok)
      ensures T.Inv(old(View())) ==> T.Inv(View())
    {
      if T.Inv(View()) {
        T.ActKeeps(View(), P.Handles(ok));
      }
      if !reader.Reporting? {
        return;
      }
      var f := reader.frame;
      if observed {
        lock := P.Open;
      }
      if !ok {
        reader := P.Stopped;
        SetFailure();
      } else if f.Response? {
        Match(f);
      } else {
        reader := P.Reading;
      }
    }
  }
}
