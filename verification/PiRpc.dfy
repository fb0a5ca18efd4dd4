/** The request/response protocol with the agent process: calls, the reader, two
    locks and one count of observed frames.  A step is what runs between two
    suspension points. */
module PiRpc {
  import opened Contracts

  /** Requests are named by the running request count. */
  type RequestId = nat
  type Command = string

  datatype Frame = Response(id: Option<RequestId>, command: Command) | EventFrame

  datatype Future = Unresolved | Resolved(frame: Frame) | Excepted | Dropped

  datatype CallError = AlreadyFailed | WriteFailed | ObserverFailed | ResponseTimeout | TransportFailed

  /** A call passes the failure check, takes the send lock and a number, waits
      for the observation lock, writes, is observed, then awaits its answer. */
  datatype Phase =
    | Queued
    | Numbered(id: RequestId)
    | Writing(id: RequestId)
    | Observing(id: RequestId)
    | Awaiting(id: RequestId)
    | Returned(id: RequestId, answer: Frame)
    | GaveUp(error: CallError)

  datatype Call = Call(command: Command, phase: Phase, future: Future)

  datatype Reader = Reading | Holding(frame: Frame) | Reporting(frame: Frame) | Stopped

  datatype Lock = Open | ByCall(call: nat) | ByReader

  datatype Observation = Observation(ordinal: nat, what: Observed)
  datatype Observed = HostToPi(id: RequestId) | PiToHost(frame: Frame)

  /** `log` is what the observer was shown; `wire` the requests handed to the
      process; `mismatched` the requests answered with a wrong command. */
  datatype State = State(
    observed: bool,
    requestCount: nat, observationCount: nat,
    calls: seq<Call>, pending: map<RequestId, nat>,
    sendLock: Option<nat>, lock: Lock,
    reader: Reader, failed: bool,
    log: seq<Observation>, wire: set<RequestId>, mismatched: set<RequestId>)

  function Initial(observed: bool): State {
    State(observed, 0, 0, [], map[], None, Open, Reading, false, [], {}, {})
  }

  function Without(m: map<RequestId, nat>, id: RequestId): map<RequestId, nat> {
    map k | k in m && k != id :: m[k]
  }

  function SetCall(c: State, i: nat, x: Call): State
    requires i < |c.calls|
  {
    c.(calls := c.calls[i := x])
  }

  /** Every unresolved future still pending gets the failure, once. */
  function FailPending(c: State): seq<Call> {
    seq(|c.calls|, i requires 0 <= i < |c.calls| =>
      if c.calls[i].future.Unresolved? && (exists id :: id in c.pending && c.pending[id] == i)
      then c.calls[i].(future := Excepted) else c.calls[i])
  }

  function SetFailure(c: State): State {
    if c.failed then c else c.(failed := true, calls := FailPending(c), pending := map[])
  }

  function Observe(c: State, what: Observed): State {
    c.(observationCount := c.observationCount + 1, log := c.log + [Observation(c.observationCount + 1, what)])
  }

  // ---------------------------------------------------------------- a call

  function StartCall(c: State, command: Command): State {
    c.(calls := c.calls + [Call(command, if c.failed then GaveUp(AlreadyFailed) else Queued, Unresolved)])
  }

  function TakeNumber(c: State, i: nat): State
    requires i < |c.calls|
  {
    if !c.calls[i].phase.Queued? || c.sendLock.Some? then c
    else
      var id := c.requestCount + 1;
      SetCall(c, i, c.calls[i].(phase := Numbered(id)))
      .(requestCount := id, pending := c.pending[id := i], sendLock := Some(i))
  }

  /** The write and its observation happen under one lock. */
  function WriteRequest(c: State, i: nat): State
    requires i < |c.calls|
  {
    if !c.calls[i].phase.Numbered? || (c.observed && c.lock != Open) then c
    else
      var id := c.calls[i].phase.id;
      SetCall(c, i, c.calls[i].(phase := Writing(id)))
      .(wire := c.wire + {id}, lock := if c.observed then ByCall(i) else c.lock)
  }

  function DropCall(c: State, i: nat, id: RequestId, e: CallError): State
    requires i < |c.calls|
  {
    SetCall(c, i, c.calls[i].(phase := GaveUp(e), future := if c.calls[i].future.Unresolved? then Dropped
                                                          else c.calls[i].future))
    .(pending := Without(c.pending, id))
  }

  function Drained(c: State, i: nat, ok: bool): State
    requires i < |c.calls|
  {
    if !c.calls[i].phase.Writing? then c
    else
      var id := c.calls[i].phase.id;
      if !ok then
        DropCall(c, i, id, WriteFailed).(sendLock := None, lock := if c.observed then Open else c.lock)
      else if c.observed then Observe(SetCall(c, i, c.calls[i].(phase := Observing(id))), HostToPi(id))
      else SetCall(c, i, c.calls[i].(phase := Awaiting(id))).(sendLock := None)
  }

  function RequestObserved(c: State, i: nat, ok: bool): State
    requires i < |c.calls|
  {
    if !c.calls[i].phase.Observing? then c
    else
      var id := c.calls[i].phase.id;
      if ok then SetCall(c, i, c.calls[i].(phase := Awaiting(id))).(sendLock := None, lock := Open)
      else SetFailure(DropCall(c, i, id, ObserverFailed).(sendLock := None, lock := Open))
  }

  function Resume(c: State, i: nat): State
    requires i < |c.calls|
  {
    var x := c.calls[i];
    if !x.phase.Awaiting? then c
    else
      match x.future
      case Resolved(f) => SetCall(c, i, x.(phase := Returned(x.phase.id, f)))
      case Excepted => SetCall(c, i, x.(phase := GaveUp(TransportFailed)))
      case _ => c
  }

  function GiveUp(c: State, i: nat): State
    requires i < |c.calls|
  {
    var x := c.calls[i];
    if x.phase.Awaiting? && x.future.Unresolved? then DropCall(c, i, x.phase.id, ResponseTimeout) else c
  }

  // ---------------------------------------------------------------- the reader

  /** A line was read; one that is no frame ends the transport. */
  function ReadFrame(c: State, f: Option<Frame>): State {
    if !c.reader.Reading? then c
    else if f.None? then SetFailure(c.(reader := Stopped))
    else c.(reader := Holding(f.value))
  }

  function ReportFrame(c: State): State {
    if !c.reader.Holding? || (c.observed && c.lock != Open) then c
    else if c.observed then Observe(c.(reader := Reporting(c.reader.frame), lock := ByReader), PiToHost(c.reader.frame))
    else c.(reader := Reporting(c.reader.frame))
  }

  function Resolve(c: State, i: nat, f: Frame): State
    requires i < |c.calls|
  {
    if c.calls[i].future.Unresolved? then SetCall(c, i, c.calls[i].(future := Resolved(f))) else c
  }

  function StopReader(c: State): State {
    SetFailure(c.(reader := Stopped))
  }

  /** A response must name a pending request and repeat its command.  The entry
      is removed before the command is compared. */
  function Match(c: State, f: Frame): State
    requires f.Response?
  {
    if f.id.None? || f.id.value !in c.pending then StopReader(c)
    else
      var (id, i) := (f.id.value, c.pending[f.id.value]);
      var c1 := c.(pending := Without(c.pending, id));
      if i >= |c.calls| then c1
      else if c.calls[i].command != f.command then StopReader(c1.(mismatched := c1.mismatched + {id}))
      else Resolve(c1, i, f).(reader := Reading)
  }

  function HandleFrame(c: State, ok: bool): State {
    if !c.reader.Reporting? then c
    else
      var f := c.reader.frame;
      var c1 := c.(lock := if c.observed then Open else c.lock);
      if !ok then StopReader(c1)
      else if f.Response? then Match(c1, f)
      else c1.(reader := Reading)
  }

  // ---------------------------------------------------------------- runs

  datatype Action =
    | Starts(command: Command)
    | TakesNumber(i: nat)
    | Writes(i: nat)
    | Drains(i: nat, ok: bool)
    | IsObserved(i: nat, ok: bool)
    | Resumes(i: nat)
    | TimesOut(i: nat)
    | Reads(frame: Option<Frame>)
    | Reports
    | Handles(ok: bool)
    | StopsReading

  function Act(c: State, a: Action): State {
    match a
    case Starts(command) => StartCall(c, command)
    case TakesNumber(i) => if i < |c.calls| then TakeNumber(c, i) else c
    case Writes(i) => if i < |c.calls| then WriteRequest(c, i) else c
    case Drains(i, ok) => if i < |c.calls| then Drained(c, i, ok) else c
    case IsObserved(i, ok) => if i < |c.calls| then RequestObserved(c, i, ok) else c
    case Resumes(i) => if i < |c.calls| then Resume(c, i) else c
    case TimesOut(i) => if i < |c.calls| then GiveUp(c, i) else c
    case Reads(f) => ReadFrame(c, f)
    case Reports => ReportFrame(c)
    case Handles(ok) => HandleFrame(c, ok)
    case StopsReading => if c.reader.Reading? then c.(reader := Stopped) else c
  }

  function Acts(c: State, xs: seq<Action>): State
    decreases |xs|
  {
    if xs == [] then c else Act(Acts(c, xs[..|xs| - 1]), xs[|xs| - 1])
  }
}
