/** Two reader threads under one output cap, and what the verdict of a bounded
    run may rest on. */
module SharedCap {
  import opened Contracts
  import opened Capture

  datatype Pipe = Stdout | Stderr

  /** A reader takes a chunk outside the lock and accounts for it inside. */
  datatype Reader = Idle | Carrying(chunk: Bytes) | AtEof | Broken

  /** The two streams are what the process wrote in all. */
  datatype State = State(
    cap: nat, out: Bytes, err: Bytes,
    outRead: nat, errRead: nat,
    outReader: Reader, errReader: Reader,
    outBuffer: Bytes, errBuffer: Bytes,
    outObserved: nat, errObserved: nat,
    overflow: bool)

  function Start(cap: nat, out: Bytes, err: Bytes): State {
    State(cap, out, err, 0, 0, Idle, Idle, [], [], 0, 0, false)
  }

  function Stream(c: State, p: Pipe): Bytes { if p == Stdout then c.out else c.err }
  function Buffer(c: State, p: Pipe): Bytes { if p == Stdout then c.outBuffer else c.errBuffer }
  function ReadSoFar(c: State, p: Pipe): nat { if p == Stdout then c.outRead else c.errRead }
  function ReaderOf(c: State, p: Pipe): Reader { if p == Stdout then c.outReader else c.errReader }
  function Observed(c: State, p: Pipe): nat { if p == Stdout then c.outObserved else c.errObserved }

  function SetReader(c: State, p: Pipe, r: Reader): State {
    if p == Stdout then c.(outReader := r) else c.(errReader := r)
  }

  const MAXIMUM_CHUNK := 65536

  /** Reads up to `n` bytes; none left means end of file. */
  function Read(c: State, p: Pipe, n: nat): State {
    if ReaderOf(c, p) != Idle || n == 0 || n > MAXIMUM_CHUNK || ReadSoFar(c, p) > |Stream(c, p)| then c
    else
      var from := ReadSoFar(c, p);
      var upto := from + Min(n, |Stream(c, p)| - from);
      if from == upto then SetReader(c, p, AtEof)
      else
        var d := SetReader(c, p, Carrying(Stream(c, p)[from..upto]));
        if p == Stdout then d.(outRead := upto) else d.(errRead := upto)
  }

  /** Under the lock: count, keep what fits in what is left for both. */
  function Account(c: State, p: Pipe): State {
    if !ReaderOf(c, p).Carrying? then c
    else
      var chunk := ReaderOf(c, p).chunk;
      var kept := |c.outBuffer| + |c.errBuffer|;
      var room := if c.cap > kept then c.cap - kept else 0;
      var taken := chunk[..Min(|chunk|, room)];
      var d := SetReader(c, p, Idle).(overflow := c.overflow || |chunk| > room);
      if p == Stdout
      then d.(outObserved := c.outObserved + |chunk|, outBuffer := c.outBuffer + taken)
      else d.(errObserved := c.errObserved + |chunk|, errBuffer := c.errBuffer + taken)
  }

  function Fail(c: State, p: Pipe): State {
    if ReaderOf(c, p) == Idle then SetReader(c, p, Broken) else c
  }

  datatype Action = Reads(pipe: Pipe, n: nat) | Accounts(counted: Pipe) | Fails(broken: Pipe)

  function Act(c: State, a: Action): State {
    match a
    case Reads(p, n) => Read(c, p, n)
    case Accounts(p) => Account(c, p)
    case Fails(p) => Fail(c, p)
  }

  function Acts(c: State, xs: seq<Action>): State
    decreases |xs|
  {
    if xs == [] then c else Act(Acts(c, xs[..|xs| - 1]), xs[|xs| - 1])
  }

  // ---------------------------------------------------------------- the invariant

  function Carried(r: Reader): Bytes { if r.Carrying? then r.chunk else [] }

  /** One pipe: what was counted, then what is carried, then the rest. */
  ghost predicate PipeOk(c: State, p: Pipe) {
    && Observed(c, p) + |Carried(ReaderOf(c, p))| == ReadSoFar(c, p) <= |Stream(c, p)|
    && Carried(ReaderOf(c, p)) == Stream(c, p)[Observed(c, p)..ReadSoFar(c, p)]
    && (ReaderOf(c, p).AtEof? ==> Observed(c, p) == |Stream(c, p)|)
    && |Buffer(c, p)| <= Observed(c, p)
    && Buffer(c, p) == Stream(c, p)[..|Buffer(c, p)|]
    && (!c.overflow ==> |Buffer(c, p)| == Observed(c, p))
  }

  ghost predicate CapOk(c: State) {
    var observed := c.outObserved + c.errObserved;
    && |c.outBuffer| + |c.errBuffer| == Min(c.cap, observed)
    && (c.overflow <==> observed > c.cap)
  }

  ghost predicate Inv(c: State) {
    PipeOk(c, Stdout) && PipeOk(c, Stderr) && CapOk(c)
  }

  lemma ReadKeepsPipe(c: State, p: Pipe, n: nat)
    requires PipeOk(c, p)
    ensures PipeOk(Read(c, p, n), p)
  {
  }

  lemma ReadKeeps(c: State, p: Pipe, n: nat)
    requires Inv(c)
    ensures Inv(Read(c, p, n))
  {
    ReadKeepsPipe(c, p, n);
  }

  lemma JoinSlices(s: Bytes, a: nat, b: nat, m: nat)
    requires a <= b <= |s| && m <= b - a
    ensures s[..a] + s[a..b][..m] == s[..a + m]
  {
  }

  lemma AccountKeepsPipe(c: State, p: Pipe)
    requires PipeOk(c, p) && CapOk(c) && ReaderOf(c, p).Carrying?
    ensures PipeOk(Account(c, p), p)
  {
    var (s, chunk) := (Stream(c, p), ReaderOf(c, p).chunk);
    var kept := |c.outBuffer| + |c.errBuffer|;
    var m := Min(|chunk|, if c.cap > kept then c.cap - kept else 0);
    assert Buffer(Account(c, p), p) == Buffer(c, p) + chunk[..m];
    if !c.overflow {
      JoinSlices(s, Observed(c, p), ReadSoFar(c, p), m);
    }
  }

  lemma AccountKeeps(c: State, p: Pipe)
    requires Inv(c)
    ensures Inv(Account(c, p))
  {
    if ReaderOf(c, p).Carrying? {
      AccountKeepsPipe(c, p);
    }
  }

  lemma FailKeeps(c: State, p: Pipe)
    requires Inv(c)
    ensures Inv(Fail(c, p))
  {
  }

  lemma ActKeeps(c: State, a: Action)
    requires Inv(c)
    ensures Inv(Act(c, a))
  {
    match a {
      case Reads(p, n) => ReadKeeps(c, p, n);
      case Accounts(p) => AccountKeeps(c, p);
      case Fails(p) => FailKeeps(c, p);
    }
  }

  lemma ActKeepsStreams(c: State, a: Action)
    ensures Act(c, a).out == c.out && Act(c, a).err == c.err && Act(c, a).cap == c.cap
  {
  }

  lemma {:induction false} ActsKeep(c: State, xs: seq<Action>)
    requires Inv(c)
    ensures Inv(Acts(c, xs)) && Acts(c, xs).out == c.out && Acts(c, xs).err == c.err && Acts(c, xs).cap == c.cap
    decreases |xs|
  {
    if xs != [] {
      var n := |xs| - 1;
      ActsKeep(c, xs[..n]);
      ActKeeps(Acts(c, xs[..n]), xs[n]);
      ActKeepsStreams(Acts(c, xs[..n]), xs[n]);
    }
  }

  /** For every chunking and interleaving: each buffer is a prefix of its
      stream, together they hold as much as the cap allows, and overflow is
      raised exactly when more than the cap was seen. */
  lemma SharedCapIsExact(cap: nat, out: Bytes, err: Bytes, xs: seq<Action>)
    ensures var c := Acts(Start(cap, out, err), xs);
            && c.outBuffer <= out && c.errBuffer <= err
            && |c.outBuffer| + |c.errBuffer| == Min(cap, c.outObserved + c.errObserved)
            && (c.overflow <==> c.outObserved + c.errObserved > cap)
  {
    ActsKeep(Start(cap, out, err), xs);
  }

  /** The buffers, counters and flag the two threads share. */
  class SharedBuffers {
    const cap: nat
    const out: Bytes
    const err: Bytes
    var outRead: nat
    var errRead: nat
    var outReader: Reader
    var errReader: Reader
    var outBuffer: Bytes
    var errBuffer: Bytes
    var outObserved: nat
    var errObserved: nat
    var overflow: bool

    function View(): State
      reads this
    {
      State(cap, out, err, outRead, errRead, outReader, errReader, outBuffer, errBuffer, outObserved, errObserved, overflow)
    }

    constructor (outputCap: nat, stdout: Bytes, stderr: Bytes)
      ensures View() == Start(outputCap, stdout, stderr)
    {
      cap, out, err := outputCap, stdout, stderr;
      outRead, errRead, outReader, errReader := 0, 0, Idle, Idle;
      outBuffer, errBuffer, outObserved, errObserved, overflow := [], [], 0, 0, false;
    }

    /** One turn of a reader inside the lock. */
    method Extend(p: Pipe)
      modifies this
      ensures View() == Account(old(View()), p)
      ensures Inv(old(View())) ==> Inv(View())
    {
      if Inv(View()) {
        AccountKeeps(View(), p);
      }
      var r := ReaderOf(View(), p);
      if !r.Carrying? {
        return;
      }
      var chunk := r.chunk;
      var kept := |outBuffer| + |errBuffer|;
      var room := if cap > kept then cap - kept else 0;
      if p == Stdout {
        outObserved := outObserved + |chunk|;
        outBuffer := outBuffer + chunk[..Min(|chunk|, room)];
        outReader := Idle;
      } else {
        errObserved := errObserved + |chunk|;
        errBuffer := errBuffer + chunk[..Min(|chunk|, room)];
        errReader := Idle;
      }
      if |chunk| > room {
        overflow := true;
      }
    }
  }

  // ---------------------------------------------------------------- the verdict

  datatype RunState =
    | OutputLimitExceeded | Timeout | ProcessGroupLeak | ProcessGroupCleanupFailed | OutputCaptureFailed | Completed

  /** What the main thread saw besides the readers. */
  datatype Watch = Watch(
    stopped: Option<RunState>,       // why the loop ended early, if it did
    groupAlive: bool, threadAlive: bool,
    cleanupComplete: bool, cleanupFailed: bool)

  /** The loop ends early only for an overflow it saw or a deadline. */
  ghost predicate WatchOk(w: Watch) {
    w.stopped.Some? ==> w.stopped.value == OutputLimitExceeded || w.stopped.value == Timeout
  }

  /** A joined reader reached the end of its stream or broke. */
  ghost predicate Joined(c: State, w: Watch) {
    !w.threadAlive ==>
      (c.outReader.AtEof? || c.outReader.Broken?) && (c.errReader.AtEof? || c.errReader.Broken?)
  }

  method Classify(c: State, w: Watch) returns (s: RunState)
    ensures s == Completed <==>
              && w.stopped.None? && !w.groupAlive && !w.threadAlive && !c.outReader.Broken? && !c.errReader.Broken?
              && !c.overflow && w.cleanupComplete && !w.cleanupFailed
    requires WatchOk(w)
  {
    var state := w.stopped;
    var complete, failed := w.cleanupComplete, w.cleanupFailed;
    if w.groupAlive && state.None? {
      state := Some(ProcessGroupLeak);
    }
    if w.threadAlive {
      complete, failed := false, true;
      state := Some(ProcessGroupCleanupFailed);
    }
    if c.outReader.Broken? || c.errReader.Broken? {
      state := Some(OutputCaptureFailed);
    }
    if c.overflow && state.None? {
      state := Some(OutputLimitExceeded);
    }
    if failed || !complete {
      state := Some(ProcessGroupCleanupFailed);
    }
    s := if state.None? then Completed else state.value;
  }

  datatype Parsed = Parsed(wellFormed: bool, accepted: bool)
  datatype Verdict = Pass | Rejected | ApparatusError

  /** `parse` reads the verifier's answer from its output. */
  function Judge(s: RunState, exit: int, stdout: Bytes, stderr: Bytes, parse: Bytes -> Parsed): (v: Verdict)
    ensures v != ApparatusError ==> s == Completed && stderr == [] && parse(stdout).wellFormed
    ensures v == Pass ==> exit == 0 && parse(stdout).accepted
    ensures v == Rejected ==> exit == 1 && !parse(stdout).accepted
  {
    if s != Completed || stderr != [] then ApparatusError
    else
      var answer := parse(stdout);
      if !answer.wellFormed then ApparatusError
      else if answer.accepted && exit == 0 then Pass
      else if !answer.accepted && exit == 1 then Rejected
      else ApparatusError
  }

  /** A run that counts as completed was captured whole, and within the cap. */
  lemma CompletedIsWhole(cap: nat, out: Bytes, err: Bytes, xs: seq<Action>, w: Watch)
    requires Joined(Acts(Start(cap, out, err), xs), w) && !w.threadAlive
    requires var c := Acts(Start(cap, out, err), xs);
             !c.outReader.Broken? && !c.errReader.Broken? && !c.overflow
    ensures var c := Acts(Start(cap, out, err), xs);
            c.outBuffer == out && c.errBuffer == err && |out| + |err| <= cap
  {
    ActsKeep(Start(cap, out, err), xs);
  }

  /** A pass or a rejection rests on the verifier's complete output: it is the
      answer the whole of stdout gives, and stderr was empty. */
  method Verify(cap: nat, out: Bytes, err: Bytes, xs: seq<Action>, w: Watch, exit: int, parse: Bytes -> Parsed)
    returns (v: Verdict)
    requires WatchOk(w) && Joined(Acts(Start(cap, out, err), xs), w)
    ensures v != ApparatusError ==> err == [] && |out| <= cap && parse(out).wellFormed
    ensures v == Pass ==> exit == 0 && parse(out).accepted
    ensures v == Rejected ==> exit == 1 && !parse(out).accepted
  {
    var c := Acts(Start(cap, out, err), xs);
    var s := Classify(c, w);
    if s == Completed {
      CompletedIsWhole(cap, out, err, xs, w);
    }
    v := Judge(s, exit, c.outBuffer, c.errBuffer, parse);
  }
}
