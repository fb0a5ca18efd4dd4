/** The durable layout of one cohort under several launchers, crashes and
    writers: one step is one atomic file-system operation. */
module LaunchStore {
  import opened Contracts
  import opened ReceiptRules

  const MAXIMUM_SESSIONS := 4096

  datatype SubName = Private | Input | Workspace | Cache | Evidence

  datatype Dir =
    | RuntimeRoot | SessionsRoot | SessionRoot(session: SessionId) | SubDir(session: SessionId, name: SubName)

  /** A state document names its launch; any text may follow PLANNED. */
  datatype StateDoc = StateDoc(launch: Launch, text: string)

  datatype Disk = Disk(
    dirs: set<Dir>, launch: Option<Launch>, states: map<SessionId, StateDoc>,
    receipts: map<SessionId, Receipt>, settlement: Option<Settlement>)

  const EMPTY := Disk({}, None, map[], map[], None)

  // ---------------------------------------------------------------- launching

  datatype Op = MakeDir(dir: Dir) | LinkState(session: SessionId) | LinkLaunch

  predicate Launchable(l: Launch) {
    && 1 <= |l.sessions| <= MAXIMUM_SESSIONS
    && forall i, j :: 0 <= i < j < |l.sessions| ==> l.sessions[i] != l.sessions[j]
  }

  function SessionOps(s: SessionId): seq<Op> {
    [MakeDir(SessionRoot(s)), MakeDir(SubDir(s, Private)), MakeDir(SubDir(s, Input)), MakeDir(SubDir(s, Workspace)),
     MakeDir(SubDir(s, Cache)), MakeDir(SubDir(s, Evidence)), LinkState(s)]
  }

  function AllSessionOps(ss: seq<SessionId>): seq<Op> {
    if ss == [] then [] else AllSessionOps(ss[..|ss| - 1]) + SessionOps(ss[|ss| - 1])
  }

  /** What a launcher does, in order; the launch document comes last. */
  function Program(l: Launch): seq<Op> {
    [MakeDir(RuntimeRoot), MakeDir(SessionsRoot)] + AllSessionOps(l.sessions) + [LinkLaunch]
  }

  predicate ParentExists(d: Disk, dir: Dir) {
    match dir
    case RuntimeRoot => true
    case SessionsRoot => RuntimeRoot in d.dirs
    case SessionRoot(_) => SessionsRoot in d.dirs
    case SubDir(s, _) => SessionRoot(s) in d.dirs
  }

  /** Every operation refuses a name that is taken. */
  predicate Applies(d: Disk, op: Op) {
    match op
    case MakeDir(dir) => dir !in d.dirs && ParentExists(d, dir)
    case LinkState(s) => SessionRoot(s) in d.dirs && s !in d.states
    case LinkLaunch => RuntimeRoot in d.dirs && d.launch.None?
  }

  function Apply(d: Disk, op: Op, l: Launch): Disk {
    match op
    case MakeDir(dir) => d.(dirs := d.dirs + {dir})
    case LinkState(s) => d.(states := d.states[s := StateDoc(l, "PLANNED")])
    case LinkLaunch => d.(launch := Some(l))
  }

  /** What a launcher leaves that nothing gets in the way of. */
  function Perform(d: Disk, ops: seq<Op>, l: Launch): Disk
    decreases |ops|
  {
    if ops == [] then d else Apply(Perform(d, ops[..|ops| - 1], l), ops[|ops| - 1], l)
  }

  /** Every operation finds its name free and its parent there. */
  predicate Smooth(d: Disk, ops: seq<Op>, l: Launch)
    decreases |ops|
  {
    ops != [] ==>
      Smooth(d, ops[..|ops| - 1], l) && Applies(Perform(d, ops[..|ops| - 1], l), ops[|ops| - 1])
  }

  datatype Launcher = Launcher(launch: Launch, pc: nat, live: bool)

  // ---------------------------------------------------------------- other writers

  datatype WriteResult = Written | Conflict | Refused

  predicate Writable(d: Disk, s: SessionId) {
    && RuntimeRoot in d.dirs && SessionsRoot in d.dirs && SessionRoot(s) in d.dirs
    && SubDir(s, Private) in d.dirs && SubDir(s, Input) in d.dirs && SubDir(s, Workspace) in d.dirs
    && SubDir(s, Cache) in d.dirs && SubDir(s, Evidence) in d.dirs
  }

  /** Publishing the same bytes again succeeds, different bytes conflict. */
  function PutReceipt(d: Disk, s: SessionId, r: Receipt): (Disk, WriteResult) {
    if !Writable(d, s) || d.launch.None? || r.session != s || !AcceptsReceipt(d.launch.value, r) then (d, Refused)
    else if s !in d.receipts then (d.(receipts := d.receipts[s := r]), Written)
    else (d, if d.receipts[s] == r then Written else Conflict)
  }

  function PutSettlement(d: Disk, v: Settlement): (Disk, WriteResult) {
    if d.launch.None? || !AcceptsSettlement(d.launch.value, d.receipts, v) then (d, Refused)
    else if d.settlement.None? then (d.(settlement := Some(v)), Written)
    else (d, if d.settlement == Some(v) then Written else Conflict)
  }

  /** A state document is replaced, not published. */
  function PutState(d: Disk, s: SessionId, text: string): Disk {
    if !Writable(d, s) || d.launch.None? then d
    else d.(states := d.states[s := StateDoc(d.launch.value, text)])
  }

  /** Reading a settlement validates it again against the receipts of now. */
  predicate ReadsBack(d: Disk, v: Settlement) {
    && d.settlement == Some(v) && d.launch.Some? && AcceptsSettlement(d.launch.value, d.receipts, v)
  }

  // ---------------------------------------------------------------- runs

  datatype World = World(disk: Disk, launchers: seq<Launcher>)

  datatype Action =
    | Begin(launch: Launch)
    | Advance(who: nat)
    | Crash(dead: nat)
    | Receive(session: SessionId, receipt: Receipt)
    | Settle(value: Settlement)
    | Mark(marked: SessionId, text: string)

  function AdvanceOne(w: World, i: nat): World
    requires i < |w.launchers|
  {
    var x := w.launchers[i];
    if !x.live || x.pc >= |Program(x.launch)| then w
    else if Applies(w.disk, Program(x.launch)[x.pc])
    then World(Apply(w.disk, Program(x.launch)[x.pc], x.launch), w.launchers[i := x.(pc := x.pc + 1)])
    else w.(launchers := w.launchers[i := x.(live := false)])
  }

  function Act(w: World, a: Action): World {
    match a
    case Begin(l) => if Launchable(l) then w.(launchers := w.launchers + [Launcher(l, 0, true)]) else w
    case Advance(i) => if i < |w.launchers| then AdvanceOne(w, i) else w
    case Crash(i) =>
      if i < |w.launchers| then w.(launchers := w.launchers[i := w.launchers[i].(live := false)]) else w
    case Receive(s, r) => w.(disk := PutReceipt(w.disk, s, r).0)
    case Settle(v) => w.(disk := PutSettlement(w.disk, v).0)
    case Mark(s, text) => w.(disk := PutState(w.disk, s, text))
  }

  function Acts(w: World, xs: seq<Action>): World
    decreases |xs|
  {
    if xs == [] then w else Act(Acts(w, xs[..|xs| - 1]), xs[|xs| - 1])
  }

  // ---------------------------------------------------------------- what a prefix of the program made

  ghost predicate LayoutOf(d: Disk, l: Launch, pc: nat)
    requires pc <= |Program(l)|
  {
    && (forall dir :: dir in d.dirs <==> MakeDir(dir) in Program(l)[..pc])
    && (forall s :: s in d.states <==> LinkState(s) in Program(l)[..pc])
    && (d.launch == if LinkLaunch in Program(l)[..pc] then Some(l) else None)
  }

  lemma {:induction false} SessionOpsIn(ss: seq<SessionId>, op: Op)
    ensures op in AllSessionOps(ss) <==> exists k :: 0 <= k < |ss| && op in SessionOps(ss[k])
    decreases |ss|
  {
    if ss != [] {
      var n := |ss| - 1;
      SessionOpsIn(ss[..n], op);
      if k :| 0 <= k < |ss| && op in SessionOps(ss[k]) {
        assert k < n ==> op in SessionOps(ss[..n][k]);
      }
    }
  }

  lemma LaunchComesLast(l: Launch, pc: nat)
    requires pc <= |Program(l)|
    ensures LinkLaunch in Program(l)[..pc] <==> pc == |Program(l)|
  {
    SessionOpsIn(l.sessions, LinkLaunch);
    var n := |Program(l)| - 1;
    assert Program(l)[n] == LinkLaunch;
    assert forall k :: 0 <= k < n ==> Program(l)[k] != LinkLaunch by {
      forall k | 0 <= k < n ensures Program(l)[k] != LinkLaunch {
        if k >= 2 {
          assert Program(l)[k] == AllSessionOps(l.sessions)[k - 2];
        }
      }
    }
  }

  /** Everything a session needs. */
  ghost predicate SessionComplete(d: Disk, s: SessionId) {
    Writable(d, s) && s in d.states
  }

  ghost predicate Complete(d: Disk, l: Launch) {
    forall s :: s in l.sessions ==> SessionComplete(d, s)
  }

  lemma WholeLayout(d: Disk, l: Launch)
    requires LayoutOf(d, l, |Program(l)|)
    ensures Complete(d, l)
  {
    var p := Program(l);
    assert p[..|p|] == p;
    assert p[0] == MakeDir(RuntimeRoot) && p[1] == MakeDir(SessionsRoot);
    forall s | s in l.sessions ensures SessionComplete(d, s) {
      forall op | op in SessionOps(s) ensures op in p {
        var k :| 0 <= k < |l.sessions| && l.sessions[k] == s;
        SessionOpsIn(l.sessions, op);
      }
      var ops := SessionOps(s);
      assert ops[0] in ops && ops[1] in ops && ops[2] in ops && ops[3] in ops && ops[4] in ops && ops[5] in ops
             && ops[6] in ops;
    }
  }
}
