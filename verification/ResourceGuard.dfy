/** The resource guard of one cohort: what it latches, whom it signals and the
    evidence it projects into receipts. */
module ResourceGuard {
  import opened Contracts

  const MAXIMUM_RESOURCE_WARNINGS := 4
  const MAXIMUM_EVENT_ROWS := 4

  datatype Disposition = SessionStop | JobStop | Reject | Warn
  datatype Scope = SessionScope | CohortScope
  datatype Target = HostFilesystem | Workspace | Cache
  datatype CheckPhase = Initial | Live | Terminal

  /** `observed` and `limits` hold the values of the two labelled number tables. */
  datatype Event = Event(
    code: Code, scope: Scope, target: Target, phase: CheckPhase,
    disposition: Option<Disposition>, session: Option<SessionId>, uncertain: bool,
    observed: seq<nat>, limits: seq<nat>)

  datatype TreeSnapshot = TreeSnapshot(totalBytes: nat, entries: nat, maximumDepth: nat)
  datatype TreeLimits = TreeLimits(maximumTotalBytes: nat, maximumEntries: nat, maximumDepth: nat)
  datatype DiskSnapshot = DiskSnapshot(totalBytes: nat, availableBytes: nat, requiredFreeBytes: nat)

  /** What a measurement returned; an error is any exception while measuring. */
  datatype DiskReading = DiskError | DiskRead(snapshot: DiskSnapshot)
  datatype TreeReading = TreeError | TreeRead(snapshot: TreeSnapshot)

  /** The part of the safety profile the guard consults. */
  datatype Profile = Profile(
    diskReserve: Disposition,
    workspaceBytes: Disposition, workspaceEntries: Disposition, workspaceDepth: Disposition,
    cacheBytes: Disposition, cacheEntries: Disposition,
    workspace: TreeLimits, cache: TreeLimits)

  datatype TreeRecord = TreeRecord(checks: nat, latest: Option<TreeSnapshot>)

  datatype Guard = Guard(
    profile: Profile,
    sessions: seq<SessionId>,
    global: Option<Event>,
    terminal: map<SessionId, Event>,
    warnings: map<SessionId, seq<Event>>,
    signalled: set<SessionId>,
    activated: set<SessionId>,
    finished: set<SessionId>,
    diskChecks: nat,
    latestDisk: Option<DiskSnapshot>,
    workspaces: map<SessionId, TreeRecord>,
    caches: map<SessionId, TreeRecord>)

  datatype Evidence = Evidence(
    diskChecks: nat, workspaceChecks: nat, cacheChecks: nat,
    latestDisk: Option<DiskSnapshot>,
    latestWorkspace: Option<TreeSnapshot>, latestCache: Option<TreeSnapshot>,
    terminal: Option<Event>, warnings: seq<Event>)

  function Create(profile: Profile, sessions: seq<SessionId>): Guard {
    Guard(profile, sessions, None, map[], map s | s in sessions :: [], {}, {}, {}, 0, None,
          map s | s in sessions :: TreeRecord(0, None),
          map s | s in sessions :: TreeRecord(0, None))
  }

  /** A cohort-wide event hides any session event. */
  function EventFor(g: Guard, s: SessionId): Option<Event> {
    if g.global.Some? then g.global
    else if s in g.terminal then Some(g.terminal[s])
    else None
  }

  predicate IsWarning(e: Event) {
    e.disposition == Some(Warn) && !e.uncertain
  }

  function AddWarning(kept: seq<Event>, e: Event): seq<Event> {
    if |kept| < MAXIMUM_RESOURCE_WARNINGS then kept + [e] else kept
  }

  function Latch(g: Guard, e: Event): Guard
    requires e.scope.SessionScope? ==> e.session.Some?
  {
    if IsWarning(e) then
      g.(warnings := map s | s in g.warnings ::
           if e.session == None || e.session == Some(s) then AddWarning(g.warnings[s], e)
           else g.warnings[s])
    else if e.scope.CohortScope? then
      if g.global.None? then g.(global := Some(e), signalled := set s | s in g.sessions) else g
    else if e.session.value !in g.terminal then
      g.(terminal := g.terminal[e.session.value := e],
         signalled := g.signalled + {e.session.value})
    else g
  }

  function UncertainEvent(target: Target, phase: CheckPhase, s: Option<SessionId>): Event {
    Event(ResourceAccountingUncertain, CohortScope, target, phase, None, s, true, [], [])
  }

  function DiskEvent(p: Profile, phase: CheckPhase, d: DiskSnapshot): Event {
    Event(DiskReserveBreached, CohortScope, HostFilesystem, phase, Some(p.diskReserve), None, false,
          [d.availableBytes], [d.requiredFreeBytes])
  }

  /** Returns the guard after a disk check and the raw event of that check. */
  function CheckDisk(g: Guard, phase: CheckPhase, r: DiskReading): (Guard, Option<Event>) {
    var g1 := g.(diskChecks := g.diskChecks + 1);
    match r
    case DiskError =>
      var e := UncertainEvent(HostFilesystem, phase, None);
      (Latch(g1, e), Some(e))
    case DiskRead(d) =>
      var g2 := g1.(latestDisk := Some(d));
      if d.availableBytes >= d.requiredFreeBytes then (g2, None)
      else
        var e := DiskEvent(g.profile, phase, d);
        (Latch(g2, e), Some(e))
  }

  function TreeEvent(code: Code, s: SessionId, target: Target, phase: CheckPhase, d: Disposition,
                     observed: nat, limit: nat): Event {
    Event(code, SessionScope, target, phase, Some(d), Some(s), false,
          [observed], [limit])
  }

  predicate WithinLimits(t: TreeSnapshot, l: TreeLimits) {
    t.totalBytes <= l.maximumTotalBytes && t.entries <= l.maximumEntries && t.maximumDepth <= l.maximumDepth
  }

  function LimitsOf(p: Profile, target: Target): TreeLimits {
    if target.Workspace? then p.workspace else p.cache
  }

  /** The first crossed limit, in the order bytes, entries, depth. */
  function TreeLimitEvent(p: Profile, s: SessionId, target: Target, phase: CheckPhase,
                          t: TreeSnapshot): (r: Option<Event>)
    ensures r.None? <==> WithinLimits(t, LimitsOf(p, target))
    ensures r.Some? ==> r.value.scope.SessionScope? && r.value.session == Some(s) && !r.value.uncertain
    ensures r.Some? ==> r.value.disposition.Some?
  {
    var l := LimitsOf(p, target);
    var ws := target.Workspace?;
    if t.totalBytes > l.maximumTotalBytes then
      Some(TreeEvent(if ws then WorkspaceTotalBytesExceeded else RuntimeCacheTotalBytesExceeded, s, target, phase,
                     if ws then p.workspaceBytes else p.cacheBytes,
                     t.totalBytes, l.maximumTotalBytes))
    else if t.entries > l.maximumEntries then
      Some(TreeEvent(if ws then WorkspaceEntryLimitExceeded else RuntimeCacheEntryLimitExceeded, s, target, phase,
                     if ws then p.workspaceEntries else p.cacheEntries,
                     t.entries, l.maximumEntries))
    else if t.maximumDepth > l.maximumDepth then
      Some(TreeEvent(if ws then WorkspaceDepthLimitExceeded else RuntimeCacheEntryLimitExceeded, s, target, phase,
                     if ws then p.workspaceDepth else p.cacheEntries,
                     t.maximumDepth, l.maximumDepth))
    else None
  }

  function TreeOf(g: Guard, s: SessionId, target: Target): TreeRecord {
    var m := if target.Workspace? then g.workspaces else g.caches;
    if s in m then m[s] else TreeRecord(0, None)
  }

  function SetTree(g: Guard, s: SessionId, target: Target, r: TreeRecord): Guard {
    if target.Workspace? then g.(workspaces := g.workspaces[s := r])
    else g.(caches := g.caches[s := r])
  }

  /** The event of one tree check, if any: unreadable, or over a limit. */
  function TreeCheckEvent(p: Profile, s: SessionId, target: Target, phase: CheckPhase,
                          r: TreeReading): (e: Option<Event>)
    ensures e.Some? && e.value.scope.SessionScope? ==> e.value.session == Some(s)
  {
    match r
    case TreeError => Some(UncertainEvent(target, phase, Some(s)))
    case TreeRead(t) => TreeLimitEvent(p, s, target, phase, t)
  }

  /** Returns the guard after a tree check and the raw event of that check. */
  function CheckTree(g: Guard, s: SessionId, target: Target, phase: CheckPhase, r: TreeReading)
    : (Guard, Option<Event>)
  {
    var rec := TreeOf(g, s, target);
    var latest := if r.TreeError? then rec.latest else Some(r.snapshot);
    var g1 := SetTree(g, s, target, TreeRecord(rec.checks + 1, latest));
    var e := TreeCheckEvent(g.profile, s, target, phase, r);
    if e.None? then (g1, None) else (Latch(g1, e.value), e)
  }

  function EvidenceFor(g: Guard, s: SessionId): Evidence {
    Evidence(g.diskChecks, TreeOf(g, s, Workspace).checks, TreeOf(g, s, Cache).checks,
             g.latestDisk, TreeOf(g, s, Workspace).latest, TreeOf(g, s, Cache).latest,
             EventFor(g, s), if s in g.warnings then g.warnings[s] else [])
  }

  // ---------------------------------------------------------------- the store's rules

  predicate ValidEvent(e: Event, s: SessionId) {
    && (e.scope.SessionScope? ==> e.session == Some(s))
    && (e.uncertain <==> e.disposition.None?)
    && |e.observed| <= MAXIMUM_EVENT_ROWS
    && |e.limits| <= MAXIMUM_EVENT_ROWS
  }

  predicate ValidEvidence(v: Evidence, s: SessionId) {
    && |v.warnings| <= MAXIMUM_RESOURCE_WARNINGS
    && (v.terminal.Some? ==> ValidEvent(v.terminal.value, s) && v.terminal.value.disposition != Some(Warn))
    && forall w :: w in v.warnings ==> ValidEvent(w, s) && w.disposition == Some(Warn)
  }

  // ---------------------------------------------------------------- the latch invariant

  ghost predicate GlobalOk(e: Event) {
    && e.scope.CohortScope? && !e.code.Text?
    && e.disposition != Some(Warn)
    && (e.uncertain <==> e.disposition.None?)
    && (e.uncertain ==> e.code == ResourceAccountingUncertain)
    && |e.observed| <= MAXIMUM_EVENT_ROWS && |e.limits| <= MAXIMUM_EVENT_ROWS
  }

  ghost predicate TerminalOk(e: Event, s: SessionId) {
    && e.scope.SessionScope? && e.session == Some(s) && !e.code.Text?
    && !e.uncertain && e.disposition.Some? && e.disposition != Some(Warn)
    && |e.observed| <= MAXIMUM_EVENT_ROWS && |e.limits| <= MAXIMUM_EVENT_ROWS
  }

  ghost predicate WarningsOk(ws: seq<Event>, s: SessionId) {
    && |ws| <= MAXIMUM_RESOURCE_WARNINGS
    && forall w :: w in ws ==> ValidEvent(w, s) && w.disposition == Some(Warn)
  }

  ghost predicate SessionOk(g: Guard, s: SessionId) {
    && (s in g.terminal ==> s in g.sessions && TerminalOk(g.terminal[s], s))
    && (s in g.warnings ==> WarningsOk(g.warnings[s], s))
    && (s in g.signalled ==> s in g.sessions)
    && (s in g.sessions ==> (s in g.signalled <==> EventFor(g, s).Some?))
  }

  ghost predicate GuardOk(g: Guard) {
    && (g.global.Some? ==> GlobalOk(g.global.value))
    && (forall s :: SessionOk(g, s))
  }

  ghost predicate SessionGrows(g: Guard, h: Guard, s: SessionId) {
    && (s in g.terminal ==> s in h.terminal && h.terminal[s] == g.terminal[s])
    && (s in g.signalled ==> s in h.signalled)
    && (s in g.activated ==> s in h.activated)
    && (s in g.finished ==> s in h.finished)
  }

  /** Once latched, always latched: nothing replaces or clears an event. */
  ghost predicate Grows(g: Guard, h: Guard) {
    && h.sessions == g.sessions && h.profile == g.profile
    && (g.global.Some? ==> h.global == g.global)
    && (forall s :: SessionGrows(g, h, s))
  }

  /** Every event the guard's own checks produce. */
  ghost predicate Produced(g: Guard, e: Event) {
    || (GlobalOk(e) || (IsWarning(e) && e.scope.CohortScope? && e.session == None
                        && |e.observed| <= 4 && |e.limits| <= 4))
    || (e.session.Some? && e.session.value in g.sessions
        && (TerminalOk(e, e.session.value)
            || (IsWarning(e) && ValidEvent(e, e.session.value) && e.scope.SessionScope?)))
  }

  lemma GrowsTransitive(g: Guard, h: Guard, k: Guard)
    requires Grows(g, h) && Grows(h, k)
    ensures Grows(g, k)
  {
    forall s ensures SessionGrows(g, k, s) {
      assert SessionGrows(g, h, s) && SessionGrows(h, k, s);
    }
  }

  lemma AddWarningOk(kept: seq<Event>, e: Event, s: SessionId)
    requires WarningsOk(kept, s) && ValidEvent(e, s) && e.disposition == Some(Warn)
    ensures WarningsOk(AddWarning(kept, e), s)
  {
  }

  lemma LatchKeepsSession(g: Guard, e: Event, s: SessionId)
    requires GuardOk(g) && Produced(g, e)
    ensures e.scope.SessionScope? ==> e.session.Some?
    ensures SessionOk(Latch(g, e), s) && SessionGrows(g, Latch(g, e), s)
  {
    assert SessionOk(g, s);
    if IsWarning(e) && s in g.warnings && (e.session == None || e.session == Some(s)) {
      AddWarningOk(g.warnings[s], e, s);
    }
  }

  lemma LatchKeepsGuard(g: Guard, e: Event)
    requires GuardOk(g) && Produced(g, e)
    ensures e.scope.SessionScope? ==> e.session.Some?
    ensures GuardOk(Latch(g, e)) && Grows(g, Latch(g, e))
    ensures Latch(g, e).activated == g.activated && Latch(g, e).finished == g.finished
    ensures !IsWarning(e) && e.session.Some? ==> EventFor(Latch(g, e), e.session.value).Some?
    ensures !IsWarning(e) && e.scope.CohortScope? ==> Latch(g, e).global == if g.global.None? then Some(e) else g.global
  {
    forall s ensures SessionOk(Latch(g, e), s) && SessionGrows(g, Latch(g, e), s) {
      LatchKeepsSession(g, e, s);
    }
  }

  /** Counters and latest snapshots are no part of the latch. */
  ghost predicate SameLatch(g: Guard, h: Guard) {
    && h.sessions == g.sessions && h.profile == g.profile
    && h.global == g.global && h.terminal == g.terminal && h.warnings == g.warnings
    && h.signalled == g.signalled && h.activated == g.activated && h.finished == g.finished
  }

  lemma SameLatchKeepsGuard(g: Guard, h: Guard)
    requires GuardOk(g) && SameLatch(g, h)
    ensures GuardOk(h) && Grows(g, h)
  {
    forall s ensures SessionOk(h, s) && SessionGrows(g, h, s) {
      assert SessionOk(g, s);
    }
  }

  /** A disk check keeps the latch invariant; a certain, non-warning breach or an
      unreadable disk leaves a cohort-wide event latched. */
  lemma CheckDiskKeepsGuard(g: Guard, phase: CheckPhase, r: DiskReading)
    requires GuardOk(g)
    ensures var (h, e) := CheckDisk(g, phase, r);
            && GuardOk(h) && Grows(g, h) && h.activated == g.activated && h.finished == g.finished
            && (e.Some? && !IsWarning(e.value) ==> h.global == if g.global.None? then e else g.global)
  {
    var g1 := g.(diskChecks := g.diskChecks + 1);
    match r {
      case DiskError =>
        SameLatchKeepsGuard(g, g1);
        LatchKeepsGuard(g1, UncertainEvent(HostFilesystem, phase, None));
        GrowsTransitive(g, g1, CheckDisk(g, phase, r).0);
      case DiskRead(d) =>
        var g2 := g1.(latestDisk := Some(d));
        SameLatchKeepsGuard(g, g2);
        if d.availableBytes < d.requiredFreeBytes {
          LatchKeepsGuard(g2, DiskEvent(g.profile, phase, d));
          GrowsTransitive(g, g2, CheckDisk(g, phase, r).0);
        }
    }
  }

  lemma TreeCheckEventProduced(g: Guard, s: SessionId, target: Target, phase: CheckPhase, r: TreeReading)
    requires s in g.sessions && TreeCheckEvent(g.profile, s, target, phase, r).Some?
    ensures Produced(g, TreeCheckEvent(g.profile, s, target, phase, r).value)
    ensures TreeCheckEvent(g.profile, s, target, phase, r).value.session == Some(s)
  {
  }

  lemma CheckTreeKeepsGuard(g: Guard, s: SessionId, target: Target, phase: CheckPhase, r: TreeReading)
    requires GuardOk(g) && s in g.sessions
    ensures var (h, e) := CheckTree(g, s, target, phase, r);
            && GuardOk(h) && Grows(g, h) && h.activated == g.activated && h.finished == g.finished
            && (e.Some? && !IsWarning(e.value) ==> EventFor(h, s).Some?)
  {
    var rec := TreeOf(g, s, target);
    var latest := if r.TreeError? then rec.latest else Some(r.snapshot);
    var g1 := SetTree(g, s, target, TreeRecord(rec.checks + 1, latest));
    SameLatchKeepsGuard(g, g1);
    var e := TreeCheckEvent(g.profile, s, target, phase, r);
    if e.Some? {
      TreeCheckEventProduced(g1, s, target, phase, r);
      LatchKeepsGuard(g1, e.value);
      GrowsTransitive(g, g1, Latch(g1, e.value));
    }
  }

  /** Whatever the guard measured, the store accepts its evidence block. */
  lemma EvidenceIsValid(g: Guard, s: SessionId)
    requires GuardOk(g) && s in g.sessions
    ensures ValidEvidence(EvidenceFor(g, s), s)
  {
    assert SessionOk(g, s);
  }

  // ---------------------------------------------------------------- runs

  datatype GuardAction =
    | DiskCheck(dphase: CheckPhase, disk: DiskReading)
    | TreeCheck(session: SessionId, target: Target, tphase: CheckPhase, tree: TreeReading)
    | Activation(activated: SessionId)
    | Completion(finished: SessionId)

  function Act(g: Guard, a: GuardAction): Guard {
    match a
    case DiskCheck(p, r) => CheckDisk(g, p, r).0
    case TreeCheck(s, t, p, r) => if s in g.sessions then CheckTree(g, s, t, p, r).0 else g
    case Activation(s) => g.(activated := g.activated + {s})
    case Completion(s) => g.(finished := g.finished + {s})
  }

  function GuardRun(g: Guard, actions: seq<GuardAction>): Guard
    decreases |actions|
  {
    if actions == [] then g else Act(GuardRun(g, actions[..|actions| - 1]), actions[|actions| - 1])
  }

  lemma CreateIsOk(p: Profile, sessions: seq<SessionId>)
    ensures GuardOk(Create(p, sessions))
  {
    forall s ensures SessionOk(Create(p, sessions), s) {
    }
  }

  lemma MarkingKeepsGuard(g: Guard, h: Guard)
    requires GuardOk(g)
    requires h == g.(activated := h.activated, finished := h.finished)
    requires g.activated <= h.activated && g.finished <= h.finished
    ensures GuardOk(h) && Grows(g, h)
  {
    forall s ensures SessionOk(h, s) && SessionGrows(g, h, s) {
      assert SessionOk(g, s);
    }
  }

  lemma ActKeepsGuard(g: Guard, a: GuardAction)
    requires GuardOk(g)
    ensures GuardOk(Act(g, a)) && Grows(g, Act(g, a))
  {
    match a {
      case DiskCheck(p, r) => CheckDiskKeepsGuard(g, p, r);
      case TreeCheck(s, t, p, r) =>
        if s in g.sessions {
          CheckTreeKeepsGuard(g, s, t, p, r);
        } else {
          MarkingKeepsGuard(g, g);
        }
      case Activation(s) => MarkingKeepsGuard(g, Act(g, a));
      case Completion(s) => MarkingKeepsGuard(g, Act(g, a));
    }
  }

  lemma {:induction false} RunKeepsGuard(g: Guard, actions: seq<GuardAction>)
    requires GuardOk(g)
    ensures GuardOk(GuardRun(g, actions)) && Grows(g, GuardRun(g, actions))
    decreases |actions|
  {
    if actions == [] {
      MarkingKeepsGuard(g, g);
    } else {
      var before := actions[..|actions| - 1];
      RunKeepsGuard(g, before);
      ActKeepsGuard(GuardRun(g, before), actions[|actions| - 1]);
      GrowsTransitive(g, GuardRun(g, before), GuardRun(g, actions));
    }
  }

  /** Over every run of checks from a fresh guard: a session's signal is set
      exactly when an event is visible to it, no visible terminal event is a
      warning, and the evidence of every session is acceptable to the store. */
  lemma GuardRunsAreSound(p: Profile, sessions: seq<SessionId>, actions: seq<GuardAction>)
    ensures var g := GuardRun(Create(p, sessions), actions);
            forall s :: s in sessions ==>
              && (s in g.signalled <==> EventFor(g, s).Some?)
              && (EventFor(g, s).Some? ==> EventFor(g, s).value.disposition != Some(Warn))
              && ValidEvidence(EvidenceFor(g, s), s)
  {
    CreateIsOk(p, sessions);
    RunKeepsGuard(Create(p, sessions), actions);
    var g := GuardRun(Create(p, sessions), actions);
    forall s | s in sessions
      ensures && (s in g.signalled <==> EventFor(g, s).Some?)
              && (EventFor(g, s).Some? ==> EventFor(g, s).value.disposition != Some(Warn))
              && ValidEvidence(EvidenceFor(g, s), s)
    {
      assert SessionOk(g, s);
      EvidenceIsValid(g, s);
    }
  }

  /** The first cohort-wide event wins for good, whatever happens afterwards. */
  lemma GlobalEventIsForever(p: Profile, sessions: seq<SessionId>,
                             first: seq<GuardAction>, later: seq<GuardAction>)
    ensures var g := GuardRun(Create(p, sessions), first);
            g.global.Some? ==> GuardRun(g, later).global == g.global
  {
    CreateIsOk(p, sessions);
    RunKeepsGuard(Create(p, sessions), first);
    RunKeepsGuard(GuardRun(Create(p, sessions), first), later);
  }
}
