/** Accounting of a frozen directory graph: every name counted, every file's
    bytes once per inode, the depth of the deepest name, with an early exit. */
module TreeScan {
  import opened Contracts
  import RG = ResourceGuard

  type Inode = nat

  /** One name in a directory; `OtherEntry` is a link, a socket or a device. */
  datatype Entry = FileEntry(inode: Inode) | DirEntry(inode: Inode) | OtherEntry

  /** A directory lists its names in whatever order enumeration gives them.
      Directories may share sub-directories and files may have many names. */
  datatype Fs = Fs(dirs: map<Inode, seq<Entry>>, sizes: map<Inode, nat>)

  ghost predicate WellFormed(fs: Fs, root: Inode) {
    && root in fs.dirs
    && forall d, e :: d in fs.dirs && e in fs.dirs[d] ==>
         (e.DirEntry? ==> e.inode in fs.dirs) && (e.FileEntry? ==> e.inode in fs.sizes)
  }

  // ---------------------------------------------------------------- reachability

  predicate Child(fs: Fs, d: Inode, c: Inode) {
    d in fs.dirs && DirEntry(c) in fs.dirs[d]
  }

  /** A walk of `k` steps from the root to `d`. */
  ghost predicate Walk(fs: Fs, root: Inode, d: Inode, k: nat)
    decreases k
  {
    if k == 0 then d == root else exists p :: Walk(fs, root, p, k - 1) && Child(fs, p, d)
  }

  ghost predicate Reachable(fs: Fs, root: Inode, d: Inode) {
    exists k: nat :: Walk(fs, root, d, k)
  }

  ghost function Tree(fs: Fs, root: Inode): set<Inode> {
    set d | d in fs.dirs && Reachable(fs, root, d)
  }

  /** A set that holds the root and every child of its members holds every
      reachable directory. */
  lemma {:induction false} ClosedHoldsWalks(fs: Fs, root: Inode, s: set<Inode>, d: Inode, k: nat)
    requires root in s && forall p, c :: p in s && Child(fs, p, c) ==> c in s
    requires Walk(fs, root, d, k)
    ensures d in s
    decreases k
  {
    if k > 0 {
      var p :| Walk(fs, root, p, k - 1) && Child(fs, p, d);
      ClosedHoldsWalks(fs, root, s, p, k - 1);
    }
  }

  /** Every reachable directory has one depth: true of any tree without hard
      links to directories. */
  ghost predicate Levels(fs: Fs, root: Inode, level: map<Inode, nat>) {
    && level.Keys == Tree(fs, root) && root in level && level[root] == 0
    && forall d, c :: d in level && Child(fs, d, c) ==> c in level && level[c] == level[d] + 1
  }

  lemma {:induction false} WalkIsLevel(fs: Fs, root: Inode, level: map<Inode, nat>, d: Inode, k: nat)
    requires WellFormed(fs, root) && Levels(fs, root, level) && Walk(fs, root, d, k)
    ensures d in level && level[d] == k
    decreases k
  {
    if k > 0 {
      var p :| Walk(fs, root, p, k - 1) && Child(fs, p, d);
      WalkIsLevel(fs, root, level, p, k - 1);
    }
  }

  /** No directory has two lengths of walk to it. */
  ghost predicate OneDepth(fs: Fs, root: Inode) {
    forall d, j: nat, k: nat :: Walk(fs, root, d, j) && Walk(fs, root, d, k) ==> j == k
  }

  /** Levels exist exactly where every directory has one depth. */
  lemma LevelsExistIff(fs: Fs, root: Inode)
    requires WellFormed(fs, root)
    ensures (exists level :: Levels(fs, root, level)) <==> OneDepth(fs, root)
  {
    if level :| Levels(fs, root, level) {
      forall d, j: nat, k: nat | Walk(fs, root, d, j) && Walk(fs, root, d, k) ensures j == k {
        WalkIsLevel(fs, root, level, d, j);
        WalkIsLevel(fs, root, level, d, k);
      }
    }
    if OneDepth(fs, root) {
      var level := map d | d in Tree(fs, root) :: DepthOf(fs, root, d);
      assert Walk(fs, root, root, 0);
      forall d, c | d in level && Child(fs, d, c) ensures c in level && level[c] == level[d] + 1 {
        assert Walk(fs, root, c, DepthOf(fs, root, d) + 1);
      }
      assert Levels(fs, root, level);
    }
  }

  ghost function DepthOf(fs: Fs, root: Inode, d: Inode): (k: nat)
    requires Reachable(fs, root, d)
    ensures Walk(fs, root, d, k)
  {
    var k: nat :| Walk(fs, root, d, k);
    k
  }

  /** A tree: nothing lists the root, and no directory is listed by two. */
  ghost predicate IsTree(fs: Fs, root: Inode) {
    && (forall p :: !Child(fs, p, root))
    && (forall p, q, c :: Child(fs, p, c) && Child(fs, q, c) ==> p == q)
  }

  lemma {:induction false} OneWalk(fs: Fs, root: Inode, d: Inode, j: nat, k: nat)
    requires IsTree(fs, root) && Walk(fs, root, d, j) && Walk(fs, root, d, k)
    ensures j == k
    decreases j
  {
    if j > 0 && k > 0 {
      var p :| Walk(fs, root, p, j - 1) && Child(fs, p, d);
      var q :| Walk(fs, root, q, k - 1) && Child(fs, q, d);
      OneWalk(fs, root, p, j - 1, k - 1);
    }
  }

  /** So every tree without hard links to directories has its levels. */
  lemma TreesHaveLevels(fs: Fs, root: Inode)
    requires WellFormed(fs, root) && IsTree(fs, root)
    ensures exists level :: Levels(fs, root, level)
  {
    forall d, j: nat, k: nat | Walk(fs, root, d, j) && Walk(fs, root, d, k) ensures j == k {
      OneWalk(fs, root, d, j, k);
    }
    LevelsExistIff(fs, root);
  }

  // ---------------------------------------------------------------- totals over sets

  ghost function Sum(s: set<Inode>, f: map<Inode, nat>): nat
    requires s <= f.Keys
  {
    if s == {} then 0 else var x :| x in s; f[x] + Sum(s - {x}, f)
  }

  lemma {:induction false} SumAdd(s: set<Inode>, x: Inode, f: map<Inode, nat>)
    requires s <= f.Keys && x in f && x !in s
    ensures Sum(s + {x}, f) == Sum(s, f) + f[x]
    decreases s
  {
    var t := s + {x};
    var y :| y in t && Sum(t, f) == f[y] + Sum(t - {y}, f);
    if y == x {
      assert t - {y} == s;
    } else {
      assert t - {y} == (s - {y}) + {x};
      SumAdd(s - {y}, x, f);
      SumAdd(s - {y}, y, f);
      assert (s - {y}) + {y} == s;
    }
  }

  lemma {:induction false} SumGrows(s: set<Inode>, t: set<Inode>, f: map<Inode, nat>)
    requires s <= t <= f.Keys
    ensures Sum(s, f) <= Sum(t, f)
    decreases t - s
  {
    if t - s == {} {
      assert s == t;
    } else {
      var x :| x in t - s;
      SumAdd(s, x, f);
      SumGrows(s + {x}, t, f);
    }
  }

  ghost function Max(s: set<Inode>, f: map<Inode, nat>): (m: nat)
    requires s <= f.Keys
    ensures forall x :: x in s ==> f[x] <= m
    ensures m == 0 || exists x :: x in s && f[x] == m
  {
    if s == {} then 0
    else
      var x :| x in s;
      var rest := Max(s - {x}, f);
      assert forall y :: y in s ==> y == x || y in s - {x};
      if f[x] >= rest then f[x] else rest
  }

  // ---------------------------------------------------------------- the full accounting

  ghost function Names(fs: Fs): map<Inode, nat> {
    map d | d in fs.dirs :: |fs.dirs[d]|
  }

  /** The depth of the names in a directory, 0 if it has none. */
  ghost function NameDepths(fs: Fs, level: map<Inode, nat>): map<Inode, nat>
    requires level.Keys <= fs.dirs.Keys
  {
    map d | d in level :: if fs.dirs[d] == [] then 0 else level[d] + 1
  }

  ghost function FilesIn(es: seq<Entry>): set<Inode> {
    set e | e in es && e.FileEntry? :: e.inode
  }

  ghost function Files(fs: Fs, s: set<Inode>): set<Inode>
    requires s <= fs.dirs.Keys
  {
    set d, i | d in s && i in FilesIn(fs.dirs[d]) :: i
  }

  /** The bytes of every reachable file, once per inode. */
  ghost function FullBytes(fs: Fs, root: Inode): nat
    requires WellFormed(fs, root)
  {
    FilesHaveSizes(fs, root, Tree(fs, root));
    Sum(Files(fs, Tree(fs, root)), fs.sizes)
  }

  /** Every name in every reachable directory. */
  ghost function FullEntries(fs: Fs, root: Inode): nat
    requires WellFormed(fs, root)
  {
    Sum(Tree(fs, root), Names(fs))
  }

  /** Where every directory has one depth, so has the whole tree. */
  ghost function Full(fs: Fs, root: Inode, level: map<Inode, nat>): RG.TreeSnapshot
    requires WellFormed(fs, root) && Levels(fs, root, level)
  {
    RG.TreeSnapshot(FullBytes(fs, root), FullEntries(fs, root), Max(Tree(fs, root), NameDepths(fs, level)))
  }

  /** Some walk leads to a name at depth `m`, or `m` is 0. */
  ghost predicate NameAt(fs: Fs, root: Inode, m: nat) {
    m == 0 || exists d :: d in fs.dirs && fs.dirs[d] != [] && Walk(fs, root, d, m - 1)
  }

  /** Every directory with names has them by some walk at depth `m` or less. */
  ghost predicate ReachesAll(fs: Fs, root: Inode, m: nat) {
    forall d :: d in Tree(fs, root) && fs.dirs[d] != [] ==> exists k: nat :: k + 1 <= m && Walk(fs, root, d, k)
  }

  /** The accounting of any directory graph: bytes and names are exact, the depth
      is that of some name and no less than the shortest way to any. */
  ghost predicate Accounts(fs: Fs, root: Inode, t: RG.TreeSnapshot)
    requires WellFormed(fs, root)
  {
    && t.totalBytes == FullBytes(fs, root) && t.entries == FullEntries(fs, root)
    && NameAt(fs, root, t.maximumDepth) && ReachesAll(fs, root, t.maximumDepth)
  }

  /** A part of it. */
  ghost predicate PartOf(fs: Fs, root: Inode, t: RG.TreeSnapshot)
    requires WellFormed(fs, root)
  {
    t.totalBytes <= FullBytes(fs, root) && t.entries <= FullEntries(fs, root) && NameAt(fs, root, t.maximumDepth)
  }

  /** What a scan may return: the whole within the limits, or a part over one. */
  ghost predicate Scanned(fs: Fs, root: Inode, t: RG.TreeSnapshot, limits: RG.TreeLimits)
    requires WellFormed(fs, root)
  {
    if RG.WithinLimits(t, limits) then Accounts(fs, root, t) else PartOf(fs, root, t)
  }

  lemma FilesHaveSizes(fs: Fs, root: Inode, s: set<Inode>)
    requires WellFormed(fs, root) && s <= fs.dirs.Keys
    ensures Files(fs, s) <= fs.sizes.Keys
  {
  }

  // ---------------------------------------------------------------- the scan

  /** What has been seen was reached by a walk of the recorded length. */
  ghost predicate Seen(fs: Fs, root: Inode, at: map<Inode, nat>) {
    && at.Keys <= fs.dirs.Keys && root in at
    && forall d :: d in at ==> Walk(fs, root, d, at[d])
  }

  /** Directories still to scan: seen, not yet scanned, each once. */
  ghost predicate Frontier(at: map<Inode, nat>, scanned: set<Inode>, pending: seq<(Inode, nat)>) {
    && (forall i :: 0 <= i < |pending| ==>
          pending[i].0 in at && pending[i].0 !in scanned && at[pending[i].0] == pending[i].1)
    && (forall i, j :: 0 <= i < j < |pending| ==> pending[i].0 != pending[j].0)
  }

  ghost predicate Waiting(pending: seq<(Inode, nat)>, d: Inode) {
    exists i :: 0 <= i < |pending| && pending[i].0 == d
  }

  ghost predicate ChildrenSeen(es: seq<Entry>, at: map<Inode, nat>) {
    forall e :: e in es && e.DirEntry? ==> e.inode in at
  }

  ghost predicate Deepest(fs: Fs, at: map<Inode, nat>, s: set<Inode>, m: nat)
    requires s <= at.Keys <= fs.dirs.Keys
  {
    && (forall d :: d in s && fs.dirs[d] != [] ==> at[d] + 1 <= m)
    && (m == 0 || exists d :: d in s && fs.dirs[d] != [] && at[d] + 1 == m)
  }

  /** The totals after all of `scanned` and the first `j` names of `d`. */
  ghost predicate Tallied(fs: Fs, scanned: set<Inode>, es: seq<Entry>, files: set<Inode>,
                          totalBytes: nat, entries: nat)
    requires scanned <= fs.dirs.Keys
  {
    && files == Files(fs, scanned) + FilesIn(es)
    && files <= fs.sizes.Keys && totalBytes == Sum(files, fs.sizes)
    && entries == Sum(scanned, Names(fs)) + |es|
  }

  lemma SeenIsTree(fs: Fs, root: Inode, at: map<Inode, nat>)
    requires WellFormed(fs, root) && Seen(fs, root, at)
    ensures at.Keys <= Tree(fs, root)
  {
  }

  /** Nothing is waiting: the scan saw the whole tree. */
  lemma NothingWaiting(fs: Fs, root: Inode, at: map<Inode, nat>)
    requires WellFormed(fs, root) && Seen(fs, root, at)
    requires forall d :: d in at ==> ChildrenSeen(fs.dirs[d], at)
    ensures at.Keys == Tree(fs, root)
  {
    SeenIsTree(fs, root, at);
    forall d | d in Tree(fs, root) ensures d in at {
      var k: nat :| Walk(fs, root, d, k);
      ClosedHoldsWalks(fs, root, at.Keys, d, k);
    }
  }

  lemma DepthIsWalked(fs: Fs, root: Inode, at: map<Inode, nat>, s: set<Inode>, m: nat)
    requires WellFormed(fs, root) && Seen(fs, root, at) && s <= at.Keys && Deepest(fs, at, s, m)
    ensures NameAt(fs, root, m)
    ensures s == Tree(fs, root) ==> ReachesAll(fs, root, m)
  {
    if m > 0 {
      var d :| d in s && fs.dirs[d] != [] && at[d] + 1 == m;
      assert Walk(fs, root, d, m - 1);
    }
    if s == Tree(fs, root) {
      forall d | d in Tree(fs, root) && fs.dirs[d] != [] ensures exists k: nat :: k + 1 <= m && Walk(fs, root, d, k) {
        assert at[d] + 1 <= m && Walk(fs, root, d, at[d]);
      }
    }
  }

  /** Where every directory has one depth, walked depths are the true ones. */
  lemma NameIsWithin(fs: Fs, root: Inode, level: map<Inode, nat>, m: nat)
    requires WellFormed(fs, root) && Levels(fs, root, level) && NameAt(fs, root, m)
    ensures m <= Full(fs, root, level).maximumDepth
  {
    if m > 0 {
      var d :| d in fs.dirs && fs.dirs[d] != [] && Walk(fs, root, d, m - 1);
      WalkIsLevel(fs, root, level, d, m - 1);
      assert NameDepths(fs, level)[d] == m;
    }
  }

  lemma ReachesDeepest(fs: Fs, root: Inode, level: map<Inode, nat>, m: nat)
    requires WellFormed(fs, root) && Levels(fs, root, level) && ReachesAll(fs, root, m)
    ensures Full(fs, root, level).maximumDepth <= m
  {
    var f := NameDepths(fs, level);
    forall d | d in Tree(fs, root) ensures f[d] <= m {
      if fs.dirs[d] != [] {
        var k: nat :| k + 1 <= m && Walk(fs, root, d, k);
        WalkIsLevel(fs, root, level, d, k);
      }
    }
  }

  /** So there a scan decides the limits exactly, and within them it is the full
      accounting. */
  lemma LevelsDecide(fs: Fs, root: Inode, level: map<Inode, nat>, t: RG.TreeSnapshot, limits: RG.TreeLimits)
    requires WellFormed(fs, root) && Levels(fs, root, level) && Scanned(fs, root, t, limits)
    ensures RG.WithinLimits(t, limits) <==> RG.WithinLimits(Full(fs, root, level), limits)
    ensures RG.WithinLimits(t, limits) ==> t == Full(fs, root, level)
  {
    NameIsWithin(fs, root, level, t.maximumDepth);
    if RG.WithinLimits(t, limits) {
      ReachesDeepest(fs, root, level, t.maximumDepth);
    }
  }

  lemma TalliedPart(fs: Fs, root: Inode, d: Inode, j: nat, scanned: set<Inode>, files: set<Inode>,
                    totalBytes: nat, entries: nat)
    requires WellFormed(fs, root) && scanned + {d} <= Tree(fs, root) && d !in scanned && j <= |fs.dirs[d]|
    requires Tallied(fs, scanned, fs.dirs[d][..j], files, totalBytes, entries)
    ensures totalBytes <= FullBytes(fs, root) && entries <= FullEntries(fs, root)
  {
    var tree := Tree(fs, root);
    FilesHaveSizes(fs, root, tree);
    SumAdd(scanned, d, Names(fs));
    SumGrows(scanned + {d}, tree, Names(fs));
    assert FilesIn(fs.dirs[d][..j]) <= FilesIn(fs.dirs[d]) by {
      assert forall e :: e in fs.dirs[d][..j] ==> e in fs.dirs[d];
    }
    SumGrows(files, Files(fs, tree), fs.sizes);
  }

  /** Closing directory `d`: its names are now part of the scanned ones. */
  lemma CloseDirectory(fs: Fs, d: Inode, scanned: set<Inode>, files: set<Inode>, totalBytes: nat, entries: nat)
    requires d in fs.dirs && scanned <= fs.dirs.Keys && d !in scanned
    requires Tallied(fs, scanned, fs.dirs[d], files, totalBytes, entries)
    ensures Tallied(fs, scanned + {d}, [], files, totalBytes, entries)
  {
    SumAdd(scanned, d, Names(fs));
    assert Files(fs, scanned + {d}) == Files(fs, scanned) + FilesIn(fs.dirs[d]);
  }

  /** One more name of the directory being scanned. */
  lemma CountName(fs: Fs, scanned: set<Inode>, es: seq<Entry>, e: Entry, files: set<Inode>,
                  totalBytes: nat, entries: nat)
    requires scanned <= fs.dirs.Keys && Tallied(fs, scanned, es, files, totalBytes, entries)
    requires e.FileEntry? ==> e.inode in fs.sizes
    ensures if e.FileEntry? && e.inode !in files
            then Tallied(fs, scanned, es + [e], files + {e.inode}, totalBytes + fs.sizes[e.inode], entries + 1)
            else Tallied(fs, scanned, es + [e], files, totalBytes, entries + 1)
  {
    assert FilesIn(es + [e]) == FilesIn(es) + if e.FileEntry? then {e.inode} else {};
    if e.FileEntry? && e.inode !in files {
      SumAdd(files, e.inode, fs.sizes);
    }
  }

  /** A partial tally is a part of the whole. */
  lemma EarlyExit(fs: Fs, root: Inode, at: map<Inode, nat>, scanned: set<Inode>, d: Inode,
                  j: nat, files: set<Inode>, t: RG.TreeSnapshot)
    requires WellFormed(fs, root) && Seen(fs, root, at)
    requires scanned <= at.Keys && d in at && d !in scanned && 0 < j <= |fs.dirs[d]|
    requires Tallied(fs, scanned, fs.dirs[d][..j], files, t.totalBytes, t.entries)
    requires Deepest(fs, at, scanned + {d}, t.maximumDepth)
    ensures PartOf(fs, root, t)
  {
    SeenIsTree(fs, root, at);
    TalliedPart(fs, root, d, j, scanned, files, t.totalBytes, t.entries);
    DepthIsWalked(fs, root, at, scanned + {d}, t.maximumDepth);
  }

  lemma Deeper(fs: Fs, at: map<Inode, nat>, scanned: set<Inode>, d: Inode, j: nat, m: nat)
    requires scanned + {d} <= at.Keys <= fs.dirs.Keys && d !in scanned && j < |fs.dirs[d]|
    requires if j == 0 then Deepest(fs, at, scanned, m) else Deepest(fs, at, scanned + {d}, m)
    ensures Deepest(fs, at, scanned + {d}, if m > at[d] + 1 then m else at[d] + 1)
  {
    assert d in scanned + {d};
    assert forall x :: x in scanned ==> x in scanned + {d};
  }

  lemma SameDepths(fs: Fs, at: map<Inode, nat>, c: Inode, k: nat, s: set<Inode>, m: nat)
    requires s <= at.Keys <= fs.dirs.Keys && c !in at && c in fs.dirs && Deepest(fs, at, s, m)
    ensures Deepest(fs, at[c := k], s, m)
  {
    assert forall d :: d in s ==> at[c := k][d] == at[d];
  }

  lemma SeeChild(fs: Fs, root: Inode, at: map<Inode, nat>, d: Inode, c: Inode)
    requires WellFormed(fs, root) && Seen(fs, root, at) && d in at && Child(fs, d, c) && c !in at
    ensures Seen(fs, root, at[c := at[d] + 1])
  {
  }

  /** One directory is being scanned: `pending` holds the rest of the frontier. */
  ghost predicate Scanning(fs: Fs, root: Inode, at: map<Inode, nat>, scanned: set<Inode>,
                           pending: seq<(Inode, nat)>, d: Inode) {
    && Seen(fs, root, at) && Frontier(at, scanned + {d}, pending)
    && scanned <= at.Keys && d in at && d !in scanned
    && (forall x :: x in scanned ==> ChildrenSeen(fs.dirs[x], at))
    && (forall x :: x in at && x !in scanned && x != d ==> Waiting(pending, x))
  }

  lemma PushChild(fs: Fs, root: Inode, at: map<Inode, nat>, scanned: set<Inode>,
                  pending: seq<(Inode, nat)>, d: Inode, c: Inode)
    requires WellFormed(fs, root) && Scanning(fs, root, at, scanned, pending, d)
    requires Child(fs, d, c) && c !in at
    ensures Scanning(fs, root, at[c := at[d] + 1], scanned, pending + [(c, at[d] + 1)], d)
  {
    SeeChild(fs, root, at, d, c);
    var (b, q) := (at[c := at[d] + 1], pending + [(c, at[d] + 1)]);
    forall x | x in scanned ensures ChildrenSeen(fs.dirs[x], b) {
      assert ChildrenSeen(fs.dirs[x], at);
    }
    forall x | x in b && x !in scanned && x != d ensures Waiting(q, x) {
      if x == c {
        assert q[|pending|].0 == x;
      } else {
        var i :| 0 <= i < |pending| && pending[i].0 == x;
        assert q[i].0 == x;
      }
    }
  }

  /** Between directories. */
  ghost predicate Idle(fs: Fs, root: Inode, at: map<Inode, nat>, scanned: set<Inode>, pending: seq<(Inode, nat)>) {
    && Seen(fs, root, at) && Frontier(at, scanned, pending) && scanned <= at.Keys
    && (forall x :: x in scanned ==> ChildrenSeen(fs.dirs[x], at))
    && (forall x :: x in at && x !in scanned ==> Waiting(pending, x))
  }

  lemma Pop(fs: Fs, root: Inode, at: map<Inode, nat>, scanned: set<Inode>, pending: seq<(Inode, nat)>)
    requires Idle(fs, root, at, scanned, pending) && pending != []
    ensures Scanning(fs, root, at, scanned, pending[..|pending| - 1], pending[|pending| - 1].0)
    ensures at[pending[|pending| - 1].0] == pending[|pending| - 1].1
  {
    var (q, d) := (pending[..|pending| - 1], pending[|pending| - 1].0);
    forall x | x in at && x !in scanned && x != d ensures Waiting(q, x) {
      var i :| 0 <= i < |pending| && pending[i].0 == x;
      assert q[i].0 == x;
    }
  }

  /** The variables of a scan; `at` maps the seen directories to their depth. */
  datatype Scan = Scan(
    at: map<Inode, nat>, scanned: set<Inode>, pending: seq<(Inode, nat)>, files: set<Inode>,
    totalBytes: nat, entries: nat, maximumDepth: nat)

  /** Between two directories, or inside one with its first `j` names done. */
  datatype Place = Between | Inside(d: Inode, j: nat)

  ghost predicate PartTallied(fs: Fs, x: Scan, d: Inode, j: nat) {
    && d in fs.dirs && j <= |fs.dirs[d]| && x.scanned <= x.at.Keys <= fs.dirs.Keys
    && Tallied(fs, x.scanned, fs.dirs[d][..j], x.files, x.totalBytes, x.entries)
    && ChildrenSeen(fs.dirs[d][..j], x.at)
  }

  ghost predicate PartDeepest(fs: Fs, x: Scan, d: Inode, j: nat) {
    && x.scanned <= x.at.Keys <= fs.dirs.Keys && d in x.at
    && Deepest(fs, x.at, if j == 0 then x.scanned else x.scanned + {d}, x.maximumDepth)
  }

  /** The scans that are right at this place. */
  ghost function Scans(fs: Fs, root: Inode, place: Place): iset<Scan> {
    match place
    case Between =>
      iset x: Scan |
        && Idle(fs, root, x.at, x.scanned, x.pending)
        && Tallied(fs, x.scanned, [], x.files, x.totalBytes, x.entries)
        && Deepest(fs, x.at, x.scanned, x.maximumDepth)
    case Inside(d, j) =>
      iset x: Scan |
        && Scanning(fs, root, x.at, x.scanned, x.pending, d)
        && PartTallied(fs, x, d, j) && PartDeepest(fs, x, d, j)
  }

  /** The program's own variables agree with the recorded ones. */
  ghost predicate Tracks(x: Scan, seen: set<Inode>, pending: seq<(Inode, nat)>, files: set<Inode>,
                         totalBytes: nat, entries: nat, maximumDepth: nat) {
    && x.at.Keys == seen && x.pending == pending && x.files == files
    && x.totalBytes == totalBytes && x.entries == entries && x.maximumDepth == maximumDepth
  }

  ghost function NextName(fs: Fs, x: Scan, d: Inode, e: Entry): Scan
    requires WellFormed(fs, d) && d in x.at && e in fs.dirs[d]
  {
    var depth := x.at[d] + 1;
    var y := x.(entries := x.entries + 1, maximumDepth := if x.maximumDepth > depth then x.maximumDepth else depth);
    match e
    case FileEntry(i) =>
      if i in x.files then y else y.(files := x.files + {i}, totalBytes := x.totalBytes + fs.sizes[i])
    case DirEntry(c) =>
      if c in x.at then y else y.(at := x.at[c := depth], pending := x.pending + [(c, depth)])
    case OtherEntry => y
  }

  lemma NextTracks(fs: Fs, x: Scan, d: Inode, e: Entry, seen: set<Inode>, pending: seq<(Inode, nat)>,
                   files: set<Inode>, totalBytes: nat, entries: nat, maximumDepth: nat)
    requires WellFormed(fs, d) && d in x.at && e in fs.dirs[d]
    requires Tracks(x, seen, pending, files, totalBytes, entries, maximumDepth)
    ensures var (newFile, newDir) := (e.FileEntry? && e.inode !in files, e.DirEntry? && e.inode !in seen);
            var depth := x.at[d] + 1;
            var y := NextName(fs, x, d, e);
            && Tracks(y, if newDir then seen + {e.inode} else seen,
                      if newDir then pending + [(e.inode, depth)] else pending,
                      if newFile then files + {e.inode} else files,
                      if newFile then totalBytes + fs.sizes[e.inode] else totalBytes,
                      entries + 1, if maximumDepth > depth then maximumDepth else depth)
            && y.scanned == x.scanned && d in y.at && y.at[d] == x.at[d]
  {
  }

  lemma NameTallied(fs: Fs, root: Inode, x: Scan, d: Inode, j: nat)
    requires WellFormed(fs, root) && PartTallied(fs, x, d, j) && d in x.at && j < |fs.dirs[d]|
    ensures PartTallied(fs, NextName(fs, x, d, fs.dirs[d][j]), d, j + 1)
  {
    var (names, e) := (fs.dirs[d], fs.dirs[d][j]);
    var y := NextName(fs, x, d, e);
    assert names[..j + 1] == names[..j] + [e];
    CountName(fs, x.scanned, names[..j], e, x.files, x.totalBytes, x.entries);
    assert y.at.Keys == if e.DirEntry? then x.at.Keys + {e.inode} else x.at.Keys;
    assert ChildrenSeen(names[..j + 1], y.at);
  }

  lemma NameDeepest(fs: Fs, root: Inode, x: Scan, d: Inode, j: nat)
    requires WellFormed(fs, root) && PartDeepest(fs, x, d, j) && d !in x.scanned && j < |fs.dirs[d]|
    ensures PartDeepest(fs, NextName(fs, x, d, fs.dirs[d][j]), d, j + 1)
  {
    var e := fs.dirs[d][j];
    Deeper(fs, x.at, x.scanned, d, j, x.maximumDepth);
    if e.DirEntry? && e.inode !in x.at {
      SameDepths(fs, x.at, e.inode, x.at[d] + 1, x.scanned + {d}, NextName(fs, x, d, e).maximumDepth);
    }
  }

  lemma NameMoves(fs: Fs, x: Scan, d: Inode, e: Entry)
    requires WellFormed(fs, d) && d in x.at && e in fs.dirs[d]
    ensures var y := NextName(fs, x, d, e);
            var unseen := e.DirEntry? && e.inode !in x.at;
            && y.scanned == x.scanned
            && y.at == (if unseen then x.at[e.inode := x.at[d] + 1] else x.at)
            && y.pending == (if unseen then x.pending + [(e.inode, x.at[d] + 1)] else x.pending)
  {
  }

  lemma MovedScanning(fs: Fs, root: Inode, x: Scan, y: Scan, d: Inode, e: Entry)
    requires WellFormed(fs, root) && Scanning(fs, root, x.at, x.scanned, x.pending, d) && e in fs.dirs[d]
    requires y.scanned == x.scanned
    requires if e.DirEntry? && e.inode !in x.at
             then y.at == x.at[e.inode := x.at[d] + 1] && y.pending == x.pending + [(e.inode, x.at[d] + 1)]
             else y.at == x.at && y.pending == x.pending
    ensures Scanning(fs, root, y.at, y.scanned, y.pending, d)
  {
    if e.DirEntry? && e.inode !in x.at {
      PushChild(fs, root, x.at, x.scanned, x.pending, d, e.inode);
    }
  }

  lemma NameScanning(fs: Fs, root: Inode, x: Scan, d: Inode, e: Entry)
    requires WellFormed(fs, root) && Scanning(fs, root, x.at, x.scanned, x.pending, d) && e in fs.dirs[d]
    ensures var y := NextName(fs, x, d, e); Scanning(fs, root, y.at, y.scanned, y.pending, d)
  {
    NameMoves(fs, x, d, e);
    MovedScanning(fs, root, x, NextName(fs, x, d, e), d, e);
  }

  lemma NameStep(fs: Fs, root: Inode, x: Scan, d: Inode, j: nat)
    requires WellFormed(fs, root) && x in Scans(fs, root, Inside(d, j)) && j < |fs.dirs[d]|
    ensures NextName(fs, x, d, fs.dirs[d][j]) in Scans(fs, root, Inside(d, j + 1))
  {
    NameTallied(fs, root, x, d, j);
    NameDeepest(fs, root, x, d, j);
    NameScanning(fs, root, x, d, fs.dirs[d][j]);
  }

  lemma PopStep(fs: Fs, root: Inode, x: Scan)
    requires x in Scans(fs, root, Between) && x.pending != []
    ensures var n := |x.pending| - 1;
            && x.(pending := x.pending[..n]) in Scans(fs, root, Inside(x.pending[n].0, 0))
            && x.at[x.pending[n].0] == x.pending[n].1 && x.pending[n].0 !in x.scanned
  {
    Pop(fs, root, x.at, x.scanned, x.pending);
    assert fs.dirs[x.pending[|x.pending| - 1].0][..0] == [];
  }

  lemma ClosedTally(fs: Fs, x: Scan, d: Inode)
    requires d in fs.dirs && PartTallied(fs, x, d, |fs.dirs[d]|) && d !in x.scanned
    ensures Tallied(fs, x.scanned + {d}, [], x.files, x.totalBytes, x.entries)
    ensures ChildrenSeen(fs.dirs[d], x.at)
  {
    assert fs.dirs[d][..|fs.dirs[d]|] == fs.dirs[d];
    CloseDirectory(fs, d, x.scanned, x.files, x.totalBytes, x.entries);
  }

  lemma ClosedDepth(fs: Fs, x: Scan, d: Inode)
    requires d in fs.dirs && PartDeepest(fs, x, d, |fs.dirs[d]|)
    ensures Deepest(fs, x.at, x.scanned + {d}, x.maximumDepth)
  {
  }

  lemma CloseFrontier(fs: Fs, root: Inode, at: map<Inode, nat>, scanned: set<Inode>,
                      pending: seq<(Inode, nat)>, d: Inode)
    requires Scanning(fs, root, at, scanned, pending, d) && ChildrenSeen(fs.dirs[d], at)
    ensures Idle(fs, root, at, scanned + {d}, pending)
  {
  }

  lemma CloseStep(fs: Fs, root: Inode, x: Scan, d: Inode)
    requires WellFormed(fs, root) && d in fs.dirs && x in Scans(fs, root, Inside(d, |fs.dirs[d]|))
    ensures x.(scanned := x.scanned + {d}) in Scans(fs, root, Between)
  {
    ClosedTally(fs, x, d);
    CloseFrontier(fs, root, x.at, x.scanned, x.pending, d);
    ClosedDepth(fs, x, d);
  }

  lemma LastIsTree(fs: Fs, root: Inode, x: Scan)
    requires WellFormed(fs, root) && x in Scans(fs, root, Between) && x.pending == []
    ensures x.scanned == x.at.Keys == Tree(fs, root)
  {
    assert forall d :: d in x.at ==> d in x.scanned;
    NothingWaiting(fs, root, x.at);
  }

  function Totals(x: Scan): RG.TreeSnapshot { RG.TreeSnapshot(x.totalBytes, x.entries, x.maximumDepth) }

  /** What a scan may return, as a set. */
  ghost function Snapshots(fs: Fs, root: Inode, limits: RG.TreeLimits): iset<RG.TreeSnapshot>
    requires WellFormed(fs, root)
  {
    iset t | Scanned(fs, root, t, limits)
  }

  lemma LastSnapshot(fs: Fs, root: Inode, x: Scan, limits: RG.TreeLimits)
    requires WellFormed(fs, root) && x in Scans(fs, root, Between) && x.pending == []
    ensures Totals(x) in Snapshots(fs, root, limits)
  {
    LastStep(fs, root, x);
  }

  lemma ExitSnapshot(fs: Fs, root: Inode, x: Scan, d: Inode, j: nat, limits: RG.TreeLimits)
    requires WellFormed(fs, root) && x in Scans(fs, root, Inside(d, j)) && j > 0
    requires !RG.WithinLimits(Totals(x), limits)
    ensures Totals(x) in Snapshots(fs, root, limits)
  {
    ExitStep(fs, root, x, d, j);
  }

  lemma LastStep(fs: Fs, root: Inode, x: Scan)
    requires WellFormed(fs, root) && x in Scans(fs, root, Between) && x.pending == []
    ensures Accounts(fs, root, Totals(x))
  {
    LastIsTree(fs, root, x);
    DepthIsWalked(fs, root, x.at, x.scanned, x.maximumDepth);
    assert x.files == Files(fs, x.scanned);
  }

  lemma ExitStep(fs: Fs, root: Inode, x: Scan, d: Inode, j: nat)
    requires WellFormed(fs, root) && x in Scans(fs, root, Inside(d, j)) && j > 0
    ensures PartOf(fs, root, Totals(x))
  {
    EarlyExit(fs, root, x.at, x.scanned, d, j, x.files, Totals(x));
  }

  lemma FirstStep(fs: Fs, root: Inode)
    requires WellFormed(fs, root)
    ensures Scan(map[root := 0], {}, [(root, 0)], {}, 0, 0, 0) in Scans(fs, root, Between)
  {
    assert [(root, 0)][0].0 == root;
  }

  /** Scans with a stack, stopping at the first name that crosses a limit.
      Whatever the graph and the enumeration order, a snapshot within the limits
      accounts for everything and one over a limit for a part; where every
      directory has one depth, it is over a limit exactly when the full
      accounting is, and equals it otherwise. */
  method ScanTree(fs: Fs, root: Inode, limits: RG.TreeLimits) returns (t: RG.TreeSnapshot)
    requires WellFormed(fs, root)
    ensures Scanned(fs, root, t, limits)
    ensures forall level :: Levels(fs, root, level) ==>
              && (RG.WithinLimits(t, limits) <==> RG.WithinLimits(Full(fs, root, level), limits))
              && (RG.WithinLimits(t, limits) ==> t == Full(fs, root, level))
  {
    t := Traverse(fs, root, limits);
    forall level | Levels(fs, root, level)
      ensures RG.WithinLimits(t, limits) <==> RG.WithinLimits(Full(fs, root, level), limits)
      ensures RG.WithinLimits(t, limits) ==> t == Full(fs, root, level)
    {
      LevelsDecide(fs, root, level, t, limits);
    }
  }

  /** The program's variables. */
  datatype Tally = Tally(
    seen: set<Inode>, pending: seq<(Inode, nat)>, files: set<Inode>,
    totalBytes: nat, entries: nat, maximumDepth: nat)

  ghost predicate Follows(x: Scan, v: Tally) {
    Tracks(x, v.seen, v.pending, v.files, v.totalBytes, v.entries, v.maximumDepth)
  }

  predicate Over(v: Tally, limits: RG.TreeLimits) {
    v.totalBytes > limits.maximumTotalBytes || v.entries > limits.maximumEntries || v.maximumDepth > limits.maximumDepth
  }

  /** One name of a directory: counted, measured, remembered. */
  method CountEntry(fs: Fs, d: Inode, e: Entry, parentDepth: nat, v: Tally, ghost x: Scan) returns (w: Tally)
    requires WellFormed(fs, d) && d in x.at && x.at[d] == parentDepth && e in fs.dirs[d] && Follows(x, v)
    ensures Follows(NextName(fs, x, d, e), w)
    ensures NextName(fs, x, d, e).scanned == x.scanned
    ensures d in NextName(fs, x, d, e).at && NextName(fs, x, d, e).at[d] == parentDepth
  {
    NextTracks(fs, x, d, e, v.seen, v.pending, v.files, v.totalBytes, v.entries, v.maximumDepth);
    var depth := parentDepth + 1;
    w := v.(entries := v.entries + 1, maximumDepth := if v.maximumDepth > depth then v.maximumDepth else depth);
    match e {
      case FileEntry(i) =>
        if i !in w.files {
          w := w.(files := w.files + {i}, totalBytes := w.totalBytes + fs.sizes[i]);
        }
      case DirEntry(c) =>
        if c !in w.seen {
          w := w.(seen := w.seen + {c}, pending := w.pending + [(c, depth)]);
        }
      case OtherEntry =>
    }
  }

  /** The names of one directory, up to the first that crosses a limit. */
  method ScanDirectory(fs: Fs, root: Inode, d: Inode, parentDepth: nat, limits: RG.TreeLimits, v: Tally, ghost x: Scan)
    returns (over: bool, w: Tally, ghost y: Scan)
    requires WellFormed(fs, root) && d in fs.dirs && x in Scans(fs, root, Inside(d, 0)) && Follows(x, v)
    requires d in x.at && x.at[d] == parentDepth
    ensures Follows(y, w) && y.scanned == x.scanned
    ensures over ==> Totals(y) in Snapshots(fs, root, limits)
    ensures !over ==> y in Scans(fs, root, Inside(d, |fs.dirs[d]|))
    ensures !Over(v, limits) ==> (over <==> Over(w, limits))
  {
    w, y, over := v, x, false;
    var names := fs.dirs[d];
    for j := 0 to |names|
      invariant y in Scans(fs, root, Inside(d, j)) && Follows(y, w)
      invariant d in y.at && y.at[d] == parentDepth && y.scanned == x.scanned
      invariant !over && (!Over(v, limits) ==> !Over(w, limits))
    {
      NameStep(fs, root, y, d, j);
      w := CountEntry(fs, d, names[j], parentDepth, w, y);
      y := NextName(fs, y, d, names[j]);
      if Over(w, limits) {
        ExitSnapshot(fs, root, y, d, j + 1, limits);
        return true, w, y;
      }
    }
  }

  method Traverse(fs: Fs, root: Inode, limits: RG.TreeLimits) returns (t: RG.TreeSnapshot)
    requires WellFormed(fs, root)
    ensures t in Snapshots(fs, root, limits)
  {
    var v := Tally({root}, [(root, 0)], {}, 0, 0, 0);
    FirstStep(fs, root);
    ghost var x := Scan(map[root := 0], {}, v.pending, {}, 0, 0, 0);
    while v.pending != []
      invariant x in Scans(fs, root, Between) && Follows(x, v)
      decreases fs.dirs.Keys - x.scanned
    {
      PopStep(fs, root, x);
      var (d, parentDepth) := v.pending[|v.pending| - 1];
      v := v.(pending := v.pending[..|v.pending| - 1]);
      x := x.(pending := v.pending);
      InsideIs(fs, root, x, d, 0);
      var over, w, y := ScanDirectory(fs, root, d, parentDepth, limits, v, x);
      v := w;
      if over {
        return RG.TreeSnapshot(v.totalBytes, v.entries, v.maximumDepth);
      }
      CloseStep(fs, root, y, d);
      x := y.(scanned := y.scanned + {d});
    }
    t := RG.TreeSnapshot(v.totalBytes, v.entries, v.maximumDepth);
    LastSnapshot(fs, root, x, limits);
  }

  lemma InsideIs(fs: Fs, root: Inode, x: Scan, d: Inode, j: nat)
    requires x in Scans(fs, root, Inside(d, j))
    ensures d in fs.dirs && d in x.at && d !in x.scanned
  {
  }

  /** What a live check does: scan, then name the first limit crossed.  Without an
      event all bytes and names and a walk to every name are within the limits;
      with one, bytes, names or the depth of a name is over.  Where every
      directory has one depth, there is an event exactly when the tree is over. */
  method CheckTree(fs: Fs, root: Inode, p: RG.Profile, s: SessionId, target: RG.Target, phase: RG.CheckPhase)
    returns (e: Option<RG.Event>)
    requires WellFormed(fs, root)
    ensures var l := RG.LimitsOf(p, target);
            if e.None?
            then FullBytes(fs, root) <= l.maximumTotalBytes && FullEntries(fs, root) <= l.maximumEntries
                 && ReachesAll(fs, root, l.maximumDepth)
            else FullBytes(fs, root) > l.maximumTotalBytes || FullEntries(fs, root) > l.maximumEntries
                 || exists m: nat :: m > l.maximumDepth && NameAt(fs, root, m)
    ensures forall level :: Levels(fs, root, level) ==>
              (e.None? <==> RG.WithinLimits(Full(fs, root, level), RG.LimitsOf(p, target)))
  {
    var l := RG.LimitsOf(p, target);
    var t := ScanTree(fs, root, l);
    e := RG.TreeLimitEvent(p, s, target, phase, t);
    if e.None? {
      Shallow(fs, root, t.maximumDepth, l.maximumDepth);
    }
  }

  lemma Shallow(fs: Fs, root: Inode, m: nat, n: nat)
    requires ReachesAll(fs, root, m) && m <= n
    ensures ReachesAll(fs, root, n)
  {
    forall d | d in Tree(fs, root) && fs.dirs[d] != [] ensures exists k: nat :: k + 1 <= n && Walk(fs, root, d, k) {
      var k: nat :| k + 1 <= m && Walk(fs, root, d, k);
    }
  }
}
