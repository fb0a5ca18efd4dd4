/** Materializing a locked source tree and auditing what is on disk.  A digest
    stands for the value it is taken of. */
module SourceTree {
  import opened Contracts
  import opened SourcePaths

  type Content = seq<Byte>

  const MODE_PRIVATE := 448    // octal 700
  const MODE_EXECUTABLE := 365 // octal 555
  const MODE_READ := 292       // octal 444

  /** `Special` is anything else; `dirlike` if a walk would descend into it. */
  datatype Node = Dir(mode: nat) | File(content: Content, mode: nat, links: nat) | Special(dirlike: bool)

  /** A directory tree by path, the root under the empty path. */
  type Tree = map<Path, Node>

  datatype Row = Row(path: Name, mode: Mode, blob: nat, digest: Content, bytes: nat)
  datatype TreeDigest = TreeDigest(files: seq<Row>, gitTree: nat)
  datatype Locked = Locked(source: nat, digest: TreeDigest)

  datatype Manifest = Manifest(
    source: nat, gitTree: nat, files: seq<Row>, fileCount: nat, totalBytes: nat, digest: TreeDigest)

  /** `others` says that the envelope holds further names; the manifest is None
      when its bytes are not a canonical document. */
  datatype Envelope = Envelope(
    rootMode: nat, others: bool, manifestMode: nat, manifestLinks: nat, manifest: Option<Manifest>, tree: Tree)

  datatype Error =
    | GitTreeRecordInvalid | SourcePathCollision | GitBlobReadFailed | LockedTreeDigestMismatch
  datatype Result = Ok(envelope: Envelope) | Err(error: Error)

  function ModeBits(m: Mode): nat {
    if m == Executable then MODE_EXECUTABLE else MODE_READ
  }

  // ---------------------------------------------------------------- what a manifest says of the tree

  predicate InDir(rows: seq<Row>, p: Path) {
    p == [] || exists i :: 0 <= i < |rows| && p < Parts(rows[i].path)
  }

  predicate IsFile(rows: seq<Row>, p: Path) {
    exists i :: 0 <= i < |rows| && p == Parts(rows[i].path)
  }

  ghost predicate OnlyNodes(t: Tree, rows: seq<Row>) {
    forall p :: p in t ==> InDir(rows, p) || IsFile(rows, p)
  }

  ghost predicate AllDirs(t: Tree, rows: seq<Row>, dirMode: nat) {
    forall p :: InDir(rows, p) ==> p in t && t[p] == Dir(dirMode)
  }

  ghost predicate AllFiles(t: Tree, rows: seq<Row>) {
    forall i :: 0 <= i < |rows| ==> HasFile(t, rows[i])
  }

  function FileOf(r: Row): Node { File(r.digest, ModeBits(r.mode), 1) }

  predicate HasFile(t: Tree, r: Row) {
    Parts(r.path) in t && t[Parts(r.path)] == FileOf(r)
  }

  /** The tree holds the rows' files and their ancestors, and nothing else. */
  ghost predicate Holds(t: Tree, rows: seq<Row>, dirMode: nat) {
    OnlyNodes(t, rows) && AllDirs(t, rows, dirMode) && AllFiles(t, rows)
  }

  predicate RowOk(r: Row) {
    SafeGitPath(r.path) && r.bytes == |r.digest|
  }

  predicate RowsOrdered(rows: seq<Row>) {
    forall i, j :: 0 <= i < j < |rows| ==> Less(rows[i].path, rows[j].path)
  }

  function Total(rows: seq<Row>): nat {
    if rows == [] then 0 else Total(rows[..|rows| - 1]) + rows[|rows| - 1].bytes
  }

  predicate SummaryOk(m: Manifest) {
    m.fileCount == |m.files| && m.totalBytes == Total(m.files) && m.digest == TreeDigest(m.files, m.gitTree)
  }

  /** The disk is exactly what the lock names. */
  ghost predicate Faithful(e: Envelope, l: Locked) {
    && e.rootMode == MODE_EXECUTABLE && !e.others
    && e.manifestMode == MODE_READ && e.manifestLinks == 1 && e.manifest.Some?
    && var m := e.manifest.value;
       && m.source == l.source && SummaryOk(m) && m.digest == l.digest
       && (forall i :: 0 <= i < |m.files| ==> RowOk(m.files[i])) && RowsOrdered(m.files)
       && Holds(e.tree, m.files, MODE_EXECUTABLE)
  }

  /** Any two faithful envelopes for one lock are the same envelope. */
  lemma FaithfulIsUnique(a: Envelope, b: Envelope, l: Locked)
    requires Faithful(a, l) && Faithful(b, l)
    ensures a == b
  {
    var rows := a.manifest.value.files;
    assert b.manifest.value == a.manifest.value;
    forall p ensures p in a.tree <==> p in b.tree {
      if p in a.tree && IsFile(rows, p) {
        var i :| 0 <= i < |rows| && p == Parts(rows[i].path);
      }
      if p in b.tree && IsFile(rows, p) {
        var i :| 0 <= i < |rows| && p == Parts(rows[i].path);
      }
    }
    forall p | p in a.tree ensures a.tree[p] == b.tree[p] {
      if !InDir(rows, p) {
        var i :| 0 <= i < |rows| && p == Parts(rows[i].path);
      }
    }
  }

  // ---------------------------------------------------------------- staging

  /** The file system may identify names that differ in case or normal form. */
  function Fold(p: Path, f: Name -> Name): Path {
    seq(|p|, i requires 0 <= i < |p| => f(p[i]))
  }

  predicate Exists(t: Tree, p: Path, f: Name -> Name) {
    exists q :: q in t && Fold(q, f) == Fold(p, f)
  }

  ghost predicate Injective(t: Tree, f: Name -> Name) {
    forall p, q :: p in t && q in t && Fold(p, f) == Fold(q, f) ==> p == q
  }

  ghost predicate IsNode(rows: seq<Row>, p: Path) {
    InDir(rows, p) || IsFile(rows, p)
  }

  /** No file is also a directory and no two nodes are one to the file system. */
  ghost predicate CollisionFree(rows: seq<Row>, f: Name -> Name) {
    && (forall p :: !(InDir(rows, p) && IsFile(rows, p)))
    && (forall p, q :: IsNode(rows, p) && IsNode(rows, q) && Fold(p, f) == Fold(q, f) ==> p == q)
  }

  lemma FoldLength(p: Path, q: Path, f: Name -> Name)
    requires Fold(p, f) == Fold(q, f)
    ensures |p| == |q|
  {
    assert |Fold(p, f)| == |p| && |Fold(q, f)| == |q|;
  }

  lemma AddKeepsInjective(t: Tree, p: Path, n: Node, f: Name -> Name)
    requires Injective(t, f) && !Exists(t, p, f)
    ensures Injective(t[p := n], f)
  {
  }

  function RowFor(e: GitEntry, blobs: map<nat, Content>): Row
    requires e.blob in blobs
  {
    Row(e.path, e.mode, e.blob, blobs[e.blob], |blobs[e.blob]|)
  }

  predicate BlobsKnown(es: seq<GitEntry>, blobs: map<nat, Content>) {
    forall i :: 0 <= i < |es| ==> es[i].blob in blobs
  }

  function RowsFor(es: seq<GitEntry>, blobs: map<nat, Content>): seq<Row>
    requires BlobsKnown(es, blobs)
  {
    seq(|es|, i requires 0 <= i < |es| => RowFor(es[i], blobs))
  }

  // ---------------------------------------------------------------- one entry

  /** `after` is `before` with the first `n` - 1 proper prefixes of `p` as directories. */
  ghost predicate ParentsMade(before: Tree, after: Tree, p: Path, n: nat) {
    && (forall q :: q in after ==> q in before || (q != [] && |q| < n && q < p))
    && (forall q :: q in before ==> q in after && after[q] == before[q])
    && (forall q :: q != [] && |q| < n && q < p ==> q in after && after[q] == Dir(MODE_PRIVATE))
  }

  lemma RowAdds(rows: seq<Row>, r: Row, q: Path)
    ensures InDir(rows + [r], q) <==> InDir(rows, q) || q < Parts(r.path)
    ensures IsFile(rows + [r], q) <==> IsFile(rows, q) || q == Parts(r.path)
  {
    var all := rows + [r];
    assert all[|rows|] == r;
    assert forall i :: 0 <= i < |rows| ==> all[i] == rows[i];
    if i :| 0 <= i < |rows| && q < Parts(rows[i].path) {
      assert q < Parts(all[i].path);
    }
    if i :| 0 <= i < |rows| && q == Parts(rows[i].path) {
      assert q == Parts(all[i].path);
    }
    if q == Parts(r.path) {
      assert q == Parts(all[|rows|].path);
    }
    if q < Parts(r.path) {
      assert q < Parts(all[|rows|].path);
    }
  }

  /** Directories already made are known, and only those. */
  ghost predicate Known(known: set<Path>, rows: seq<Row>) {
    forall q :: q in known <==> q != [] && InDir(rows, q)
  }

  /** One entry's parents were made and its own path is still free. */
  ghost predicate Ready(before: Tree, mid: Tree, rows: seq<Row>, r: Row) {
    var P := Parts(r.path);
    && Holds(before, rows, MODE_PRIVATE) && ParentsMade(before, mid, P, |P|) && P !in mid
    && forall q :: q in before && q < P ==> before[q] == Dir(MODE_PRIVATE)
  }

  lemma FileStepOnly(before: Tree, mid: Tree, rows: seq<Row>, r: Row, q: Path)
    requires Ready(before, mid, rows, r) && q in mid[Parts(r.path) := FileOf(r)]
    ensures InDir(rows + [r], q) || IsFile(rows + [r], q)
  {
    RowAdds(rows, r, q);
  }

  lemma FileStepDirs(before: Tree, mid: Tree, rows: seq<Row>, r: Row, q: Path)
    requires Ready(before, mid, rows, r) && InDir(rows + [r], q)
    ensures var t := mid[Parts(r.path) := FileOf(r)]; q in t && t[q] == Dir(MODE_PRIVATE)
  {
    RowAdds(rows, r, q);
    if q < Parts(r.path) && q != [] {
      assert |q| < |Parts(r.path)|;
    } else {
      assert InDir(rows, q);
    }
  }

  lemma FileStepFiles(before: Tree, mid: Tree, rows: seq<Row>, r: Row)
    requires Ready(before, mid, rows, r)
    ensures AllFiles(mid[Parts(r.path) := FileOf(r)], rows + [r])
  {
    var t := mid[Parts(r.path) := FileOf(r)];
    forall i | 0 <= i < |rows + [r]| ensures HasFile(t, (rows + [r])[i]) {
      if i < |rows| {
        assert HasFile(before, rows[i]);
      }
    }
  }

  lemma FileStep(before: Tree, mid: Tree, rows: seq<Row>, r: Row)
    requires Ready(before, mid, rows, r)
    ensures Holds(mid[Parts(r.path) := FileOf(r)], rows + [r], MODE_PRIVATE)
  {
    var t := mid[Parts(r.path) := FileOf(r)];
    assert OnlyNodes(t, rows + [r]) by {
      forall q | q in t ensures InDir(rows + [r], q) || IsFile(rows + [r], q) {
        FileStepOnly(before, mid, rows, r, q);
      }
    }
    assert AllDirs(t, rows + [r], MODE_PRIVATE) by {
      forall q | InDir(rows + [r], q) ensures q in t && t[q] == Dir(MODE_PRIVATE) {
        FileStepDirs(before, mid, rows, r, q);
      }
    }
    FileStepFiles(before, mid, rows, r);
  }

  /** A refused directory or file shows that the tree cannot be had at all. */
  lemma RefusalIsCollision(before: Tree, rows: seq<Row>, r: Row, more: seq<Row>, q: Path, f: Name -> Name)
    requires Holds(before, rows, MODE_PRIVATE) && Exists(before, q, f)
    requires q <= Parts(r.path)
    requires q < Parts(r.path) ==> !InDir(rows, q)
    requires q == Parts(r.path) ==> !IsFile(rows, q)
    ensures !CollisionFree(rows + [r] + more, f)
  {
    var all := rows + [r] + more;
    var o :| o in before && Fold(o, f) == Fold(q, f);
    assert all[|rows|] == r;
    assert forall i :: 0 <= i < |rows| ==> all[i] == rows[i];
    NodesGrow(rows, all, o);
    assert IsNode(all, q) by {
      if q == Parts(r.path) {
        assert q == Parts(all[|rows|].path);
      } else {
        assert q < Parts(all[|rows|].path);
      }
    }
    if o == q {
      if q < Parts(r.path) {
        assert q < Parts(all[|rows|].path);
        assert IsFile(rows, q);
      } else {
        assert q == Parts(all[|rows|].path);
        assert InDir(rows, q);
      }
    }
  }

  lemma NodesGrow(rows: seq<Row>, all: seq<Row>, p: Path)
    requires rows <= all
    ensures InDir(rows, p) ==> InDir(all, p)
    ensures IsFile(rows, p) ==> IsFile(all, p)
  {
    if i :| 0 <= i < |rows| && p < Parts(rows[i].path) {
      assert p < Parts(all[i].path);
    }
    if i :| 0 <= i < |rows| && p == Parts(rows[i].path) {
      assert p == Parts(all[i].path);
    }
  }

  lemma HeldIsCollisionFree(t: Tree, rows: seq<Row>, mode: nat, f: Name -> Name)
    requires Holds(t, rows, mode) && Injective(t, f)
    ensures CollisionFree(rows, f)
  {
    forall p | IsFile(rows, p) ensures p in t && t[p].File? {
      var i :| 0 <= i < |rows| && p == Parts(rows[i].path);
    }
  }

  /** A single dot passes the path check, and no tree can be staged or audited
      with it: it names the root. */
  lemma DotIsRefused(rows: seq<Row>, i: nat, f: Name -> Name)
    requires i < |rows| && rows[i].path == [DOT]
    ensures SafeGitPath(rows[i].path) && !CollisionFree(rows, f)
    ensures forall t, mode :: !Holds(t, rows, mode)
  {
    assert InDir(rows, []) && IsFile(rows, Parts(rows[i].path));
    forall t, mode ensures !Holds(t, rows, mode) {
      if AllDirs(t, rows, mode) {
        assert !HasFile(t, rows[i]);
      }
    }
  }
}
