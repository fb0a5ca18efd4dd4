/** The two programs over the tree: building a staged copy entry by entry, and
    auditing a finished one. */
module Materializer {
  import opened Contracts
  import opened SourcePaths
  import opened SourceTree

  class Staging {
    const fold: Name -> Name
    var tree: Tree
    var known: set<Path>

    /** After the entries behind `rows`. */
    ghost predicate Built(rows: seq<Row>)
      reads this
    {
      Holds(tree, rows, MODE_PRIVATE) && Known(known, rows) && Injective(tree, fold)
    }

    constructor (f: Name -> Name)
      ensures fold == f && Built([])
    {
      fold := f;
      tree := map[[] := Dir(MODE_PRIVATE)];
      known := {};
    }

    /** Makes the missing ancestors of `p`; one that already resolves to
        something not made here is a collision. */
    method MakeParents(p: Path) returns (ok: bool)
      requires Injective(tree, fold)
      requires forall q :: q in known ==> q in tree && tree[q] == Dir(MODE_PRIVATE)
      modifies this
      ensures Injective(tree, fold)
      ensures ok ==> ParentsMade(old(tree), tree, p, |p|)
      ensures ok ==> forall q :: q in known <==> q in old(known) || (q != [] && q < p)
      ensures ok ==> forall q :: q != [] && q < p && q !in old(known) ==> q !in old(tree)
      ensures !ok ==> exists q :: q != [] && q < p && q !in old(known) && Exists(old(tree), q, fold)
    {
      for k := 1 to if p == [] then 1 else |p|
        invariant Injective(tree, fold) && ParentsMade(old(tree), tree, p, k)
        invariant ParentsKnown(old(known), old(tree), known, p, k)
      {
        var q := p[..k];
        ParentKnown(old(known), old(tree), known, p, k);
        if q !in known {
          if Exists(tree, q, fold) {
            EarlierExists(old(tree), tree, p, k, fold);
            return false;
          }
          AddKeepsInjective(tree, q, Dir(MODE_PRIVATE), fold);
          MadeOne(old(tree), tree, p, k);
          tree := tree[q := Dir(MODE_PRIVATE)];
          known := known + {q};
        } else {
          KnownOne(old(tree), tree, p, k);
        }
      }
      ok := true;
    }

    /** Creates the file, refusing any name that resolves already. */
    method WriteBlob(r: Row) returns (ok: bool)
      requires Injective(tree, fold)
      modifies this`tree
      ensures ok == !Exists(old(tree), Parts(r.path), fold)
      ensures tree == if ok then old(tree)[Parts(r.path) := FileOf(r)] else old(tree)
      ensures Injective(tree, fold)
    {
      var p := Parts(r.path);
      ok := !Exists(tree, p, fold);
      if ok {
        AddKeepsInjective(tree, p, FileOf(r), fold);
        tree := tree[p := FileOf(r)];
      }
    }

    /** One entry: its parents, then itself.  Refused only if the whole listing
        collides. */
    method AddEntry(ghost rows: seq<Row>, r: Row) returns (ok: bool)
      requires Built(rows) && !IsFile(rows, Parts(r.path))
      modifies this
      ensures ok ==> Built(rows + [r])
      ensures !ok ==> forall more :: !CollisionFree(rows + [r] + more, fold)
    {
      var p := Parts(r.path);
      ok := MakeParents(p);
      if !ok {
        ghost var q :| q != [] && q < p && q !in old(known) && Exists(old(tree), q, fold);
        RefusedForAll(old(tree), rows, r, q, fold);
        return;
      }
      ghost var mid := tree;
      ok := WriteBlob(r);
      if !ok {
        ParentsShorter(old(tree), mid, p, fold);
        RefusedForAll(old(tree), rows, r, p, fold);
        return;
      }
      assert p !in mid;
      FileStep(old(tree), mid, rows, r);
      NowKnown(old(known), known, rows, r);
    }
  }

  lemma RefusedForAll(before: Tree, rows: seq<Row>, r: Row, q: Path, f: Name -> Name)
    requires Holds(before, rows, MODE_PRIVATE) && Exists(before, q, f) && q <= Parts(r.path)
    requires q < Parts(r.path) ==> !InDir(rows, q)
    requires q == Parts(r.path) ==> !IsFile(rows, q)
    ensures forall more :: !CollisionFree(rows + [r] + more, f)
  {
    forall more ensures !CollisionFree(rows + [r] + more, f) {
      RefusalIsCollision(before, rows, r, more, q, f);
    }
  }

  lemma NowKnown(before: set<Path>, known: set<Path>, rows: seq<Row>, r: Row)
    requires Known(before, rows)
    requires forall q :: q in known <==> q in before || (q != [] && q < Parts(r.path))
    ensures Known(known, rows + [r])
  {
    forall q ensures q in known <==> q != [] && InDir(rows + [r], q) {
      RowAdds(rows, r, q);
    }
  }

  /** `known` holds what was known before and the first `k` - 1 ancestors of `p`;
      those that were not known before were not there. */
  ghost predicate ParentsKnown(before: set<Path>, tree: Tree, known: set<Path>, p: Path, k: nat) {
    && (forall q :: q in known <==> q in before || (q != [] && |q| < k && q < p))
    && (forall q :: q != [] && |q| < k && q < p && q !in before ==> q !in tree)
  }

  lemma ParentKnown(before: set<Path>, tree: Tree, known: set<Path>, p: Path, k: nat)
    requires 1 <= k < |p| && ParentsKnown(before, tree, known, p, k)
    ensures p[..k] in known <==> p[..k] in before
    ensures p[..k] in before || p[..k] !in tree ==> ParentsKnown(before, tree, known + {p[..k]}, p, k + 1)
    ensures p[..k] in known ==> known + {p[..k]} == known
  {
    forall q: Path | q != [] && q < p && |q| < k + 1 ensures |q| < k || q == p[..k] {
    }
  }

  lemma EarlierExists(before: Tree, after: Tree, p: Path, k: nat, f: Name -> Name)
    requires 1 <= k < |p| && ParentsMade(before, after, p, k) && Exists(after, p[..k], f)
    ensures Exists(before, p[..k], f)
  {
    var q :| q in after && Fold(q, f) == Fold(p[..k], f);
    FoldLength(q, p[..k], f);
  }

  lemma ParentsShorter(before: Tree, after: Tree, p: Path, f: Name -> Name)
    requires ParentsMade(before, after, p, |p|) && Exists(after, p, f)
    ensures Exists(before, p, f)
  {
    var q :| q in after && Fold(q, f) == Fold(p, f);
    FoldLength(q, p, f);
  }

  lemma MadeOne(before: Tree, after: Tree, p: Path, k: nat)
    requires 1 <= k < |p| && ParentsMade(before, after, p, k) && p[..k] !in after
    ensures ParentsMade(before, after[p[..k] := Dir(MODE_PRIVATE)], p, k + 1)
  {
    assert forall o: Path :: |o| == k && o < p ==> o == p[..k];
  }

  lemma KnownOne(before: Tree, after: Tree, p: Path, k: nat)
    requires 1 <= k < |p| && ParentsMade(before, after, p, k)
    requires p[..k] in after && after[p[..k]] == Dir(MODE_PRIVATE)
    ensures ParentsMade(before, after, p, k + 1)
  {
    assert forall o: Path :: |o| == k && o < p ==> o == p[..k];
  }

  // ---------------------------------------------------------------- materializing

  method ReadGitTree(raw: seq<RawEntry>) returns (ok: bool, es: seq<GitEntry>)
    ensures ok <==> Listable(raw)
    ensures ok ==> es == Sort(AllChecked(raw))
  {
    var entries, seen := [], {};
    for i := 0 to |raw|
      invariant Listable(raw[..i]) && entries == AllChecked(raw[..i])
      invariant forall n :: n in seen <==> exists j :: 0 <= j < i && raw[j].path == n
    {
      if !EntryOk(raw[i]) || raw[i].path in seen {
        return false, [];
      }
      seen := seen + {raw[i].path};
      entries := entries + [Checked(raw[i])];
    }
    assert raw[..|raw|] == raw;
    return true, Sort(entries);
  }

  lemma CheckedAreDistinct(raw: seq<RawEntry>)
    requires Listable(raw)
    ensures DistinctPaths(AllChecked(raw))
    ensures forall e :: e in AllChecked(raw) ==> SafeGitPath(e.path)
  {
  }

  /** The tree can be had: well-formed records, readable blobs, no two names one
      to the file system, and the digest the lock demands. */
  ghost predicate Obtainable(raw: seq<RawEntry>, gitTree: nat, blobs: map<nat, Content>, l: Locked, f: Name -> Name) {
    && Listable(raw)
    && var es := Sort(AllChecked(raw));
       && BlobsKnown(es, blobs) && CollisionFree(RowsFor(es, blobs), f)
       && TreeDigest(RowsFor(es, blobs), gitTree) == l.digest
  }

  lemma NewPath(es: seq<GitEntry>, i: nat, blobs: map<nat, Content>)
    requires InByteOrder(es) && i < |es| && BlobsKnown(es[..i], blobs)
    ensures !IsFile(RowsFor(es[..i], blobs), Parts(es[i].path))
  {
    var rows := RowsFor(es[..i], blobs);
    forall j | 0 <= j < |rows| ensures Parts(rows[j].path) != Parts(es[i].path) {
      assert rows[j].path == es[j].path;
      LessIrreflexive(es[i].path);
      if Parts(rows[j].path) == Parts(es[i].path) {
        PartsAreInjective(rows[j].path, es[i].path);
      }
    }
  }

  lemma OneMoreRow(es: seq<GitEntry>, i: nat, blobs: map<nat, Content>)
    requires i < |es| && BlobsKnown(es[..i], blobs) && es[i].blob in blobs
    ensures BlobsKnown(es[..i + 1], blobs)
    ensures RowsFor(es[..i + 1], blobs) == RowsFor(es[..i], blobs) + [RowFor(es[i], blobs)]
    ensures Total(RowsFor(es[..i + 1], blobs)) == Total(RowsFor(es[..i], blobs)) + |blobs[es[i].blob]|
  {
    var rows := RowsFor(es[..i + 1], blobs);
    assert rows[..i] == RowsFor(es[..i], blobs);
  }

  lemma AllRows(es: seq<GitEntry>, i: nat, blobs: map<nat, Content>)
    requires i < |es| && BlobsKnown(es, blobs)
    ensures BlobsKnown(es[..i], blobs) && BlobsKnown(es[i + 1..], blobs)
    ensures RowsFor(es, blobs) == RowsFor(es[..i], blobs) + [RowFor(es[i], blobs)] + RowsFor(es[i + 1..], blobs)
  {
  }

  /** Stages every entry in byte order. */
  method StageAll(es: seq<GitEntry>, blobs: map<nat, Content>, f: Name -> Name)
    returns (error: Option<Error>, rows: seq<Row>, totalBytes: nat, tree: Tree)
    requires InByteOrder(es)
    ensures error.None? <==> BlobsKnown(es, blobs) && CollisionFree(RowsFor(es, blobs), f)
    ensures error.None? ==> rows == RowsFor(es, blobs) && totalBytes == Total(rows)
                            && Holds(tree, rows, MODE_PRIVATE)
  {
    var staging := new Staging(f);
    rows, totalBytes := [], 0;
    for i := 0 to |es|
      invariant BlobsKnown(es[..i], blobs) && rows == RowsFor(es[..i], blobs) && totalBytes == Total(rows)
      invariant staging.fold == f && staging.Built(rows)
    {
      if es[i].blob !in blobs {
        return Some(GitBlobReadFailed), [], 0, map[];
      }
      var r := RowFor(es[i], blobs);
      NewPath(es, i, blobs);
      var ok := staging.AddEntry(rows, r);
      if !ok {
        if BlobsKnown(es, blobs) {
          AllRows(es, i, blobs);
        }
        return Some(SourcePathCollision), [], 0, map[];
      }
      OneMoreRow(es, i, blobs);
      totalBytes := totalBytes + r.bytes;
      rows := rows + [r];
    }
    assert es[..|es|] == es;
    HeldIsCollisionFree(staging.tree, rows, MODE_PRIVATE, f);
    return None, rows, totalBytes, staging.tree;
  }

  lemma HasMember<T>(s: set<T>)
    requires s != {}
    ensures exists x :: x in s
  {
    assert (forall x :: x !in s) ==> s == {};
  }

  /** Takes write permission from every directory. */
  method FreezeDirectories(t: Tree) returns (r: Tree)
    ensures r.Keys == t.Keys
    ensures forall p :: p in t ==> r[p] == if t[p].Dir? then Dir(MODE_EXECUTABLE) else t[p]
  {
    r := t;
    var rest := t.Keys;
    while rest != {}
      invariant r.Keys == t.Keys && rest <= t.Keys
      invariant forall p :: p in t ==> r[p] == if p !in rest && t[p].Dir? then Dir(MODE_EXECUTABLE) else t[p]
      decreases rest
    {
      HasMember(rest);
      var p :| p in rest;
      if r[p].Dir? {
        r := r[p := Dir(MODE_EXECUTABLE)];
      }
      rest := rest - {p};
    }
  }

  lemma FrozenHolds(t: Tree, r: Tree, rows: seq<Row>)
    requires Holds(t, rows, MODE_PRIVATE) && r.Keys == t.Keys
    requires forall p :: p in t ==> r[p] == if t[p].Dir? then Dir(MODE_EXECUTABLE) else t[p]
    ensures Holds(r, rows, MODE_EXECUTABLE)
  {
    forall i | 0 <= i < |rows| ensures HasFile(r, rows[i]) {
      assert HasFile(t, rows[i]);
    }
  }

  lemma RowsOfEntries(raw: seq<RawEntry>, es: seq<GitEntry>, blobs: map<nat, Content>)
    requires Listable(raw) && es == Sort(AllChecked(raw)) && BlobsKnown(es, blobs)
    ensures InByteOrder(es) && RowsOrdered(RowsFor(es, blobs))
    ensures forall i :: 0 <= i < |es| ==> RowOk(RowsFor(es, blobs)[i])
  {
    CheckedAreDistinct(raw);
    SortOrders(AllChecked(raw));
    forall i | 0 <= i < |es| ensures RowOk(RowsFor(es, blobs)[i]) {
      assert es[i] in es;
    }
  }

  /** Succeeds exactly when the tree can be had, and then publishes a faithful
      envelope. */
  method Materialize(raw: seq<RawEntry>, gitTree: nat, blobs: map<nat, Content>, l: Locked, f: Name -> Name)
    returns (r: Result)
    ensures r.Ok? <==> Obtainable(raw, gitTree, blobs, l, f)
    ensures r.Ok? ==> Faithful(r.envelope, l)
  {
    var ok, es := ReadGitTree(raw);
    if !ok {
      return Err(GitTreeRecordInvalid);
    }
    CheckedAreDistinct(raw);
    SortOrders(AllChecked(raw));
    var error, rows, totalBytes, tree := StageAll(es, blobs, f);
    if error.Some? {
      return Err(error.value);
    }
    RowsOfEntries(raw, es, blobs);
    var digest := TreeDigest(rows, gitTree);
    if digest != l.digest {
      return Err(LockedTreeDigestMismatch);
    }
    var manifest := Manifest(l.source, gitTree, rows, |rows|, totalBytes, digest);
    var frozen := FreezeDirectories(tree);
    FrozenHolds(tree, frozen, rows);
    return Ok(Envelope(MODE_EXECUTABLE, false, MODE_READ, 1, Some(manifest), frozen));
  }

  // ---------------------------------------------------------------- auditing

  predicate RowsSafe(rows: seq<Row>) {
    (forall i :: 0 <= i < |rows| ==> SafeGitPath(rows[i].path)) && RowsOrdered(rows)
  }

  lemma OrderedSnoc(rows: seq<Row>, r: Row)
    requires RowsOrdered(rows) && (rows != [] ==> Less(rows[|rows| - 1].path, r.path))
    ensures RowsOrdered(rows + [r])
  {
    forall i | 0 <= i < |rows| ensures Less(rows[i].path, r.path) {
      if i < |rows| - 1 {
        LessTransitive(rows[i].path, rows[|rows| - 1].path, r.path);
      }
    }
  }

  function ProperPrefixes(p: Path): set<Path> {
    set k | 0 <= k < |p| :: p[..k]
  }

  lemma SafeSnoc(rows: seq<Row>, i: nat)
    requires i < |rows| && RowsSafe(rows[..i]) && SafeGitPath(rows[i].path)
    requires i > 0 ==> Less(rows[i - 1].path, rows[i].path)
    ensures RowsSafe(rows[..i + 1])
  {
    OrderedSnoc(rows[..i], rows[i]);
    assert rows[..i + 1] == rows[..i] + [rows[i]];
  }

  lemma NextPath(rows: seq<Row>, i: nat, p: Path)
    requires i < |rows|
    ensures IsFile(rows[..i + 1], p) <==> IsFile(rows[..i], p) || p == Parts(rows[i].path)
    ensures InDir(rows[..i + 1], p) <==> InDir(rows[..i], p) || p in ProperPrefixes(Parts(rows[i].path))
  {
    assert rows[..i + 1] == rows[..i] + [rows[i]];
    RowAdds(rows[..i], rows[i], p);
    assert p < Parts(rows[i].path) ==> p == Parts(rows[i].path)[..|p|];
  }

  ghost predicate Listed(rows: seq<Row>, paths: set<Path>, directories: set<Path>) {
    && (forall p :: p in paths <==> IsFile(rows, p))
    && (forall p :: p in directories <==> InDir(rows, p))
  }

  lemma NextListed(rows: seq<Row>, i: nat, paths: set<Path>, directories: set<Path>)
    requires i < |rows| && Listed(rows[..i], paths, directories)
    ensures Listed(rows[..i + 1], paths + {Parts(rows[i].path)}, directories + ProperPrefixes(Parts(rows[i].path)))
    ensures Total(rows[..i + 1]) == Total(rows[..i]) + rows[i].bytes
  {
    forall p ensures (p in paths + {Parts(rows[i].path)} <==> IsFile(rows[..i + 1], p))
                     && (p in directories + ProperPrefixes(Parts(rows[i].path)) <==> InDir(rows[..i + 1], p))
    {
      NextPath(rows, i, p);
    }
    assert rows[..i + 1][..i] == rows[..i];
  }

  /** Reads the manifest's rows: their paths, their ancestors, their bytes. */
  method CheckRows(rows: seq<Row>) returns (ok: bool, paths: set<Path>, directories: set<Path>, totalBytes: nat)
    ensures ok <==> RowsSafe(rows)
    ensures ok ==> Listed(rows, paths, directories) && totalBytes == Total(rows)
  {
    paths, directories, totalBytes := {}, {[]}, 0;
    var previous: Option<Name> := None;
    for i := 0 to |rows|
      invariant RowsSafe(rows[..i]) && totalBytes == Total(rows[..i])
      invariant previous == if i == 0 then None else Some(rows[i - 1].path)
      invariant Listed(rows[..i], paths, directories)
    {
      var path := rows[i].path;
      if !SafeGitPath(path) || (previous.Some? && !Less(previous.value, path)) {
        return false, {}, {}, 0;
      }
      SafeSnoc(rows, i);
      NextListed(rows, i, paths, directories);
      previous := Some(path);
      paths := paths + {Parts(path)};
      directories := directories + ProperPrefixes(Parts(path));
      totalBytes := totalBytes + rows[i].bytes;
    }
    assert rows[..|rows|] == rows;
    ok := true;
  }

  /** Every directory is expected and frozen, everything else is an expected
      file, and nothing expected is missing. */
  ghost predicate Shape(t: Tree, paths: set<Path>, directories: set<Path>) {
    && (forall p :: p in t && p != [] ==>
          if IsDirectory(t[p]) then t[p] == Dir(MODE_EXECUTABLE) && p in directories else p in paths)
    && (forall p :: p in directories ==> p == [] || (p in t && IsDirectory(t[p])))
    && (forall p :: p in paths ==> p in t && p != [] && !IsDirectory(t[p]))
  }

  predicate IsDirectory(n: Node) {
    n.Dir? || (n.Special? && n.dirlike)
  }

  /** Walks the tree in any order and compares what it saw with what the
      manifest expects. */
  method WalkTree(t: Tree, paths: set<Path>, directories: set<Path>) returns (ok: bool)
    requires [] in directories
    ensures ok <==> Shape(t, paths, directories)
  {
    var observedFiles: set<Path>, observedDirectories: set<Path> := {}, {[]};
    var rest := t.Keys - {[]};
    while rest != {}
      invariant rest <= t.Keys - {[]}
      invariant forall p :: p in t && p != [] && p !in rest ==>
                  if IsDirectory(t[p]) then t[p] == Dir(MODE_EXECUTABLE) else p in paths
      invariant forall p :: p in observedDirectories <==> p == [] || (p in t && p !in rest && IsDirectory(t[p]))
      invariant forall p :: p in observedFiles <==> p in t && p != [] && p !in rest && !IsDirectory(t[p])
      decreases rest
    {
      HasMember(rest);
      var p :| p in rest;
      if IsDirectory(t[p]) {
        if t[p] != Dir(MODE_EXECUTABLE) {
          return false;
        }
        observedDirectories := observedDirectories + {p};
      } else {
        if p !in paths {
          return false;
        }
        observedFiles := observedFiles + {p};
      }
      rest := rest - {p};
    }
    ok := observedFiles == paths && observedDirectories == directories;
  }

  method CheckFiles(t: Tree, rows: seq<Row>) returns (ok: bool)
    requires forall i :: 0 <= i < |rows| ==> Parts(rows[i].path) in t
    ensures ok <==> forall i :: 0 <= i < |rows| ==> HasFile(t, rows[i]) && rows[i].bytes == |rows[i].digest|
  {
    for i := 0 to |rows|
      invariant forall j :: 0 <= j < i ==> HasFile(t, rows[j]) && rows[j].bytes == |rows[j].digest|
    {
      var n := t[Parts(rows[i].path)];
      if !n.File? || n.content != rows[i].digest || |n.content| != rows[i].bytes
         || n.mode != ModeBits(rows[i].mode) || n.links != 1 {
        return false;
      }
    }
    ok := true;
  }

  lemma ShapeIsHolds(t: Tree, rows: seq<Row>, paths: set<Path>, directories: set<Path>)
    requires [] in t && t[[]] == Dir(MODE_EXECUTABLE)
    requires Listed(rows, paths, directories)
    ensures Shape(t, paths, directories) && AllFiles(t, rows) <==> Holds(t, rows, MODE_EXECUTABLE)
  {
    if Holds(t, rows, MODE_EXECUTABLE) {
      forall p | p in paths ensures p in t && t[p].File? {
        var i :| 0 <= i < |rows| && p == Parts(rows[i].path);
        assert HasFile(t, rows[i]);
      }
    }
  }

  /** Reads an envelope from disk.  It passes exactly when the disk is what the
      lock names. */
  method Audit(e: Envelope, l: Locked) returns (ok: bool)
    ensures ok <==> Faithful(e, l)
  {
    if e.rootMode != MODE_EXECUTABLE || [] !in e.tree || e.tree[[]] != Dir(MODE_EXECUTABLE) || e.manifestMode != MODE_READ
       || e.manifestLinks != 1 || e.others || e.manifest.None? {
      assert Faithful(e, l) ==> InDir(e.manifest.value.files, []);
      return false;
    }
    var m := e.manifest.value;
    if m.source != l.source {
      return false;
    }
    var rowsOk, paths, directories, totalBytes := CheckRows(m.files);
    if !rowsOk || m.fileCount != |m.files| || m.totalBytes != totalBytes
       || m.digest != TreeDigest(m.files, m.gitTree) || m.digest != l.digest {
      return false;
    }
    ok := FilesMatch(e.tree, m.files, paths, directories);
  }

  method FilesMatch(t: Tree, rows: seq<Row>, paths: set<Path>, directories: set<Path>) returns (ok: bool)
    requires [] in t && t[[]] == Dir(MODE_EXECUTABLE)
    requires Listed(rows, paths, directories)
    ensures ok <==> Holds(t, rows, MODE_EXECUTABLE) && forall i :: 0 <= i < |rows| ==> rows[i].bytes == |rows[i].digest|
  {
    ShapeIsHolds(t, rows, paths, directories);
    ok := WalkTree(t, paths, directories);
    if ok {
      assert forall i :: 0 <= i < |rows| ==> IsFile(rows, Parts(rows[i].path));
      ok := CheckFiles(t, rows);
    }
  }

  /** An entry already in the cache is audited, a missing one is materialized
      and then audited: the audit never refuses what was just published. */
  method Ensure(cached: Option<Envelope>, raw: seq<RawEntry>, gitTree: nat, blobs: map<nat, Content>,
                l: Locked, f: Name -> Name) returns (ok: bool, e: Option<Envelope>)
    ensures ok <==> if cached.Some? then Faithful(cached.value, l) else Obtainable(raw, gitTree, blobs, l, f)
    ensures ok ==> e.Some? && Faithful(e.value, l)
  {
    if cached.Some? {
      ok := Audit(cached.value, l);
      return ok, cached;
    }
    var r := Materialize(raw, gitTree, blobs, l, f);
    if r.Err? {
      return false, None;
    }
    ok := Audit(r.envelope, l);
    e := Some(r.envelope);
  }
}
