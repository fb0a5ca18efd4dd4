/** Paths of a source tree as bytes: which are safe, how they split into
    components, and the byte order manifests use. */
module SourcePaths {
  import opened Contracts

  type Name = seq<Byte>
  type Path = seq<Name>

  const NUL: Byte := 0
  const DOT: Byte := 46
  const SLASH: Byte := 47
  const BACKSLASH: Byte := 92

  function Split(s: Name): (p: Path)
    ensures |p| >= 1
  {
    if s == [] then [[]]
    else
      var rest := Split(s[1..]);
      if s[0] == SLASH then [[]] + rest else [[s[0]] + rest[0]] + rest[1..]
  }

  function Join(p: Path): Name {
    if p == [] then []
    else if |p| == 1 then p[0]
    else p[0] + [SLASH] + Join(p[1..])
  }

  lemma {:induction false} JoinSplit(s: Name)
    ensures Join(Split(s)) == s
  {
    if s != [] {
      JoinSplit(s[1..]);
      var rest := Split(s[1..]);
      if s[0] == SLASH {
        assert ([[]] + rest)[1..] == rest;
      } else {
        assert Split(s)[1..] == rest[1..];
      }
    }
  }

  lemma SplitIsInjective(a: Name, b: Name)
    requires Split(a) == Split(b)
    ensures a == b
  {
    JoinSplit(a);
    JoinSplit(b);
  }

  predicate SafeName(n: Name) {
    n != [] && n != [DOT] && n != [DOT, DOT]
  }

  /** A relative path in canonical form: no empty, `.` or `..` component, hence
      no leading, trailing or doubled slash; no backslash and no NUL.  The single
      dot passes too, being a path without components in canonical form. */
  predicate SafeGitPath(s: Name) {
    || s == [DOT]
    || (s != [] && BACKSLASH !in s && NUL !in s && forall i :: 0 <= i < |Split(s)| ==> SafeName(Split(s)[i]))
  }

  /** The components of a path: a single dot has none and names the root. */
  function Parts(s: Name): Path {
    if s == [DOT] then [] else Split(s)
  }

  lemma PartsAreInjective(a: Name, b: Name)
    requires Parts(a) == Parts(b)
    ensures a == b
  {
    if a != [DOT] && b != [DOT] {
      SplitIsInjective(a, b);
    }
  }

  // ---------------------------------------------------------------- byte order

  predicate Less(a: Name, b: Name) {
    if b == [] then false
    else if a == [] then true
    else a[0] < b[0] || (a[0] == b[0] && Less(a[1..], b[1..]))
  }

  lemma {:induction false} LessIsStrict(a: Name, b: Name)
    ensures !(Less(a, b) && Less(b, a)) && !Less(a, a)
    ensures Less(a, b) || Less(b, a) || a == b
  {
    if a != [] && b != [] {
      LessIsStrict(a[1..], b[1..]);
      assert a == [a[0]] + a[1..] && b == [b[0]] + b[1..];
    }
    LessIrreflexive(a);
  }

  lemma {:induction false} LessIrreflexive(a: Name)
    ensures !Less(a, a)
  {
    if a != [] {
      LessIrreflexive(a[1..]);
    }
  }

  lemma {:induction false} LessTransitive(a: Name, b: Name, c: Name)
    requires Less(a, b) && Less(b, c)
    ensures Less(a, c)
  {
    if a != [] && a[0] == b[0] == c[0] {
      LessTransitive(a[1..], b[1..], c[1..]);
    }
  }

  // ---------------------------------------------------------------- tree entries

  datatype Mode = Regular | Executable

  /** One record of the tree listing. */
  datatype RawEntry = RawEntry(path: Name, utf8: bool, mode: Option<Mode>, isBlob: bool, blob: Option<nat>)

  /** A checked record; object identifiers are numbers. */
  datatype GitEntry = GitEntry(path: Name, mode: Mode, blob: nat)

  predicate EntryOk(e: RawEntry) {
    e.utf8 && SafeGitPath(e.path) && e.mode.Some? && e.isBlob && e.blob.Some?
  }

  function Checked(e: RawEntry): GitEntry
    requires EntryOk(e)
  {
    GitEntry(e.path, e.mode.value, e.blob.value)
  }

  predicate DistinctPaths(es: seq<GitEntry>) {
    forall i, j :: 0 <= i < j < |es| ==> es[i].path != es[j].path
  }

  predicate InByteOrder(es: seq<GitEntry>) {
    forall i, j :: 0 <= i < j < |es| ==> Less(es[i].path, es[j].path)
  }

  predicate Listable(raw: seq<RawEntry>) {
    && (forall i :: 0 <= i < |raw| ==> EntryOk(raw[i]))
    && forall i, j :: 0 <= i < j < |raw| ==> raw[i].path != raw[j].path
  }

  function AllChecked(raw: seq<RawEntry>): seq<GitEntry>
    requires forall i :: 0 <= i < |raw| ==> EntryOk(raw[i])
  {
    seq(|raw|, i requires 0 <= i < |raw| => Checked(raw[i]))
  }

  function Insert(e: GitEntry, es: seq<GitEntry>): seq<GitEntry> {
    if es == [] || Less(e.path, es[0].path) then [e] + es else [es[0]] + Insert(e, es[1..])
  }

  function Sort(es: seq<GitEntry>): seq<GitEntry> {
    if es == [] then [] else Insert(es[|es| - 1], Sort(es[..|es| - 1]))
  }

  lemma {:induction false} InsertKeeps(e: GitEntry, es: seq<GitEntry>)
    ensures forall x :: x in Insert(e, es) <==> x == e || x in es
    ensures |Insert(e, es)| == |es| + 1
  {
    if es != [] && !Less(e.path, es[0].path) {
      InsertKeeps(e, es[1..]);
      assert es == [es[0]] + es[1..];
    }
  }

  lemma {:induction false} InsertOrders(e: GitEntry, es: seq<GitEntry>)
    requires InByteOrder(es) && forall x :: x in es ==> x.path != e.path
    ensures InByteOrder(Insert(e, es))
  {
    if es == [] {
    } else if Less(e.path, es[0].path) {
      forall j | 1 <= j < |es| ensures Less(e.path, es[j].path) {
        LessTransitive(e.path, es[0].path, es[j].path);
      }
    } else {
      LessIsStrict(e.path, es[0].path);
      InsertOrders(e, es[1..]);
      InsertKeeps(e, es[1..]);
      var rest := Insert(e, es[1..]);
      forall j | 0 <= j < |rest| ensures Less(es[0].path, rest[j].path) {
        assert rest[j] in rest;
      }
    }
  }

  /** Sorting keeps the entries and puts distinct paths in strict byte order. */
  lemma {:induction false} SortOrders(es: seq<GitEntry>)
    requires DistinctPaths(es)
    ensures InByteOrder(Sort(es)) && |Sort(es)| == |es|
    ensures forall x :: x in Sort(es) <==> x in es
    decreases |es|
  {
    if es != [] {
      var n := |es| - 1;
      SortOrders(es[..n]);
      InsertOrders(es[n], Sort(es[..n]));
      InsertKeeps(es[n], Sort(es[..n]));
      assert es == es[..n] + [es[n]];
    }
  }
}
