/** Which process groups hang below a managed root, from one process table. */
module ProcessGroups {
  import opened Contracts

  /** A table line after splitting: each field is a number or no number. */
  type Line = seq<Option<int>>

  datatype Row = Row(pid: int, parent: int, group: int)

  datatype Error = DiscoveryFailed | IdentityFailure
  datatype Result = Ok(groups: seq<int>) | Err(error: Error)

  predicate LineOk(l: Line) {
    && |l| == 3 && (forall i :: 0 <= i < 3 ==> l[i].Some?)
    && l[0].value > 0 && l[1].value >= 0 && l[2].value >= 0
  }

  predicate TableOk(ls: seq<Line>) {
    forall i :: 0 <= i < |ls| ==> LineOk(ls[i])
  }

  function RowsOf(ls: seq<Line>): seq<Row>
    requires TableOk(ls)
  {
    seq(|ls|, i requires 0 <= i < |ls| => Row(ls[i][0].value, ls[i][1].value, ls[i][2].value))
  }

  // ---------------------------------------------------------------- reachability

  ghost predicate Link(rows: seq<Row>, p: int, c: int) {
    exists g :: Row(c, p, g) in rows
  }

  ghost predicate Walk(rows: seq<Row>, root: int, d: int, k: nat)
    decreases k
  {
    if k == 0 then d == root else exists p :: Walk(rows, root, p, k - 1) && Link(rows, p, d)
  }

  ghost predicate Descends(rows: seq<Row>, root: int, d: int) {
    exists k: nat :: Walk(rows, root, d, k)
  }

  lemma StepDown(rows: seq<Row>, root: int, p: int, c: int, g: int)
    requires Descends(rows, root, p) && Row(c, p, g) in rows
    ensures Descends(rows, root, c)
  {
    var k: nat :| Walk(rows, root, p, k);
    assert Link(rows, p, c);
    assert Walk(rows, root, c, k + 1);
  }

  lemma {:induction false} ClosedHoldsWalks(rows: seq<Row>, root: int, s: set<int>, d: int, k: nat)
    requires root in s && forall r :: r in rows && r.parent in s ==> r.pid in s
    requires Walk(rows, root, d, k)
    ensures d in s
    decreases k
  {
    if k > 0 {
      var p :| Walk(rows, root, p, k - 1) && Link(rows, p, d);
      ClosedHoldsWalks(rows, root, s, p, k - 1);
      var g :| Row(d, p, g) in rows;
    }
  }

  // ---------------------------------------------------------------- the promise

  predicate UniquePids(rows: seq<Row>) {
    forall i, j :: 0 <= i < j < |rows| ==> rows[i].pid != rows[j].pid
  }

  /** A row of the managed subtree; the root's own row is not one. */
  ghost predicate InSubtree(rows: seq<Row>, root: int, r: Row) {
    r in rows && r.pid != root && Descends(rows, root, r.pid)
  }

  ghost predicate ZeroGroupBelow(rows: seq<Row>, root: int) {
    exists r :: InSubtree(rows, root, r) && r.group == 0
  }

  ghost predicate IsGroupBelow(rows: seq<Row>, root: int, rootGroup: int, g: int) {
    g != rootGroup && exists r :: InSubtree(rows, root, r) && r.group == g
  }

  predicate StrictlySorted(s: seq<int>) {
    forall i, j :: 0 <= i < j < |s| ==> s[i] < s[j]
  }

  /** What holds for every table, repeated pids included: each group is one of
      the subtree's, and each process of the subtree has its group among them
      by at least one of its rows. */
  ghost predicate Covers(rows: seq<Row>, root: int, rootGroup: int, gs: set<int>) {
    && (forall g :: g in gs ==> g > 0 && IsGroupBelow(rows, root, rootGroup, g))
    && (forall d :: d != root && Descends(rows, root, d) ==> HasGroup(rows, rootGroup, gs, d))
  }

  ghost predicate HasGroup(rows: seq<Row>, rootGroup: int, gs: set<int>, d: int) {
    exists p, g :: Row(d, p, g) in rows && g > 0 && (g == rootGroup || g in gs)
  }

  lemma UniqueRow(rows: seq<Row>, a: Row, b: Row)
    requires UniquePids(rows) && a in rows && b in rows && a.pid == b.pid
    ensures a == b
  {
  }

  /** With unique pids that is exactly the set of groups below the root. */
  lemma CoversIsExact(rows: seq<Row>, root: int, rootGroup: int, gs: set<int>)
    requires UniquePids(rows) && Covers(rows, root, rootGroup, gs)
    ensures forall g :: g in gs <==> IsGroupBelow(rows, root, rootGroup, g)
    ensures !ZeroGroupBelow(rows, root)
  {
    forall r | InSubtree(rows, root, r) ensures r.group > 0 && (r.group == rootGroup || r.group in gs) {
      assert HasGroup(rows, rootGroup, gs, r.pid);
      var p, g :| Row(r.pid, p, g) in rows && g > 0 && (g == rootGroup || g in gs);
      UniqueRow(rows, r, Row(r.pid, p, g));
    }
  }

  lemma {:induction false} ForeignWalk(rows: seq<Row>, root: int, r: Row, d: int, k: nat)
    requires !Descends(rows + [r], root, r.parent)
    ensures Walk(rows + [r], root, d, k) <==> Walk(rows, root, d, k)
    decreases k
  {
    if k > 0 {
      forall p ensures Walk(rows + [r], root, p, k - 1) && Link(rows + [r], p, d)
                       <==> Walk(rows, root, p, k - 1) && Link(rows, p, d)
      {
        ForeignWalk(rows, root, r, p, k - 1);
        if Link(rows, p, d) {
          var g :| Row(d, p, g) in rows;
          assert Row(d, p, g) in rows + [r];
        }
      }
    }
  }

  /** A row outside the subtree, kernel processes of group zero included, adds
      no group and no error. */
  lemma ForeignRowIsHarmless(rows: seq<Row>, root: int, rootGroup: int, r: Row)
    requires !Descends(rows + [r], root, r.parent) && !Descends(rows, root, r.pid)
    ensures ZeroGroupBelow(rows + [r], root) <==> ZeroGroupBelow(rows, root)
    ensures forall g :: IsGroupBelow(rows + [r], root, rootGroup, g) <==> IsGroupBelow(rows, root, rootGroup, g)
  {
    forall d ensures Descends(rows + [r], root, d) <==> Descends(rows, root, d) {
      forall k: nat ensures Walk(rows + [r], root, d, k) <==> Walk(rows, root, d, k) {
        ForeignWalk(rows, root, r, d, k);
      }
    }
    forall q ensures InSubtree(rows + [r], root, q) <==> InSubtree(rows, root, q) {
    }
  }

  // ---------------------------------------------------------------- the worklist

  function ChildrenOf(rows: seq<Row>, p: int): seq<(int, int)> {
    if rows == [] then []
    else
      var r := rows[|rows| - 1];
      ChildrenOf(rows[..|rows| - 1], p) + if r.parent == p then [(r.pid, r.group)] else []
  }

  lemma {:induction false} ChildIsRow(rows: seq<Row>, p: int, c: int, g: int)
    ensures (c, g) in ChildrenOf(rows, p) <==> Row(c, p, g) in rows
    decreases |rows|
  {
    if rows != [] {
      var n := |rows| - 1;
      ChildIsRow(rows[..n], p, c, g);
      assert rows == rows[..n] + [rows[n]];
    }
  }

  function Pids(rows: seq<Row>): set<int> {
    set r | r in rows :: r.pid
  }

  /** Pids seen, those whose children were walked, and the groups found. */
  datatype Work = Work(seen: set<int>, done: set<int>, groups: set<int>)

  /** Everything seen was reached and, the root apart, has its group counted. */
  ghost predicate SeenOk(rows: seq<Row>, root: int, rootGroup: int, w: Work) {
    && root in w.seen && w.seen <= Pids(rows) + {root}
    && (forall d :: d in w.seen ==> Descends(rows, root, d))
    && (forall d :: d in w.seen && d != root ==> HasGroup(rows, rootGroup, w.groups, d))
    && (forall g :: g in w.groups ==> g > 0 && IsGroupBelow(rows, root, rootGroup, g))
  }

  ghost predicate DoneOk(rows: seq<Row>, w: Work) {
    w.done <= w.seen && forall r :: r in rows && r.parent in w.done ==> r.pid in w.seen
  }

  lemma SeeChild(rows: seq<Row>, root: int, rootGroup: int, w: Work, p: int, c: int, g: int)
    requires SeenOk(rows, root, rootGroup, w) && p in w.seen && Row(c, p, g) in rows && c !in w.seen && g > 0
    ensures SeenOk(rows, root, rootGroup,
                   w.(seen := w.seen + {c}, groups := if g != rootGroup then w.groups + {g} else w.groups))
  {
    StepDown(rows, root, p, c, g);
    var v := w.(seen := w.seen + {c}, groups := if g != rootGroup then w.groups + {g} else w.groups);
    assert InSubtree(rows, root, Row(c, p, g));
    forall d | d in v.seen && d != root ensures HasGroup(rows, rootGroup, v.groups, d) {
      if d == c {
        assert Row(d, p, g) in rows;
      } else {
        var q, h :| Row(d, q, h) in rows && h > 0 && (h == rootGroup || h in w.groups);
        assert Row(d, q, h) in rows;
      }
    }
  }

  lemma AllDone(rows: seq<Row>, root: int, rootGroup: int, w: Work)
    requires SeenOk(rows, root, rootGroup, w) && DoneOk(rows, w) && w.done == w.seen
    ensures Covers(rows, root, rootGroup, w.groups)
  {
    forall d | d != root && Descends(rows, root, d) ensures HasGroup(rows, rootGroup, w.groups, d) {
      var k: nat :| Walk(rows, root, d, k);
      ClosedHoldsWalks(rows, root, w.seen, d, k);
    }
  }

  // ---------------------------------------------------------------- the program

  function Lookup(children: map<int, seq<(int, int)>>, p: int): seq<(int, int)> {
    if p in children then children[p] else []
  }

  ghost predicate Indexed(children: map<int, seq<(int, int)>>, rows: seq<Row>) {
    forall p :: Lookup(children, p) == ChildrenOf(rows, p)
  }

  lemma IndexOne(children: map<int, seq<(int, int)>>, rows: seq<Row>, r: Row)
    requires Indexed(children, rows)
    ensures Indexed(children[r.parent := Lookup(children, r.parent) + [(r.pid, r.group)]], rows + [r])
  {
    assert (rows + [r])[..|rows|] == rows;
    var more := children[r.parent := Lookup(children, r.parent) + [(r.pid, r.group)]];
    forall p ensures Lookup(more, p) == ChildrenOf(rows + [r], p) {
      assert Lookup(children, p) == ChildrenOf(rows, p);
    }
  }

  lemma OneMoreLine(ls: seq<Line>, i: nat)
    requires i < |ls| && TableOk(ls[..i]) && LineOk(ls[i])
    ensures TableOk(ls[..i + 1])
    ensures RowsOf(ls[..i + 1]) == RowsOf(ls[..i]) + [Row(ls[i][0].value, ls[i][1].value, ls[i][2].value)]
  {
  }

  method ParseTable(ls: seq<Line>) returns (ok: bool, children: map<int, seq<(int, int)>>)
    ensures ok <==> TableOk(ls)
    ensures ok ==> Indexed(children, RowsOf(ls))
  {
    children := map[];
    for i := 0 to |ls|
      invariant TableOk(ls[..i]) && Indexed(children, RowsOf(ls[..i]))
    {
      if !LineOk(ls[i]) {
        return false, map[];
      }
      var r := Row(ls[i][0].value, ls[i][1].value, ls[i][2].value);
      IndexOne(children, RowsOf(ls[..i]), r);
      children := children[r.parent := Lookup(children, r.parent) + [(r.pid, r.group)]];
      OneMoreLine(ls, i);
    }
    assert ls[..|ls|] == ls;
    ok := true;
  }

  /** What is still to be walked, each pid once. */
  ghost predicate PendingOk(seen: set<int>, done: set<int>, pending: seq<int>) {
    && (forall i :: 0 <= i < |pending| ==> pending[i] in seen && pending[i] !in done)
    && (forall i, j :: 0 <= i < j < |pending| ==> pending[i] != pending[j])
    && (forall d :: d in seen && d !in done ==> d in pending)
  }

  lemma PopPending(seen: set<int>, done: set<int>, pending: seq<int>)
    requires PendingOk(seen, done, pending) && pending != []
    ensures PendingOk(seen, done + {pending[|pending| - 1]}, pending[..|pending| - 1])
    ensures pending[|pending| - 1] in seen && pending[|pending| - 1] !in done
  {
  }

  lemma PushPending(seen: set<int>, done: set<int>, pending: seq<int>, pid: int)
    requires PendingOk(seen, done, pending) && pid !in seen && done <= seen
    ensures PendingOk(seen + {pid}, done, pending + [pid])
  {
  }

  ghost predicate AllSeen(below: seq<(int, int)>, n: nat, seen: set<int>) {
    n <= |below| && forall k :: 0 <= k < n ==> below[k].0 in seen
  }

  lemma SeenOneMore(below: seq<(int, int)>, i: nat, before: set<int>, seen: set<int>)
    requires AllSeen(below, i, before) && before <= seen && i < |below| && below[i].0 in seen
    ensures AllSeen(below, i + 1, seen)
  {
  }

  lemma CloseParent(rows: seq<Row>, w: Work, parent: int, below: seq<(int, int)>)
    requires DoneOk(rows, w) && parent in w.seen && below == ChildrenOf(rows, parent)
    requires AllSeen(below, |below|, w.seen)
    ensures DoneOk(rows, w.(done := w.done + {parent}))
  {
    forall r | r in rows && r.parent == parent ensures r.pid in w.seen {
      ChildIsRow(rows, parent, r.pid, r.group);
      var k :| 0 <= k < |below| && below[k] == (r.pid, r.group);
    }
  }

  function Elements(s: seq<int>): set<int> {
    set x | x in s
  }

  function Insert(x: int, s: seq<int>): seq<int> {
    if s == [] || x < s[0] then [x] + s else [s[0]] + Insert(x, s[1..])
  }

  lemma {:induction false} InsertAdds(x: int, s: seq<int>)
    ensures forall y :: y in Insert(x, s) <==> y == x || y in s
  {
    if s != [] && x >= s[0] {
      InsertAdds(x, s[1..]);
      assert s == [s[0]] + s[1..];
    }
  }

  lemma {:induction false} InsertSorts(x: int, s: seq<int>)
    requires StrictlySorted(s) && x !in s
    ensures StrictlySorted(Insert(x, s))
  {
    assert s != [] ==> s[0] in s;
    if s != [] && x > s[0] {
      InsertSorts(x, s[1..]);
      InsertAdds(x, s[1..]);
      var rest := Insert(x, s[1..]);
      forall k | 0 <= k < |rest| ensures s[0] < rest[k] {
        assert rest[k] in rest;
      }
    }
  }

  lemma HasMember(s: set<int>)
    requires s != {}
    ensures exists x :: x in s
  {
    assert (forall x :: x !in s) ==> s == {};
  }

  method Sorted(s: set<int>) returns (r: seq<int>)
    ensures StrictlySorted(r) && Elements(r) == s
  {
    var rest := s;
    r := [];
    while rest != {}
      invariant StrictlySorted(r) && rest <= s && Elements(r) == s - rest
      decreases rest
    {
      HasMember(rest);
      var x :| x in rest;
      assert x !in Elements(r);
      InsertAdds(x, r);
      InsertSorts(x, r);
      assert Elements(Insert(x, r)) == Elements(r) + {x};
      r := Insert(x, r);
      rest := rest - {x};
    }
  }

  /** For any table: an error names its cause, and an answer covers the subtree.
      With unique pids the answer is exact and the errors are the only ones. */
  method DescendantGroups(ls: seq<Line>, root: int, rootGroup: int, hostGroup: int) returns (r: Result)
    ensures r == Err(DiscoveryFailed) <==> !TableOk(ls)
    ensures r.Ok? ==> StrictlySorted(r.groups) && Covers(RowsOf(ls), root, rootGroup, Elements(r.groups))
                      && hostGroup !in r.groups
    ensures r == Err(IdentityFailure) ==>
              ZeroGroupBelow(RowsOf(ls), root) || IsGroupBelow(RowsOf(ls), root, rootGroup, hostGroup)
    ensures TableOk(ls) && UniquePids(RowsOf(ls)) ==>
              var rows := RowsOf(ls);
              && (r.Ok? <==> !ZeroGroupBelow(rows, root) && !IsGroupBelow(rows, root, rootGroup, hostGroup))
              && (r.Ok? ==> forall g :: g in r.groups <==> IsGroupBelow(rows, root, rootGroup, g))
  {
    var ok, children := ParseTable(ls);
    if !ok {
      return Err(DiscoveryFailed);
    }
    ghost var rows := RowsOf(ls);
    var pending, seen, groups := [root], {root}, {};
    ghost var done: set<int> := {};
    assert Walk(rows, root, root, 0);
    while pending != []
      invariant SeenOk(rows, root, rootGroup, Work(seen, done, groups))
      invariant DoneOk(rows, Work(seen, done, groups))
      invariant PendingOk(seen, done, pending)
      decreases Pids(rows) + {root} - done
    {
      PopPending(seen, done, pending);
      var parent := pending[|pending| - 1];
      pending := pending[..|pending| - 1];
      var below := Lookup(children, parent);
      for i := 0 to |below|
        invariant SeenOk(rows, root, rootGroup, Work(seen, done, groups)) && parent in seen
        invariant DoneOk(rows, Work(seen, done, groups))
        invariant PendingOk(seen, done + {parent}, pending)
        invariant AllSeen(below, i, seen)
      {
        var (pid, group) := below[i];
        ChildIsRow(rows, parent, pid, group);
        ghost var before := seen;
        if pid !in seen {
          if group <= 0 {
            StepDown(rows, root, parent, pid, group);
            assert InSubtree(rows, root, Row(pid, parent, group));
            return Err(IdentityFailure);
          }
          SeeChild(rows, root, rootGroup, Work(seen, done, groups), parent, pid, group);
          PushPending(seen, done + {parent}, pending, pid);
          seen := seen + {pid};
          pending := pending + [pid];
          if group != rootGroup {
            groups := groups + {group};
          }
        }
        SeenOneMore(below, i, before, seen);
      }
      CloseParent(rows, Work(seen, done, groups), parent, below);
      done := done + {parent};
    }
    assert done == seen;
    AllDone(rows, root, rootGroup, Work(seen, done, groups));
    if UniquePids(rows) {
      CoversIsExact(rows, root, rootGroup, groups);
    }
    if hostGroup in groups {
      return Err(IdentityFailure);
    }
    var sorted := Sorted(groups);
    return Ok(sorted);
  }
}
