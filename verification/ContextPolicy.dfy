/** The context-window policy frozen into a launch, and the store's rebuild of
    it from the launch document. */
module ContextPolicy {
  import opened Contracts

  const MAXIMUM_CONTEXT_WINDOW_TOKENS := 2_147_483_647

  datatype Row = Row(session: SessionId, tokens: int)
  datatype EffectiveRow = EffectiveRow(session: SessionId, tokens: Option<int>)

  /** Overrides are kept sorted by session. */
  datatype Policy = Policy(defaultTokens: Option<int>, overrides: seq<Row>)

  datatype LaunchValue = LaunchValue(defaultTokens: Option<int>, overrides: seq<Row>, effective: seq<EffectiveRow>)

  predicate Tokens(n: int) { 0 < n <= MAXIMUM_CONTEXT_WINDOW_TOKENS }

  predicate Distinct(rows: seq<Row>) {
    forall i, j :: 0 <= i < j < |rows| ==> rows[i].session != rows[j].session
  }

  predicate Ascending(rows: seq<Row>) {
    forall i, j :: 0 <= i < j < |rows| ==> rows[i].session < rows[j].session
  }

  predicate TokensOk(d: Option<int>, rows: seq<Row>) {
    (d.Some? ==> Tokens(d.value)) && forall r :: r in rows ==> Tokens(r.tokens)
  }

  predicate Valid(p: Policy) {
    Ascending(p.overrides) && TokensOk(p.defaultTokens, p.overrides)
  }

  function Insert(r: Row, rows: seq<Row>): seq<Row> {
    if rows == [] || r.session < rows[0].session then [r] + rows else [rows[0]] + Insert(r, rows[1..])
  }

  function Sort(rows: seq<Row>): seq<Row> {
    if rows == [] then [] else Insert(rows[0], Sort(rows[1..]))
  }

  /** The policy's constructor over a table without repeated sessions. */
  function New(d: Option<int>, rows: seq<Row>): Option<Policy> {
    if TokensOk(d, rows) then Some(Policy(d, Sort(rows))) else None
  }

  function Find(rows: seq<Row>, s: SessionId, default: Option<int>): Option<int> {
    if rows == [] then default
    else if rows[0].session == s then Some(rows[0].tokens)
    else Find(rows[1..], s, default)
  }

  function ForSession(p: Policy, s: SessionId): Option<int> {
    Find(p.overrides, s, p.defaultTokens)
  }

  predicate Unique(ids: seq<SessionId>) {
    forall i, j :: 0 <= i < j < |ids| ==> ids[i] != ids[j]
  }

  /** The launch value; refused when an override names no planned session. */
  function Bind(p: Policy, ids: seq<SessionId>): Option<LaunchValue> {
    if !Unique(ids) || exists r :: r in p.overrides && r.session !in ids then None
    else
      Some(LaunchValue(p.defaultTokens, p.overrides,
        seq(|ids|, i requires 0 <= i < |ids| => EffectiveRow(ids[i], ForSession(p, ids[i])))))
  }

  /** The store rebuilds a policy from the document and binds it again. */
  predicate StoreAccepts(v: LaunchValue, ids: seq<SessionId>) {
    && Distinct(v.overrides)
    && New(v.defaultTokens, v.overrides).Some?
    && Bind(New(v.defaultTokens, v.overrides).value, ids) == Some(v)
  }

  /** The first effective row of a session, as the receipt check reads it. */
  function FirstMatch(rows: seq<EffectiveRow>, s: SessionId): Option<int> {
    if rows == [] then None
    else if rows[0].session == s then rows[0].tokens
    else FirstMatch(rows[1..], s)
  }

  // ---------------------------------------------------------------- agreement

  lemma {:induction false} SortOfSorted(rows: seq<Row>)
    requires Ascending(rows)
    ensures Sort(rows) == rows
  {
    if rows != [] {
      SortOfSorted(rows[1..]);
      if |rows| > 1 {
        assert rows[0].session < rows[1].session;
      }
    }
  }

  lemma {:induction false} InsertKeeps(r: Row, rows: seq<Row>)
    requires Ascending(rows) && forall x :: x in rows ==> x.session != r.session
    ensures Ascending(Insert(r, rows))
    ensures forall x :: x in Insert(r, rows) <==> x == r || x in rows
  {
    if rows != [] && r.session > rows[0].session {
      InsertKeeps(r, rows[1..]);
      assert rows == [rows[0]] + rows[1..];
      forall x | x in Insert(r, rows[1..]) ensures rows[0].session < x.session {
        if x != r {
          assert x in rows[1..];
        }
      }
    }
  }

  lemma {:induction false} SortKeeps(rows: seq<Row>)
    requires Distinct(rows)
    ensures Ascending(Sort(rows)) && forall x :: x in Sort(rows) <==> x in rows
  {
    if rows != [] {
      SortKeeps(rows[1..]);
      InsertKeeps(rows[0], Sort(rows[1..]));
      assert rows == [rows[0]] + rows[1..];
    }
  }

  /** The store accepts exactly the values some valid policy binds to, and the
      policy it rebuilds is that policy. */
  lemma StoreAcceptsIff(v: LaunchValue, ids: seq<SessionId>)
    ensures StoreAccepts(v, ids) <==> exists p :: Valid(p) && Bind(p, ids) == Some(v)
    ensures forall p :: Valid(p) && Bind(p, ids) == Some(v) ==> New(v.defaultTokens, v.overrides) == Some(p)
  {
    if StoreAccepts(v, ids) {
      SortKeeps(v.overrides);
      assert Valid(New(v.defaultTokens, v.overrides).value);
    }
    forall p | Valid(p) && Bind(p, ids) == Some(v) ensures New(v.defaultTokens, v.overrides) == Some(p) {
      SortOfSorted(p.overrides);
    }
  }

  lemma {:induction false} FirstMatchAt(p: Policy, ids: seq<SessionId>, s: SessionId)
    requires s in ids
    ensures FirstMatch(seq(|ids|, i requires 0 <= i < |ids| => EffectiveRow(ids[i], ForSession(p, ids[i]))), s)
            == ForSession(p, s)
  {
    var rows := seq(|ids|, i requires 0 <= i < |ids| => EffectiveRow(ids[i], ForSession(p, ids[i])));
    if ids[0] != s {
      FirstMatchAt(p, ids[1..], s);
      assert rows[1..] == seq(|ids[1..]|, i requires 0 <= i < |ids[1..]| => EffectiveRow(ids[1..][i], ForSession(p, ids[1..][i])));
    }
  }

  /** What a receipt is checked against is what the policy gave the session. */
  lemma ReceiptLookupAgrees(p: Policy, ids: seq<SessionId>, s: SessionId)
    requires Bind(p, ids).Some? && s in ids
    ensures FirstMatch(Bind(p, ids).value.effective, s) == ForSession(p, s)
  {
    FirstMatchAt(p, ids, s);
  }
}
