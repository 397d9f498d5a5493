/** The bounded revalidation batches of scripts/affiliate_d1_sensitive_query.py: the builder that prints a
    batch and the recognizer that reads one back before it may be sent. */
module D1Query {
  import opened Text

  /** The five safe statements; `Other` is any other SQL text. */
  datatype Statement = InsertTarget | InsertEvent | Enable | Fail | KeepPending | Other

  datatype Query = Query(sql: Statement, params: seq<string>)

  datatype Row = Row(public: string, content: string)

  datatype Outcome = Outcome(state: string, url: Option<string>)

  /** The checks of other modules on texts: `_safe_url`, and `fromisoformat` giving an aware time stamp. */
  datatype Checks = Checks(safeUrl: string -> bool, awareStamp: string -> bool)

  const VALID := "VALID"
  const NOT_AVAILABLE := "NOT_AVAILABLE"
  const UNCONFIRMED := "UNCONFIRMED"
  const MAX_ROWS := 5
  const MAX_STAMP := 64
  const MAX_PARAM := 4096

  predicate PublicId(s: string) { |s| == 28 && s[..4] == "itm_" && LowerHex(s[4..], 24) }

  predicate ContentChar(c: char) {
    'A' <= c <= 'Z' || 'a' <= c <= 'z' || '0' <= c <= '9' || c == '.' || c == '_' || c == '-'
  }

  predicate ContentId(s: string) { 1 <= |s| <= 128 && forall i :: 0 <= i < |s| ==> ContentChar(s[i]) }

  predicate Stamp(c: Checks, s: string) { |s| <= MAX_STAMP && c.awareStamp(s) && EndsWith(s, "Z") }

  // ---------- What a batch is ----------

  predicate RowOk(r: Row) { PublicId(r.public) && ContentId(r.content) }

  predicate OutcomeOk(c: Checks, o: Outcome) {
    if o.state == VALID then o.url.Some? && c.safeUrl(o.url.value)
    else (o.state == NOT_AVAILABLE || o.state == UNCONFIRMED) && o.url.None?
  }

  predicate Distinct(rows: seq<Row>) {
    forall i, j :: 0 <= i < j < |rows| ==> rows[i].public != rows[j].public && rows[i].content != rows[j].content
  }

  /** The inputs for which a batch is built. */
  predicate Buildable(c: Checks, rows: seq<Row>, outcomes: seq<Outcome>, checked: string) {
    && 1 <= |rows| <= MAX_ROWS && |outcomes| == |rows| && Stamp(c, checked) && Distinct(rows)
    && (forall i :: 0 <= i < |rows| ==> RowOk(rows[i]))
    && (forall i :: 0 <= i < |rows| ==> OutcomeOk(c, outcomes[i]))
  }

  function Reason(state: string): string {
    if state == VALID then "OFFICIAL_API_EXACT_MATCH"
    else if state == NOT_AVAILABLE then "OFFICIAL_API_ITEM_UNAVAILABLE" else "LOCAL_UPSTREAM_UNCONFIRMED"
  }

  function Update(state: string): Statement {
    if state == VALID then Enable else if state == NOT_AVAILABLE then Fail else KeepPending
  }

  function Enabled(state: string): string { if state == VALID then "1" else "0" }

  function EventQuery(r: Row, state: string, checked: string): Query {
    Query(InsertEvent, [checked, state, Enabled(state), Reason(state), r.public, r.content])
  }

  function UpdateQuery(r: Row, state: string, checked: string): Query {
    Query(Update(state), [checked, r.public, r.content])
  }

  /** The statements for one row. */
  function Block(r: Row, o: Outcome, checked: string): seq<Query> {
    (if o.state == VALID && o.url.Some? then [Query(InsertTarget, [o.url.value, checked, r.public, r.content])] else [])
    + [EventQuery(r, o.state, checked), UpdateQuery(r, o.state, checked)]
  }

  function Blocks(rows: seq<Row>, outcomes: seq<Outcome>, checked: string): seq<Query>
    requires |rows| == |outcomes|
  {
    if rows == [] then [] else Block(rows[0], outcomes[0], checked) + Blocks(rows[1..], outcomes[1..], checked)
  }

  /** What `build_queries` returns; `None` stands for its ValueError. */
  function Build(c: Checks, rows: seq<Row>, outcomes: seq<Outcome>, checked: string): Option<seq<Query>> {
    if Buildable(c, rows, outcomes, checked) then Some(Blocks(rows, outcomes, checked)) else None
  }

  lemma {:induction false} BlocksGrow(rows: seq<Row>, outcomes: seq<Outcome>, checked: string, k: nat)
    requires k < |rows| == |outcomes|
    ensures Blocks(rows[..k + 1], outcomes[..k + 1], checked) ==
            Blocks(rows[..k], outcomes[..k], checked) + Block(rows[k], outcomes[k], checked)
    decreases k
  {
    hide Block;
    var r, o := rows[..k + 1], outcomes[..k + 1];
    if k == 0 {
      assert r == [rows[0]] && o == [outcomes[0]] && r[1..] == [] && rows[..0] == [] && outcomes[..0] == [];
      assert Blocks(r[1..], o[1..], checked) == [];
      assert Blocks(r, o, checked) == Block(rows[0], outcomes[0], checked) + [];
    } else {
      BlocksGrow(rows[1..], outcomes[1..], checked, k - 1);
      assert r[1..] == rows[1..][..k] && o[1..] == outcomes[1..][..k];
      assert rows[..k][1..] == rows[1..][..k - 1] && outcomes[..k][1..] == outcomes[1..][..k - 1];
      assert r[0] == rows[..k][0] == rows[0] && o[0] == outcomes[..k][0] == outcomes[0];
      assert Blocks(r, o, checked) == Block(rows[0], outcomes[0], checked) + Blocks(r[1..], o[1..], checked);
      assert Blocks(rows[..k], outcomes[..k], checked) ==
             Block(rows[0], outcomes[0], checked) + Blocks(rows[..k][1..], outcomes[..k][1..], checked);
    }
  }

  /** `build_queries`: the loop over rows with the sets of identifiers seen so far. */
  method BuildQueries(c: Checks, rows: seq<Row>, outcomes: seq<Outcome>, checked: string)
    returns (r: Option<seq<Query>>)
    ensures r == Build(c, rows, outcomes, checked)
  {
    hide RowOk, OutcomeOk, Stamp, Block, PublicId, ContentId;
    if !(1 <= |rows| <= MAX_ROWS) || |rows| != |outcomes| { return None; }
    if !Stamp(c, checked) { return None; }
    var publics: set<string>, contents: set<string>, queries: seq<Query> := {}, {}, [];
    var k := 0;
    assert rows[..0] == [] && outcomes[..0] == [];
    while k < |rows|
      invariant 0 <= k <= |rows|
      invariant forall s :: s in publics <==> exists i :: 0 <= i < k && rows[i].public == s
      invariant forall s :: s in contents <==> exists i :: 0 <= i < k && rows[i].content == s
      invariant forall i :: 0 <= i < k ==> RowOk(rows[i]) && OutcomeOk(c, outcomes[i])
      invariant forall i, j :: 0 <= i < j < k ==> rows[i].public != rows[j].public && rows[i].content != rows[j].content
      invariant queries == Blocks(rows[..k], outcomes[..k], checked)
    {
      var row, outcome := rows[k], outcomes[k];
      if !RowOk(row) { return None; }
      if row.public in publics || row.content in contents { return None; }
      publics, contents := publics + {row.public}, contents + {row.content};
      if !OutcomeOk(c, outcome) { return None; }
      BlocksGrow(rows, outcomes, checked, k);
      queries := queries + Block(row, outcome, checked);
      k := k + 1;
    }
    assert rows[..k] == rows && outcomes[..k] == outcomes;
    return Some(queries);
  }

  // ---------- Reading a batch back ----------

  function Arity(s: Statement): nat {
    match s
    case InsertTarget => 4
    case InsertEvent => 6
    case _ => 3
  }

  /** What `write` asks of a batch before it reads it. */
  predicate WellTyped(queries: seq<Query>) {
    && 2 <= |queries| <= 3 * MAX_ROWS
    && forall i :: 0 <= i < |queries| ==> QueryOk(queries[i])
  }

  predicate QueryOk(q: Query) {
    q.sql != Other && |q.params| == Arity(q.sql) && forall i :: 0 <= i < |q.params| ==> |q.params[i]| <= MAX_PARAM
  }

  predicate Typed(queries: seq<Query>) {
    forall i :: 0 <= i < |queries| ==> |queries[i].params| == Arity(queries[i].sql)
  }

  /** Rows, outcomes and the time stamp, if any. */
  datatype Reading = Reading(rows: seq<Row>, outcomes: seq<Outcome>, checked: Option<string>)

  /** What the loop of `_canonical_batch` collects from position `index` on; `None` when it gives up. */
  function Read(queries: seq<Query>, index: nat, seen: Reading): Option<Reading>
    requires Typed(queries)
    decreases |queries| - index
  {
    if index >= |queries| then Some(seen)
    else
      var target := queries[index].sql == InsertTarget;
      var at := if target then index + 1 else index;
      if at >= |queries| || queries[at].sql != InsertEvent then None
      else
        var p := queries[at].params;
        if seen.checked.Some? && seen.checked.value != p[0] then None
        else
          Read(queries, at + 2,
               Reading(seen.rows + [Row(p[4], p[5])],
                       seen.outcomes + [Outcome(p[1], if target then Some(queries[index].params[0]) else None)],
                       Some(p[0])))
  }

  const NOTHING_READ: Reading := Reading([], [], None)

  /** `_canonical_batch`; an exception in it also refuses the batch. */
  method CanonicalBatch(c: Checks, queries: seq<Query>) returns (ok: bool)
    requires Typed(queries)
    ensures ok <==> Canonical(c, queries)
  {
    hide Build;
    var rows: seq<Row>, outcomes: seq<Outcome>, checked: Option<string> := [], [], None;
    var index := 0;
    while index < |queries|
      invariant Read(queries, 0, NOTHING_READ) == Read(queries, index, Reading(rows, outcomes, checked))
      invariant |rows| == |outcomes| && (checked.None? <==> rows == [])
      decreases |queries| - index
    {
      var target := queries[index].sql == InsertTarget;
      if target && index + 1 >= |queries| { return false; }
      var event := if target then queries[index + 1] else queries[index];
      if event.sql != InsertEvent { return false; }
      var stamp := event.params[0];
      if checked.Some? && checked.value != stamp { return false; }
      checked := Some(stamp);
      rows := rows + [Row(event.params[4], event.params[5])];
      outcomes := outcomes + [Outcome(event.params[1], if target then Some(queries[index].params[0]) else None)];
      index := index + if target then 3 else 2;
    }
    if checked.None? { return false; }
    var rebuilt := BuildQueries(c, rows, outcomes, checked.value);
    return rebuilt == Some(queries);
  }

  predicate Canonical(c: Checks, queries: seq<Query>)
    requires Typed(queries)
  {
    var r := Read(queries, 0, NOTHING_READ);
    r.Some? && r.value.checked.Some? && Build(c, r.value.rows, r.value.outcomes, r.value.checked.value) == Some(queries)
  }

  // ---------- Printer and parser undo each other ----------

  lemma {:induction false} BlocksTyped(rows: seq<Row>, outcomes: seq<Outcome>, checked: string)
    requires |rows| == |outcomes|
    ensures Typed(Blocks(rows, outcomes, checked))
    decreases |rows|
  {
    hide Reason, Enabled;
    if rows != [] { BlocksTyped(rows[1..], outcomes[1..], checked); }
  }

  /** The outcome of a row says by itself whether it has a target statement. */
  predicate Shaped(o: Outcome) { o.url.Some? <==> o.state == VALID }

  /** Reading is local: what lies before the index does not matter. */
  lemma {:induction false} ReadShift(front: seq<Query>, queries: seq<Query>, index: nat, seen: Reading)
    requires Typed(front + queries) && Typed(queries)
    ensures Read(front + queries, |front| + index, seen) == Read(queries, index, seen)
    decreases |queries| - index
  {
    if index < |queries| {
      var at := if queries[index].sql == InsertTarget then index + 1 else index;
      if at < |queries| {
        assert (front + queries)[|front| + index] == queries[index] && (front + queries)[|front| + at] == queries[at];
        if |queries[at].params| == 6 {
          var p := queries[at].params;
          var o := Outcome(p[1], if queries[index].sql == InsertTarget then Some(queries[index].params[0]) else None);
          ReadShift(front, queries, at + 2, Reading(seen.rows + [Row(p[4], p[5])], seen.outcomes + [o], Some(p[0])));
        }
      } else {
        assert (front + queries)[|front| + index] == queries[index];
      }
    }
  }

  /** Reading a printed batch gives back its rows, outcomes and time stamp. */
  lemma {:induction false} ReadBlocks(rows: seq<Row>, outcomes: seq<Outcome>, checked: string, seen: Reading)
    requires |rows| == |outcomes| && (seen.checked.None? || seen.checked == Some(checked))
    requires forall i :: 0 <= i < |outcomes| ==> Shaped(outcomes[i])
    requires Typed(Blocks(rows, outcomes, checked))
    ensures Read(Blocks(rows, outcomes, checked), 0, seen) ==
            Some(Reading(seen.rows + rows, seen.outcomes + outcomes,
                         if rows == [] then seen.checked else Some(checked)))
    decreases |rows|
  {
    hide Reason, Enabled, Update;
    if rows == [] {
      assert seen.rows + rows == seen.rows && seen.outcomes + outcomes == seen.outcomes;
    } else {
      var block, rest := Block(rows[0], outcomes[0], checked), Blocks(rows[1..], outcomes[1..], checked);
      BlocksTyped(rows[1..], outcomes[1..], checked);
      var next := Reading(seen.rows + [rows[0]], seen.outcomes + [outcomes[0]], Some(checked));
      ReadBlock(block + rest, rows[0], outcomes[0], checked, seen);
      ReadShift(block, rest, 0, next);
      ReadBlocks(rows[1..], outcomes[1..], checked, next);
      assert next.rows + rows[1..] == seen.rows + rows && next.outcomes + outcomes[1..] == seen.outcomes + outcomes;
    }
  }

  lemma {:induction false} ReadBlock(queries: seq<Query>, row: Row, outcome: Outcome, checked: string, seen: Reading)
    requires Typed(queries) && Shaped(outcome) && (seen.checked.None? || seen.checked == Some(checked))
    requires Block(row, outcome, checked) <= queries
    ensures Read(queries, 0, seen) ==
            Read(queries, |Block(row, outcome, checked)|,
                 Reading(seen.rows + [row], seen.outcomes + [outcome], Some(checked)))
  {
    hide Reason, Enabled, Update;
    var block := Block(row, outcome, checked);
    assert queries[0] == block[0] && queries[1] == block[1];
    var at := if outcome.state == VALID then 1 else 0;
    assert queries[at] == EventQuery(row, outcome.state, checked);
    assert [queries[at].params[4], queries[at].params[5]] == [row.public, row.content];
  }

  /** For every input that `build_queries` accepts, reading its batch recovers exactly that input, and the
      batch is accepted. */
  lemma {:induction false} ReadUndoesBuild(c: Checks, rows: seq<Row>, outcomes: seq<Outcome>, checked: string)
    requires Buildable(c, rows, outcomes, checked)
    ensures var queries := Build(c, rows, outcomes, checked).value;
            && Typed(queries) && 2 * |rows| <= |queries| <= 3 * |rows|
            && Read(queries, 0, NOTHING_READ) == Some(Reading(rows, outcomes, Some(checked)))
            && Canonical(c, queries)
  {
    hide Blocks, Stamp, RowOk;
    BlocksTyped(rows, outcomes, checked);
    BlocksLength(rows, outcomes, checked);
    ReadBlocks(rows, outcomes, checked, NOTHING_READ);
    assert [] + rows == rows && [] + outcomes == outcomes;
  }

  lemma {:induction false} BlocksLength(rows: seq<Row>, outcomes: seq<Outcome>, checked: string)
    requires |rows| == |outcomes|
    ensures 2 * |rows| <= |Blocks(rows, outcomes, checked)| <= 3 * |rows|
    decreases |rows|
  {
    hide Reason, Enabled, Update;
    if rows != [] { BlocksLength(rows[1..], outcomes[1..], checked); }
  }

  /** No two inputs give one batch. */
  lemma {:induction false} BuildIsInjective(c: Checks, rows: seq<Row>, outcomes: seq<Outcome>, checked: string,
                                            rows': seq<Row>, outcomes': seq<Outcome>, checked': string)
    requires Build(c, rows, outcomes, checked).Some?
             && Build(c, rows', outcomes', checked') == Build(c, rows, outcomes, checked)
    ensures rows == rows' && outcomes == outcomes' && checked == checked'
  {
    hide Buildable, Blocks, Read, Canonical;
    ReadUndoesBuild(c, rows, outcomes, checked);
    ReadUndoesBuild(c, rows', outcomes', checked');
  }

  /** A typed batch is canonical exactly when some input builds it. */
  lemma {:induction false} CanonicalIsTheImage(c: Checks, queries: seq<Query>)
    requires Typed(queries)
    ensures Canonical(c, queries) <==> Built(c, queries)
  {
    hide Buildable, Blocks, Read;
    if Built(c, queries) {
      var rows, outcomes, checked :| Build(c, rows, outcomes, checked) == Some(queries);
      ReadUndoesBuild(c, rows, outcomes, checked);
    }
  }

  ghost predicate Built(c: Checks, queries: seq<Query>) {
    exists rows, outcomes, checked :: Build(c, rows, outcomes, checked) == Some(queries)
  }
}
