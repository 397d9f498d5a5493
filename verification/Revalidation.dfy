/** The local revalidation of scripts/affiliate_local_lifecycle_revalidation.py: the SQL file it writes, and
    what any executed prefix of that file does to the tables. */
module Revalidation {
  import opened Text
  import opened LookupTables
  import opened SqlText
  import D1Execution
  import D1Query

  type Row = D1Query.Row
  type Outcome = D1Query.Outcome

  const VALID := D1Query.VALID
  const NOT_AVAILABLE := D1Query.NOT_AVAILABLE
  const UNCONFIRMED := D1Query.UNCONFIRMED

  // ---------- Outcomes of one cycle ----------

  /** What the provider said about one row: a transport error, or the items of a payload. */
  datatype Reply = TransportError | Payload(items: Option<seq<(string, string)>>)

  /** The outcome of one row. */
  function Judge(safeUrl: string -> bool, content: string, reply: Reply): Outcome {
    if reply.TransportError? then D1Query.Outcome(UNCONFIRMED, None)
    else if reply.items.Some? && |reply.items.value| == 1 && reply.items.value[0].0 == content
            && safeUrl(reply.items.value[0].1)
    then D1Query.Outcome(VALID, Some(reply.items.value[0].1))
    else D1Query.Outcome(NOT_AVAILABLE, None)
  }

  /** The outcomes that may reach the SQL file. */
  predicate Writable(o: Outcome) { if o.state == VALID then o.url.Some? else o.state == NOT_AVAILABLE }

  datatype CycleResult =
    | NothingSelected
    | UpstreamUnconfirmed
    | StampInvalid
    | WriteFile(outcomes: seq<Outcome>, text: string)

  /** What a cycle comes to between selection and write: no file is made when any row is unconfirmed. */
  function Plan(safeUrl: string -> bool, rows: seq<Row>, replies: seq<Reply>, checked: string): CycleResult
    requires |replies| == |rows|
  {
    var outcomes := seq(|rows|, i requires 0 <= i < |rows| => Judge(safeUrl, rows[i].content, replies[i]));
    if rows == [] then NothingSelected
    else if exists i :: 0 <= i < |rows| && replies[i].TransportError? then UpstreamUnconfirmed
    else if !EndsWith(checked, "Z") then StampInvalid
    else WriteFile(outcomes, FileText(Bodies(Blocks(rows, outcomes, checked))))
  }

  /** The part of `run_cycle` between selection and write. */
  method PlanCycle(safeUrl: string -> bool, rows: seq<Row>, replies: seq<Reply>, checked: string)
    returns (r: CycleResult)
    requires |replies| == |rows|
    ensures r == Plan(safeUrl, rows, replies, checked)
    ensures r.NothingSelected? <==> rows == []
    ensures r.UpstreamUnconfirmed? <==> exists i :: 0 <= i < |rows| && replies[i].TransportError?
    ensures r.StampInvalid? ==> !EndsWith(checked, "Z")
    ensures r.WriteFile? ==> |r.outcomes| == |rows| && EndsWith(checked, "Z")
    ensures r.WriteFile? ==> forall i :: 0 <= i < |rows| ==>
              r.outcomes[i] == Judge(safeUrl, rows[i].content, replies[i])
    ensures r.WriteFile? ==> forall i :: 0 <= i < |rows| ==> Writable(r.outcomes[i])
    ensures r.WriteFile? ==> r.text == FileText(Bodies(Blocks(rows, r.outcomes, checked)))
  {
    hide FileText, Bodies, Blocks, EndsWith;
    if rows == [] { return NothingSelected; }
    var outcomes: seq<Outcome> := [];
    var k := 0;
    while k < |rows|
      invariant 0 <= k <= |rows| && |outcomes| == k
      invariant forall i :: 0 <= i < k ==> outcomes[i] == Judge(safeUrl, rows[i].content, replies[i])
    {
      outcomes := outcomes + [Judge(safeUrl, rows[k].content, replies[k])];
      k := k + 1;
    }
    assert outcomes == seq(|rows|, i requires 0 <= i < |rows| => Judge(safeUrl, rows[i].content, replies[i]));
    if exists i :: 0 <= i < |outcomes| && outcomes[i].state == UNCONFIRMED { return UpstreamUnconfirmed; }
    if !EndsWith(checked, "Z") { return StampInvalid; }
    var text := WriteStatements(rows, outcomes, checked);
    return WriteFile(outcomes, text.value);
  }

  // ---------- The statements ----------

  datatype Statement =
    | PutTarget(public: string, content: string, url: string, checked: string)
    | AddEvent(public: string, checked: string, outcome: string)
    | EnableRow(public: string, content: string, checked: string)
    | DisableRow(public: string, content: string, checked: string)

  const INSERT_INTO: SqlCode := "INSERT INTO "
  const UPDATE: SqlCode := "UPDATE "
  const TARGET_TABLE: SqlCode := "affiliate_redirect_target "
  const EVENT_TABLE: SqlCode := "affiliate_lifecycle_"
  const EVENT_TABLE_TOO: SqlCode := "revalidation_event "
  const LOOKUP_TABLE: SqlCode := "affiliate_item_lookup "
  const TARGET_COLUMNS: SqlCode := "(public_id,content_id,"
  const TARGET_COLUMNS_TOO: SqlCode := "affiliate_url,verified_at)"
  const VALUES_OPEN: SqlCode := " VALUES ("
  const COMMA: SqlCode := ","
  const ON_CONFLICT: SqlCode := ") ON CONFLICT(public_id) "
  const DO_UPDATE: SqlCode := "DO UPDATE SET "
  const SET_CONTENT: SqlCode := "content_id=excluded.content_id,"
  const SET_URL: SqlCode := "affiliate_url="
  const FROM_URL: SqlCode := "excluded.affiliate_url,"
  const SET_VERIFIED: SqlCode := "verified_at=excluded.verified_at"
  const EVENT_COLUMNS: SqlCode := "(public_id,checked_at,outcome,"
  const EVENT_COLUMNS_TOO: SqlCode := "affiliate_enabled_after,"
  const EVENT_COLUMNS_END: SqlCode := "reason_code)"
  const ENABLED_AFTER: SqlCode := ",1,"
  const DISABLED_AFTER: SqlCode := ",0,"
  const CLOSE: SqlCode := ")"
  const SET_STATUS: SqlCode := "SET verification_status="
  const SET_ENABLED: SqlCode := ",affiliate_enabled=1"
  const SET_DISABLED: SqlCode := ",affiliate_enabled=0"
  const SET_UPDATED: SqlCode := ",updated_at="
  const WHERE_PUBLIC: SqlCode := " WHERE public_id="
  const AND_CONTENT: SqlCode := " AND content_id="
  const AND_RIGHTS: SqlCode := " AND rights_status="
  const AND_LIFECYCLE: SqlCode := " AND lifecycle_status="

  function Reason(outcome: string): string {
    if outcome == VALID then "OFFICIAL_API_EXACT_MATCH" else "OFFICIAL_API_ITEM_UNAVAILABLE"
  }

  /** The text of a statement without its semicolon. */
  function Body(s: Statement): seq<Piece> {
    match s
    case PutTarget(public, content, url, checked) =>
      [Fixed(INSERT_INTO), Fixed(TARGET_TABLE), Fixed(TARGET_COLUMNS), Fixed(TARGET_COLUMNS_TOO), Fixed(VALUES_OPEN),
       Value(public),
       Fixed(COMMA), Value(content), Fixed(COMMA), Value(url), Fixed(COMMA), Value(checked), Fixed(ON_CONFLICT),
       Fixed(DO_UPDATE),
       Fixed(SET_CONTENT), Fixed(SET_URL), Fixed(FROM_URL), Fixed(SET_VERIFIED)]
    case AddEvent(public, checked, outcome) =>
      [Fixed(INSERT_INTO), Fixed(EVENT_TABLE), Fixed(EVENT_TABLE_TOO), Fixed(EVENT_COLUMNS), Fixed(EVENT_COLUMNS_TOO),
       Fixed(EVENT_COLUMNS_END), Fixed(VALUES_OPEN), Value(public), Fixed(COMMA), Value(checked), Fixed(COMMA),
       Value(outcome),
       Fixed(if outcome == VALID then ENABLED_AFTER else DISABLED_AFTER), Value(Reason(outcome)), Fixed(CLOSE)]
    case EnableRow(public, content, checked) =>
      [Fixed(UPDATE), Fixed(LOOKUP_TABLE), Fixed(SET_STATUS), Value("PASS"), Fixed(SET_ENABLED), Fixed(SET_UPDATED),
       Value(checked),
       Fixed(WHERE_PUBLIC), Value(public), Fixed(AND_CONTENT), Value(content), Fixed(AND_RIGHTS),
       Value("CONDITIONALLY_APPROVED"),
       Fixed(AND_LIFECYCLE), Value("RESOLVED")]
    case DisableRow(public, content, checked) =>
      [Fixed(UPDATE), Fixed(LOOKUP_TABLE), Fixed(SET_STATUS), Value("FAILED"), Fixed(SET_DISABLED), Fixed(SET_UPDATED),
       Value(checked),
       Fixed(WHERE_PUBLIC), Value(public), Fixed(AND_CONTENT), Value(content)]
  }

  /** The statements for one row; target and event come before the transition, the disabling before its event. */
  function Block(r: Row, o: Outcome, checked: string): seq<Statement> {
    if o.state == VALID then
      [PutTarget(r.public, r.content, o.url.GetOr(""), checked), AddEvent(r.public, checked, VALID),
       EnableRow(r.public, r.content, checked)]
    else [DisableRow(r.public, r.content, checked), AddEvent(r.public, checked, NOT_AVAILABLE)]
  }

  function Blocks(rows: seq<Row>, outcomes: seq<Outcome>, checked: string): seq<Statement>
    requires |rows| == |outcomes|
  {
    if rows == [] then [] else Block(rows[0], outcomes[0], checked) + Blocks(rows[1..], outcomes[1..], checked)
  }

  function Bodies(ss: seq<Statement>): (r: seq<seq<Piece>>)
    ensures |r| == |ss| && forall i :: 0 <= i < |r| ==> r[i] == Body(ss[i])
  {
    seq(|ss|, i requires 0 <= i < |ss| => Body(ss[i]))
  }

  lemma {:induction false} FileTextConcat(a: seq<seq<Piece>>, b: seq<seq<Piece>>)
    ensures FileText(a + b) == FileText(a) + FileText(b)
    decreases |a|
  {
    hide Render;
    if a == [] {
      assert a + b == b;
    } else {
      FileTextConcat(a[1..], b);
      assert (a + b)[1..] == a[1..] + b && (a + b)[0] == a[0];
    }
  }

  lemma {:induction false} BlocksGrow(rows: seq<Row>, outcomes: seq<Outcome>, checked: string, k: nat)
    requires k < |rows| == |outcomes|
    ensures Blocks(rows[..k + 1], outcomes[..k + 1], checked) ==
            Blocks(rows[..k], outcomes[..k], checked) + Block(rows[k], outcomes[k], checked)
    decreases k
  {
    hide Block;
    var r, o := rows[..k + 1], outcomes[..k + 1];
    if k == 0 {
      assert r == [rows[0]] && o == [outcomes[0]] && r[1..] == [] && rows[..0] == [] && outcomes[..0] == [];
      assert Blocks(r[1..], o[1..], checked) == [];
      assert Blocks(r, o, checked) == Block(rows[0], outcomes[0], checked) + [];
    } else {
      BlocksGrow(rows[1..], outcomes[1..], checked, k - 1);
      assert r[1..] == rows[1..][..k] && o[1..] == outcomes[1..][..k];
      assert rows[..k][1..] == rows[1..][..k - 1] && outcomes[..k][1..] == outcomes[1..][..k - 1];
      assert r[0] == rows[..k][0] == rows[0] && o[0] == outcomes[..k][0] == outcomes[0];
      assert Blocks(r, o, checked) == Block(rows[0], outcomes[0], checked) + Blocks(r[1..], o[1..], checked);
      assert Blocks(rows[..k], outcomes[..k], checked) ==
             Block(rows[0], outcomes[0], checked) + Blocks(rows[..k][1..], outcomes[..k][1..], checked);
    }
  }

  lemma {:induction false} BodiesConcat(a: seq<Statement>, b: seq<Statement>)
    ensures Bodies(a + b) == Bodies(a) + Bodies(b)
  {
    hide Body;
  }

  /** `_statements`: the loop over rows; an outcome that must not reach the file raises. */
  method WriteStatements(rows: seq<Row>, outcomes: seq<Outcome>, checked: string) returns (r: Option<string>)
    ensures r.Some? <==> |rows| == |outcomes| && forall i :: 0 <= i < |outcomes| ==> Writable(outcomes[i])
    ensures r.Some? ==> r.value == FileText(Bodies(Blocks(rows, outcomes, checked)))
  {
    hide FileText, Bodies, Block, Blocks;
    if |rows| != |outcomes| { return None; }
    var text := "";
    var k := 0;
    NoText(rows, outcomes, checked);
    while k < |rows|
      invariant 0 <= k <= |rows|
      invariant forall i :: 0 <= i < k ==> Writable(outcomes[i])
      invariant text == FileText(Bodies(Blocks(rows[..k], outcomes[..k], checked)))
    {
      if !Writable(outcomes[k]) { return None; }
      BlocksGrow(rows, outcomes, checked, k);
      var block := Block(rows[k], outcomes[k], checked);
      ghost var before := Blocks(rows[..k], outcomes[..k], checked);
      BodiesConcat(before, block);
      FileTextConcat(Bodies(before), Bodies(block));
      text := text + FileText(Bodies(block));
      k := k + 1;
    }
    assert rows[..k] == rows && outcomes[..k] == outcomes;
    return Some(text);
  }

  lemma {:induction false} NoText(rows: seq<Row>, outcomes: seq<Outcome>, checked: string)
    requires |rows| == |outcomes|
    ensures FileText(Bodies(Blocks(rows[..0], outcomes[..0], checked))) == ""
  {
  }

  lemma {:induction false} BodySpaced(s: Statement)
    ensures Spaced(Body(s))
  {
    hide Reason, Plain, INSERT_INTO, UPDATE, TARGET_TABLE, EVENT_TABLE, EVENT_TABLE_TOO, LOOKUP_TABLE, TARGET_COLUMNS,
         TARGET_COLUMNS_TOO, VALUES_OPEN, COMMA, ON_CONFLICT, DO_UPDATE, SET_CONTENT, SET_URL, FROM_URL, SET_VERIFIED,
         EVENT_COLUMNS, EVENT_COLUMNS_TOO, EVENT_COLUMNS_END, ENABLED_AFTER, DISABLED_AFTER, CLOSE, SET_STATUS,
         SET_ENABLED, SET_DISABLED, SET_UPDATED, WHERE_PUBLIC, AND_CONTENT, AND_RIGHTS, AND_LIFECYCLE;
  }

  /** Whatever the identifiers, the URL and the time stamp are, the file lexes and splits into exactly the
      intended statements. */
  lemma {:induction false} FileHoldsItsStatements(rows: seq<Row>, outcomes: seq<Outcome>, checked: string)
    requires |rows| == |outcomes|
    ensures var bodies := Bodies(Blocks(rows, outcomes, checked)); Split(Lex(FileText(bodies))) == Intended(bodies, [])
  {
    hide Lex, Split, FileText, Intended, Spaced, Blocks, Body;
    var statements := Blocks(rows, outcomes, checked);
    var bodies := Bodies(statements);
    forall i | 0 <= i < |bodies| ensures Spaced(bodies[i]) { BodySpaced(statements[i]); }
    FileReadsBack(bodies, []);
    assert [] + Lex(FileText(bodies)) == Lex(FileText(bodies));
  }

  // ---------- What the statements do ----------

  /** No other row's target has this content id. */
  predicate ContentMine(db: Db, public: string, content: string) {
    forall q :: q in db.targets && q != public ==> db.targets[q].content != content
  }

  predicate Enableable(db: Db, public: string, content: string) {
    Names(db, public, content) && db.lookup[public].rights.ConditionallyApproved?
    && db.lookup[public].lifecycle.Resolved?
  }

  /** The database after a statement; `None` is a violated constraint. */
  function Exec(db: Db, s: Statement): Option<Db> {
    match s
    case PutTarget(public, content, url, checked) =>
      if public !in db.lookup || !D1Query.ContentId(content) || !UrlFits(url) || !ContentMine(db, public, content) then
        None
      else Some(db.(targets := db.targets[public := Target(content, url, checked)]))
    case AddEvent(public, checked, outcome) =>
      if public !in db.lookup then None
      else Some(db.(events := db.events + [Event(public, checked, outcome, outcome == VALID, Reason(outcome))]))
    case EnableRow(public, content, checked) =>
      if !Enableable(db, public, content) then Some(db)
      else
        var row := db.lookup[public].(verification := Pass, enabled := true, updated := checked);
        Some(db.(lookup := db.lookup[public := row]))
    case DisableRow(public, content, checked) =>
      if !Names(db, public, content) then Some(db)
      else
        var row := db.lookup[public].(verification := Failed, enabled := false, updated := checked);
        Some(db.(lookup := db.lookup[public := row]))
  }

  /** A run of statements, which ends at the first violated constraint. */
  datatype Run = Run(db: Db, stopped: bool)

  function ExecAll(db: Db, ss: seq<Statement>): Run
    decreases |ss|
  {
    if ss == [] then Run(db, false)
    else if Exec(db, ss[0]).None? then Run(db, true)
    else ExecAll(Exec(db, ss[0]).value, ss[1..])
  }

  lemma {:induction false} ExecAllConcat(db: Db, a: seq<Statement>, b: seq<Statement>)
    ensures ExecAll(db, a + b) == if ExecAll(db, a).stopped then ExecAll(db, a) else ExecAll(ExecAll(db, a).db, b)
    decreases |a|
  {
    hide Exec;
    if a == [] {
      assert a + b == b;
    } else {
      assert (a + b)[0] == a[0] && (a + b)[1..] == a[1..] + b;
      if Exec(db, a[0]).Some? { ExecAllConcat(Exec(db, a[0]).value, a[1..], b); }
    }
  }

  /** What no statement does: touch another row or another row's target, change a content id, or rewrite history. */
  predicate Keeps(db: Db, db': Db, public: string) {
    && db'.lookup.Keys == db.lookup.Keys && (forall p :: p in db.lookup ==>
                                             db'.lookup[p].content == db.lookup[p].content)
    && (forall p :: p in db.lookup && p != public ==> db'.lookup[p] == db.lookup[p])
    && (forall p :: p in db.targets && p != public ==> p in db'.targets && db'.targets[p] == db.targets[p])
    && db.events <= db'.events
  }

  lemma {:induction false} ExecKeeps(db: Db, s: Statement)
    requires Exec(db, s).Some?
    ensures Keeps(db, Exec(db, s).value, s.public)
  {
    hide UrlFits, ContentMine, Reason;
  }

  lemma {:induction false} KeepsThrough(a: Db, b: Db, c: Db, public: string)
    requires Keeps(a, b, public) && Keeps(b, c, public)
    ensures Keeps(a, c, public)
  {
  }

  lemma {:induction false} RunKeeps(db: Db, ss: seq<Statement>, public: string)
    requires forall i :: 0 <= i < |ss| ==> ss[i].public == public
    ensures Keeps(db, ExecAll(db, ss).db, public)
    decreases |ss|
  {
    hide Exec, Keeps;
    if ss != [] && Exec(db, ss[0]).Some? {
      ExecKeeps(db, ss[0]);
      RunKeeps(Exec(db, ss[0]).value, ss[1..], public);
      KeepsThrough(db, Exec(db, ss[0]).value, ExecAll(db, ss).db, public);
    } else {
      KeepsSame(db, public);
    }
  }

  lemma {:induction false} KeepsSame(db: Db, public: string)
    ensures Keeps(db, db, public)
  {
  }

  // ---------- One block ----------

  function EventOf(r: Row, state: string, checked: string): Event {
    Event(r.public, checked, state, state == VALID, Reason(state))
  }

  /** A part of a block, from the first `k` statements. */
  function Part(r: Row, o: Outcome, checked: string, k: nat): seq<Statement>
    requires k <= |Block(r, o, checked)|
  {
    Block(r, o, checked)[..k]
  }

  /** What an executed part of a block has done to its own row: a changed row that is enabled has its fresh
      target and its VALID event, and a NOT_AVAILABLE event stands behind the attempt to disable. */
  predicate RowDone(before: Db, after: Db, r: Row, o: Outcome, checked: string) {
    && |before.events| <= |after.events|
    && (r.public in after.lookup && after.lookup[r.public].enabled
        && (r.public in before.lookup ==> after.lookup[r.public] != before.lookup[r.public]) ==>
          o.state == VALID && r.public in after.targets
          && after.targets[r.public] == Target(r.content, o.url.GetOr(""), checked)
          && EventOf(r, VALID, checked) in after.events[|before.events|..])
    && (forall i :: |before.events| <= i < |after.events| && after.events[i].outcome == NOT_AVAILABLE ==>
          o.state != VALID && after.events[i] == EventOf(r, NOT_AVAILABLE, checked) && r.public in before.lookup
          && r.public in after.lookup
          && (after.lookup[r.public].enabled <==>
              before.lookup[r.public].enabled && !Names(before, r.public, r.content)))
  }

  lemma {:induction false} ExecFirst(db: Db, s: Statement, rest: seq<Statement>)
    ensures ExecAll(db, [s] + rest) == if Exec(db, s).None? then Run(db, true) else ExecAll(Exec(db, s).value, rest)
  {
    hide Exec;
    assert ([s] + rest)[1..] == rest;
  }

  lemma {:induction false} ExecNone(db: Db)
    ensures ExecAll(db, []) == Run(db, false)
  {
  }

  lemma {:induction false} NothingDone(db: Db, after: Db, r: Row, o: Outcome, checked: string)
    requires after.lookup == db.lookup && |db.events| <= |after.events|
    requires forall i :: |db.events| <= i < |after.events| ==> after.events[i] == EventOf(r, VALID, checked)
    ensures RowDone(db, after, r, o, checked)
  {
    hide Reason;
    assert VALID != NOT_AVAILABLE;
  }

  lemma {:induction false} EnabledDone(db: Db, after: Db, r: Row, o: Outcome, checked: string)
    requires o.state == VALID && after.events == db.events + [EventOf(r, VALID, checked)]
    requires r.public in after.targets && after.targets[r.public] == Target(r.content, o.url.GetOr(""), checked)
    ensures RowDone(db, after, r, o, checked)
  {
    hide Reason;
    assert VALID != NOT_AVAILABLE;
    assert after.events[|db.events|..] == [EventOf(r, VALID, checked)];
  }

  lemma {:induction false} ValidPart(db: Db, r: Row, o: Outcome, checked: string, k: nat)
    requires o.state == VALID && k <= 3
    ensures RowDone(db, ExecAll(db, Part(r, o, checked, k)).db, r, o, checked)
  {
    hide UrlFits, ContentMine, Reason, D1Query.ContentId, RowDone, ExecAll, Enableable;
    var s1, s2 := PutTarget(r.public, r.content, o.url.GetOr(""), checked), AddEvent(r.public, checked, VALID);
    var s3 := EnableRow(r.public, r.content, checked);
    var part := Part(r, o, checked, k);
    NothingDone(db, db, r, o, checked);
    if k == 0 {
      assert part == [];
      ExecNone(db);
    } else {
      var rest := [s2, s3][..k - 1];
      assert part == [s1] + rest;
      ExecFirst(db, s1, rest);
      if Exec(db, s1).Some? {
        var db1 := Exec(db, s1).value;
        NothingDone(db, db1, r, o, checked);
        if k == 1 {
          assert rest == [];
          ExecNone(db1);
        } else {
          var last := [s3][..k - 2];
          assert rest == [s2] + last;
          ExecFirst(db1, s2, last);
          if Exec(db1, s2).Some? {
            var db2 := Exec(db1, s2).value;
            EnabledDone(db, db2, r, o, checked);
            if k == 2 {
              assert last == [];
              ExecNone(db2);
            } else {
              assert last == [s3] + [];
              ExecFirst(db2, s3, []);
              var db3 := Exec(db2, s3).value;
              ExecNone(db3);
              EnabledDone(db, db3, r, o, checked);
            }
          }
        }
      }
    }
  }

  lemma {:induction false} DisabledDone(db: Db, after: Db, r: Row, o: Outcome, checked: string)
    requires o.state != VALID && r.public in db.lookup
             && after.events == db.events + [EventOf(r, NOT_AVAILABLE, checked)]
    requires Exec(db, DisableRow(r.public, r.content, checked)) == Some(after.(events := db.events))
    ensures RowDone(db, after, r, o, checked)
  {
    hide Reason;
  }

  lemma {:induction false} NotAvailablePart(db: Db, r: Row, o: Outcome, checked: string, k: nat)
    requires o.state != VALID && k <= 2
    ensures RowDone(db, ExecAll(db, Part(r, o, checked, k)).db, r, o, checked)
  {
    hide Reason, RowDone, ExecAll;
    var s1, s2 := DisableRow(r.public, r.content, checked), AddEvent(r.public, checked, NOT_AVAILABLE);
    var part := Part(r, o, checked, k);
    if k == 0 {
      assert part == [];
      ExecNone(db);
      NothingDone(db, db, r, o, checked);
    } else {
      var rest := [s2][..k - 1];
      assert part == [s1] + rest;
      ExecFirst(db, s1, rest);
      var db1 := Exec(db, s1).value;
      DisabledRowDone(db, db1, r, o, checked);
      if k == 1 {
        assert rest == [];
        ExecNone(db1);
      } else {
        assert rest == [s2] + [];
        ExecFirst(db1, s2, []);
        if Exec(db1, s2).Some? {
          ExecNone(Exec(db1, s2).value);
          DisabledDone(db, Exec(db1, s2).value, r, o, checked);
        }
      }
    }
  }

  lemma {:induction false} DisabledRowDone(db: Db, after: Db, r: Row, o: Outcome, checked: string)
    requires Exec(db, DisableRow(r.public, r.content, checked)) == Some(after)
    ensures RowDone(db, after, r, o, checked)
  {
    hide Reason;
  }

  lemma {:induction false} PartDone(db: Db, r: Row, o: Outcome, checked: string, k: nat)
    requires k <= |Block(r, o, checked)|
    ensures var after := ExecAll(db, Part(r, o, checked, k)).db;
            RowDone(db, after, r, o, checked) && Keeps(db, after, r.public)
  {
    hide RowDone, Keeps, ExecAll;
    RunKeeps(db, Part(r, o, checked, k), r.public);
    if o.state == VALID { ValidPart(db, r, o, checked, k); } else { NotAvailablePart(db, r, o, checked, k); }
  }

  // ---------- Every prefix of the file ----------

  predicate DistinctPublics(rows: seq<Row>) { forall i, j :: 0 <= i < j < |rows| ==> rows[i].public != rows[j].public }

  predicate Fitting(rows: seq<Row>, outcomes: seq<Outcome>) { |rows| == |outcomes| && DistinctPublics(rows) }

  /** Row `i` of the batch has its fresh target and its VALID event. */
  predicate Justified(before: Db, after: Db, rows: seq<Row>, outcomes: seq<Outcome>, checked: string, p: string, i: int)
    requires |rows| == |outcomes|
  {
    && 0 <= i < |rows| && rows[i].public == p && outcomes[i].state == VALID
    && p in after.targets && after.targets[p] == Target(rows[i].content, outcomes[i].url.GetOr(""), checked)
    && |before.events| <= |after.events| && EventOf(rows[i], VALID, checked) in after.events[|before.events|..]
  }

  /** A row that is enabled and is not as it was before. */
  predicate Refreshed(before: Db, after: Db, p: string) {
    p in after.lookup && after.lookup[p].enabled && (p in before.lookup ==> after.lookup[p] != before.lookup[p])
  }

  ghost predicate Safe(before: Db, after: Db, rows: seq<Row>, outcomes: seq<Outcome>, checked: string)
    requires |rows| == |outcomes|
  {
    forall p :: Refreshed(before, after, p) ==> exists i :: Justified(before, after, rows, outcomes, checked, p, i)
  }

  /** A NOT_AVAILABLE event of the batch stands beside a disabled row, unless that row was enabled and the pair
      of the batch was no longer in the table. */
  predicate Disabling(before: Db, after: Db, rows: seq<Row>, outcomes: seq<Outcome>, checked: string, e: int)
    requires |rows| == |outcomes| && 0 <= e < |after.events|
  {
    exists i :: 0 <= i < |rows| && Disables(before, after, rows[i], outcomes[i], checked, e)
  }

  predicate Disables(before: Db, after: Db, r: Row, o: Outcome, checked: string, e: int)
    requires 0 <= e < |after.events|
  {
    && o.state != VALID && after.events[e] == EventOf(r, NOT_AVAILABLE, checked) && r.public in before.lookup
    && r.public in after.lookup
    && (after.lookup[r.public].enabled <==> before.lookup[r.public].enabled && !Names(before, r.public, r.content))
  }

  predicate Audited(before: Db, after: Db, rows: seq<Row>, outcomes: seq<Outcome>, checked: string)
    requires |rows| == |outcomes|
  {
    forall e :: |before.events| <= e < |after.events| && after.events[e].outcome == NOT_AVAILABLE ==>
      Disabling(before, after, rows, outcomes, checked, e)
  }

  /** What a batch over these rows never touches. */
  predicate Apart(before: Db, after: Db, rows: seq<Row>) {
    && after.lookup.Keys == before.lookup.Keys && before.events <= after.events
    && (forall p :: p in before.lookup ==> after.lookup[p].content == before.lookup[p].content)
    && (forall p :: p in before.lookup && !Named(rows, p) ==> after.lookup[p] == before.lookup[p])
    && (forall p :: p in before.targets && !Named(rows, p) ==>
        p in after.targets && after.targets[p] == before.targets[p])
  }

  predicate Named(rows: seq<Row>, p: string) { exists i :: 0 <= i < |rows| && rows[i].public == p }

  lemma {:induction false} NamedStep(rows: seq<Row>, p: string)
    requires rows != []
    ensures Named(rows, p) <==> p == rows[0].public || Named(rows[1..], p)
  {
    if Named(rows[1..], p) {
      var i :| 0 <= i < |rows[1..]| && rows[1..][i].public == p;
      assert rows[i + 1].public == p;
    }
    if Named(rows, p) && p != rows[0].public {
      var i :| 0 <= i < |rows| && rows[i].public == p;
      assert rows[1..][i - 1].public == p;
    }
  }

  lemma {:induction false} TailApart(rows: seq<Row>)
    requires rows != [] && DistinctPublics(rows)
    ensures DistinctPublics(rows[1..]) && !Named(rows[1..], rows[0].public)
  {
    var rest := rows[1..];
    forall i, j | 0 <= i < j < |rest| ensures rest[i].public != rest[j].public {
      assert rows[i + 1].public != rows[j + 1].public;
    }
    forall i | 0 <= i < |rest| ensures rest[i].public != rows[0].public { assert rows[i + 1].public != rows[0].public; }
  }

  lemma {:induction false} ApartThrough(a: Db, b: Db, c: Db, rows: seq<Row>)
    requires rows != [] && Keeps(a, b, rows[0].public) && Apart(b, c, rows[1..])
    ensures Apart(a, c, rows)
  {
    hide Named;
    forall p | p in a.lookup && !Named(rows, p) ensures c.lookup[p] == a.lookup[p] { NamedStep(rows, p); }
    forall p | p in a.targets && !Named(rows, p) ensures p in c.targets && c.targets[p] == a.targets[p] {
      NamedStep(rows, p);
    }
  }

  lemma {:induction false} LaterEvent(a: Db, b: Db, c: Db, e: Event)
    requires a.events <= b.events <= c.events
    ensures e in b.events[|a.events|..] ==> e in c.events[|a.events|..]
    ensures e in c.events[|b.events|..] ==> e in c.events[|a.events|..]
  {
    if e in b.events[|a.events|..] {
      var k :| 0 <= k < |b.events[|a.events|..]| && b.events[|a.events|..][k] == e;
      assert c.events[|a.events|..][k] == e;
    }
    if e in c.events[|b.events|..] {
      var k :| 0 <= k < |c.events[|b.events|..]| && c.events[|b.events|..][k] == e;
      assert c.events[|a.events|..][|b.events| - |a.events| + k] == e;
    }
  }

  /** The first block has been done and the rest of the batch follows. */
  lemma {:induction false} SafeThrough(a: Db, b: Db, c: Db, rows: seq<Row>, outcomes: seq<Outcome>, checked: string)
    requires Fitting(rows, outcomes) && rows != [] && Keeps(a, b, rows[0].public)
             && RowDone(a, b, rows[0], outcomes[0], checked)
    requires Apart(b, c, rows[1..]) && Safe(b, c, rows[1..], outcomes[1..], checked)
    ensures Safe(a, c, rows, outcomes, checked)
  {
    hide EventOf, Named;
    TailApart(rows);
    forall p | Refreshed(a, c, p) ensures exists i :: Justified(a, c, rows, outcomes, checked, p, i) {
      if p == rows[0].public {
        LaterEvent(a, b, c, EventOf(rows[0], VALID, checked));
        assert Justified(a, c, rows, outcomes, checked, p, 0);
      } else {
        assert Refreshed(b, c, p);
        var i :| Justified(b, c, rows[1..], outcomes[1..], checked, p, i);
        LaterEvent(a, b, c, EventOf(rows[i + 1], VALID, checked));
        assert Justified(a, c, rows, outcomes, checked, p, i + 1);
      }
    }
  }

  lemma {:induction false} AuditedThrough(a: Db, b: Db, c: Db, rows: seq<Row>, outcomes: seq<Outcome>, checked: string)
    requires Fitting(rows, outcomes) && rows != [] && Keeps(a, b, rows[0].public)
             && RowDone(a, b, rows[0], outcomes[0], checked)
    requires Apart(b, c, rows[1..]) && Audited(b, c, rows[1..], outcomes[1..], checked)
    ensures Audited(a, c, rows, outcomes, checked)
  {
    hide EventOf, Named;
    TailApart(rows);
    forall e | |a.events| <= e < |c.events|
           && c.events[e].outcome == NOT_AVAILABLE ensures Disabling(a, c, rows, outcomes, checked, e) {
      if e < |b.events| {
        assert c.events[e] == b.events[e];
        assert Disables(a, c, rows[0], outcomes[0], checked, e);
      } else {
        assert Disabling(b, c, rows[1..], outcomes[1..], checked, e);
        var i :| 0 <= i < |rows[1..]| && Disables(b, c, rows[1..][i], outcomes[1..][i], checked, e);
        assert rows[i + 1].public != rows[0].public;
        assert Disables(a, c, rows[i + 1], outcomes[i + 1], checked, e);
      }
    }
  }

  /** After any executed prefix of the file, whether it ends between statements, inside a block or at a violated
      constraint: every row that the file has enabled has its fresh target and VALID event, and every
      NOT_AVAILABLE event stands beside a disabled row, except where an enabled row has changed its content id. */
  lemma {:induction false} EveryPrefixIsSafe(db: Db, rows: seq<Row>, outcomes: seq<Outcome>, checked: string, k: nat)
    requires Fitting(rows, outcomes) && k <= |Blocks(rows, outcomes, checked)|
    ensures var after := ExecAll(db, Blocks(rows, outcomes, checked)[..k]).db;
            Safe(db, after, rows, outcomes, checked) && Audited(db, after, rows, outcomes, checked)
            && Apart(db, after, rows)
    decreases |rows|
  {
    hide ExecAll, Block, Safe, Audited, Apart, RowDone, Keeps, DistinctPublics;
    if rows == [] {
      ExecNone(db);
      NothingSafe(db, rows, outcomes, checked);
    } else {
      TailApart(rows);
      var block, rest := Block(rows[0], outcomes[0], checked), Blocks(rows[1..], outcomes[1..], checked);
      assert Blocks(rows, outcomes, checked) == block + rest;
      var m := if k <= |block| then k else |block|;
      PartDone(db, rows[0], outcomes[0], checked, m);
      var first := ExecAll(db, Part(rows[0], outcomes[0], checked, m));
      var after := ExecAll(db, Blocks(rows, outcomes, checked)[..k]).db;
      if k <= |block| {
        assert (block + rest)[..k] == block[..k];
        NothingSafe(first.db, rows[1..], outcomes[1..], checked);
      } else {
        assert block[..m] == block && (block + rest)[..k] == block + rest[..k - m];
        ExecAllConcat(db, block, rest[..k - m]);
        if first.stopped {
          NothingSafe(first.db, rows[1..], outcomes[1..], checked);
        } else {
          EveryPrefixIsSafe(first.db, rows[1..], outcomes[1..], checked, k - m);
        }
      }
      SafeThrough(db, first.db, after, rows, outcomes, checked);
      AuditedThrough(db, first.db, after, rows, outcomes, checked);
      ApartThrough(db, first.db, after, rows);
    }
  }

  lemma {:induction false} NothingSafe(db: Db, rows: seq<Row>, outcomes: seq<Outcome>, checked: string)
    requires |rows| == |outcomes|
    ensures Safe(db, db, rows, outcomes, checked) && Audited(db, db, rows, outcomes, checked) && Apart(db, db, rows)
  {
  }

  // ---------- When a NOT_AVAILABLE event is not beside a disabled row ----------

  /** The pair of the batch is still in the table, or its row is not enabled anyway. */
  predicate StillPaired(db: Db, r: Row) {
    r.public in db.lookup && db.lookup[r.public].enabled ==> Names(db, r.public, r.content)
  }

  predicate EventsBesideDisabledRows(before: Db, after: Db) {
    forall e :: |before.events| <= e < |after.events| && after.events[e].outcome == NOT_AVAILABLE ==>
      after.events[e].public in after.lookup && !after.lookup[after.events[e].public].enabled
  }

  /** While all pairs of the batch are still in the table, every NOT_AVAILABLE event of every prefix is beside a
      row that is already disabled. */
  lemma {:induction false} PairedPrefixDisablesFirst(db: Db, rows: seq<Row>, outcomes: seq<Outcome>, checked: string,
                                                     k: nat)
    requires Fitting(rows, outcomes) && k <= |Blocks(rows, outcomes, checked)|
    requires forall i :: 0 <= i < |rows| && outcomes[i].state != VALID ==> StillPaired(db, rows[i])
    ensures EventsBesideDisabledRows(db, ExecAll(db, Blocks(rows, outcomes, checked)[..k]).db)
  {
    hide ExecAll, Blocks, Safe, Apart, DistinctPublics;
    EveryPrefixIsSafe(db, rows, outcomes, checked, k);
    var after := ExecAll(db, Blocks(rows, outcomes, checked)[..k]).db;
    forall e | |db.events| <= e < |after.events| && after.events[e].outcome == NOT_AVAILABLE
      ensures after.events[e].public in after.lookup && !after.lookup[after.events[e].public].enabled
    {
      assert Disabling(db, after, rows, outcomes, checked, e);
      var i :| 0 <= i < |rows| && Disables(db, after, rows[i], outcomes[i], checked, e);
      assert StillPaired(db, rows[i]);
    }
  }

  /** The block of a row whose public id names an enabled row with another content id: the row stays enabled
      and the event is written all the same. */
  lemma {:induction false} UnpairedBlock(db: Db, r: Row, o: Outcome, checked: string)
    requires o.state != VALID && !StillPaired(db, r)
    ensures ExecAll(db, Block(r, o, checked)) ==
            Run(db.(events := db.events + [EventOf(r, NOT_AVAILABLE, checked)]), false)
  {
    hide Reason, ExecAll;
    var s1, s2 := DisableRow(r.public, r.content, checked), AddEvent(r.public, checked, NOT_AVAILABLE);
    assert Block(r, o, checked) == [s1] + [s2] && [s2] == [s2] + [];
    ExecFirst(db, s1, [s2]);
    ExecFirst(db, s2, []);
    ExecNone(Exec(db, s2).value);
  }

  /** Such a row is left with a NOT_AVAILABLE event beside an enabled row by every file that went through. */
  lemma {:induction false} UnpairedRowStaysEnabled(db: Db, rows: seq<Row>, outcomes: seq<Outcome>, checked: string,
                                                   i: nat)
    requires Fitting(rows, outcomes) && i < |rows| && outcomes[i].state != VALID && !StillPaired(db, rows[i])
    requires !ExecAll(db, Blocks(rows, outcomes, checked)).stopped
    ensures !EventsBesideDisabledRows(db, ExecAll(db, Blocks(rows, outcomes, checked)).db)
    decreases |rows|
  {
    hide ExecAll, Block, Safe, Audited, RowDone, DistinctPublics, Reason;
    TailApart(rows);
    var block, rest := Block(rows[0], outcomes[0], checked), Blocks(rows[1..], outcomes[1..], checked);
    assert Blocks(rows, outcomes, checked) == block + rest;
    ExecAllConcat(db, block, rest);
    var mid, after := ExecAll(db, block).db, ExecAll(db, block + rest).db;
    assert rest[..|rest|] == rest;
    EveryPrefixIsSafe(mid, rows[1..], outcomes[1..], checked, |rest|);
    PartDone(db, rows[0], outcomes[0], checked, |block|);
    assert Part(rows[0], outcomes[0], checked, |block|) == block;
    if i == 0 {
      UnpairedBlock(db, rows[0], outcomes[0], checked);
      UnpairedStays(db, mid, after, rows, checked);
    } else {
      assert rows[i].public != rows[0].public by { DistinctAt(rows, i); }
      assert StillPaired(mid, rows[i]) <==> StillPaired(db, rows[i]) by {
        PairedElsewhere(db, mid, rows[0].public, rows[i]);
      }
      UnpairedRowStaysEnabled(mid, rows[1..], outcomes[1..], checked, i - 1);
      EventsEarlier(db, mid, after);
    }
  }

  lemma {:induction false} DistinctAt(rows: seq<Row>, i: nat)
    requires DistinctPublics(rows) && 0 < i < |rows|
    ensures rows[i].public != rows[0].public
  {
  }

  lemma {:induction false} PairedElsewhere(db: Db, db': Db, public: string, r: Row)
    requires Keeps(db, db', public) && r.public != public
    ensures StillPaired(db', r) <==> StillPaired(db, r)
  {
  }

  lemma {:induction false} UnpairedStays(db: Db, mid: Db, after: Db, rows: seq<Row>, checked: string)
    requires rows != [] && !Named(rows[1..], rows[0].public) && !StillPaired(db, rows[0])
             && Apart(mid, after, rows[1..])
    requires mid == db.(events := db.events + [EventOf(rows[0], NOT_AVAILABLE, checked)])
    ensures !EventsBesideDisabledRows(db, after)
  {
    hide Reason, Named;
    var e := |db.events|;
    assert after.events[e] == mid.events[e] == EventOf(rows[0], NOT_AVAILABLE, checked);
  }

  lemma {:induction false} EventsEarlier(a: Db, b: Db, c: Db)
    requires |a.events| <= |b.events| && !EventsBesideDisabledRows(b, c)
    ensures !EventsBesideDisabledRows(a, c)
  {
  }

  /** A file that went through leaves every NOT_AVAILABLE event beside a disabled row if and only if no row that
      it reports unavailable was enabled under another content id. */
  lemma {:induction false} EventsBesideDisabledRowsIff(db: Db, rows: seq<Row>, outcomes: seq<Outcome>, checked: string)
    requires Fitting(rows, outcomes) && !ExecAll(db, Blocks(rows, outcomes, checked)).stopped
    ensures EventsBesideDisabledRows(db, ExecAll(db, Blocks(rows, outcomes, checked)).db) <==>
            forall i :: 0 <= i < |rows| && outcomes[i].state != VALID ==> StillPaired(db, rows[i])
  {
    hide ExecAll, Blocks, EventsBesideDisabledRows, StillPaired, DistinctPublics;
    var all := Blocks(rows, outcomes, checked);
    assert all[..|all|] == all;
    if forall i :: 0 <= i < |rows| && outcomes[i].state != VALID ==> StillPaired(db, rows[i]) {
      PairedPrefixDisablesFirst(db, rows, outcomes, checked, |all|);
    } else {
      var i :| 0 <= i < |rows| && outcomes[i].state != VALID && !StillPaired(db, rows[i]);
      UnpairedRowStaysEnabled(db, rows, outcomes, checked, i);
    }
  }

  // ---------- Who can make it fail ----------

  /** A write of this repository: a statement of a D1 batch, one of a revalidation file, or a row of a delta. */
  datatype Write = OfBatch(query: D1Query.Query) | OfFile(statement: Statement) | OfDelta(public: string, row: Lookup)

  /** The database after a write; a violated constraint leaves it as it was. */
  function Applied(db: Db, w: Write): Db {
    match w
    case OfBatch(q) =>
      if |q.params| == D1Query.Arity(q.sql) && D1Execution.Exec(db, q).Some? then D1Execution.Exec(db, q).value.0
      else db
    case OfFile(s) => if Exec(db, s).Some? then Exec(db, s).value else db
    case OfDelta(public, row) => if public in db.lookup then db else db.(lookup := db.lookup[public := row])
  }

  function Written(db: Db, ws: seq<Write>): Db
    decreases |ws|
  {
    if ws == [] then db else Written(Applied(db, ws[0]), ws[1..])
  }

  lemma {:induction false} WritesKeepContents(db: Db, ws: seq<Write>)
    ensures SameContents(db, Written(db, ws))
    decreases |ws|
  {
    hide Exec, D1Execution.Exec;
    if ws != [] {
      match ws[0] {
        case OfBatch(q) =>
          if |q.params| == D1Query.Arity(q.sql) && D1Execution.Exec(db, q).Some? {
            D1Execution.ExecKeepsContents(db, q);
          }
        case OfFile(s) => if Exec(db, s).Some? { ExecKeeps(db, s); }
        case OfDelta(_, _) =>
      }
      WritesKeepContents(Applied(db, ws[0]), ws[1..]);
      SameContentsThrough(db, Applied(db, ws[0]), Written(db, ws));
    }
  }

  /** As long as only this repository writes between selection and file, every prefix of the file leaves every
      NOT_AVAILABLE event beside a disabled row. */
  lemma {:induction false} OwnWritesKeepThePromise(selected: Db, ws: seq<Write>, rows: seq<Row>, outcomes: seq<Outcome>,
                                                   checked: string, k: nat)
    requires Fitting(rows, outcomes) && k <= |Blocks(rows, outcomes, checked)|
    requires forall i :: 0 <= i < |rows| ==> Names(selected, rows[i].public, rows[i].content)
    ensures var db := Written(selected, ws);
            EventsBesideDisabledRows(db, ExecAll(db, Blocks(rows, outcomes, checked)[..k]).db)
  {
    hide ExecAll, Blocks, EventsBesideDisabledRows, DistinctPublics, Written;
    WritesKeepContents(selected, ws);
    var db := Written(selected, ws);
    forall i | 0 <= i < |rows| ensures StillPaired(db, rows[i]) {
      assert Names(selected, rows[i].public, rows[i].content);
    }
    PairedPrefixDisablesFirst(db, rows, outcomes, checked, k);
  }

  const STAMP := "2026-01-01T00:00:00Z"

  /** It takes another writer: one that gave the row another content id after the row was selected. The provider no
      longer has the item, the cycle writes its file, and the event stands beside an enabled row. */
  lemma {:induction false} EventBesideEnabledRow(safeUrl: string -> bool)
    ensures var r, reply := D1Query.Row("itm_000000000000000000000000", "a"), Payload(Some([]));
            var o := D1Query.Outcome(NOT_AVAILABLE, None);
            var db := Db(map[r.public := Lookup("b", ConditionallyApproved, Resolved, Pass, true, STAMP)], map[], []);
            && Plan(safeUrl, [r], [reply], STAMP) == WriteFile([o], FileText(Bodies(Blocks([r], [o], STAMP))))
            && SchemaOk(db) && !ExecAll(db, Blocks([r], [o], STAMP)).stopped
            && !EventsBesideDisabledRows(db, ExecAll(db, Blocks([r], [o], STAMP)).db)
  {
    hide ExecAll, Block, EventsBesideDisabledRows, FileText, Bodies;
    var r, o := D1Query.Row("itm_000000000000000000000000", "a"), D1Query.Outcome(NOT_AVAILABLE, None);
    var db := Db(map[r.public := Lookup("b", ConditionallyApproved, Resolved, Pass, true, STAMP)], map[], []);
    assert "a" != "b" && NOT_AVAILABLE != VALID;
    UnpairedBlock(db, r, o, STAMP);
    assert Blocks([r], [o], STAMP) == Block(r, o, STAMP) + [] == Block(r, o, STAMP);
    EventsBesideDisabledRowsIff(db, [r], [o], STAMP);
    PlanOfMissing(safeUrl, r);
  }

  lemma {:induction false} PlanOfMissing(safeUrl: string -> bool, r: Row)
    ensures var o := D1Query.Outcome(NOT_AVAILABLE, None);
            Plan(safeUrl, [r], [Payload(Some([]))], STAMP) == WriteFile([o], FileText(Bodies(Blocks([r], [o], STAMP))))
  {
    hide FileText, Bodies, Blocks;
    var o := D1Query.Outcome(NOT_AVAILABLE, None);
    assert seq(1, i requires 0 <= i < 1 => Judge(safeUrl, [r][i].content, [Payload(Some([]))][i])) == [o];
    assert STAMP[|STAMP| - 1..] == "Z";
  }
}
