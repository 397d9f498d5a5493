/** What the statements of a bounded batch do to the tables, for every prefix of a batch that a server may
    have executed when it stops. */
module D1Execution {
  import opened Text
  import opened LookupTables
  import opened D1Query

  // ---------- One statement ----------

  predicate PendingRow(l: Lookup) {
    l.rights.PendingPolicy? && l.lifecycle.PendingConfirmation? && l.verification.Pending? && !l.enabled
  }

  /** The pair is in the table and still pending: the WHERE clause of every statement. */
  predicate Awaiting(db: Db, r: Row) { Names(db, r.public, r.content) && PendingRow(db.lookup[r.public]) }

  /** What the constraints ask of a new redirect target. */
  predicate TargetFits(db: Db, r: Row, url: string) {
    r.public !in db.targets && ContentFree(db, r.content) && UrlFits(url)
  }

  predicate EventFits(outcome: string, enabled: string, reason: string) {
    (outcome == VALID || outcome == NOT_AVAILABLE || outcome == UNCONFIRMED) && (enabled == "0" || enabled == "1")
    && 1 <= |reason| <= 96
  }

  function SetRow(db: Db, public: string, l: Lookup): Db { db.(lookup := db.lookup[public := l]) }

  /** The database after a statement and the number of rows it changed; `None` is a violated constraint. */
  function Exec(db: Db, q: Query): Option<(Db, nat)>
    requires |q.params| == Arity(q.sql)
  {
    match q.sql
    case InsertTarget =>
      var r := Row(q.params[2], q.params[3]);
      if !Awaiting(db, r) then Some((db, 0))
      else if !TargetFits(db, r, q.params[0]) then None
      else Some((db.(targets := db.targets[r.public := Target(r.content, q.params[0], q.params[1])]), 1))
    case InsertEvent =>
      var r := Row(q.params[4], q.params[5]);
      if !Awaiting(db, r) then Some((db, 0))
      else if !EventFits(q.params[1], q.params[2], q.params[3]) then None
      else Some((db.(events := db.events + [Event(r.public, q.params[0], q.params[1], q.params[2] == "1",
                                                  q.params[3])]), 1))
    case Enable =>
      var r := Row(q.params[1], q.params[2]);
      if !Awaiting(db, r) then Some((db, 0))
      else Some((SetRow(db, r.public, Lookup(r.content, ConditionallyApproved, Resolved, Pass, true, q.params[0])), 1))
    case Fail =>
      var r := Row(q.params[1], q.params[2]);
      if !Awaiting(db, r) then Some((db, 0))
      else Some((SetRow(db, r.public, db.lookup[r.public].(verification := Failed, enabled := false,
                                                           updated := q.params[0])), 1))
    case KeepPending =>
      var r := Row(q.params[1], q.params[2]);
      if !Awaiting(db, r) then Some((db, 0))
      else Some((SetRow(db, r.public, db.lookup[r.public].(verification := LookupTables.Pending, enabled := false,
                                                           updated := q.params[0])), 1))
    case Other => Some((db, 0))
  }

  /** A run of statements, which ends at the first violated constraint. */
  datatype Run = Run(db: Db, stopped: bool, changes: seq<nat>)

  function ExecAll(db: Db, queries: seq<Query>): Run
    requires Typed(queries)
    decreases |queries|
  {
    if queries == [] then Run(db, false, [])
    else
      var first := Exec(db, queries[0]);
      if first.None? then Run(db, true, [])
      else
        var rest := ExecAll(first.value.0, queries[1..]);
        Run(rest.db, rest.stopped, [first.value.1] + rest.changes)
  }

  lemma {:induction false} ExecAllConcat(db: Db, a: seq<Query>, b: seq<Query>)
    requires Typed(a + b)
    ensures Typed(a) && Typed(b)
    ensures var x := ExecAll(db, a); var y := ExecAll(db, a + b);
            if x.stopped then y == x
            else y == Run(ExecAll(x.db, b).db, ExecAll(x.db, b).stopped, x.changes + ExecAll(x.db, b).changes)
    decreases |a|
  {
    hide Exec;
    assert forall i :: 0 <= i < |a| ==> (a + b)[i] == a[i];
    assert forall i :: 0 <= i < |b| ==> (a + b)[|a| + i] == b[i];
    if a == [] {
      assert a + b == b;
    } else {
      assert (a + b)[1..] == a[1..] + b;
      if Exec(db, a[0]).Some? { ExecAllConcat(Exec(db, a[0]).value.0, a[1..], b); }
    }
  }

  // ---------- One block of a batch ----------

  /** The event a block writes. */
  function EventOf(r: Row, o: Outcome, checked: string): Event {
    Event(r.public, checked, o.state, o.state == VALID, Reason(o.state))
  }

  /** The row an outcome leaves behind. */
  function RowAfter(l: Lookup, o: Outcome, checked: string): Lookup {
    if o.state == VALID then Lookup(l.content, ConditionallyApproved, Resolved, Pass, true, checked)
    else if o.state == NOT_AVAILABLE then l.(verification := Failed, updated := checked)
    else l.(updated := checked)
  }

  /** The outcomes that a batch may hold. */
  predicate Known(o: Outcome) {
    if o.state == VALID then o.url.Some? else (o.state == NOT_AVAILABLE || o.state == UNCONFIRMED) && o.url.None?
  }

  predicate Fits(db: Db, r: Row, o: Outcome) { o.state == VALID && o.url.Some? ==> TargetFits(db, r, o.url.value) }

  /** A pair that is pending and whose target, if it gets one, meets the constraints. */
  predicate Ready(db: Db, r: Row, o: Outcome) { Awaiting(db, r) && Fits(db, r, o) }

  /** The database after the whole block of a ready row. */
  function Applied(db: Db, r: Row, o: Outcome, checked: string): Db
    requires r.public in db.lookup
  {
    Db(db.lookup[r.public := RowAfter(db.lookup[r.public], o, checked)],
       if o.url.Some? then db.targets[r.public := Target(r.content, o.url.value, checked)] else db.targets,
       db.events + [EventOf(r, o, checked)])
  }

  lemma {:induction false} BlockTyped(r: Row, o: Outcome, checked: string)
    ensures Typed(Block(r, o, checked))
  {
    hide Reason, Enabled;
  }

  lemma {:induction false} ReasonFits(state: string)
    requires state == VALID || state == NOT_AVAILABLE || state == UNCONFIRMED
    ensures EventFits(state, Enabled(state), Reason(state)) && (Enabled(state) == "1" <==> state == VALID)
  {
  }

  lemma {:induction false} ExecOne(db: Db, q: Query)
    requires Typed([q])
    ensures ExecAll(db, [q]) == match Exec(db, q) case None => Run(db, true, []) case Some(r) => Run(r.0, false, [r.1])
  {
    hide Exec;
    assert [q][1..] == [];
  }

  lemma {:induction false} EventExec(db: Db, r: Row, o: Outcome, checked: string)
    requires Known(o)
    ensures Exec(db, EventQuery(r, o.state, checked)) ==
            Some(if Awaiting(db, r) then (db.(events := db.events + [EventOf(r, o, checked)]), 1) else (db, 0))
  {
    hide Awaiting, EventFits, Reason, Enabled;
    ReasonFits(o.state);
  }

  lemma {:induction false} UpdateExec(db: Db, r: Row, o: Outcome, checked: string)
    requires Known(o)
    ensures Exec(db, UpdateQuery(r, o.state, checked)) ==
            Some(if Awaiting(db, r) then (SetRow(db, r.public, RowAfter(db.lookup[r.public], o, checked)), 1)
                 else (db, 0))
  {
  }

  /** The last two statements of a block. */
  function Tail(r: Row, o: Outcome, checked: string): seq<Query> {
    [EventQuery(r, o.state, checked), UpdateQuery(r, o.state, checked)]
  }

  lemma {:induction false} TailExec(db: Db, r: Row, o: Outcome, checked: string)
    requires Known(o)
    ensures Typed(Tail(r, o, checked))
    ensures ExecAll(db, Tail(r, o, checked)) ==
            if Awaiting(db, r) then Run(Db(db.lookup[r.public := RowAfter(db.lookup[r.public], o, checked)], db.targets,
                                           db.events + [EventOf(r, o, checked)]), false, [1, 1])
            else Run(db, false, [0, 0])
  {
    hide Exec, EventQuery, UpdateQuery, RowAfter, EventOf;
    var q1, q2 := EventQuery(r, o.state, checked), UpdateQuery(r, o.state, checked);
    TailTyped(r, o, checked);
    EventExec(db, r, o, checked);
    var db1 := if Awaiting(db, r) then db.(events := db.events + [EventOf(r, o, checked)]) else db;
    UpdateExec(db1, r, o, checked);
    assert [q1, q2][1..] == [q2];
    ExecOne(db1, q2);
  }

  lemma {:induction false} TailTyped(r: Row, o: Outcome, checked: string)
    ensures Typed(Tail(r, o, checked)) && Typed([UpdateQuery(r, o.state, checked)])
  {
    hide Reason, Enabled;
  }

  /** The whole block of a row: nothing for a pair that is not pending, a violated constraint for a target
      that does not fit, and otherwise target, event and transition. */
  lemma {:induction false} BlockExec(db: Db, r: Row, o: Outcome, checked: string)
    requires Known(o)
    ensures Typed(Block(r, o, checked))
    ensures var x := ExecAll(db, Block(r, o, checked));
            if !Awaiting(db, r) then x.db == db && !x.stopped
               && x.changes == (if o.url.Some? then [0, 0, 0] else [0, 0])
            else if !Fits(db, r, o) then x == Run(db, true, [])
            else x == Run(Applied(db, r, o, checked), false, if o.url.Some? then [1, 1, 1] else [1, 1])
  {
    hide Tail, RowAfter, EventOf, TargetFits;
    BlockTyped(r, o, checked);
    TailExec(db, r, o, checked);
    assert Tail(r, o, checked) == [EventQuery(r, o.state, checked), UpdateQuery(r, o.state, checked)] by {
      TailIs(r, o, checked);
    }
    if o.state == VALID {
      var q := Query(InsertTarget, [o.url.value, checked, r.public, r.content]);
      assert Block(r, o, checked) == [q] + Tail(r, o, checked);
      assert Block(r, o, checked)[0] == q && Block(r, o, checked)[1..] == Tail(r, o, checked);
      TargetExec(db, r, o, checked);
      if Awaiting(db, r) && Fits(db, r, o) { TailExec(Exec(db, q).value.0, r, o, checked); }
    } else {
      assert Block(r, o, checked) == Tail(r, o, checked);
    }
  }

  lemma {:induction false} TailIs(r: Row, o: Outcome, checked: string)
    ensures Tail(r, o, checked) == [EventQuery(r, o.state, checked), UpdateQuery(r, o.state, checked)]
  {
  }

  lemma {:induction false} TargetExec(db: Db, r: Row, o: Outcome, checked: string)
    requires o.state == VALID && o.url.Some?
    ensures Exec(db, Query(InsertTarget, [o.url.value, checked, r.public, r.content])) ==
            if !Awaiting(db, r) then Some((db, 0))
            else if !Fits(db, r, o) then None
            else Some((db.(targets := db.targets[r.public := Target(r.content, o.url.value, checked)]), 1))
  {
    hide TargetFits;
  }

  // ---------- Whole batches ----------

  predicate Outcomes(rows: seq<Row>, outcomes: seq<Outcome>) {
    |rows| == |outcomes| && Distinct(rows) && forall i :: 0 <= i < |outcomes| ==> Known(outcomes[i])
  }

  function ExecBatch(db: Db, rows: seq<Row>, outcomes: seq<Outcome>, checked: string): Run
    requires |rows| == |outcomes|
  {
    BlocksTyped(rows, outcomes, checked);
    ExecAll(db, Blocks(rows, outcomes, checked))
  }

  /** A batch is its first block and then the rest. */
  lemma {:induction false} BatchSteps(db: Db, rows: seq<Row>, outcomes: seq<Outcome>, checked: string)
    requires |rows| == |outcomes| && rows != []
    ensures Typed(Block(rows[0], outcomes[0], checked))
    ensures var x := ExecAll(db, Block(rows[0], outcomes[0], checked));
            var y, z := ExecBatch(db, rows, outcomes, checked), ExecBatch(x.db, rows[1..], outcomes[1..], checked);
            if x.stopped then y == x else y == Run(z.db, z.stopped, x.changes + z.changes)
  {
    hide ExecAll, Block;
    BlockTyped(rows[0], outcomes[0], checked);
    BlocksTyped(rows, outcomes, checked);
    ExecAllConcat(db, Block(rows[0], outcomes[0], checked), Blocks(rows[1..], outcomes[1..], checked));
  }

  lemma {:induction false} TailOutcomes(rows: seq<Row>, outcomes: seq<Outcome>)
    requires Outcomes(rows, outcomes) && rows != []
    ensures Known(outcomes[0]) && Outcomes(rows[1..], outcomes[1..])
    ensures forall i :: 1 <= i < |rows| ==> rows[i].public != rows[0].public && rows[i].content != rows[0].content
  {
    hide Known;
  }

  /** The database after the first block, when it does not stop. */
  function AfterFirst(db: Db, r: Row, o: Outcome, checked: string): Db {
    if Awaiting(db, r) then Applied(db, r, o, checked) else db
  }

  /** The block of one row decides nothing about a row with other identifiers. */
  lemma {:induction false} BlockLeavesOthers(db: Db, r: Row, o: Outcome, checked: string, r': Row, o': Outcome)
    requires Known(o) && (Awaiting(db, r) ==> Fits(db, r, o)) && r'.public != r.public && r'.content != r.content
    ensures var db' := AfterFirst(db, r, o, checked);
            (Awaiting(db', r') <==> Awaiting(db, r')) && (Fits(db', r', o') <==> Fits(db, r', o'))
            && (r'.public in db'.lookup <==> r'.public in db.lookup)
            && (r'.public in db.lookup ==> db'.lookup[r'.public] == db.lookup[r'.public])
  {
    hide RowAfter, EventOf, PendingRow, UrlFits;
    if Awaiting(db, r) && o.url.Some? { TargetElsewhere(db, Applied(db, r, o, checked), r, r'.content); }
  }

  lemma {:induction false} TargetElsewhere(db: Db, db': Db, r: Row, content: string)
    requires content != r.content && r.public !in db.targets && r.public in db'.targets
             && db'.targets[r.public].content == r.content
    requires db'.targets == db.targets[r.public := db'.targets[r.public]]
    ensures ContentFree(db', content) <==> ContentFree(db, content)
  {
    forall p | p in db.targets ensures p in db'.targets && db'.targets[p] == db.targets[p] { }
  }

  /** A block that goes through keeps all it found: rows, targets and events. */
  lemma {:induction false} AppliedGrows(db: Db, r: Row, o: Outcome, checked: string)
    requires Known(o) && Ready(db, r, o)
    ensures Grows(db, Applied(db, r, o, checked))
  {
    hide EventOf, PendingRow, UrlFits;
  }

  // ---------- A whole batch changes one row per statement ----------

  predicate AllReady(db: Db, rows: seq<Row>, outcomes: seq<Outcome>)
    requires |rows| == |outcomes|
  {
    forall i :: 0 <= i < |rows| ==> Ready(db, rows[i], outcomes[i])
  }

  /** The acknowledgement that `write` waits for: no error, and one changed row for each statement. */
  predicate OneEach(x: Run, n: nat) { !x.stopped && |x.changes| == n && forall i :: 0 <= i < n ==> x.changes[i] == 1 }

  /** A batch changes exactly one row per statement if and only if every named pair started pending and every
      target it writes was free and fits the schema. */
  lemma {:induction false} OneEachIffReady(db: Db, rows: seq<Row>, outcomes: seq<Outcome>, checked: string)
    requires Outcomes(rows, outcomes)
    ensures OneEach(ExecBatch(db, rows, outcomes, checked), |Blocks(rows, outcomes, checked)|) <==>
            AllReady(db, rows, outcomes)
    decreases |rows|
  {
    hide ExecAll, Block, Applied, PendingRow, Fits, Known;
    if rows == [] {
      EmptyBatch(db, checked);
      assert outcomes == [];
    } else {
      var r, o, rows', outcomes' := rows[0], outcomes[0], rows[1..], outcomes[1..];
      TailOutcomes(rows, outcomes);
      BatchSteps(db, rows, outcomes, checked);
      BlockExec(db, r, o, checked);
      BlockSize(r, o, checked);
      if Ready(db, r, o) {
        var db' := Applied(db, r, o, checked);
        OneEachIffReady(db', rows', outcomes', checked);
        ReadyElsewhere(db, db', rows, outcomes, checked);
        OneEachSplits(ExecAll(db, Block(r, o, checked)), ExecBatch(db', rows', outcomes', checked),
                      ExecBatch(db, rows, outcomes, checked),
                      |Block(r, o, checked)|, |Blocks(rows', outcomes', checked)|);
      } else {
        NotOneEach(ExecAll(db, Block(r, o, checked)), ExecBatch(db, rows, outcomes, checked),
                   |Blocks(rows, outcomes, checked)|);
      }
    }
  }

  lemma {:induction false} EmptyBatch(db: Db, checked: string)
    ensures ExecBatch(db, [], [], checked) == Run(db, false, []) && Blocks([], [], checked) == []
  {
  }

  lemma {:induction false} BlockSize(r: Row, o: Outcome, checked: string)
    requires Known(o)
    ensures |Block(r, o, checked)| == if o.url.Some? then 3 else 2
  {
  }

  lemma {:induction false} ReadyElsewhere(db: Db, db': Db, rows: seq<Row>, outcomes: seq<Outcome>, checked: string)
    requires Outcomes(rows, outcomes) && rows != [] && Ready(db, rows[0], outcomes[0])
    requires db' == Applied(db, rows[0], outcomes[0], checked)
    ensures AllReady(db', rows[1..], outcomes[1..]) <==> AllReady(db, rows, outcomes)
  {
    hide Known, Awaiting, Fits, Applied;
    TailOutcomes(rows, outcomes);
    forall i | 1 <= i < |rows| ensures Ready(db', rows[i], outcomes[i]) <==> Ready(db, rows[i], outcomes[i]) {
      BlockLeavesOthers(db, rows[0], outcomes[0], checked, rows[i], outcomes[i]);
    }
    forall i | 0 <= i < |rows| - 1 ensures rows[1..][i] == rows[i + 1] && outcomes[1..][i] == outcomes[i + 1] { }
    if AllReady(db', rows[1..], outcomes[1..]) {
      forall i | 0 <= i < |rows| ensures Ready(db, rows[i], outcomes[i]) {
        if i > 0 { assert Ready(db', rows[1..][i - 1], outcomes[1..][i - 1]); }
      }
    }
  }

  lemma {:induction false} OneEachSplits(x: Run, y: Run, whole: Run, m: nat, n: nat)
    requires whole == Run(y.db, y.stopped, x.changes + y.changes) && OneEach(x, m)
    ensures OneEach(whole, m + n) <==> OneEach(y, n)
  {
    if OneEach(whole, m + n) {
      forall i | 0 <= i < n ensures y.changes[i] == 1 { assert whole.changes[m + i] == y.changes[i]; }
    }
  }

  lemma {:induction false} NotOneEach(x: Run, whole: Run, n: nat)
    requires if x.stopped then whole == x else |whole.changes| > 0 && whole.changes[..1] == [0]
    ensures !OneEach(whole, n)
  {
    if !x.stopped { assert whole.changes[0] == whole.changes[..1][0]; }
  }

  // ---------- Every prefix is safe ----------

  /** The target and the event that an enabled row of the batch must have. */
  predicate Justified(before: Db, db: Db, rows: seq<Row>, outcomes: seq<Outcome>, checked: string, p: string, i: int)
    requires |rows| == |outcomes|
  {
    && 0 <= i < |rows| && rows[i].public == p && Names(db, p, rows[i].content) && outcomes[i].state == VALID
    && outcomes[i].url.Some?
    && p in db.targets && db.targets[p] == Target(rows[i].content, outcomes[i].url.value, checked)
    && |before.events| <= |db.events| && EventOf(rows[i], outcomes[i], checked) in db.events[|before.events|..]
  }

  predicate NewlyEnabled(before: Db, db: Db, p: string) {
    p in db.lookup && db.lookup[p].enabled && (p in before.lookup ==> !before.lookup[p].enabled)
  }

  /** Every row enabled since `before` has the target and the VALID event of its outcome. */
  ghost predicate Safe(before: Db, db: Db, rows: seq<Row>, outcomes: seq<Outcome>, checked: string)
    requires |rows| == |outcomes|
  {
    forall p :: NewlyEnabled(before, db, p) ==> exists i :: Justified(before, db, rows, outcomes, checked, p, i)
  }

  /** Target and event statements never touch the lookup table. */
  lemma {:induction false} OnlyUpdatesTouchRows(db: Db, queries: seq<Query>)
    requires Typed(queries) && forall i :: 0 <= i < |queries| ==>
               queries[i].sql == InsertTarget || queries[i].sql == InsertEvent
    ensures ExecAll(db, queries).db.lookup == db.lookup && Grows(db, ExecAll(db, queries).db)
    decreases |queries|
  {
    hide Awaiting, UrlFits;
    if queries != [] && Exec(db, queries[0]).Some? {
      var db' := Exec(db, queries[0]).value.0;
      OnlyUpdatesTouchRows(db', queries[1..]);
      GrowsThrough(db, db', ExecAll(db', queries[1..]).db);
    }
  }

  /** A part of a block. */
  lemma {:induction false} PartOfBlock(db: Db, r: Row, o: Outcome, checked: string, k: nat)
    requires Known(o) && k < |Block(r, o, checked)|
    ensures Typed(Block(r, o, checked)[..k])
    ensures var x := ExecAll(db, Block(r, o, checked)[..k]); x.db.lookup == db.lookup && Grows(db, x.db)
  {
    hide Grows, ExecAll;
    var part := Block(r, o, checked)[..k];
    BlockTyped(r, o, checked);
    BlockSize(r, o, checked);
    OnlyUpdatesTouchRows(db, part);
  }

  lemma {:induction false} BlockIsSafe(db: Db, r: Row, o: Outcome, checked: string)
    requires Known(o) && Ready(db, r, o)
    ensures Safe(db, Applied(db, r, o, checked), [r], [o], checked)
  {
    hide UrlFits, EventOf;
    var db' := Applied(db, r, o, checked);
    assert db'.events[|db.events|..] == [EventOf(r, o, checked)];
    forall p | NewlyEnabled(db, db', p) ensures exists i :: Justified(db, db', [r], [o], checked, p, i) {
      assert p == r.public && o.state == VALID;
      assert Justified(db, db', [r], [o], checked, p, 0);
    }
  }

  lemma {:induction false} JustifiedLater(before: Db, mid: Db, db: Db, rows: seq<Row>, outcomes: seq<Outcome>,
                                          checked: string, p: string, i: int)
    requires |rows| == |outcomes| && Justified(before, mid, rows, outcomes, checked, p, i) && Grows(before, mid)
             && Grows(mid, db)
    ensures Justified(before, db, rows, outcomes, checked, p, i)
  {
    hide EventOf;
    var e := EventOf(rows[i], outcomes[i], checked);
    var k :| 0 <= k < |mid.events[|before.events|..]| && mid.events[|before.events|..][k] == e;
    assert db.events[|before.events|..][k] == mid.events[|before.events| + k];
  }

  lemma {:induction false} JustifiedEarlier(before: Db, mid: Db, db: Db, rows: seq<Row>, outcomes: seq<Outcome>,
                                            checked: string, p: string, i: int)
    requires |rows| == |outcomes| && Justified(mid, db, rows, outcomes, checked, p, i) && Grows(before, mid)
    ensures Justified(before, db, rows, outcomes, checked, p, i)
  {
    hide EventOf;
    var e := EventOf(rows[i], outcomes[i], checked);
    var k :| 0 <= k < |db.events[|mid.events|..]| && db.events[|mid.events|..][k] == e;
    assert db.events[|before.events|..][|mid.events| - |before.events| + k] == e;
  }

  lemma {:induction false} JustifiedWider(before: Db, db: Db, rows: seq<Row>, outcomes: seq<Outcome>, checked: string,
                                          part: seq<Row>, some: seq<Outcome>, p: string, i: int, at: nat)
    requires |rows| == |outcomes| && |part| == |some| && at + |part| <= |rows|
    requires part == rows[at..at + |part|] && some == outcomes[at..at + |part|]
    requires Justified(before, db, part, some, checked, p, i)
    ensures Justified(before, db, rows, outcomes, checked, p, at + i)
  {
    hide EventOf;
    assert part[i] == rows[at + i] && some[i] == outcomes[at + i];
  }

  /** Safety of a first block and safety of what follows make the whole safe. */
  lemma {:induction false} SafeThrough(db: Db, mid: Db, after: Db, rows: seq<Row>, outcomes: seq<Outcome>,
                                       checked: string)
    requires |rows| == |outcomes| && rows != [] && Grows(db, mid) && Grows(mid, after)
    requires Safe(db, mid, [rows[0]], [outcomes[0]], checked) && Safe(mid, after, rows[1..], outcomes[1..], checked)
    ensures Safe(db, after, rows, outcomes, checked)
  {
    hide Justified;
    forall p | NewlyEnabled(db, after, p) ensures exists i :: Justified(db, after, rows, outcomes, checked, p, i) {
      if NewlyEnabled(mid, after, p) {
        var i :| Justified(mid, after, rows[1..], outcomes[1..], checked, p, i);
        JustifiedEarlier(db, mid, after, rows[1..], outcomes[1..], checked, p, i);
        JustifiedWider(db, after, rows, outcomes, checked, rows[1..], outcomes[1..], p, i, 1);
      } else {
        assert NewlyEnabled(db, mid, p);
        var i :| Justified(db, mid, [rows[0]], [outcomes[0]], checked, p, i);
        JustifiedLater(db, mid, after, [rows[0]], [outcomes[0]], checked, p, i);
        JustifiedWider(db, after, rows, outcomes, checked, [rows[0]], [outcomes[0]], p, i, 0);
      }
    }
  }

  lemma {:induction false} NothingNew(before: Db, db: Db, rows: seq<Row>, outcomes: seq<Outcome>, checked: string)
    requires |rows| == |outcomes| && db.lookup == before.lookup
    ensures Safe(before, db, rows, outcomes, checked)
  {
  }

  lemma {:induction false} PrefixTyped(rows: seq<Row>, outcomes: seq<Outcome>, checked: string, k: nat)
    requires |rows| == |outcomes| && k <= |Blocks(rows, outcomes, checked)|
    ensures Typed(Blocks(rows, outcomes, checked)[..k])
  {
    BlocksTyped(rows, outcomes, checked);
  }

  /** After any executed prefix of a batch, every row it has enabled already has the redirect target and the
      VALID event of its outcome, and nothing that was there is lost. */
  lemma {:induction false} EveryPrefixIsSafe(db: Db, rows: seq<Row>, outcomes: seq<Outcome>, checked: string, k: nat)
    requires Outcomes(rows, outcomes) && k <= |Blocks(rows, outcomes, checked)|
    ensures Typed(Blocks(rows, outcomes, checked)[..k])
    ensures var x := ExecAll(db, Blocks(rows, outcomes, checked)[..k]);
            Grows(db, x.db) && Safe(db, x.db, rows, outcomes, checked)
    decreases |rows|
  {
    hide ExecAll, Block, Applied, Awaiting, Fits, Known, Safe, Grows;
    PrefixTyped(rows, outcomes, checked, k);
    if rows == [] {
      EmptyRun(db);
      NothingNew(db, db, rows, outcomes, checked);
    } else {
      var r, o, rows', outcomes' := rows[0], outcomes[0], rows[1..], outcomes[1..];
      var block, rest := Block(r, o, checked), Blocks(rows', outcomes', checked);
      TailOutcomes(rows, outcomes);
      assert Blocks(rows, outcomes, checked) == block + rest;
      if k < |block| {
        assert (block + rest)[..k] == block[..k];
        PartOfBlock(db, r, o, checked, k);
        NothingNew(db, ExecAll(db, block[..k]).db, rows, outcomes, checked);
      } else {
        assert (block + rest)[..k] == block + rest[..k - |block|];
        PrefixTyped(rows', outcomes', checked, k - |block|);
        ExecAllConcat(db, block, rest[..k - |block|]);
        BlockExec(db, r, o, checked);
        var mid := ExecAll(db, block).db;
        if Ready(db, r, o) { AppliedGrows(db, r, o, checked); BlockIsSafe(db, r, o, checked); }
        else { SameGrows(db); NothingNew(db, db, [r], [o], checked); }
        if ExecAll(db, block).stopped {
          NothingNew(db, db, rows, outcomes, checked);
        } else {
          EveryPrefixIsSafe(mid, rows', outcomes', checked, k - |block|);
          var after := ExecAll(mid, rest[..k - |block|]).db;
          GrowsThrough(db, mid, after);
          SafeThrough(db, mid, after, rows, outcomes, checked);
        }
      }
    }
  }

  lemma {:induction false} EmptyRun(db: Db)
    ensures ExecAll(db, []) == Run(db, false, []) && Grows(db, db)
  {
  }

  lemma {:induction false} SameGrows(db: Db)
    ensures Grows(db, db)
  {
  }

  // ---------- Executing a batch again ----------

  predicate Settled(db: Db, rows: seq<Row>) { forall i :: 0 <= i < |rows| ==> !Awaiting(db, rows[i]) }

  /** Where no named pair is pending, a batch changes nothing. */
  lemma {:induction false} SettledBatchIsIdle(db: Db, rows: seq<Row>, outcomes: seq<Outcome>, checked: string)
    requires Outcomes(rows, outcomes) && Settled(db, rows)
    ensures var x := ExecBatch(db, rows, outcomes, checked); x.db == db && !x.stopped
    decreases |rows|
  {
    hide ExecAll, Block, Applied, Awaiting, Known;
    if rows == [] {
      EmptyBatch(db, checked);
      assert outcomes == [];
    } else {
      TailOutcomes(rows, outcomes);
      BatchSteps(db, rows, outcomes, checked);
      BlockExec(db, rows[0], outcomes[0], checked);
      SettledBatchIsIdle(db, rows[1..], outcomes[1..], checked);
    }
  }

  predicate StaysOpen(db: Db, r: Row, o: Outcome) { o.state == UNCONFIRMED && Awaiting(db, r) }

  lemma {:induction false} AppliedCloses(db: Db, r: Row, o: Outcome, checked: string)
    requires Known(o) && Awaiting(db, r)
    ensures Awaiting(Applied(db, r, o, checked), r) <==> o.state == UNCONFIRMED
  {
  }

  /** After a batch that was not stopped, exactly the unconfirmed pairs that were pending are still pending. */
  lemma {:induction false} BatchCloses(db: Db, rows: seq<Row>, outcomes: seq<Outcome>, checked: string)
    requires Outcomes(rows, outcomes)
    ensures var x := ExecBatch(db, rows, outcomes, checked);
            !x.stopped ==> forall i :: 0 <= i < |rows| ==>
              (Awaiting(x.db, rows[i]) <==> StaysOpen(db, rows[i], outcomes[i]))
    decreases |rows|
  {
    hide ExecAll, Block, Applied, Awaiting, Fits, Known;
    var x := ExecBatch(db, rows, outcomes, checked);
    if rows != [] && !x.stopped {
      var r, o, rows', outcomes' := rows[0], outcomes[0], rows[1..], outcomes[1..];
      TailOutcomes(rows, outcomes);
      BatchSteps(db, rows, outcomes, checked);
      BlockExec(db, r, o, checked);
      var mid := AfterFirst(db, r, o, checked);
      if Awaiting(db, r) { AppliedCloses(db, r, o, checked); }
      BatchCloses(mid, rows', outcomes', checked);
      BatchLeavesOthers(mid, rows', outcomes', checked, r);
      forall i | 0 <= i < |rows| ensures Awaiting(x.db, rows[i]) <==> StaysOpen(db, rows[i], outcomes[i]) {
        if i > 0 {
          BlockLeavesOthers(db, r, o, checked, rows[i], outcomes[i]);
          assert rows[i] == rows'[i - 1] && outcomes[i] == outcomes'[i - 1];
        }
      }
    }
  }

  /** A batch decides nothing about a pair that it does not name. */
  lemma {:induction false} BatchLeavesOthers(db: Db, rows: seq<Row>, outcomes: seq<Outcome>, checked: string, r: Row)
    requires Outcomes(rows, outcomes)
    requires forall i :: 0 <= i < |rows| ==> rows[i].public != r.public && rows[i].content != r.content
    ensures Awaiting(ExecBatch(db, rows, outcomes, checked).db, r) <==> Awaiting(db, r)
    decreases |rows|
  {
    hide ExecAll, Block, Applied, Awaiting, Fits, Known;
    if rows == [] {
      EmptyBatch(db, checked);
      assert outcomes == [];
    } else {
      TailOutcomes(rows, outcomes);
      BatchSteps(db, rows, outcomes, checked);
      BlockExec(db, rows[0], outcomes[0], checked);
      if !ExecAll(db, Block(rows[0], outcomes[0], checked)).stopped {
        BlockLeavesOthers(db, rows[0], outcomes[0], checked, r, outcomes[0]);
        BatchLeavesOthers(AfterFirst(db, rows[0], outcomes[0], checked), rows[1..], outcomes[1..], checked, r);
      }
    }
  }

  /** A pending pair leaves an event behind, as long as no constraint is violated. */
  lemma {:induction false} OpenPairAddsEvent(db: Db, rows: seq<Row>, outcomes: seq<Outcome>, checked: string, k: nat)
    requires Outcomes(rows, outcomes) && k < |rows| && Awaiting(db, rows[k])
    requires forall i :: 0 <= i < |rows| && Awaiting(db, rows[i]) ==> Fits(db, rows[i], outcomes[i])
    ensures |ExecBatch(db, rows, outcomes, checked).db.events| > |db.events|
    decreases |rows|
  {
    hide ExecAll, Block, Awaiting, Fits, Known, EventOf, Grows, RowAfter;
    var r, o, rows', outcomes' := rows[0], outcomes[0], rows[1..], outcomes[1..];
    TailOutcomes(rows, outcomes);
    BatchSteps(db, rows, outcomes, checked);
    BlockExec(db, r, o, checked);
    var mid := AfterFirst(db, r, o, checked);
    BatchGrows(mid, rows', outcomes', checked);
    if k > 0 && !Awaiting(db, r) {
      forall i | 0 <= i < |rows'| ensures rows'[i] == rows[i + 1] && outcomes'[i] == outcomes[i + 1] { }
      OpenPairAddsEvent(db, rows', outcomes', checked, k - 1);
    }
  }

  lemma {:induction false} BatchGrows(db: Db, rows: seq<Row>, outcomes: seq<Outcome>, checked: string)
    requires Outcomes(rows, outcomes)
    ensures Grows(db, ExecBatch(db, rows, outcomes, checked).db)
    ensures |db.events| <= |ExecBatch(db, rows, outcomes, checked).db.events|
  {
    hide ExecAll, Safe, Known;
    BlocksTyped(rows, outcomes, checked);
    var all := Blocks(rows, outcomes, checked);
    assert all[..|all|] == all;
    EveryPrefixIsSafe(db, rows, outcomes, checked, |all|);
  }

  /** Executing a batch that went through once more changes nothing if and only if none of its unconfirmed
      pairs was pending. */
  lemma {:induction false} AgainChangesNothingIff(db: Db, rows: seq<Row>, outcomes: seq<Outcome>, checked: string)
    requires Outcomes(rows, outcomes) && !ExecBatch(db, rows, outcomes, checked).stopped
    ensures var after := ExecBatch(db, rows, outcomes, checked).db;
            ExecBatch(after, rows, outcomes, checked).db == after <==>
            forall i :: 0 <= i < |rows| ==> !StaysOpen(db, rows[i], outcomes[i])
  {
    hide ExecBatch, Awaiting, Known;
    var after := ExecBatch(db, rows, outcomes, checked).db;
    BatchCloses(db, rows, outcomes, checked);
    if forall i :: 0 <= i < |rows| ==> !StaysOpen(db, rows[i], outcomes[i]) {
      SettledBatchIsIdle(after, rows, outcomes, checked);
    } else {
      var k :| 0 <= k < |rows| && StaysOpen(db, rows[k], outcomes[k]);
      UnconfirmedFits(after, rows, outcomes);
      OpenPairAddsEvent(after, rows, outcomes, checked, k);
    }
  }

  lemma {:induction false} UnconfirmedFits(db: Db, rows: seq<Row>, outcomes: seq<Outcome>)
    requires |rows| == |outcomes|
    ensures forall i :: 0 <= i < |rows| && outcomes[i].state == UNCONFIRMED ==> Fits(db, rows[i], outcomes[i])
  {
  }

  /** Without an unconfirmed outcome that holds even after a batch that was stopped by a constraint. */
  lemma {:induction false} AgainChangesNothing(db: Db, rows: seq<Row>, outcomes: seq<Outcome>, checked: string)
    requires Outcomes(rows, outcomes) && forall i :: 0 <= i < |outcomes| ==> outcomes[i].state != UNCONFIRMED
    ensures var after := ExecBatch(db, rows, outcomes, checked).db;
            ExecBatch(after, rows, outcomes, checked).db == after
    decreases |rows|
  {
    hide ExecAll, Block, Applied, Awaiting, Fits, Known;
    if rows == [] {
      EmptyBatch(db, checked);
      assert outcomes == [];
    } else {
      var r, o, rows', outcomes' := rows[0], outcomes[0], rows[1..], outcomes[1..];
      TailOutcomes(rows, outcomes);
      BatchSteps(db, rows, outcomes, checked);
      BlockExec(db, r, o, checked);
      if !ExecAll(db, Block(r, o, checked)).stopped {
        var mid := AfterFirst(db, r, o, checked);
        if Awaiting(db, r) { AppliedCloses(db, r, o, checked); }
        var after := ExecBatch(mid, rows', outcomes', checked).db;
        BatchLeavesOthers(mid, rows', outcomes', checked, r);
        AgainChangesNothing(mid, rows', outcomes', checked);
        BatchSteps(after, rows, outcomes, checked);
        BlockExec(after, r, o, checked);
      }
    }
  }

  // ---------- Where pending pairs are not enough ----------

  /** A batch that was cut off after a target statement cannot be finished by sending it again: the target is
      in the way, the row stays pending, and nothing more happens. */
  lemma {:induction false} CutOffBatchIsStuck(db: Db, r: Row, o: Outcome, checked: string, later: string)
    requires Known(o) && o.state == VALID && Ready(db, r, o)
    ensures Typed(Block(r, o, checked)[..1])
    ensures var cut := ExecAll(db, Block(r, o, checked)[..1]).db;
            && Awaiting(cut, r) && ExecBatch(cut, [r], [o], later) == Run(cut, true, [])
  {
    hide PendingRow, UrlFits;
    BlockTyped(r, o, checked);
    var q := Query(InsertTarget, [o.url.value, checked, r.public, r.content]);
    assert Block(r, o, checked)[..1] == [q];
    TargetExec(db, r, o, checked);
    ExecOne(db, q);
    var cut := ExecAll(db, [q]).db;
    BatchSteps(cut, [r], [o], later);
    BlockExec(cut, r, o, later);
  }

  const STAMP := "2026-01-01T00:00:00Z"
  const OLDER_STAMP := "2025-12-01T00:00:00Z"

  function PendingLookup(r: Row): Lookup {
    Lookup(r.content, PendingPolicy, PendingConfirmation, LookupTables.Pending, false, OLDER_STAMP)
  }

  function WitnessRow(): Row { Row("itm_000000000000000000000000", "a") }

  /** The table holds the one row, pending, and the given targets. */
  function WitnessTable(targets: map<string, Target>): Db {
    Db(map[WitnessRow().public := PendingLookup(WitnessRow())], targets, [])
  }

  lemma {:induction false} WitnessRowIsBuilt(c: Checks, url: string)
    requires c.safeUrl(url) && c.awareStamp(STAMP)
    ensures Build(c, [WitnessRow()], [Outcome(VALID, Some(url))], STAMP).Some?
  {
    var r := WitnessRow();
    assert r.public[4..] == "000000000000000000000000";
    assert PublicId(r.public) && ContentId(r.content);
    assert STAMP[|STAMP| - 1..] == "Z";
  }

  /** So it is not true that a batch changes one row per statement whenever every pair is pending: here is one that
      the builder builds, and that stops at an older target of its row, which a batch that was cut off leaves. */
  lemma {:induction false} PendingIsNotEnough(c: Checks, url: string, older: string)
    requires c.safeUrl(url) && c.awareStamp(STAMP) && UrlFits(url) && UrlFits(older)
    ensures var r, o := WitnessRow(), Outcome(VALID, Some(url));
            var db := WitnessTable(map[r.public := Target(r.content, older, OLDER_STAMP)]);
            && Build(c, [r], [o], STAMP).Some? && SchemaOk(db) && Awaiting(db, r)
            && ExecBatch(db, [r], [o], STAMP) == Run(db, true, [])
  {
    hide UrlFits, Build, Block;
    var r, o := WitnessRow(), Outcome(VALID, Some(url));
    var db := WitnessTable(map[r.public := Target(r.content, older, OLDER_STAMP)]);
    WitnessRowIsBuilt(c, url);
    BatchSteps(db, [r], [o], STAMP);
    BlockExec(db, r, o, STAMP);
  }

  /** Nor is it true when there is no older target: the check of the code reads the scheme of a URL without regard to
      case, the table compares its first eight characters. */
  lemma {:induction false} SchemeIsCompared(c: Checks, url: string)
    requires c.safeUrl(url) && c.awareStamp(STAMP) && 12 <= |url| <= 4096 && url[..8] == "HTTPS://"
    ensures var r, o := WitnessRow(), Outcome(VALID, Some(url));
            var db := WitnessTable(map[]);
            && Build(c, [r], [o], STAMP).Some? && SchemaOk(db) && Awaiting(db, r) && db.targets == map[]
            && !UrlFits(url)
            && ExecBatch(db, [r], [o], STAMP) == Run(db, true, [])
  {
    hide Build, Block;
    var r, o := WitnessRow(), Outcome(VALID, Some(url));
    var db := WitnessTable(map[]);
    WitnessRowIsBuilt(c, url);
    assert "HTTPS://"[0] != "https://"[0];
    BatchSteps(db, [r], [o], STAMP);
    BlockExec(db, r, o, STAMP);
  }

  lemma {:induction false} ExecKeepsContents(db: Db, q: Query)
    requires |q.params| == Arity(q.sql) && Exec(db, q).Some?
    ensures SameContents(db, Exec(db, q).value.0)
  {
    hide TargetFits, EventFits;
  }
}
