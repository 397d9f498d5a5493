/** The one-shot query client of scripts/affiliate_d1_sensitive_query.py, and what its acknowledgement says
    about a server that executes the batch and reports truthfully. */
module D1Client {
  import opened Text
  import opened LookupTables
  import opened D1Query
  import opened D1Execution

  datatype StatementResult = StatementResult(success: bool, changes: Option<int>, resultsEmpty: bool)

  datatype Payload = Payload(success: bool, errorsEmpty: bool, results: Option<seq<StatementResult>>)

  /** What comes back from a POST: an exception, a status, or a body of some size that may be no object. */
  datatype Reply = Raised | Status(code: int) | Body(size: nat, payload: Option<Payload>)

  datatype WriteState = NotAttempted | Unknown | Acknowledged

  const MAX_RESPONSE := 262144

  predicate Changed(r: StatementResult) { r.success && r.changes == Some(1) && r.resultsEmpty }

  /** The reply that is taken as an acknowledgement of `n` statements. */
  predicate Acknowledges(r: Reply, n: nat) {
    && r.Body? && r.size <= MAX_RESPONSE && r.payload.Some?
    && r.payload.value.success && r.payload.value.errorsEmpty && r.payload.value.results.Some?
    && |r.payload.value.results.value| == n
    && forall i :: 0 <= i < n ==> Changed(r.payload.value.results.value[i])
  }

  predicate TokenOk(t: string) { 1 <= |t| <= 4096 && forall i :: 0 <= i < |t| ==> '!' <= t[i] <= '~' }

  /** A batch that may be posted. */
  predicate Postable(c: Checks, queries: seq<Query>) { WellTyped(queries) && Typed(queries) && Canonical(c, queries) }

  // ---------- Histories ----------

  /** The client, with every batch it has posted. */
  datatype Client = Client(token: Option<string>, used: bool, posted: seq<seq<Query>>)

  datatype Request =
    | AskReady(credential: Option<string>)
    | AskClear
    | AskWrite(queries: seq<Query>, confirmed: bool, reply: Reply)

  const UNUSED_CLIENT: Client := Client(None, false, [])

  function AfterReady(s: Client, credential: Option<string>): Client {
    s.(token := if !s.used && credential.Some? && TokenOk(credential.value) then credential else None)
  }

  predicate Posts(c: Checks, s: Client, queries: seq<Query>, confirmed: bool) {
    confirmed && !s.used && s.token.Some? && Postable(c, queries)
  }

  function AfterWrite(c: Checks, s: Client, queries: seq<Query>, confirmed: bool): Client {
    if Posts(c, s, queries, confirmed) then Client(None, true, s.posted + [queries]) else s
  }

  function WriteOutcome(c: Checks, s: Client, queries: seq<Query>, confirmed: bool, reply: Reply): WriteState {
    if !Posts(c, s, queries, confirmed) then NotAttempted
    else if Acknowledges(reply, |queries|) then Acknowledged else Unknown
  }

  function Serve(c: Checks, s: Client, r: Request): Client {
    match r
    case AskReady(credential) => AfterReady(s, credential)
    case AskClear => s.(token := None)
    case AskWrite(queries, confirmed, _) => AfterWrite(c, s, queries, confirmed)
  }

  function History(c: Checks, s: Client, requests: seq<Request>): Client
    decreases |requests|
  {
    if requests == [] then s else History(c, Serve(c, s, requests[0]), requests[1..])
  }

  predicate ClientOk(c: Checks, s: Client) {
    (s.used <==> |s.posted| == 1) && |s.posted| <= 1 && (s.used ==> s.token.None?)
    && forall i :: 0 <= i < |s.posted| ==> Postable(c, s.posted[i])
  }

  /** Over every history a client posts at most once, only a canonical batch, and keeps no token afterwards. */
  lemma {:induction false} PostsAtMostOnce(c: Checks, s: Client, requests: seq<Request>)
    requires ClientOk(c, s)
    ensures ClientOk(c, History(c, s, requests)) && s.posted <= History(c, s, requests).posted
    decreases |requests|
  {
    hide Postable, TokenOk;
    if requests != [] { PostsAtMostOnce(c, Serve(c, s, requests[0]), requests[1..]); }
  }

  lemma {:induction false} FreshPostsAtMostOnce(c: Checks, requests: seq<Request>)
    ensures |History(c, UNUSED_CLIENT, requests).posted| <= 1
    ensures forall i :: 0 <= i < |History(c, UNUSED_CLIENT, requests).posted| ==>
              Built(c, History(c, UNUSED_CLIENT, requests).posted[i])
  {
    hide Canonical, Built;
    PostsAtMostOnce(c, UNUSED_CLIENT, requests);
    var posted := History(c, UNUSED_CLIENT, requests).posted;
    forall i | 0 <= i < |posted| ensures Built(c, posted[i]) { CanonicalIsTheImage(c, posted[i]); }
  }

  // ---------- The object ----------

  class D1QueryClient {
    var token: Option<string>
    var used: bool
    ghost var posted: seq<seq<Query>>

    ghost function State(): Client
      reads this
    {
      Client(token, used, posted)
    }

    constructor ()
      ensures State() == UNUSED_CLIENT
    {
      token, used, posted := None, false, [];
    }

    method Ready(credential: Option<string>) returns (ok: bool)
      modifies this
      ensures State() == AfterReady(old(State()), credential)
      ensures ok <==> token.Some?
    {
      token := None;
      if used { return false; }
      if credential.None? || !TokenOk(credential.value) { return false; }
      token := credential;
      return true;
    }

    method Clear()
      modifies this
      ensures State() == old(State()).(token := None)
    {
      token := None;
    }

    method Write(c: Checks, queries: seq<Query>, confirmed: bool, reply: Reply) returns (outcome: WriteState)
      modifies this
      ensures State() == AfterWrite(c, old(State()), queries, confirmed)
      ensures outcome == WriteOutcome(c, old(State()), queries, confirmed, reply)
    {
      hide Canonical;
      if !confirmed || used || token.None? { return NotAttempted; }
      if !WellTyped(queries) { return NotAttempted; }
      var canonical := CanonicalBatch(c, queries);
      if !canonical { return NotAttempted; }
      used := true;
      posted := posted + [queries];
      outcome := Unknown;
      match reply {
        case Body(size, Some(payload)) =>
          if size <= MAX_RESPONSE && payload.success && payload.errorsEmpty && payload.results.Some? {
            var all := AllChanged(payload.results.value);
            if |payload.results.value| == |queries| && all { outcome := Acknowledged; }
          }
        case _ =>
      }
      token := None;
    }
  }

  method AllChanged(results: seq<StatementResult>) returns (all: bool)
    ensures all <==> forall i :: 0 <= i < |results| ==> Changed(results[i])
  {
    var i := 0;
    while i < |results|
      invariant 0 <= i <= |results|
      invariant forall k :: 0 <= k < i ==> Changed(results[k])
    {
      if !Changed(results[i]) { return false; }
      i := i + 1;
    }
    return true;
  }

  // ---------- What an acknowledgement means ----------

  /** The reply of a server that executed the batch as `x` and reports what it did. */
  function TruthfulReply(x: Run): Reply {
    if x.stopped then Body(0, Some(Payload(false, false, None)))
    else
      var results :=
        seq(|x.changes|, i requires 0 <= i < |x.changes| => StatementResult(true, Some(x.changes[i]), true));
      Body(0, Some(Payload(true, true, Some(results))))
  }

  lemma {:induction false} BuildableOutcomes(c: Checks, rows: seq<Row>, outcomes: seq<Outcome>, checked: string)
    requires Buildable(c, rows, outcomes, checked)
    ensures Outcomes(rows, outcomes)
  {
    hide RowOk, Stamp;
    forall i | 0 <= i < |outcomes| ensures Known(outcomes[i]) { assert OutcomeOk(c, outcomes[i]); }
  }

  /** A built batch is acknowledged if and only if every pair it names was pending and every target it writes
      was free and fits the schema; and then every named row is as its outcome says. */
  lemma {:induction false} AcknowledgedIffReady(c: Checks, db: Db, rows: seq<Row>, outcomes: seq<Outcome>,
                                                checked: string)
    requires Buildable(c, rows, outcomes, checked)
    ensures var x := ExecBatch(db, rows, outcomes, checked);
            && (Acknowledges(TruthfulReply(x), |Blocks(rows, outcomes, checked)|) <==> AllReady(db, rows, outcomes))
            && (AllReady(db, rows, outcomes) ==> forall i :: 0 <= i < |rows| ==>
                Settles(x.db, rows[i], outcomes[i], checked))
  {
    hide ExecBatch, AllReady, Settles, RowOk, Stamp, D1Query.OutcomeOk, Known;
    BuildableOutcomes(c, rows, outcomes, checked);
    OneEachIffReady(db, rows, outcomes, checked);
    var x := ExecBatch(db, rows, outcomes, checked);
    var n := |Blocks(rows, outcomes, checked)|;
    assert Acknowledges(TruthfulReply(x), n) <==> OneEach(x, n) by { TruthfulAcknowledgement(x, n); }
    if AllReady(db, rows, outcomes) { ReadyBatchSettles(db, rows, outcomes, checked); }
  }

  lemma {:induction false} TruthfulAcknowledgement(x: Run, n: nat)
    ensures Acknowledges(TruthfulReply(x), n) <==> OneEach(x, n)
  {
    if !x.stopped {
      var results := TruthfulReply(x).payload.value.results.value;
      assert forall i :: 0 <= i < |x.changes| ==> (Changed(results[i]) <==> x.changes[i] == 1);
    }
  }

  /** A row and its target as an outcome leaves them. */
  predicate Settles(db: Db, r: Row, o: Outcome, checked: string) {
    && Names(db, r.public, r.content) && db.lookup[r.public].updated == checked
    && (db.lookup[r.public].enabled <==> o.state == VALID)
    && (o.state == VALID ==> EligibleToEnable(db.lookup[r.public]))
    && (o.state == NOT_AVAILABLE ==> db.lookup[r.public].verification.Failed?)
    && (o.state == UNCONFIRMED ==> PendingRow(db.lookup[r.public]))
    && (o.state == VALID && o.url.Some? ==>
        r.public in db.targets && db.targets[r.public] == Target(r.content, o.url.value, checked))
  }

  lemma {:induction false} AppliedSettles(db: Db, r: Row, o: Outcome, checked: string)
    requires Known(o) && Ready(db, r, o)
    ensures Settles(Applied(db, r, o, checked), r, o, checked)
  {
  }

  lemma {:induction false} ReadyBatchSettles(db: Db, rows: seq<Row>, outcomes: seq<Outcome>, checked: string)
    requires Outcomes(rows, outcomes) && AllReady(db, rows, outcomes)
    ensures forall i :: 0 <= i < |rows| ==>
              Settles(ExecBatch(db, rows, outcomes, checked).db, rows[i], outcomes[i], checked)
    decreases |rows|
  {
    hide ExecAll, Block, Applied, PendingRow, Fits, Known, Settles, Grows;
    if rows != [] {
      var r, o, rows', outcomes' := rows[0], outcomes[0], rows[1..], outcomes[1..];
      TailOutcomes(rows, outcomes);
      BatchSteps(db, rows, outcomes, checked);
      BlockExec(db, r, o, checked);
      assert Ready(db, r, o);
      var mid := Applied(db, r, o, checked);
      ReadyElsewhere(db, mid, rows, outcomes, checked);
      ReadyBatchSettles(mid, rows', outcomes', checked);
      AppliedSettles(db, r, o, checked);
      BatchGrows(mid, rows', outcomes', checked);
      assert r.public in mid.lookup by { AppliedGrows(db, r, o, checked); KeysGrow(db, mid, r.public); }
      BatchLeavesRow(mid, rows', outcomes', checked, r);
      var x := ExecBatch(db, rows, outcomes, checked);
      SettlesLater(mid, x.db, r, o, checked);
      forall i | 0 <= i < |rows| ensures Settles(x.db, rows[i], outcomes[i], checked) {
        if i > 0 { assert rows[i] == rows'[i - 1] && outcomes[i] == outcomes'[i - 1]; }
      }
    }
  }

  lemma {:induction false} KeysGrow(db: Db, db': Db, p: string)
    requires Grows(db, db')
    ensures p in db.lookup <==> p in db'.lookup
  {
  }

  lemma {:induction false} SettlesLater(db: Db, db': Db, r: Row, o: Outcome, checked: string)
    requires Settles(db, r, o, checked) && Grows(db, db') && r.public in db.lookup
             && db'.lookup[r.public] == db.lookup[r.public]
    ensures Settles(db', r, o, checked)
  {
    hide PendingRow, EligibleToEnable;
  }

  /** A batch leaves a row that it does not name as it is. */
  lemma {:induction false} BatchLeavesRow(db: Db, rows: seq<Row>, outcomes: seq<Outcome>, checked: string, r: Row)
    requires Outcomes(rows, outcomes) && r.public in db.lookup
    requires forall i :: 0 <= i < |rows| ==> rows[i].public != r.public && rows[i].content != r.content
    ensures var x := ExecBatch(db, rows, outcomes, checked);
            r.public in x.db.lookup && x.db.lookup[r.public] == db.lookup[r.public]
    decreases |rows|
  {
    hide ExecAll, Block, Applied, Awaiting, Fits, Known;
    if rows == [] {
      EmptyBatch(db, checked);
      assert outcomes == [];
    } else {
      TailOutcomes(rows, outcomes);
      BatchSteps(db, rows, outcomes, checked);
      BlockExec(db, rows[0], outcomes[0], checked);
      if !ExecAll(db, Block(rows[0], outcomes[0], checked)).stopped {
        BlockLeavesOthers(db, rows[0], outcomes[0], checked, r, outcomes[0]);
        BatchLeavesRow(AfterFirst(db, rows[0], outcomes[0], checked), rows[1..], outcomes[1..], checked, r);
      }
    }
  }

  // ---------- The constraints ----------

  lemma {:induction false} TargetKeepsSchema(db: Db, r: Row, url: string, checked: string)
    requires SchemaOk(db) && Awaiting(db, r) && TargetFits(db, r, url)
    ensures SchemaOk(db.(targets := db.targets[r.public := Target(r.content, url, checked)]))
  {
    hide UrlFits, PendingRow, EligibleToEnable;
  }

  lemma {:induction false} RowKeepsSchema(db: Db, p: string, l: Lookup)
    requires SchemaOk(db) && p in db.lookup && l.content == db.lookup[p].content && (l.enabled ==> EligibleToEnable(l))
    ensures SchemaOk(SetRow(db, p, l))
  {
    hide UrlFits, EligibleToEnable;
  }

  /** No statement breaks the schema. */
  lemma {:induction false} ExecKeepsSchema(db: Db, q: Query)
    requires SchemaOk(db) && |q.params| == Arity(q.sql) && Exec(db, q).Some?
    ensures SchemaOk(Exec(db, q).value.0)
  {
    hide SchemaOk, TargetFits, EventFits, SetRow;
    var r := if q.sql == InsertTarget then Row(q.params[2], q.params[3])
             else if q.sql == InsertEvent then Row(q.params[4], q.params[5]) else Row(q.params[1], q.params[2]);
    if q.sql != Other && Awaiting(db, r) {
      var l := db.lookup[r.public];
      match q.sql
      case InsertTarget => TargetKeepsSchema(db, r, q.params[0], q.params[1]);
      case InsertEvent => EventKeepsSchema(db, Exec(db, q).value.0.events);
      case Enable =>
        RowKeepsSchema(db, r.public, Lookup(r.content, ConditionallyApproved, Resolved, Pass, true, q.params[0]));
      case Fail => RowKeepsSchema(db, r.public, l.(verification := Failed, enabled := false, updated := q.params[0]));
      case KeepPending =>
        RowKeepsSchema(db, r.public, l.(verification := LookupTables.Pending, enabled := false,
                                        updated := q.params[0]));
    }
  }

  lemma {:induction false} EventKeepsSchema(db: Db, events: seq<Event>)
    requires SchemaOk(db)
    ensures SchemaOk(db.(events := events))
  {
  }
}
