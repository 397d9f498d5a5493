/** The insert-only reconciliation of scripts/affiliate_d1_incremental_reconciliation.py and the two preflights
    that apply its delta to an in-memory table,
    scripts/affiliate_d1_active_incremental_delta_preflight.py and
    scripts/affiliate_d1_incremental_delta_preflight.py. */
module Reconciliation {
  import opened Text
  import opened LookupTables
  import opened D1Query
  import opened ReconciliationText

  // ---------- Comparing two lists of pairs ----------

  function Elements<T(==)>(s: seq<T>): set<T> { set x | x in s }

  function Publics(rows: seq<Row>): (r: seq<string>)
    ensures |r| == |rows| && forall i :: 0 <= i < |r| ==> r[i] == rows[i].public
  {
    seq(|rows|, i requires 0 <= i < |rows| => rows[i].public)
  }

  function Contents(rows: seq<Row>): (r: seq<string>)
    ensures |r| == |rows| && forall i :: 0 <= i < |r| ==> r[i] == rows[i].content
  {
    seq(|rows|, i requires 0 <= i < |rows| => rows[i].content)
  }

  /** `_unique_mapping`, by counting. */
  predicate UniqueMapping(rows: seq<Row>) {
    |rows| == |Elements(Publics(rows))| && |rows| == |Elements(Contents(rows))|
  }

  function Members(rows: seq<Row>): set<Row> { Elements(rows) }

  function Pairs(remote: seq<Remote>): (r: seq<Row>)
    ensures |r| == |remote| && forall i :: 0 <= i < |r| ==> r[i] == remote[i].pair
  {
    seq(|remote|, i requires 0 <= i < |remote| => remote[i].pair)
  }

  /** The candidate rows that are not among the remote ones, in candidate order. */
  function Missing(candidate: seq<Row>, remote: set<Row>): seq<Row> {
    if candidate == [] then []
    else (if candidate[0] in remote then [] else [candidate[0]]) + Missing(candidate[1..], remote)
  }

  datatype Verdict = CountMismatch | NotUnique | NotSubset | Synchronized | Delta(missing: seq<Row>)

  function Reconcile(remote: seq<Row>, candidate: seq<Row>, expectedRemote: int, expectedCandidate: int): Verdict {
    if |remote| != expectedRemote || |candidate| != expectedCandidate then CountMismatch
    else if !UniqueMapping(remote) || !UniqueMapping(candidate) then NotUnique
    else if !(Members(remote) <= Members(candidate)) then NotSubset
    else if Missing(candidate, Members(remote)) == [] then Synchronized
    else Delta(Missing(candidate, Members(remote)))
  }

  predicate NoRepeat<T(==)>(s: seq<T>) { forall i, j :: 0 <= i < j < |s| ==> s[i] != s[j] }

  lemma {:induction false} ElementsGrow<T>(s: seq<T>, x: T)
    ensures Elements(s + [x]) == Elements(s) + {x}
  {
  }

  lemma {:induction false} NoRepeatGrows<T>(s: seq<T>, x: T)
    ensures NoRepeat(s + [x]) <==> NoRepeat(s) && x !in s
  {
    var all := s + [x];
    assert forall i :: 0 <= i < |s| ==> all[i] == s[i];
    if NoRepeat(all) {
      forall i, j | 0 <= i < j < |s| ensures s[i] != s[j] { assert all[i] != all[j]; }
      forall i | 0 <= i < |s| ensures s[i] != x { assert all[i] != all[|s|]; }
    }
  }

  /** A list has as many members as it is long exactly when nothing in it comes twice. */
  lemma {:induction false} DistinctCounts<T>(s: seq<T>)
    ensures |Elements(s)| <= |s|
    ensures |Elements(s)| == |s| <==> NoRepeat(s)
    decreases |s|
  {
    hide Elements, NoRepeat;
    if s == [] {
      EmptyElements<T>();
    } else {
      var front, last := s[..|s| - 1], s[|s| - 1];
      assert s == front + [last];
      DistinctCounts(front);
      ElementsGrow(front, last);
      NoRepeatGrows(front, last);
      assert last in Elements(front) <==> last in front by { ElementOf(front, last); }
      if last in front { assert Elements(front) + {last} == Elements(front); }
    }
  }

  lemma {:induction false} EmptyElements<T>()
    ensures Elements<T>([]) == {} && NoRepeat<T>([])
  {
  }

  lemma {:induction false} ElementOf<T>(s: seq<T>, x: T)
    ensures x in Elements(s) <==> x in s
  {
  }

  /** Counting finds exactly the lists in which no identifier comes twice. */
  lemma {:induction false} UniqueIsDistinct(rows: seq<Row>)
    ensures UniqueMapping(rows) <==> Distinct(rows)
  {
    hide Elements;
    DistinctCounts(Publics(rows));
    DistinctCounts(Contents(rows));
    if NoRepeat(Publics(rows)) && NoRepeat(Contents(rows)) {
      forall i, j | 0 <= i < j < |rows| ensures rows[i].public != rows[j].public && rows[i].content != rows[j].content {
        assert Publics(rows)[i] != Publics(rows)[j] && Contents(rows)[i] != Contents(rows)[j];
      }
    }
  }

  lemma {:induction false} MissingIs(candidate: seq<Row>, remote: set<Row>)
    ensures forall r :: r in Missing(candidate, remote) <==> r in candidate && r !in remote
    ensures Distinct(candidate) ==> Distinct(Missing(candidate, remote))
    decreases |candidate|
  {
    if candidate != [] {
      var rest := candidate[1..];
      MissingIs(rest, remote);
      assert candidate == [candidate[0]] + rest;
      if Distinct(candidate) {
        assert Distinct(rest);
        var m := Missing(rest, remote);
        forall i | 0 <= i < |m| ensures m[i].public != candidate[0].public && m[i].content != candidate[0].content {
          assert m[i] in rest;
          var k :| 0 <= k < |rest| && rest[k] == m[i];
          assert candidate[k + 1] == m[i];
        }
      }
    }
  }

  lemma {:induction false} MembersCount(rows: seq<Row>)
    requires Distinct(rows)
    ensures |Members(rows)| == |rows|
  {
    hide Elements;
    assert NoRepeat(rows);
    DistinctCounts(rows);
  }

  /** The delta has exactly as many rows as the candidate has more than the remote. */
  lemma {:induction false} DeltaSize(remote: seq<Row>, candidate: seq<Row>)
    requires Distinct(remote) && Distinct(candidate) && Members(remote) <= Members(candidate)
    ensures |Missing(candidate, Members(remote))| == |candidate| - |remote|
  {
    hide Distinct;
    var missing := Missing(candidate, Members(remote));
    MissingIs(candidate, Members(remote));
    MembersCount(remote);
    MembersCount(candidate);
    MembersCount(missing);
    assert Members(missing) == Members(candidate) - Members(remote) by {
      forall r ensures r in Members(missing) <==> r in Members(candidate) && r !in Members(remote) {
        MemberOf(missing, r);
        MemberOf(candidate, r);
      }
    }
    assert Members(candidate) == Members(missing) + Members(remote);
  }

  // ---------- The table ----------

  type Table = map<string, Lookup>

  predicate Holds(t: Table, content: string) { exists p :: p in t && t[p].content == content }

  /** A multi-row insert: it goes through as a whole, or a constraint refuses it as a whole. */
  function InsertAll(t: Table, rows: seq<(string, Lookup)>): Option<Table>
    decreases |rows|
  {
    if rows == [] then Some(t)
    else
      var (p, l) := rows[0];
      if p in t || Holds(t, l.content) || (l.enabled && !EligibleToEnable(l)) then None
      else InsertAll(t[p := l], rows[1..])
  }

  function NewRow(r: Row): (string, Lookup) {
    (r.public, Lookup(r.content, PendingPolicy, PendingConfirmation, LookupTables.Pending, false, EPOCH))
  }

  function NewRows(rows: seq<Row>): (r: seq<(string, Lookup)>)
    ensures |r| == |rows| && forall i :: 0 <= i < |r| ==> r[i] == NewRow(rows[i])
  {
    seq(|rows|, i requires 0 <= i < |rows| => NewRow(rows[i]))
  }

  function OldRow(r: Remote): (string, Lookup) {
    (r.pair.public, Lookup(r.pair.content, r.rights, r.lifecycle, r.verification, r.enabled, r.updated))
  }

  function OldRows(remote: seq<Remote>): (r: seq<(string, Lookup)>)
    ensures |r| == |remote| && forall i :: 0 <= i < |r| ==> r[i] == OldRow(remote[i])
  {
    seq(|remote|, i requires 0 <= i < |remote| => OldRow(remote[i]))
  }

  /** Rows that an insert accepts: no identifier twice, none in the table, and none enabled against the rule. */
  predicate Insertable(t: Table, rows: seq<(string, Lookup)>) {
    && (forall i, j :: 0 <= i < j < |rows| ==> rows[i].0 != rows[j].0 && rows[i].1.content != rows[j].1.content)
    && (forall i :: 0 <= i < |rows| ==> rows[i].0 !in t && !Holds(t, rows[i].1.content))
    && (forall i :: 0 <= i < |rows| ==> rows[i].1.enabled ==> EligibleToEnable(rows[i].1))
  }

  predicate UniqueContents(t: Table) { forall p, q :: p in t && q in t && t[p].content == t[q].content ==> p == q }

  /** The table after an insert that went through. */
  predicate Inserted(t: Table, rows: seq<(string, Lookup)>, t': Table) {
    && (forall p :: p in t ==> p in t' && t'[p] == t[p])
    && (forall i :: 0 <= i < |rows| ==> rows[i].0 in t' && t'[rows[i].0] == rows[i].1)
    && (forall p :: p in t' ==> p in t || exists i :: 0 <= i < |rows| && rows[i].0 == p)
    && |t'| == |t| + |rows|
    && (UniqueContents(t) ==> UniqueContents(t'))
  }

  lemma {:induction false} InsertAllExact(t: Table, rows: seq<(string, Lookup)>)
    requires Insertable(t, rows)
    ensures InsertAll(t, rows).Some? && Inserted(t, rows, InsertAll(t, rows).value)
    decreases |rows|
  {
    if rows != [] {
      hide EligibleToEnable, Inserted;
      var (p, l) := rows[0];
      var t1, rest := t[p := l], rows[1..];
      FirstInserted(t, rows);
      InsertAllExact(t1, rest);
      InsertedThrough(t, rows, InsertAll(t1, rest).value);
    }
  }

  lemma {:induction false} HoldsElsewhere(t: Table, p: string, l: Lookup, content: string)
    requires p !in t && content != l.content
    ensures Holds(t[p := l], content) <==> Holds(t, content)
  {
    var t1 := t[p := l];
    if Holds(t, content) {
      var q :| q in t && t[q].content == content;
      assert q in t1 && t1[q].content == content;
    }
  }

  lemma {:induction false} FirstInserted(t: Table, rows: seq<(string, Lookup)>)
    requires Insertable(t, rows) && rows != []
    ensures Insertable(t[rows[0].0 := rows[0].1], rows[1..])
  {
    hide EligibleToEnable, Holds;
    var t1 := t[rows[0].0 := rows[0].1];
    forall i | 1 <= i < |rows| ensures rows[i].0 !in t1 && !Holds(t1, rows[i].1.content) {
      HoldsElsewhere(t, rows[0].0, rows[0].1, rows[i].1.content);
    }
  }

  lemma {:induction false} InsertedThrough(t: Table, rows: seq<(string, Lookup)>, t': Table)
    requires Insertable(t, rows) && rows != [] && Inserted(t[rows[0].0 := rows[0].1], rows[1..], t')
    ensures Inserted(t, rows, t')
  {
    hide EligibleToEnable, Holds;
    var t1, rest := t[rows[0].0 := rows[0].1], rows[1..];
    assert |t1| == |t| + 1;
    forall p | p in t ensures p in t' && t'[p] == t[p] { assert p in t1 && t1[p] == t[p]; }
    forall i | 0 <= i < |rows| ensures rows[i].0 in t' && t'[rows[i].0] == rows[i].1 {
      if i == 0 { assert rows[0].0 in t1; } else { assert rest[i - 1] == rows[i]; }
    }
    forall p | p in t' ensures p in t || exists i :: 0 <= i < |rows| && rows[i].0 == p {
      if p !in t1 { var i :| 0 <= i < |rest| && rest[i].0 == p; assert rows[i + 1].0 == p; }
    }
    if UniqueContents(t) { FirstStaysUnique(t, rows[0].0, rows[0].1) by { FirstIsNew(t, rows); } }
  }

  lemma {:induction false} FirstIsNew(t: Table, rows: seq<(string, Lookup)>)
    requires Insertable(t, rows) && rows != []
    ensures !Holds(t, rows[0].1.content)
  {
  }

  lemma {:induction false} FirstStaysUnique(t: Table, p: string, l: Lookup)
    requires UniqueContents(t) && !Holds(t, l.content)
    ensures UniqueContents(t[p := l])
  {
    forall q | q in t ensures t[q].content != l.content { }
  }

  // ---------- Applying a delta ----------

  /** The remote rows can be loaded and hold what the export says. */
  lemma {:induction false} RemoteLoads(remote: seq<Remote>)
    requires Distinct(Pairs(remote)) && forall i :: 0 <= i < |remote| ==> Eligible(remote[i])
    ensures InsertAll(map[], OldRows(remote)).Some?
            && Inserted(map[], OldRows(remote), InsertAll(map[], OldRows(remote)).value)
  {
    hide InsertAll, Inserted;
    var rows, pairs := OldRows(remote), Pairs(remote);
    forall i, j | 0 <= i < j < |rows| ensures rows[i].0 != rows[j].0 && rows[i].1.content != rows[j].1.content {
      assert pairs[i].public != pairs[j].public && pairs[i].content != pairs[j].content;
    }
    InsertAllExact(map[], rows);
  }

  /** The pairs that a table maps. */
  predicate Maps(t: Table, rows: seq<Row>) {
    && (forall i :: 0 <= i < |rows| ==> rows[i].public in t && t[rows[i].public].content == rows[i].content)
    && (forall p :: p in t ==> exists i :: 0 <= i < |rows| && rows[i].public == p)
  }

  lemma {:induction false} EmptyIsUnique()
    ensures UniqueContents(map[])
  {
  }

  lemma {:induction false} InsertedMaps(remote: seq<Remote>, t: Table)
    requires Inserted(map[], OldRows(remote), t)
    ensures Maps(t, Pairs(remote)) && |t| == |remote| && UniqueContents(t)
  {
    hide UniqueContents, OldRows, Pairs;
    EmptyIsUnique();
    var rows, pairs := OldRows(remote), Pairs(remote);
    forall i | 0 <= i < |pairs| ensures pairs[i].public in t && t[pairs[i].public].content == pairs[i].content {
      assert rows[i] == OldRow(remote[i]) && pairs[i] == remote[i].pair;
    }
    forall p | p in t ensures exists i :: 0 <= i < |pairs| && pairs[i].public == p {
      var i :| 0 <= i < |rows| && rows[i].0 == p;
      assert rows[i] == OldRow(remote[i]) && pairs[i] == remote[i].pair;
    }
  }

  /** A missing row has identifiers that no remote row has. */
  lemma {:induction false} MissingIsNew(t: Table, remote: seq<Row>, candidate: seq<Row>, r: Row)
    requires Maps(t, remote) && Distinct(candidate) && Members(remote) <= Members(candidate)
             && r in Missing(candidate, Members(remote))
    ensures r.public !in t && !Holds(t, r.content)
  {
    MissingIs(candidate, Members(remote));
    assert r in candidate && r !in remote;
    var k :| 0 <= k < |candidate| && candidate[k] == r;
    forall p | p in t ensures p != r.public && t[p].content != r.content {
      var i :| 0 <= i < |remote| && remote[i].public == p;
      assert remote[i] in Members(remote) && remote[i] in candidate;
      var j :| 0 <= j < |candidate| && candidate[j] == remote[i];
      assert j != k;
    }
  }

  lemma {:induction false} MissingInserts(t: Table, remote: seq<Row>, candidate: seq<Row>)
    requires Maps(t, remote) && Distinct(candidate) && Members(remote) <= Members(candidate)
    ensures Insertable(t, NewRows(Missing(candidate, Members(remote))))
  {
    hide Maps, Holds, Members;
    var missing := Missing(candidate, Members(remote));
    var rows := NewRows(missing);
    MissingIs(candidate, Members(remote));
    forall i | 0 <= i < |rows| ensures rows[i].0 !in t && !Holds(t, rows[i].1.content) {
      MissingIsNew(t, remote, candidate, missing[i]);
    }
    forall i, j | 0 <= i < j < |rows| ensures rows[i].0 != rows[j].0 && rows[i].1.content != rows[j].1.content {
      assert missing[i].public != missing[j].public && missing[i].content != missing[j].content;
    }
  }

  /** The rows that the runtime may use. */
  function EligibleRows(t: Table): set<string> { set p | p in t && t[p].enabled && EligibleToEnable(t[p]) }

  predicate Untouched(before: Table, after: Table) { forall p :: p in before ==> p in after && after[p] == before[p] }

  predicate NewArePending(before: Table, after: Table) {
    forall p :: p in after && p !in before ==>
      after[p] == Lookup(after[p].content, PendingPolicy, PendingConfirmation, LookupTables.Pending, false, EPOCH)
  }

  /** When reconciliation is ready, the delta goes in and makes the table exactly the candidate mapping, with
      every existing row untouched, both identifiers still unique, the new rows disabled and pending, and the
      rows that the runtime may use unchanged. */
  lemma {:induction false} DeltaCompletesTheMapping(remote: seq<Remote>, candidate: seq<Row>, expectedRemote: int,
                                                    expectedCandidate: int)
    requires Reconcile(Pairs(remote), candidate, expectedRemote, expectedCandidate).Delta?
    requires forall i :: 0 <= i < |remote| ==> Eligible(remote[i])
    ensures InsertAll(map[], OldRows(remote)).Some?
    ensures var before := InsertAll(map[], OldRows(remote)).value;
            var missing := Reconcile(Pairs(remote), candidate, expectedRemote, expectedCandidate).missing;
            && |before| == |remote| == expectedRemote
            && InsertAll(before, NewRows(missing)).Some?
            && var after := InsertAll(before, NewRows(missing)).value;
            && Maps(after, candidate) && |after| == |candidate| == expectedCandidate && UniqueContents(after)
            && Untouched(before, after) && NewArePending(before, after) && EligibleRows(after) == EligibleRows(before)
            && |missing| == |candidate| - |remote|
  {
    hide Inserted, Maps, UniqueMapping, Distinct, Members, Missing, UniqueContents, Untouched, NewArePending,
         EligibleRows, Eligible, InsertAll;
    UniqueIsDistinct(Pairs(remote));
    UniqueIsDistinct(candidate);
    RemoteLoads(remote);
    var before := InsertAll(map[], OldRows(remote)).value;
    InsertedMaps(remote, before);
    var missing := Missing(candidate, Members(Pairs(remote)));
    MissingInserts(before, Pairs(remote), candidate);
    InsertAllExact(before, NewRows(missing));
    DeltaSize(Pairs(remote), candidate);
    AfterDelta(before, Pairs(remote), candidate, InsertAll(before, NewRows(missing)).value);
  }

  lemma {:induction false} AfterDelta(before: Table, remote: seq<Row>, candidate: seq<Row>, after: Table)
    requires Maps(before, remote) && UniqueContents(before) && Members(remote) <= Members(candidate)
    requires Inserted(before, NewRows(Missing(candidate, Members(remote))), after)
    ensures Maps(after, candidate) && |after| == |before| + |Missing(candidate, Members(remote))|
            && UniqueContents(after)
    ensures Untouched(before, after) && NewArePending(before, after) && EligibleRows(after) == EligibleRows(before)
  {
    hide UniqueContents, EligibleRows, Maps, Members;
    AfterMapsAll(before, remote, candidate, after);
    AfterMapsOnly(before, remote, candidate, after);
    NewPending(before, Missing(candidate, Members(remote)), after);
    NoNewEligible(before, after);
    assert Maps(after, candidate) by { MapsIs(after, candidate); }
  }

  lemma {:induction false} MapsIs(t: Table, rows: seq<Row>)
    ensures Maps(t, rows) <==> MapsAll(t, rows) && MapsOnly(t, rows)
  {
  }

  predicate MapsAll(t: Table, rows: seq<Row>) {
    forall i :: 0 <= i < |rows| ==> rows[i].public in t && t[rows[i].public].content == rows[i].content
  }

  predicate MapsOnly(t: Table, rows: seq<Row>) {
    forall p :: p in t ==> exists i :: 0 <= i < |rows| && rows[i].public == p
  }

  lemma {:induction false} NewPending(before: Table, missing: seq<Row>, after: Table)
    requires Inserted(before, NewRows(missing), after)
    ensures NewArePending(before, after) && Untouched(before, after)
  {
    hide UniqueContents;
    var rows := NewRows(missing);
    forall p | p in after && p !in before
      ensures after[p] == Lookup(after[p].content, PendingPolicy, PendingConfirmation, LookupTables.Pending, false,
                                 EPOCH)
    {
      var i :| 0 <= i < |rows| && rows[i].0 == p;
      assert rows[i] == NewRow(missing[i]);
    }
  }

  lemma {:induction false} AfterMapsAll(before: Table, remote: seq<Row>, candidate: seq<Row>, after: Table)
    requires Maps(before, remote) && Inserted(before, NewRows(Missing(candidate, Members(remote))), after)
    ensures MapsAll(after, candidate)
  {
    hide UniqueContents, Missing, NewRows;
    var missing := Missing(candidate, Members(remote));
    var rows := NewRows(missing);
    MissingIs(candidate, Members(remote));
    forall i | 0 <= i < |candidate| ensures candidate[i].public in after
           && after[candidate[i].public].content == candidate[i].content {
      var r := candidate[i];
      if r in remote {
        var k :| 0 <= k < |remote| && remote[k] == r;
        assert r.public in before;
      } else {
        assert r in missing;
        var k :| 0 <= k < |missing| && missing[k] == r;
        assert rows[k] == NewRow(r);
      }
    }
  }

  lemma {:induction false} AfterMapsOnly(before: Table, remote: seq<Row>, candidate: seq<Row>, after: Table)
    requires Maps(before, remote) && Members(remote) <= Members(candidate)
    requires Inserted(before, NewRows(Missing(candidate, Members(remote))), after)
    ensures MapsOnly(after, candidate)
  {
    hide UniqueContents, Missing, NewRows;
    var missing := Missing(candidate, Members(remote));
    var rows := NewRows(missing);
    MissingIs(candidate, Members(remote));
    forall p | p in after ensures exists i :: 0 <= i < |candidate| && candidate[i].public == p {
      var r: Row;
      if p in before {
        var k :| 0 <= k < |remote| && remote[k].public == p;
        r := remote[k];
        assert r in Members(remote);
      } else {
        var k :| 0 <= k < |rows| && rows[k].0 == p;
        r := missing[k];
        assert r in missing && rows[k] == NewRow(r);
      }
      assert r in candidate && r.public == p;
      var i :| 0 <= i < |candidate| && candidate[i] == r;
    }
  }

  lemma {:induction false} NoNewEligible(before: Table, after: Table)
    requires Untouched(before, after) && NewArePending(before, after)
    ensures EligibleRows(after) == EligibleRows(before)
  {
    forall p ensures p in EligibleRows(after) <==> p in EligibleRows(before) {
      if p in before { assert p in after && after[p] == before[p]; }
    }
  }

  /** A later export of the completed table, in whatever order, is reported as synchronized. */
  lemma {:induction false} ThenSynchronized(again: seq<Row>, candidate: seq<Row>)
    requires UniqueMapping(again) && UniqueMapping(candidate) && Members(again) == Members(candidate)
    ensures Reconcile(again, candidate, |again|, |candidate|) == Synchronized
  {
    hide UniqueMapping;
    NothingMissing(candidate, Members(again));
  }

  lemma {:induction false} NothingMissing(candidate: seq<Row>, remote: set<Row>)
    requires forall r :: r in candidate ==> r in remote
    ensures Missing(candidate, remote) == []
    decreases |candidate|
  {
    if candidate != [] { NothingMissing(candidate[1..], remote); }
  }

  lemma {:induction false} MemberOf(rows: seq<Row>, r: Row)
    ensures r in rows <==> r in Members(rows)
  {
  }

  /** The pairs of a table are the candidate pairs exactly when it maps the candidate. */
  lemma {:induction false} ExportOfMapping(t: Table, candidate: seq<Row>, again: seq<Row>)
    requires Maps(t, candidate) && Maps(t, again)
    ensures Members(again) == Members(candidate)
  {
    forall r ensures r in Members(again) <==> r in Members(candidate) {
      if r in Members(again) { MappedBoth(t, again, candidate, r); }
      if r in Members(candidate) { MappedBoth(t, candidate, again, r); }
    }
  }

  lemma {:induction false} MappedBoth(t: Table, a: seq<Row>, b: seq<Row>, r: Row)
    requires Maps(t, a) && Maps(t, b) && r in Members(a)
    ensures r in Members(b)
  {
    var i :| 0 <= i < |a| && a[i] == r;
    assert r.public in t;
    var k :| 0 <= k < |b| && b[k].public == r.public;
    assert b[k] == r;
  }

  /** Reconciling again after the delta was applied reports synchronized, for every export of the table. */
  lemma {:induction false} ReconcilingAgain(remote: seq<Remote>, candidate: seq<Row>, expectedRemote: int,
                                            expectedCandidate: int, again: seq<Row>)
    requires Reconcile(Pairs(remote), candidate, expectedRemote, expectedCandidate).Delta?
    requires forall i :: 0 <= i < |remote| ==> Eligible(remote[i])
    requires UniqueMapping(again)
    requires InsertAll(map[], OldRows(remote)).Some?
    requires var before := InsertAll(map[], OldRows(remote)).value;
             var after := InsertAll(before,
                                    NewRows(Reconcile(Pairs(remote), candidate, expectedRemote,
                                                      expectedCandidate).missing));
             after.Some? && Maps(after.value, again)
    ensures Reconcile(again, candidate, |again|, expectedCandidate) == Synchronized
  {
    hide InsertAll, Maps, UniqueMapping, Missing, Members, Eligible, UniqueContents, Untouched, NewArePending,
         EligibleRows;
    DeltaCompletesTheMapping(remote, candidate, expectedRemote, expectedCandidate);
    var before := InsertAll(map[], OldRows(remote)).value;
    var after := InsertAll(before, NewRows(Reconcile(Pairs(remote), candidate, expectedRemote,
                                                     expectedCandidate).missing)).value;
    ExportOfMapping(after, candidate, again);
    ThenSynchronized(again, candidate);
  }

  // ---------- Reconciling two files ----------

  datatype Report = FailClosed | InSync(allPending: bool) | Ready(missing: seq<Row>, delta: string, allPending: bool)

  /** The two files are the texts of these rows. */
  predicate Files(remoteText: string, candidateText: string, remote: seq<Remote>, candidate: seq<Row>) {
    RemoteFile(remoteText, remote) && CandidateFile(candidateText, candidate)
  }

  predicate AllPending(remote: seq<Remote>) { forall i :: 0 <= i < |remote| ==> DisabledPending(remote[i]) }

  /** What the report says about two readable files. */
  function ReportOf(remote: seq<Remote>, candidate: seq<Row>, expectedRemote: int, expectedCandidate: int): Report {
    match Reconcile(Pairs(remote), candidate, expectedRemote, expectedCandidate)
    case Synchronized => InSync(AllPending(remote))
    case Delta(missing) => Ready(missing, DeltaText(missing), AllPending(remote))
    case _ => FailClosed
  }

  /** `reconcile_snapshots`; `known` says whether both digests are the expected ones. */
  method ReconcileSnapshots(remoteText: string, candidateText: string, known: bool, expectedRemote: int,
                            expectedCandidate: int)
    returns (r: Report, ghost remote: seq<Remote>, ghost candidate: seq<Row>)
    ensures forall rs, cs ::
              known && expectedRemote >= 0 && expectedCandidate > 0 && Files(remoteText, candidateText, rs, cs) ==>
              r == ReportOf(rs, cs, expectedRemote, expectedCandidate)
    ensures r != FailClosed ==> known && Files(remoteText, candidateText, remote, candidate)
                                && r == ReportOf(remote, candidate, expectedRemote, expectedCandidate)
  {
    hide RemoteFile, CandidateFile, ReportOf;
    remote, candidate := [], [];
    if !known || expectedRemote < 0 || expectedCandidate <= 0 { return FailClosed, [], []; }
    var rs, allPending := ParseRemote(remoteText);
    if rs.None? { return FailClosed, [], []; }
    var cs := ParseCandidate(candidateText);
    if cs.None? { return FailClosed, [], []; }
    remote, candidate := rs.value, cs.value;
    OneReading(remoteText, candidateText, remote, candidate);
    match Reconcile(Pairs(rs.value), cs.value, expectedRemote, expectedCandidate) {
      case Synchronized => r := InSync(allPending);
      case Delta(missing) => r := Ready(missing, DeltaText(missing), allPending);
      case _ => r := FailClosed;
    }
    assert r == ReportOf(remote, candidate, expectedRemote, expectedCandidate) by {
      ReportIs(remote, candidate, expectedRemote, expectedCandidate);
    }
  }

  lemma {:induction false} ReportIs(remote: seq<Remote>, candidate: seq<Row>, expectedRemote: int,
                                    expectedCandidate: int)
    ensures ReportOf(remote, candidate, expectedRemote, expectedCandidate) ==
            match Reconcile(Pairs(remote), candidate, expectedRemote, expectedCandidate) {
              case Synchronized => InSync(forall i :: 0 <= i < |remote| ==> DisabledPending(remote[i]))
              case Delta(missing) => Ready(missing, DeltaText(missing), forall i :: 0 <= i < |remote| ==>
                                           DisabledPending(remote[i]))
              case _ => FailClosed
            }
  {
    hide Reconcile, DeltaText;
  }

  lemma {:induction false} OneReading(remoteText: string, candidateText: string, remote: seq<Remote>,
                                      candidate: seq<Row>)
    requires Files(remoteText, candidateText, remote, candidate)
    ensures forall rs, cs :: Files(remoteText, candidateText, rs, cs) ==> rs == remote && cs == candidate
  {
    hide RemoteFile, CandidateFile;
    forall rs, cs | Files(remoteText, candidateText, rs, cs) ensures rs == remote && cs == candidate {
      RemoteRowsUnique(remoteText, rs, remote);
      CandidateRowsUnique(candidateText, cs, candidate);
    }
  }

  /** What a ready report hands out reads back as the rows that are missing, in candidate order. */
  lemma {:induction false} ReadyDeltaReadsBack(remoteText: string, candidateText: string, remote: seq<Remote>,
                                               candidate: seq<Row>, expectedRemote: int, expectedCandidate: int)
    requires Files(remoteText, candidateText, remote, candidate)
    requires ReportOf(remote, candidate, expectedRemote, expectedCandidate).Ready?
    ensures var r := ReportOf(remote, candidate, expectedRemote, expectedCandidate);
            r.missing == Missing(candidate, Members(Pairs(remote))) && DeltaOf(r.delta, r.missing)
  {
    hide DeltaOf, RowOk, Lines, RemoteFile, PairLine, UniqueMapping, CANDIDATE_OPEN, CANDIDATE_CLOSE;
    var missing := Missing(candidate, Members(Pairs(remote)));
    MissingIs(candidate, Members(Pairs(remote)));
    forall i | 0 <= i < |missing| ensures RowOk(missing[i]) {
      assert missing[i] in candidate;
    }
    DeltaReadsBack(missing);
  }

  // ---------- The preflights ----------

  /** An in-memory database with the lookup table. */
  class MemoryTable {
    var rows: Table

    constructor ()
      ensures rows == map[]
    {
      rows := map[];
    }

    /** One insert statement. */
    method Insert(batch: seq<(string, Lookup)>) returns (ok: bool)
      modifies this
      ensures ok <==> InsertAll(old(rows), batch).Some?
      ensures rows == if ok then InsertAll(old(rows), batch).value else old(rows)
    {
      var start := rows;
      var k := 0;
      assert batch[0..] == batch;
      while k < |batch|
        invariant 0 <= k <= |batch|
        invariant InsertAll(rows, batch[k..]) == InsertAll(start, batch)
      {
        var (p, l) := batch[k];
        assert batch[k..][0] == batch[k] && batch[k..][1..] == batch[k + 1..];
        if p in rows || Holds(rows, l.content) || (l.enabled && !EligibleToEnable(l)) {
          rows := start;
          return false;
        }
        rows := rows[p := l];
        k := k + 1;
      }
      assert batch[k..] == [];
      return true;
    }
  }

  /** The postconditions that the active preflight checks. */
  predicate ActivePostconditions(before: Table, after: Table, missing: nat, expectedRemote: int,
                                 expectedCandidate: int) {
    && |before| == expectedRemote && Untouched(before, after) && |after| == expectedCandidate
    && |after| == |before| + missing
    && NewArePending(before, after) && |EligibleRows(after)| == |EligibleRows(before)|
  }

  /** The postconditions that the preflight for pending tables checks. */
  predicate PendingPostconditions(before: Table, after: Table, missing: nat, expectedRemote: int,
                                  expectedCandidate: int) {
    && |before| == expectedRemote && |after| == expectedCandidate && |after| == |before| + missing
    && (forall p :: p in after ==> RowPending(after[p])) && EligibleRows(after) == {}
  }

  /** Scripts with a null character are refused by the database driver. */
  predicate Loadable(script: string) { '\0' !in script }

  /** The preflight of an active table, where `knownDelta` says whether the delta has the expected digest: it says
      ready exactly when reconciliation is ready with this very delta; its check of the applied delta never fails. */
  method AssessActive(remoteText: string, candidateText: string, deltaText: string, knownDelta: bool, known: bool,
                      expectedRemote: int, expectedCandidate: int)
    returns (ready: bool)
    ensures forall rs, cs ::
              known && expectedRemote >= 0 && expectedCandidate > 0 && Files(remoteText, candidateText, rs, cs) ==>
              (ready <==> knownDelta && Loadable(remoteText)
                          && ReportOf(rs, cs, expectedRemote, expectedCandidate).Ready?
                          && ReportOf(rs, cs, expectedRemote, expectedCandidate).delta == deltaText)
    ensures ready ==> knownDelta && known && exists rs, cs :: Files(remoteText, candidateText, rs, cs)
  {
    hide RemoteFile, CandidateFile, Reconcile, ActivePostconditions, InsertAll, Files, DeltaText;
    if !knownDelta { return false; }
    var report, remote, candidate := ReconcileSnapshots(remoteText, candidateText, known, expectedRemote,
                                                        expectedCandidate);
    if !report.Ready? || report.delta != deltaText || !Loadable(remoteText) { return false; }
    OneReading(remoteText, candidateText, remote, candidate);
    FilesParse(remoteText, candidateText, remote, candidate);
    var parsed, _ := ParseRemote(remoteText);
    if parsed.None? { return false; }
    ReadRemoteIs(remoteText, candidateText, remote, candidate, parsed.value);
    ReadyApplies(remoteText, candidateText, remote, candidate, expectedRemote, expectedCandidate);
    var table := new MemoryTable();
    var loaded := table.Insert(OldRows(parsed.value));
    var before := table.rows;
    var applied := table.Insert(NewRows(report.missing));
    var after := table.rows;
    if !loaded || !applied { return false; }
    return ActivePostconditions(before, after, |report.missing|, expectedRemote, expectedCandidate);
  }

  /** The preflight of a table that is still pending throughout: it says ready exactly when reconciliation is
      ready with this very delta and every exported row is disabled and pending. */
  method AssessPending(remoteText: string, candidateText: string, deltaText: string, knownDelta: bool, known: bool,
                       expectedRemote: int, expectedCandidate: int)
    returns (ready: bool)
    ensures forall rs, cs ::
              known && expectedRemote >= 0 && expectedCandidate > 0 && Files(remoteText, candidateText, rs, cs) ==>
              (ready <==> knownDelta && Loadable(remoteText)
                          && ReportOf(rs, cs, expectedRemote, expectedCandidate).Ready?
                          && ReportOf(rs, cs, expectedRemote, expectedCandidate).delta == deltaText && AllPending(rs))
    ensures ready ==> knownDelta && known && exists rs, cs :: Files(remoteText, candidateText, rs, cs)
  {
    hide RemoteFile, CandidateFile, Reconcile, ActivePostconditions, PendingPostconditions, InsertAll, Files, DeltaText,
         AllPending;
    if !knownDelta { return false; }
    var report, remote, candidate := ReconcileSnapshots(remoteText, candidateText, known, expectedRemote,
                                                        expectedCandidate);
    if !report.Ready? || report.delta != deltaText || !Loadable(remoteText) { return false; }
    OneReading(remoteText, candidateText, remote, candidate);
    FilesParse(remoteText, candidateText, remote, candidate);
    var parsed, _ := ParseRemote(remoteText);
    if parsed.None? { return false; }
    ReadRemoteIs(remoteText, candidateText, remote, candidate, parsed.value);
    ReadyApplies(remoteText, candidateText, remote, candidate, expectedRemote, expectedCandidate);
    PendingStays(remoteText, candidateText, remote, candidate, expectedRemote, expectedCandidate);
    var table := new MemoryTable();
    var loaded := table.Insert(OldRows(parsed.value));
    var before := table.rows;
    var applied := table.Insert(NewRows(report.missing));
    var after := table.rows;
    if !loaded || !applied { return false; }
    return PendingPostconditions(before, after, |report.missing|, expectedRemote, expectedCandidate);
  }

  predicate RowPending(l: Lookup) {
    !l.enabled && l.rights.PendingPolicy? && l.lifecycle.PendingConfirmation? && l.verification.Pending?
  }

  /** The check of the applied delta fails exactly where an exported row is not pending. */
  lemma {:induction false} PendingStays(remoteText: string, candidateText: string, remote: seq<Remote>,
                                        candidate: seq<Row>, expectedRemote: int, expectedCandidate: int)
    requires Files(remoteText, candidateText, remote, candidate)
    requires ReportOf(remote, candidate, expectedRemote, expectedCandidate).Ready?
    requires InsertAll(map[], OldRows(remote)).Some?
    requires InsertAll(InsertAll(map[], OldRows(remote)).value,
                       NewRows(ReportOf(remote, candidate, expectedRemote, expectedCandidate).missing)).Some?
    ensures var before := InsertAll(map[], OldRows(remote)).value;
            var missing := ReportOf(remote, candidate, expectedRemote, expectedCandidate).missing;
            var after := InsertAll(before, NewRows(missing)).value;
            PendingPostconditions(before, after, |missing|, expectedRemote, expectedCandidate) <==> AllPending(remote)
  {
    hide InsertAll, Reconcile, EligibleRows, UniqueContents, Maps, RemoteFile, CandidateFile, DeltaText, Untouched,
         NewArePending, Inserted, AllPending;
    ReadyApplies(remoteText, candidateText, remote, candidate, expectedRemote, expectedCandidate);
    RemoteLoadsFrom(remoteText, candidateText, remote, candidate, expectedRemote, expectedCandidate);
    var before := InsertAll(map[], OldRows(remote)).value;
    var after := InsertAll(before, NewRows(ReportOf(remote, candidate, expectedRemote,
                                                    expectedCandidate).missing)).value;
    PendingTable(remote, before, after);
  }

  lemma {:induction false} RemoteLoadsFrom(remoteText: string, candidateText: string, remote: seq<Remote>,
                                           candidate: seq<Row>, expectedRemote: int, expectedCandidate: int)
    requires Files(remoteText, candidateText, remote, candidate)
    requires ReportOf(remote, candidate, expectedRemote, expectedCandidate).Ready?
    ensures InsertAll(map[], OldRows(remote)).Some?
            && Inserted(map[], OldRows(remote), InsertAll(map[], OldRows(remote)).value)
  {
    hide InsertAll, Inserted, Missing, UniqueMapping, RemoteOk, RemoteLine, Lines, DeltaText;
    UniqueIsDistinct(Pairs(remote));
    RemoteLoads(remote);
  }

  lemma {:induction false} PendingTable(remote: seq<Remote>, before: Table, after: Table)
    requires Inserted(map[], OldRows(remote), before) && Untouched(before, after) && NewArePending(before, after)
    ensures (forall p :: p in after ==> RowPending(after[p])) <==> AllPending(remote)
    ensures (forall p :: p in after ==> RowPending(after[p])) ==> EligibleRows(after) == {}
  {
    hide UniqueContents, OldRows;
    var rows := OldRows(remote);
    if AllPending(remote) {
      forall p | p in after ensures RowPending(after[p]) {
        if p in before {
          var i :| 0 <= i < |rows| && rows[i].0 == p;
          assert rows[i] == OldRow(remote[i]) && DisabledPending(remote[i]);
        }
      }
    }
    if forall p :: p in after ==> RowPending(after[p]) {
      forall i | 0 <= i < |remote| ensures DisabledPending(remote[i]) {
        assert rows[i] == OldRow(remote[i]) && rows[i].0 in before;
        assert RowPending(after[rows[i].0]);
      }
    }
  }

  lemma {:induction false} FilesParse(remoteText: string, candidateText: string, remote: seq<Remote>,
                                      candidate: seq<Row>)
    requires Files(remoteText, candidateText, remote, candidate)
    ensures RemoteFile(remoteText, remote)
  {
  }

  lemma {:induction false} ReadRemoteIs(remoteText: string, candidateText: string, remote: seq<Remote>,
                                        candidate: seq<Row>, parsed: seq<Remote>)
    requires Files(remoteText, candidateText, remote, candidate) && RemoteFile(remoteText, parsed)
    ensures parsed == remote
  {
    RemoteRowsUnique(remoteText, parsed, remote);
  }

  /** Loading the export and applying a ready delta always works and meets the postconditions. */
  lemma {:induction false} ReadyApplies(remoteText: string, candidateText: string, remote: seq<Remote>,
                                        candidate: seq<Row>, expectedRemote: int, expectedCandidate: int)
    requires Files(remoteText, candidateText, remote, candidate)
    requires ReportOf(remote, candidate, expectedRemote, expectedCandidate).Ready?
    ensures InsertAll(map[], OldRows(remote)).Some?
    ensures var before := InsertAll(map[], OldRows(remote)).value;
            var r := ReportOf(remote, candidate, expectedRemote, expectedCandidate);
            && InsertAll(before, NewRows(r.missing)).Some?
            && ActivePostconditions(before, InsertAll(before, NewRows(r.missing)).value, |r.missing|, expectedRemote,
                                    expectedCandidate)
  {
    hide InsertAll, Reconcile, EligibleRows, UniqueContents, Maps, Untouched, NewArePending, RemoteOk, RemoteLine,
         Lines, DeltaText;
    DeltaCompletesTheMapping(remote, candidate, expectedRemote, expectedCandidate);
  }
}
