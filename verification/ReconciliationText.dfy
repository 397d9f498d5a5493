/** The texts of scripts/affiliate_d1_incremental_reconciliation.py: the candidate file, the exported remote
    rows and the insert-only delta, each with its reader. */
module ReconciliationText {
  import opened Text
  import opened LookupTables
  import opened D1Query

  const EPOCH := "1970-01-01T00:00:00Z"

  // ---------- Lines ----------

  /** The characters at which a Python string is split into lines. */
  predicate LineBreak(c: char) {
    c == '\n' || c == '\r' || c == '\U{0B}' || c == '\U{0C}' || c == '\U{1C}' || c == '\U{1D}' || c == '\U{1E}'
    || c == '\U{85}' || c == '\U{2028}' || c == '\U{2029}'
  }

  /** The length of the first line. */
  function LineEnd(s: string): (n: nat)
    ensures n <= |s| && (n < |s| ==> LineBreak(s[n])) && forall i :: 0 <= i < n ==> !LineBreak(s[i])
  {
    if s == "" || LineBreak(s[0]) then 0 else 1 + LineEnd(s[1..])
  }

  /** `splitlines`. */
  function Lines(s: string): seq<string>
    decreases |s|
  {
    if s == "" then []
    else
      var n := LineEnd(s);
      if n == |s| then [s]
      else [s[..n]] + Lines(s[n + if s[n] == '\r' && n + 1 < |s| && s[n + 1] == '\n' then 2 else 1..])
  }

  predicate OneLine(s: string) { forall i :: 0 <= i < |s| ==> !LineBreak(s[i]) }

  function Unlines(lines: seq<string>): string { if lines == [] then "" else lines[0] + "\n" + Unlines(lines[1..]) }

  lemma {:induction false} LineEndOfLine(line: string, rest: string)
    requires OneLine(line)
    ensures LineEnd(line + "\n" + rest) == |line|
  {
    var s := line + "\n" + rest;
    assert s[|line|] == '\n';
    assert forall i :: 0 <= i < |line| ==> s[i] == line[i];
  }

  lemma {:induction false} LinesOfUnlines(lines: seq<string>)
    requires forall i :: 0 <= i < |lines| ==> OneLine(lines[i])
    ensures Lines(Unlines(lines)) == lines
    decreases |lines|
  {
    hide OneLine, LineEnd;
    if lines != [] {
      var rest := Unlines(lines[1..]);
      LineEndOfLine(lines[0], rest);
      LinesOfUnlines(lines[1..]);
      var s := lines[0] + "\n" + rest;
      assert s[..|lines[0]|] == lines[0] && s[|lines[0]|] == '\n' && s[|lines[0]| + 1..] == rest;
    }
  }

  // ---------- Reading a line piece by piece ----------

  predicate Quoteless(s: string) { forall i :: 0 <= i < |s| ==> s[i] != '\'' }

  function Strip(s: string, lit: string): Option<string> { if lit <= s then Some(s[|lit|..]) else None }

  /** The position of the first quote, or the length. */
  function QuoteAt(s: string): (n: nat)
    ensures n <= |s| && (n < |s| ==> s[n] == '\'') && forall i :: 0 <= i < n ==> s[i] != '\''
  {
    if s == "" || s[0] == '\'' then 0 else 1 + QuoteAt(s[1..])
  }

  /** The text before the first quote, and the rest from the quote on. */
  function Take(s: string): (r: (string, string))
    ensures r.0 + r.1 == s && Quoteless(r.0)
  {
    (s[..QuoteAt(s)], s[QuoteAt(s)..])
  }

  /** A quoted field and what follows it, when the quote is followed as expected. */
  function Field(s: Option<string>, close: string): (string, Option<string>) {
    if s.None? then ("", None) else (Take(s.value).0, Strip(Take(s.value).1, close))
  }

  lemma {:induction false} StripExact(lit: string, rest: string)
    ensures Strip(lit + rest, lit) == Some(rest)
  {
  }

  lemma {:induction false} StripSound(s: string, lit: string)
    requires Strip(s, lit).Some?
    ensures s == lit + Strip(s, lit).value
  {
  }

  lemma {:induction false} TakeExact(field: string, rest: string)
    requires Quoteless(field) && rest != "" && rest[0] == '\''
    ensures Take(field + rest) == (field, rest)
  {
    var s := field + rest;
    assert s[|field|] == '\'' && forall i :: 0 <= i < |field| ==> s[i] == field[i];
    assert QuoteAt(s) == |field|;
    assert s[..|field|] == field && s[|field|..] == rest;
  }

  lemma {:induction false} FieldExact(field: string, close: string, rest: string)
    requires Quoteless(field) && close != "" && close[0] == '\''
    ensures Field(Some(field + (close + rest)), close) == (field, Some(rest))
  {
    hide Take, Quoteless;
    TakeExact(field, close + rest);
    StripExact(close, rest);
  }

  lemma {:induction false} FieldSound(s: Option<string>, close: string)
    requires Field(s, close).1.Some?
    ensures s.Some? && s.value == Field(s, close).0 + (close + Field(s, close).1.value) && Quoteless(Field(s, close).0)
  {
    hide Quoteless;
    StripSound(Take(s.value).1, close);
  }

  lemma {:induction false} RowQuoteless(r: Row)
    requires RowOk(r)
    ensures Quoteless(r.public) && Quoteless(r.content) && OneLine(r.public) && OneLine(r.content)
  {
    forall i | 0 <= i < |r.public| ensures r.public[i] != '\'' && !LineBreak(r.public[i]) {
      if i < 4 { assert r.public[i] == r.public[..4][i] == "itm_"[i]; } else { assert HexChar(r.public[4..][i - 4]); }
    }
    forall i | 0 <= i < |r.content| ensures r.content[i] != '\'' && !LineBreak(r.content[i]) {
      assert ContentChar(r.content[i]);
    }
  }

  // ---------- Candidate lines and delta lines ----------

  const CANDIDATE_OPEN := DELTA_HEADER + " ('"
  const CANDIDATE_CLOSE := "', '1970-01-01T00:00:00Z');"
  const INSERT_INTO := "INSERT INTO affiliate_item_lookup "
  const COLUMNS := "(public_id, content_id, updated_at) VALUES"
  const DELTA_HEADER := INSERT_INTO + COLUMNS
  const DELTA_MORE := "', '1970-01-01T00:00:00Z'),"
  const BETWEEN := "', '"

  /** A pair between its opening and its closing text. */
  function PairLine(open: string, r: Row, close: string): string {
    open + (r.public + (BETWEEN + (r.content + (close + ""))))
  }

  function ReadPair(open: string, line: string, close: string): Option<Row> {
    var (public, rest) := Field(Strip(line, open), BETWEEN);
    var (content, end) := Field(rest, close);
    if end == Some("") && RowOk(Row(public, content)) then Some(Row(public, content)) else None
  }

  /** A line is read as a pair exactly when it is the line of that pair. */
  lemma {:induction false} ReadPairExact(open: string, line: string, close: string, r: Row)
    requires close != "" && close[0] == '\''
    ensures ReadPair(open, line, close) == Some(r) <==> RowOk(r) && line == PairLine(open, r, close)
  {
    hide Strip, Field, RowOk, Quoteless;
    if ReadPair(open, line, close) == Some(r) {
      FieldSound(Field(Strip(line, open), BETWEEN).1, close);
      FieldSound(Strip(line, open), BETWEEN);
      StripSound(line, open);
    }
    if RowOk(r) && line == PairLine(open, r, close) {
      RowQuoteless(r);
      StripExact(open, r.public + (BETWEEN + (r.content + (close + ""))));
      FieldExact(r.public, BETWEEN, r.content + (close + ""));
      FieldExact(r.content, close, "");
    }
  }

  /** The body of a candidate file: every line the insert of a pair. */
  predicate CandidateBody(lines: seq<string>, rows: seq<Row>) {
    |lines| == |rows| && forall i :: 0 <= i < |rows| ==>
       RowOk(rows[i]) && lines[i] == PairLine(CANDIDATE_OPEN, rows[i], CANDIDATE_CLOSE)
  }

  predicate CandidateFile(text: string, rows: seq<Row>) {
    var lines := Lines(text);
    && |lines| >= 3 && lines[0] == "BEGIN TRANSACTION;" && lines[|lines| - 1] == "COMMIT;"
    && CandidateBody(lines[1..|lines| - 1], rows)
  }

  /** `_parse_candidate`: it succeeds with the rows whose file this is, and fails when there are none such. */
  method ParseCandidate(text: string) returns (r: Option<seq<Row>>)
    ensures r.Some? ==> CandidateFile(text, r.value)
    ensures r.None? ==> forall rows :: !CandidateFile(text, rows)
  {
    hide RowOk, PairLine, ReadPair, Lines, CANDIDATE_OPEN, CANDIDATE_CLOSE;
    var lines := Lines(text);
    if |lines| < 3 || lines[0] != "BEGIN TRANSACTION;" || lines[|lines| - 1] != "COMMIT;" { return None; }
    var body := lines[1..|lines| - 1];
    var rows: seq<Row> := [];
    var k := 0;
    while k < |body|
      invariant 0 <= k <= |body| && CandidateBody(body[..k], rows)
    {
      var row := ReadPair(CANDIDATE_OPEN, body[k], CANDIDATE_CLOSE);
      CandidateLineExact(body[k]);
      if row.None? { return None; }
      rows := rows + [row.value];
      k := k + 1;
    }
    assert body[..k] == body;
    return Some(rows);
  }

  lemma {:induction false} CandidateLineExact(line: string)
    ensures forall r :: ReadPair(CANDIDATE_OPEN, line, CANDIDATE_CLOSE) == Some(r) <==>
                        RowOk(r) && line == PairLine(CANDIDATE_OPEN, r, CANDIDATE_CLOSE)
  {
    hide ReadPair, PairLine, RowOk;
    forall r
      ensures ReadPair(CANDIDATE_OPEN, line, CANDIDATE_CLOSE) == Some(r) <==>
              RowOk(r) && line == PairLine(CANDIDATE_OPEN, r, CANDIDATE_CLOSE)
    {
      ReadPairExact(CANDIDATE_OPEN, line, CANDIDATE_CLOSE, r);
    }
  }

  /** A candidate file has one list of rows. */
  lemma {:induction false} CandidateRowsUnique(text: string, rows: seq<Row>, rows': seq<Row>)
    requires CandidateFile(text, rows) && CandidateFile(text, rows')
    ensures rows == rows'
  {
    hide RowOk, PairLine, Lines, CANDIDATE_OPEN, CANDIDATE_CLOSE;
    forall i | 0 <= i < |rows| ensures rows[i] == rows'[i] { CandidateLineExact(Lines(text)[1..|Lines(text)| - 1][i]); }
  }

  // ---------- The delta ----------

  /** The lines of the delta: only the last one ends the statement. */
  function DeltaLine(rows: seq<Row>, i: nat): string
    requires i < |rows|
  {
    PairLine("('", rows[i], if i < |rows| - 1 then DELTA_MORE else CANDIDATE_CLOSE)
  }

  function DeltaLines(rows: seq<Row>): seq<string> {
    [DELTA_HEADER] + seq(|rows|, i requires 0 <= i < |rows| => DeltaLine(rows, i))
  }

  function DeltaText(rows: seq<Row>): string { Unlines(DeltaLines(rows)) }

  /** A reader of a delta: one insert statement over several lines. */
  predicate DeltaOf(text: string, rows: seq<Row>) {
    var lines := Lines(text);
    && |lines| == |rows| + 1 && lines[0] == DELTA_HEADER
    && forall i :: 0 <= i < |rows| ==>
         ReadPair("('", lines[i + 1], if i < |rows| - 1 then DELTA_MORE else CANDIDATE_CLOSE) == Some(rows[i])
  }

  lemma {:induction false} PairLineIsOne(open: string, r: Row, close: string)
    requires OneLine(open) && RowOk(r) && OneLine(close)
    ensures OneLine(PairLine(open, r, close))
  {
    hide RowOk, LineBreak;
    RowQuoteless(r);
    OneLineAppend(close, "");
    OneLineAppend(r.content, close + "");
    assert OneLine(BETWEEN) by { PunctuationIsOne(); }
    OneLineAppend(BETWEEN, r.content + (close + ""));
    OneLineAppend(r.public, BETWEEN + (r.content + (close + "")));
    OneLineAppend(open, r.public + (BETWEEN + (r.content + (close + ""))));
  }

  lemma {:induction false} OneLineAppend(a: string, b: string)
    requires OneLine(a) && OneLine(b)
    ensures OneLine(a + b)
  {
    hide LineBreak;
  }

  predicate Printable(s: string) { forall i :: 0 <= i < |s| ==> ' ' <= s[i] <= '~' }

  lemma {:induction false} PrintableIsOne(s: string)
    requires Printable(s)
    ensures OneLine(s)
  {
  }

  lemma {:induction false} PunctuationIsOne()
    ensures OneLine("', '") && OneLine("('") && OneLine("")
  {
    hide OneLine;
    PrintableIsOne("', '");
    PrintableIsOne("('");
    PrintableIsOne("");
  }

  lemma {:induction false} ClosingsAreOne()
    ensures OneLine(DELTA_MORE) && OneLine(CANDIDATE_CLOSE)
  {
    hide OneLine;
    PrintableIsOne(DELTA_MORE);
    PrintableIsOne(CANDIDATE_CLOSE);
  }

  lemma {:induction false} InsertIsOne()
    ensures OneLine(INSERT_INTO)
  {
    hide OneLine;
    PrintableIsOne(INSERT_INTO);
  }

  lemma {:induction false} ColumnsAreOne()
    ensures OneLine(COLUMNS)
  {
    hide OneLine;
    PrintableIsOne(COLUMNS);
  }

  lemma {:induction false} HeaderIsOne()
    ensures OneLine(DELTA_HEADER)
  {
    hide INSERT_INTO, COLUMNS, OneLine;
    InsertIsOne();
    ColumnsAreOne();
    OneLineAppend(INSERT_INTO, COLUMNS);
  }

  /** What is emitted reads back as the missing rows, in their order. */
  lemma {:induction false} DeltaReadsBack(rows: seq<Row>)
    requires forall i :: 0 <= i < |rows| ==> RowOk(rows[i])
    ensures DeltaOf(DeltaText(rows), rows)
  {
    hide RowOk, OneLine, Lines, Unlines, PairLine, ReadPair, DELTA_MORE, CANDIDATE_CLOSE, DELTA_HEADER;
    PunctuationIsOne();
    ClosingsAreOne();
    HeaderIsOne();
    var lines := DeltaLines(rows);
    forall i | 0 <= i < |lines| ensures OneLine(lines[i]) {
      if i > 0 { PairLineIsOne("('", rows[i - 1], if i - 1 < |rows| - 1 then DELTA_MORE else CANDIDATE_CLOSE); }
    }
    LinesOfUnlines(lines);
    ClosingsAreQuoted();
    forall i | 0 <= i < |rows|
      ensures ReadPair("('", lines[i + 1], if i < |rows| - 1 then DELTA_MORE else CANDIDATE_CLOSE) == Some(rows[i])
    {
      ReadPairExact("('", lines[i + 1], if i < |rows| - 1 then DELTA_MORE else CANDIDATE_CLOSE, rows[i]);
    }
  }

  lemma {:induction false} ClosingsAreQuoted()
    ensures DELTA_MORE != "" && DELTA_MORE[0] == '\'' && CANDIDATE_CLOSE != "" && CANDIDATE_CLOSE[0] == '\''
  {
  }

  // ---------- Remote lines ----------

  /** One exported row. */
  datatype Remote = Remote(pair: Row, rights: Rights, lifecycle: Lifecycle, verification: Verification, enabled: bool,
                           updated: string)

  const REMOTE_HEADER := "PRAGMA defer_foreign_keys=TRUE;"
  const REMOTE_OPEN :=
    "INSERT INTO \"affiliate_item_lookup\" (\"public_id\",\"content_id\",\"rights_status\",\"lifecycle_status\","
                       + "\"verification_status\",\"affiliate_enabled\",\"updated_at\") VALUES('"

  function RightsText(r: Rights): string {
    match r
    case ConditionallyApproved => "CONDITIONALLY_APPROVED"
    case PendingPolicy => "PENDING_SEPARATE_POLICY"
    case Prohibited => "PROHIBITED"
  }

  function LifecycleText(l: Lifecycle): string { if l.Resolved? then "RESOLVED" else "PENDING_OFFICIAL_CONFIRMATION" }

  function VerificationText(v: Verification): string {
    match v case Pass => "PASS" case Pending => "PENDING" case Failed => "FAILED"
  }

  function ReadRights(s: string): Option<Rights> {
    if s == "CONDITIONALLY_APPROVED" then Some(ConditionallyApproved)
    else if s == "PENDING_SEPARATE_POLICY" then Some(PendingPolicy)
    else if s == "PROHIBITED" then Some(Prohibited) else None
  }

  function ReadLifecycle(s: string): Option<Lifecycle> {
    if s == "RESOLVED" then Some(Resolved) else if s == "PENDING_OFFICIAL_CONFIRMATION" then Some(PendingConfirmation)
                                                else None
  }

  function ReadVerification(s: string): Option<Verification> {
    if s == "PASS" then Some(Pass) else if s == "PENDING" then Some(LookupTables.Pending)
                                        else if s == "FAILED" then Some(Failed) else None
  }

  predicate StampChar(c: char) { c != '\'' && c != '\r' && c != '\n' }

  predicate RemoteStamp(s: string) { 1 <= |s| <= 64 && forall i :: 0 <= i < |s| ==> StampChar(s[i]) }

  predicate RemoteOk(r: Remote) { RowOk(r.pair) && RemoteStamp(r.updated) }

  /** The part of a remote line after the pair. */
  function RemoteTail(r: Remote): string {
    RightsText(r.rights) + ("','" + (LifecycleText(r.lifecycle) + ("','" + (VerificationText(r.verification) + ("'," +
    ((if r.enabled then "1,'" else "0,'") + (r.updated + ("');" + ""))))))))
  }

  function RemoteLine(r: Remote): string {
    REMOTE_OPEN + (r.pair.public + ("','" + (r.pair.content + ("','" + RemoteTail(r)))))
  }

  /** The rest of a line from the rights on. */
  function ReadTail(pair: Row, s: Option<string>): Option<Remote> {
    var (rights, s1) := Field(s, "','");
    var (lifecycle, s2) := Field(s1, "','");
    var (verification, s3) := Field(s2, "',");
    if s3.None? then None
    else
      var on, off := Strip(s3.value, "1,'"), Strip(s3.value, "0,'");
      var (updated, end) := Field(if on.Some? then on else off, "');");
      if end == Some("") && RowOk(pair) && RemoteStamp(updated) && ReadRights(rights).Some?
         && ReadLifecycle(lifecycle).Some?
         && ReadVerification(verification).Some?
      then Some(Remote(pair, ReadRights(rights).value, ReadLifecycle(lifecycle).value,
                       ReadVerification(verification).value, on.Some?, updated))
      else None
  }

  function ReadRemote(line: string): Option<Remote> {
    var (public, s1) := Field(Strip(line, REMOTE_OPEN), "','");
    var (content, s2) := Field(s1, "','");
    ReadTail(Row(public, content), s2)
  }

  lemma {:induction false} RightsReadBack(r: Rights)
    ensures ReadRights(RightsText(r)) == Some(r)
  {
  }

  lemma {:induction false} RightsQuoteless(r: Rights)
    ensures Quoteless(RightsText(r))
  {
  }

  lemma {:induction false} StatesReadBack(r: Remote)
    ensures ReadLifecycle(LifecycleText(r.lifecycle)) == Some(r.lifecycle) && Quoteless(LifecycleText(r.lifecycle))
    ensures ReadVerification(VerificationText(r.verification)) == Some(r.verification)
            && Quoteless(VerificationText(r.verification))
  {
  }

  lemma {:induction false} StatesSound(rights: string, lifecycle: string, verification: string)
    ensures ReadRights(rights).Some? ==> RightsText(ReadRights(rights).value) == rights
    ensures ReadLifecycle(lifecycle).Some? ==> LifecycleText(ReadLifecycle(lifecycle).value) == lifecycle
    ensures ReadVerification(verification).Some? ==>
              VerificationText(ReadVerification(verification).value) == verification
  {
  }

  lemma {:induction false} FlagReads(enabled: bool, rest: string)
    ensures var s := (if enabled then "1,'" else "0,'") + rest;
            Strip(s, if enabled then "1,'" else "0,'") == Some(rest) && (Strip(s, "1,'").Some? <==> enabled)
  {
    var s := (if enabled then "1,'" else "0,'") + rest;
    assert s[0] == if enabled then '1' else '0';
    if Strip(s, "1,'").Some? { assert s[0] == "1,'"[0]; }
  }

  lemma {:induction false} TailExact(r: Remote)
    requires RemoteOk(r)
    ensures ReadTail(r.pair, Some(RemoteTail(r))) == Some(r)
  {
    hide Strip, Field, RowOk, Quoteless, ReadRights, ReadLifecycle, ReadVerification, RightsText, LifecycleText,
         VerificationText;
    StatesReadBack(r);
    RightsReadBack(r.rights);
    RightsQuoteless(r.rights);
    var t4 := r.updated + ("');" + "");
    var t3 := (if r.enabled then "1,'" else "0,'") + t4;
    var t2 := VerificationText(r.verification) + ("'," + t3);
    var t1 := LifecycleText(r.lifecycle) + ("','" + t2);
    FieldExact(RightsText(r.rights), "','", t1);
    FieldExact(LifecycleText(r.lifecycle), "','", t2);
    FieldExact(VerificationText(r.verification), "',", t3);
    FlagReads(r.enabled, t4);
    assert Quoteless(r.updated) by { StampQuoteless(r.updated); }
    FieldExact(r.updated, "');", "");
  }

  lemma {:induction false} StampQuoteless(s: string)
    requires RemoteStamp(s)
    ensures Quoteless(s)
  {
    forall i | 0 <= i < |s| ensures s[i] != '\'' { assert StampChar(s[i]); }
  }

  lemma {:induction false} TailSound(pair: Row, s: Option<string>)
    requires ReadTail(pair, s).Some?
    ensures var r := ReadTail(pair, s).value; s == Some(RemoteTail(r)) && RemoteOk(r) && r.pair == pair
  {
    hide Strip, Field, RowOk, RemoteStamp, Quoteless, ReadRights, ReadLifecycle, ReadVerification, RightsText,
         LifecycleText, VerificationText;
    var (rights, s1) := Field(s, "','");
    var (lifecycle, s2) := Field(s1, "','");
    var (verification, s3) := Field(s2, "',");
    FieldSound(s2, "',");
    FieldSound(s1, "','");
    FieldSound(s, "','");
    StatesSound(rights, lifecycle, verification);
    var on, off := Strip(s3.value, "1,'"), Strip(s3.value, "0,'");
    var flag := if on.Some? then on else off;
    FieldSound(flag, "');");
    StripSound(s3.value, if on.Some? then "1,'" else "0,'");
  }

  /** A line is read as an exported row exactly when it is the line of that row. */
  lemma {:induction false} ReadRemoteExact(line: string, r: Remote)
    ensures ReadRemote(line) == Some(r) <==> RemoteOk(r) && line == RemoteLine(r)
  {
    hide Strip, Field, RowOk, RemoteStamp, Quoteless, RemoteTail, ReadTail, REMOTE_OPEN;
    if ReadRemote(line) == Some(r) {
      var (public, s1) := Field(Strip(line, REMOTE_OPEN), "','");
      var (content, s2) := Field(s1, "','");
      TailSound(Row(public, content), s2);
      FieldSound(s1, "','");
      FieldSound(Strip(line, REMOTE_OPEN), "','");
      StripSound(line, REMOTE_OPEN);
    }
    if RemoteOk(r) && line == RemoteLine(r) {
      RowQuoteless(r.pair);
      TailExact(r);
      StripExact(REMOTE_OPEN, r.pair.public + ("','" + (r.pair.content + ("','" + RemoteTail(r)))));
      FieldExact(r.pair.public, "','", r.pair.content + ("','" + RemoteTail(r)));
      FieldExact(r.pair.content, "','", RemoteTail(r));
    }
  }

  /** The condition that the source checks on every exported row beyond its form. */
  predicate Eligible(r: Remote) {
    r.enabled ==> r.rights.ConditionallyApproved? && r.lifecycle.Resolved? && r.verification.Pass?
  }

  predicate DisabledPending(r: Remote) {
    r.rights.PendingPolicy? && r.lifecycle.PendingConfirmation? && r.verification.Pending? && !r.enabled
  }

  predicate RemoteBody(lines: seq<string>, rows: seq<Remote>) {
    |lines| == |rows| && forall i :: 0 <= i < |rows| ==>
       RemoteOk(rows[i]) && Eligible(rows[i]) && lines[i] == RemoteLine(rows[i])
  }

  predicate RemoteFile(text: string, rows: seq<Remote>) {
    Lines(text) != [] && Lines(text)[0] == REMOTE_HEADER && RemoteBody(Lines(text)[1..], rows)
  }

  /** `_parse_remote`: the exported rows, and whether all of them are disabled and pending. */
  method ParseRemote(text: string) returns (r: Option<seq<Remote>>, allPending: bool)
    ensures r.Some? ==>
              RemoteFile(text, r.value)
              && (allPending <==> forall i :: 0 <= i < |r.value| ==> DisabledPending(r.value[i]))
    ensures r.None? ==> forall rows :: !RemoteFile(text, rows)
  {
    hide RemoteOk, RemoteLine, ReadRemote, Lines, REMOTE_HEADER;
    allPending := true;
    var lines := Lines(text);
    if lines == [] || lines[0] != REMOTE_HEADER { return None, false; }
    var body := lines[1..];
    var rows: seq<Remote> := [];
    var k := 0;
    while k < |body|
      invariant 0 <= k <= |body| && RemoteBody(body[..k], rows)
      invariant allPending <==> forall i :: 0 <= i < |rows| ==> DisabledPending(rows[i])
    {
      var row := ReadRemote(body[k]);
      RemoteLineExact(body[k]);
      if row.None? || !Eligible(row.value) { return None, false; }
      allPending := allPending && DisabledPending(row.value);
      rows := rows + [row.value];
      k := k + 1;
    }
    assert body[..k] == body;
    return Some(rows), allPending;
  }

  lemma {:induction false} RemoteLineExact(line: string)
    ensures forall r :: ReadRemote(line) == Some(r) <==> RemoteOk(r) && line == RemoteLine(r)
  {
    hide ReadRemote, RemoteLine, RemoteOk;
    forall r ensures ReadRemote(line) == Some(r) <==> RemoteOk(r) && line == RemoteLine(r) { ReadRemoteExact(line, r); }
  }

  lemma {:induction false} RemoteRowsUnique(text: string, rows: seq<Remote>, rows': seq<Remote>)
    requires RemoteFile(text, rows) && RemoteFile(text, rows')
    ensures rows == rows'
  {
    hide RemoteOk, RemoteLine, Lines, REMOTE_HEADER;
    forall i | 0 <= i < |rows| ensures rows[i] == rows'[i] { RemoteLineExact(Lines(text)[1..][i]); }
  }
}
