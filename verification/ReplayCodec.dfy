/** The canonical file format of scripts/development_remote_approval_replay_persistence.py.
    json.dumps with sorted keys and no white space is the printing of a syntax tree, and json.loads
    is the reading of the one tree that JsonGrammar finds in a text. */
module ReplayCodec {
  import opened Text
  import opened JsonGrammar
  import opened JsonInverse
  import opened ReplayRecord
  import JsonScanner

  const MAX_BYTES := 256 * 1024
  const PERSISTENCE_VERSION := "0.1"

  // ---------- Writing ----------

  function Plains(s: string): (us: seq<Unit>) { seq(|s|, i requires 0 <= i < |s| => Plain(s[i])) }

  function PrintNat(n: nat): (s: string)
    ensures Digits(s)
    ensures s[0] == '0' ==> s == "0"
    ensures n > 0 ==> s[0] != '0'
  {
    if n < 10 then [('0' as int + n) as char] else PrintNat(n / 10) + [('0' as int + n % 10) as char]
  }

  function JText(s: string): Value { Str(Plains(s)) }

  function JInt(n: int): Value { Num(Number(n < 0, PrintNat(if n < 0 then -n else n), "", NoExp)) }

  type Fields = seq<(string, Value)>

  function JMembers(fs: Fields): Members
    requires fs != []
  {
    var m := Member(Plains(fs[0].0), "", "", fs[0].1);
    if |fs| == 1 then LastMember(m, "") else MoreMembers(m, "", "", JMembers(fs[1..]))
  }

  function JObject(fs: Fields): Value { if fs == [] then EmptyObj("") else Obj("", JMembers(fs)) }

  function JElems(vs: seq<Value>): Elems
    requires vs != []
  {
    if |vs| == 1 then LastElem(vs[0], "") else MoreElems(vs[0], "", "", JElems(vs[1..]))
  }

  function JArray(vs: seq<Value>): Value { if vs == [] then EmptyArr("") else Arr("", JElems(vs)) }

  /** The fields of a record, in the order of sorted keys. */
  function RecordFields(r: Record): Fields {
    [ ("ci_run_id", JInt(r.ciRunId)), ("current_gate_id", JText(r.currentGate)),
     ("decided_at_epoch_s", JInt(r.decidedAt)),
      ("decision_status", JText(r.decisionStatus)), ("device_class", JText(r.deviceClass)),
      ("head_sha", JText(r.headSha)),
      ("next_gate_id", JText(r.nextGate)), ("observation_version", JText(r.observationVersion)),
      ("record_version", JText(r.recordVersion)), ("repository", JText(r.repository)),
      ("request_id", JText(r.requestId)),
      ("source", JText(r.source)) ]
  }

  function RecordTree(r: Record): Value { JObject(RecordFields(r)) }

  function RecordTrees(rs: seq<Record>): (vs: seq<Value>)
    ensures |vs| == |rs|
  {
    if rs == [] then [] else [RecordTree(rs[0])] + RecordTrees(rs[1..])
  }

  function EnvelopeFields(revision: int, records: seq<Record>): Fields {
    [ ("persistence_version", JText(PERSISTENCE_VERSION)), ("records", JArray(RecordTrees(records))),
     ("revision", JInt(revision)) ]
  }

  function EnvelopeTree(revision: int, records: seq<Record>): Value { JObject(EnvelopeFields(revision, records)) }

  /** `_serialize`. */
  function Serialize(revision: int, records: seq<Record>): Option<string> {
    if revision < 0 || !ValidSnapshot(records) then None
    else
      var content := Print(EnvelopeTree(revision, records));
      if |content| <= MAX_BYTES then Some(content) else None
  }

  // ---------- Reading ----------

  type Pairs = seq<(seq<nat>, Value)>

  /** The decoded keys of an object with their values. */
  function ReadMembers(ms: Members): Pairs
    requires MembersOk(ms)
  {
    assert MemberOk(ms.member) && UnitsOk(ms.member.key);
    [(JsonScanner.Decode(ms.member.key), ms.member.value)] + if ms.LastMember? then [] else ReadMembers(ms.rest)
  }

  function ReadElems(es: Elems): (vs: seq<Value>)
    requires ElemsOk(es)
    ensures forall i :: 0 <= i < |vs| ==> ValueOk(vs[i])
  {
    [es.value] + if es.LastElem? then [] else ReadElems(es.rest)
  }

  function ReadArray(v: Value): (r: Option<seq<Value>>)
    requires ValueOk(v)
    ensures r.Some? ==> forall i :: 0 <= i < |r.value| ==> ValueOk(r.value[i])
  {
    if v.EmptyArr? then Some([]) else if v.Arr? then Some(ReadElems(v.elems)) else None
  }

  /** A string value, when it is made of characters. */
  function ReadText(v: Value): Option<string>
    requires ValueOk(v)
  {
    if !v.Str? then None
    else
      var codes := JsonScanner.Decode(v.units);
      if JsonScanner.Encodable(codes) && forall i :: 0 <= i < |codes| ==> codes[i] < 0x11_0000
      then Some(seq(|codes|, i requires 0 <= i < |codes| => codes[i] as char)) else None
  }

  function NatOf(digits: string): nat
    requires forall i :: 0 <= i < |digits| ==> IsDigit(digits[i])
  {
    if digits == "" then 0
    else
      var last := digits[|digits| - 1];
      assert IsDigit(last);
      NatOf(digits[..|digits| - 1]) * 10 + (last as int - '0' as int)
  }

  /** An integer value; a fraction or an exponent makes a float. */
  function ReadInt(v: Value): Option<int>
    requires ValueOk(v)
  {
    if v.Num? && v.num.frac == "" && v.num.exp.NoExp? then
      var n: int := NatOf(v.num.whole);
      Some(if v.num.neg then -n else n)
    else None
  }

  predicate UniqueKeys(ps: Pairs) { forall i, j :: 0 <= i < j < |ps| ==> ps[i].0 != ps[j].0 }

  /** The value under a key. */
  function Get(ps: Pairs, name: string): Option<Value> {
    if ps == [] then None
    else if ps[0].0 == JsonScanner.Codes(name) then Some(ps[0].1)
    else Get(ps[1..], name)
  }

  predicate ValuesOk(ps: Pairs) { forall i :: 0 <= i < |ps| ==> ValueOk(ps[i].1) }

  function GetText(ps: Pairs, name: string): Option<string>
    requires ValuesOk(ps)
  {
    GetOk(ps, name);
    if Get(ps, name).Some? then ReadText(Get(ps, name).value) else None
  }

  function GetInt(ps: Pairs, name: string): Option<int>
    requires ValuesOk(ps)
  {
    GetOk(ps, name);
    if Get(ps, name).Some? then ReadInt(Get(ps, name).value) else None
  }

  lemma GetOk(ps: Pairs, name: string)
    requires ValuesOk(ps)
    ensures Get(ps, name).Some? ==> ValueOk(Get(ps, name).value)
  {
    if ps != [] { GetOk(ps[1..], name); }
  }

  lemma ReadMembersOk(ms: Members)
    requires MembersOk(ms)
    ensures ValuesOk(ReadMembers(ms))
  {
  }

  /** An object with exactly the record fields, each of its type. */
  function ReadRecord(v: Value): Option<Record>
    requires ValueOk(v)
  {
    if !v.Obj? then None
    else
      var ps := ReadMembers(v.members);
      ReadMembersOk(v.members);
      if |ps| != 12 || !UniqueKeys(ps) then None
      else
        var ci, current, decided := GetInt(ps, "ci_run_id"), GetText(ps, "current_gate_id"),
            GetInt(ps, "decided_at_epoch_s");
        var status, device, head := GetText(ps, "decision_status"), GetText(ps, "device_class"),
            GetText(ps, "head_sha");
        var next, observation, version := GetText(ps, "next_gate_id"), GetText(ps, "observation_version"),
            GetText(ps, "record_version");
        var repository, request, source := GetText(ps, "repository"), GetText(ps, "request_id"), GetText(ps, "source");
        if ci.None? || current.None? || decided.None? || status.None? || device.None? || head.None? || next.None?
           || observation.None? || version.None? || repository.None? || request.None? || source.None?
        then None
        else Some(Record(version.value, observation.value, source.value, repository.value, device.value, request.value,
                         current.value, next.value, head.value, ci.value, status.value, decided.value))
  }

  function ReadRecords(vs: seq<Value>): Option<seq<Record>>
    requires forall i :: 0 <= i < |vs| ==> ValueOk(vs[i])
  {
    if vs == [] then Some([])
    else
      var first, rest := ReadRecord(vs[0]), ReadRecords(vs[1..]);
      if first.None? || rest.None? then None else Some([first.value] + rest.value)
  }

  function ReadEnvelope(v: Value): Option<(int, seq<Record>)>
    requires ValueOk(v)
  {
    if !v.Obj? then None
    else
      var ps := ReadMembers(v.members);
      ReadMembersOk(v.members);
      GetOk(ps, "records");
      if |ps| != 3 || !UniqueKeys(ps) || Get(ps, "records").None? then None
      else
        var version, revision, trees := GetText(ps, "persistence_version"), GetInt(ps, "revision"),
            ReadArray(Get(ps, "records").value);
        if version != Some(PERSISTENCE_VERSION) || revision.None? || trees.None? then None
        else
          var records := ReadRecords(trees.value);
          if records.None? then None else Some((revision.value, records.value))
  }

  datatype Loaded = Healthy(revision: int, records: seq<Record>) | Invalid

  /** `_decode`: read the text, then accept it only when writing the result gives the same text. */
  function DecodeStore(content: string): Loaded {
    var document := ParseDocument(content);
    if document.Fail? then Invalid
    else
      var _ := DocumentTreeOk(content);
      var envelope := ReadEnvelope(document.tree);
      if envelope.None? then Invalid
      else
        var (revision, records) := envelope.value;
        if Serialize(revision, records) == Some(content) then Healthy(revision, records) else Invalid
  }

  function DocumentTreeOk(content: string): bool
    requires ParseDocument(content).Ok?
    ensures ValueOk(ParseDocument(content).tree)
  {
    DocumentSound(content);
    true
  }

  // ---------- Reading undoes writing ----------

  lemma {:induction false} PlainsDecoded(s: string)
    requires UnitsOk(Plains(s))
    ensures JsonScanner.Decode(Plains(s)) == JsonScanner.Codes(s)
    decreases |s|
  {
    if s != "" {
      assert Plains(s)[1..] == Plains(s[1..]);
      assert forall u :: u in Plains(s[1..]) ==> u in Plains(s);
      PlainsDecoded(s[1..]);
      assert JsonScanner.Codes(s) == [s[0] as int] + JsonScanner.Codes(s[1..]);
    }
  }

  /** Characters that json.dumps copies unchanged. */
  predicate Clean(s: string) { forall i :: 0 <= i < |s| ==> UnitOk(Plain(s[i])) }

  lemma CleanUnits(s: string)
    requires Clean(s)
    ensures UnitsOk(Plains(s))
  {
  }

  lemma {:induction false} TextRoundTrip(s: string)
    requires Clean(s)
    ensures ValueOk(JText(s)) && ReadText(JText(s)) == Some(s)
  {
    CleanUnits(s);
    PlainsDecoded(s);
    var codes := JsonScanner.Codes(s);
    assert forall i :: 0 <= i < |s| ==> codes[i] == s[i] as int;
    assert seq(|codes|, i requires 0 <= i < |codes| => codes[i] as char) == s;
  }

  lemma {:induction false} NatRoundTrip(n: nat)
    ensures NatOf(PrintNat(n)) == n
  {
    var s := PrintNat(n);
    if n < 10 {
      assert s[..0] == "";
    } else {
      NatRoundTrip(n / 10);
      assert s[..|s| - 1] == PrintNat(n / 10);
    }
  }

  lemma {:induction false} IntRoundTrip(n: int)
    ensures ValueOk(JInt(n)) && ReadInt(JInt(n)) == Some(n)
  {
    NatRoundTrip(if n < 0 then -n else n);
  }

  ghost predicate FieldsOk(fs: Fields) { forall i :: 0 <= i < |fs| ==> Clean(fs[i].0) && ValueOk(fs[i].1) }

  function CodedFields(fs: Fields): Pairs {
    seq(|fs|, i requires 0 <= i < |fs| => (JsonScanner.Codes(fs[i].0), fs[i].1))
  }

  lemma {:induction false} MembersRoundTrip(fs: Fields)
    requires fs != [] && FieldsOk(fs)
    ensures MembersOk(JMembers(fs)) && ReadMembers(JMembers(fs)) == CodedFields(fs)
    decreases |fs|
  {
    CleanUnits(fs[0].0);
    PlainsDecoded(fs[0].0);
    if |fs| > 1 {
      MembersRoundTrip(fs[1..]);
      assert CodedFields(fs) == [CodedFields(fs)[0]] + CodedFields(fs[1..]);
    }
  }

  lemma {:induction false} ElemsRoundTrip(vs: seq<Value>)
    requires vs != [] && forall i :: 0 <= i < |vs| ==> ValueOk(vs[i])
    ensures ElemsOk(JElems(vs)) && ReadElems(JElems(vs)) == vs
    decreases |vs|
  {
    if |vs| > 1 { ElemsRoundTrip(vs[1..]); }
  }

  lemma CodesInjective(s: string, t: string)
    requires JsonScanner.Codes(s) == JsonScanner.Codes(t)
    ensures s == t
  {
    assert |s| == |JsonScanner.Codes(s)| == |t|;
    forall i | 0 <= i < |s| ensures s[i] == t[i] {
      assert JsonScanner.Codes(s)[i] == s[i] as int && JsonScanner.Codes(t)[i] == t[i] as int;
    }
  }

  predicate DistinctNames(fs: Fields) { forall i, j :: 0 <= i < j < |fs| ==> fs[i].0 != fs[j].0 }

  lemma {:induction false} GetRoundTrip(fs: Fields, k: nat)
    requires k < |fs| && DistinctNames(fs)
    ensures Get(CodedFields(fs), fs[k].0) == Some(fs[k].1)
    decreases k
  {
    var ps := CodedFields(fs);
    assert ps[1..] == CodedFields(fs[1..]);
    if k > 0 {
      if JsonScanner.Codes(fs[0].0) == JsonScanner.Codes(fs[k].0) { CodesInjective(fs[0].0, fs[k].0); }
      GetRoundTrip(fs[1..], k - 1);
    }
  }

  lemma UniqueRoundTrip(fs: Fields)
    requires DistinctNames(fs)
    ensures UniqueKeys(CodedFields(fs))
  {
    forall i, j | 0 <= i < j < |fs| ensures JsonScanner.Codes(fs[i].0) != JsonScanner.Codes(fs[j].0) {
      if JsonScanner.Codes(fs[i].0) == JsonScanner.Codes(fs[j].0) { CodesInjective(fs[i].0, fs[j].0); }
    }
  }

  // ---------- Records and envelopes ----------

  lemma {:induction false} ObjectRoundTrip(fs: Fields)
    requires fs != [] && FieldsOk(fs) && DistinctNames(fs)
    ensures JObject(fs) == Obj("", JMembers(fs)) && ValueOk(JObject(fs)) && MembersOk(JMembers(fs))
    ensures var ps := ReadMembers(JMembers(fs));
            && |ps| == |fs| && UniqueKeys(ps) && ValuesOk(ps)
            && forall k :: 0 <= k < |fs| ==> Get(ps, fs[k].0) == Some(fs[k].1)
  {
    hide ValueOk, UnitsOk, Clean, DistinctNames, UniqueKeys;
    MembersRoundTrip(fs);
    UniqueRoundTrip(fs);
    ReadMembersOk(JMembers(fs));
    ObjectOk(JMembers(fs));
    forall k | 0 <= k < |fs| ensures Get(CodedFields(fs), fs[k].0) == Some(fs[k].1) { GetRoundTrip(fs, k); }
  }

  lemma {:induction false} ObjectOk(ms: Members)
    requires MembersOk(ms)
    ensures ValueOk(Obj("", ms))
  {
  }

  /** The position of a record key among the sorted keys, read off its length and one letter. */
  function KeySlot(s: string): nat {
    if |s| == 9 then 0 else if |s| == 18 then 2 else if |s| == 8 then 5
                                                     else if |s| == 19 then 7 else if |s| == 14 then 8
    else if |s| == 15 then (if s[0] == 'c' then 1 else 3)
    else if |s| == 12 then (if s[0] == 'd' then 4 else 6)
    else if |s| == 10 then (if s[2] == 'p' then 9 else 10)
    else 11
  }

  lemma {:induction false} RecordNamesDistinct(r: Record)
    ensures DistinctNames(RecordFields(r))
  {
    hide JText, JInt;
    var fs := RecordFields(r);
    assert KeySlot(fs[0].0) == 0 && KeySlot(fs[1].0) == 1 && KeySlot(fs[2].0) == 2 && KeySlot(fs[3].0) == 3;
    assert KeySlot(fs[4].0) == 4 && KeySlot(fs[5].0) == 5 && KeySlot(fs[6].0) == 6 && KeySlot(fs[7].0) == 7;
    assert KeySlot(fs[8].0) == 8 && KeySlot(fs[9].0) == 9 && KeySlot(fs[10].0) == 10 && KeySlot(fs[11].0) == 11;
    forall i, j | 0 <= i < j < 12 ensures fs[i].0 != fs[j].0 { assert KeySlot(fs[i].0) == i && KeySlot(fs[j].0) == j; }
  }

  lemma {:induction false} RecordNamesClean(r: Record)
    ensures forall k :: 0 <= k < 12 ==> Clean(RecordFields(r)[k].0)
  {
    hide JText, JInt, Clean;
    RecordKeysClean();
    RecordKeysCleanToo();
  }

  lemma {:induction false} RecordKeysClean()
    ensures Clean("ci_run_id") && Clean("current_gate_id") && Clean("decided_at_epoch_s") && Clean("decision_status")
    ensures Clean("device_class") && Clean("head_sha")
  {
  }

  lemma {:induction false} RecordKeysCleanToo()
    ensures Clean("next_gate_id") && Clean("observation_version") && Clean("record_version") && Clean("repository")
    ensures Clean("request_id") && Clean("source")
  {
  }

  predicate CleanRecord(r: Record) {
    && Clean(r.recordVersion) && Clean(r.observationVersion) && Clean(r.source) && Clean(r.repository)
    && Clean(r.deviceClass)
    && Clean(r.requestId) && Clean(r.currentGate) && Clean(r.nextGate) && Clean(r.headSha) && Clean(r.decisionStatus)
  }

  lemma {:induction false} RecordGets(ps: Pairs, r: Record)
    requires CleanRecord(r) && ValuesOk(ps)
    requires forall k :: 0 <= k < 12 ==> Get(ps, RecordFields(r)[k].0) == Some(RecordFields(r)[k].1)
    ensures GetInt(ps, "ci_run_id") == Some(r.ciRunId)
    ensures GetText(ps, "current_gate_id") == Some(r.currentGate)
    ensures GetInt(ps, "decided_at_epoch_s") == Some(r.decidedAt)
    ensures GetText(ps, "decision_status") == Some(r.decisionStatus)
    ensures GetText(ps, "device_class") == Some(r.deviceClass)
    ensures GetText(ps, "head_sha") == Some(r.headSha)
    ensures GetText(ps, "next_gate_id") == Some(r.nextGate)
    ensures GetText(ps, "observation_version") == Some(r.observationVersion)
    ensures GetText(ps, "record_version") == Some(r.recordVersion)
    ensures GetText(ps, "repository") == Some(r.repository)
    ensures GetText(ps, "request_id") == Some(r.requestId)
    ensures GetText(ps, "source") == Some(r.source)
  {
    hide Clean, ValueOk, JText, JInt, ReadText, ReadInt, Get, ValuesOk;
    var fs := RecordFields(r);
    RecordTexts(r);
    IntRoundTrip(r.ciRunId); IntRoundTrip(r.decidedAt);
    assert fs[0].0 == "ci_run_id" && fs[1].0 == "current_gate_id" && fs[2].0 == "decided_at_epoch_s"
           && fs[3].0 == "decision_status";
    assert fs[4].0 == "device_class" && fs[5].0 == "head_sha" && fs[6].0 == "next_gate_id"
           && fs[7].0 == "observation_version";
    assert fs[8].0 == "record_version" && fs[9].0 == "repository" && fs[10].0 == "request_id" && fs[11].0 == "source";
  }

  lemma {:induction false} RecordRoundTrip(r: Record)
    requires CleanRecord(r)
    ensures ValueOk(RecordTree(r)) && ReadRecord(RecordTree(r)) == Some(r)
  {
    hide Clean, ValueOk, JText, JInt, ReadText, ReadInt, Get, GetText, GetInt, ReadMembers, UniqueKeys, DistinctNames,
         JMembers, ValuesOk;
    var fs := RecordFields(r);
    RecordNamesDistinct(r);
    RecordNamesClean(r);
    RecordValuesOk(r);
    ObjectRoundTrip(fs);
    RecordGets(ReadMembers(JMembers(fs)), r);
  }

  lemma {:induction false} RecordTexts(r: Record)
    requires CleanRecord(r)
    ensures ValueOk(JText(r.recordVersion)) && ReadText(JText(r.recordVersion)) == Some(r.recordVersion)
    ensures ValueOk(JText(r.observationVersion)) && ReadText(JText(r.observationVersion)) == Some(r.observationVersion)
    ensures ValueOk(JText(r.source)) && ReadText(JText(r.source)) == Some(r.source)
    ensures ValueOk(JText(r.repository)) && ReadText(JText(r.repository)) == Some(r.repository)
    ensures ValueOk(JText(r.deviceClass)) && ReadText(JText(r.deviceClass)) == Some(r.deviceClass)
    ensures ValueOk(JText(r.requestId)) && ReadText(JText(r.requestId)) == Some(r.requestId)
    ensures ValueOk(JText(r.currentGate)) && ReadText(JText(r.currentGate)) == Some(r.currentGate)
    ensures ValueOk(JText(r.nextGate)) && ReadText(JText(r.nextGate)) == Some(r.nextGate)
    ensures ValueOk(JText(r.headSha)) && ReadText(JText(r.headSha)) == Some(r.headSha)
    ensures ValueOk(JText(r.decisionStatus)) && ReadText(JText(r.decisionStatus)) == Some(r.decisionStatus)
  {
    hide Clean, ValueOk, JText, ReadText;
    TextRoundTrip(r.recordVersion); TextRoundTrip(r.observationVersion); TextRoundTrip(r.source);
    TextRoundTrip(r.repository);
    TextRoundTrip(r.deviceClass); TextRoundTrip(r.requestId); TextRoundTrip(r.currentGate); TextRoundTrip(r.nextGate);
    TextRoundTrip(r.headSha); TextRoundTrip(r.decisionStatus);
  }

  lemma {:induction false} RecordValuesOk(r: Record)
    requires CleanRecord(r)
    ensures forall k :: 0 <= k < 12 ==> ValueOk(RecordFields(r)[k].1)
  {
    hide Clean, ValueOk, JText, JInt, ReadText, ReadInt;
    RecordTexts(r);
    IntRoundTrip(r.ciRunId); IntRoundTrip(r.decidedAt);
  }

  lemma {:induction false} IdentifierClean(s: string)
    requires Identifier(s)
    ensures Clean(s)
  {
  }

  lemma {:induction false} ConstantsClean()
    ensures Clean(RECORD_VERSION) && Clean(APPROVED_SOURCE) && Clean(APPROVED_DEVICE_CLASS) && Clean("APPROVED")
  {
  }

  lemma {:induction false} RepositoryClean(s: string)
    requires s == "tripsoundterrorist/data-lab-jp"
    ensures Clean(s)
  {
  }

  lemma {:induction false} ValidRecordClean(r: Record)
    requires ValidRecord(r)
    ensures CleanRecord(r)
  {
    hide Clean, Identifier, LowerHex;
    ConstantsClean();
    RepositoryClean(r.repository);
    IdentifierClean(r.requestId); IdentifierClean(r.currentGate); IdentifierClean(r.nextGate);
    HexClean(r.headSha);
  }

  lemma {:induction false} HexClean(s: string)
    requires LowerHex(s, 40)
    ensures Clean(s)
  {
  }

  lemma {:induction false} RecordsRoundTrip(rs: seq<Record>)
    requires forall i :: 0 <= i < |rs| ==> ValidRecord(rs[i])
    ensures forall i :: 0 <= i < |rs| ==> ValueOk(RecordTrees(rs)[i])
    ensures ReadRecords(RecordTrees(rs)) == Some(rs)
    decreases |rs|
  {
    hide ValidRecord, ValueOk, RecordTree, ReadRecord;
    if rs != [] {
      ValidRecordClean(rs[0]);
      RecordRoundTrip(rs[0]);
      RecordsRoundTrip(rs[1..]);
      assert RecordTrees(rs)[1..] == RecordTrees(rs[1..]);
      assert [rs[0]] + rs[1..] == rs;
    }
  }

  lemma {:induction false} EnvelopeNames(revision: int, records: seq<Record>)
    ensures var fs := EnvelopeFields(revision, records);
            DistinctNames(fs) && Clean(fs[0].0) && Clean(fs[1].0) && Clean(fs[2].0)
  {
    hide JText, JInt, JArray, Clean;
    var fs := EnvelopeFields(revision, records);
    assert |fs[0].0| == 19 && |fs[1].0| == 7 && |fs[2].0| == 8;
    EnvelopeKeysClean();
  }

  lemma {:induction false} EnvelopeKeysClean()
    ensures Clean("persistence_version") && Clean("records") && Clean("revision")
  {
  }

  lemma {:induction false} ArrayRoundTrip(vs: seq<Value>)
    requires forall i :: 0 <= i < |vs| ==> ValueOk(vs[i])
    ensures ValueOk(JArray(vs)) && ReadArray(JArray(vs)) == Some(vs)
  {
    if vs != [] { ElemsRoundTrip(vs); }
  }

  lemma {:induction false} EnvelopeRoundTrip(revision: int, records: seq<Record>)
    requires ValidSnapshot(records)
    ensures ValueOk(EnvelopeTree(revision, records)) && EnvelopeTree(revision, records).Obj?
    ensures ReadEnvelope(EnvelopeTree(revision, records)) == Some((revision, records))
  {
    hide Clean, ValueOk, JText, JInt, JArray, ReadText, ReadInt, ReadArray, Get, ReadMembers, UniqueKeys, DistinctNames,
         JMembers, ValuesOk, ValidRecord;
    var fs := EnvelopeFields(revision, records);
    EnvelopeNames(revision, records);
    RecordsRoundTrip(records);
    ArrayRoundTrip(RecordTrees(records));
    IntRoundTrip(revision);
    assert Clean(PERSISTENCE_VERSION) by { ConstantsClean(); }
    TextRoundTrip(PERSISTENCE_VERSION);
    ObjectRoundTrip(fs);
    assert fs[0].0 == "persistence_version" && fs[1].0 == "records" && fs[2].0 == "revision";
  }

  /** What was written is read back: `_decode` after `_serialize` is the identity. */
  lemma {:induction false} DecodeSerialize(revision: int, records: seq<Record>)
    requires Serialize(revision, records).Some?
    ensures DecodeStore(Serialize(revision, records).value) == Healthy(revision, records)
  {
    hide Print, ValueOk, ReadEnvelope, EnvelopeTree, ParseDocument, ValidSnapshot;
    var content := Serialize(revision, records).value;
    var tree := EnvelopeTree(revision, records);
    EnvelopeRoundTrip(revision, records);
    assert Derives(content, "", tree, "") by { assert content == "" + (Print(tree) + ""); }
    DocumentExact(content, "", tree, "");
  }

  /** The format is canonical: the decoder accepts a content exactly when it is what the encoder
      writes for some snapshot, and then it returns that snapshot and no other content stands for it. */
  lemma {:induction false} FormatIsCanonical(content: string, revision: int, records: seq<Record>)
    ensures DecodeStore(content) == Healthy(revision, records) <==> Serialize(revision, records) == Some(content)
  {
    hide Serialize, ReadEnvelope, ParseDocument;
    if Serialize(revision, records) == Some(content) { DecodeSerialize(revision, records); }
  }

  /** No beginning of a file is itself a file: a write that stopped half-way is never read as healthy. */
  lemma {:induction false} UnfinishedWriteIsInvalid(revision: int, records: seq<Record>, n: nat)
    requires Serialize(revision, records).Some? && n < |Serialize(revision, records).value|
    ensures DecodeStore(Serialize(revision, records).value[..n]) == Invalid
  {
    hide Print, ValueOk, ReadEnvelope, EnvelopeTree, ParseDocument, ValidSnapshot, ParseValue;
    var content := Serialize(revision, records).value;
    var part := content[..n];
    match DecodeStore(part) {
      case Invalid =>
      case Healthy(revision', records') =>
        FormatIsCanonical(part, revision', records');
        var whole, cut := EnvelopeTree(revision, records), EnvelopeTree(revision', records');
        EnvelopeRoundTrip(revision, records);
        EnvelopeRoundTrip(revision', records');
        assert content[0..|content|] == Print(whole) && content[0..n] == Print(cut);
        ValueExact(content, 0, |content|, whole);
        ValueExact(content, 0, n, cut);
        assert false;
    }
  }

  // ---------- The empty store ----------

  lemma {:induction false} TailLength(t: string)
    ensures |PrintTail(Plains(t))| == |t| + 1
    decreases |t|
  {
    if t != "" {
      assert Plains(t)[1..] == Plains(t[1..]);
      TailLength(t[1..]);
    }
  }

  lemma {:induction false} FieldLength(fs: Fields)
    requires fs != []
    ensures |PrintMembers(JMembers(fs))| <=
            4 + |fs[0].0| + |Print(fs[0].1)| + if |fs| == 1 then 0 else |PrintMembers(JMembers(fs[1..]))|
  {
    TailLength(fs[0].0);
  }

  lemma {:induction false} EmptyStoreFits()
    ensures Serialize(0, []).Some? && 0 < |Serialize(0, []).value|
  {
    hide PrintMembers, JMembers;
    var fs := EnvelopeFields(0, []);
    var version, records, revision := Print(fs[0].1), Print(fs[1].1), Print(fs[2].1);
    TailLength(PERSISTENCE_VERSION);
    assert |version| <= 10 && |records| <= 10;
    assert |revision| <= 10;
    FieldLength(fs[2..]);
    FieldLength(fs[1..]);
    FieldLength(fs);
    assert fs[1..][1..] == fs[2..];
  }
}
