/** How large a replay file gets: up to which size the 256 KiB limit of
    scripts/development_remote_approval_replay_persistence.py refuses nothing. */
module ReplaySize {
  import opened Text
  import opened JsonGrammar
  import opened DevelopmentGate
  import opened ReplayRecord
  import opened ReplayCodec

  const NUMBER_LIMIT: nat := 10_000_000_000_000_000_000
  const NUMBER_DIGITS: nat := 19
  const RECORD_BYTES: nat := 550
  const ROOM_FOR_RECORDS: nat := 476

  /** The two numbers of a record are below 10^19, as every 64-bit integer is. */
  predicate Short(r: Record) { r.ciRunId < NUMBER_LIMIT && r.decidedAt < NUMBER_LIMIT }

  function Pow10(k: nat): nat { if k == 0 then 1 else 10 * Pow10(k - 1) }

  lemma {:induction false} NatLength(n: nat, k: nat)
    requires k >= 1 && n < Pow10(k)
    ensures |PrintNat(n)| <= k
  {
    if n >= 10 {
      assert k > 1;
      NatLength(n / 10, k - 1);
    }
  }

  lemma {:induction false} LimitIsPow10()
    ensures Pow10(NUMBER_DIGITS) == NUMBER_LIMIT
  {
    assert Pow10(5) == 100_000;
    assert Pow10(10) == 10_000_000_000;
    assert Pow10(15) == 1_000_000_000_000_000;
  }

  lemma {:induction false} IntLength(n: int)
    requires 0 <= n < NUMBER_LIMIT
    ensures |Print(JInt(n))| <= NUMBER_DIGITS
  {
    LimitIsPow10();
    NatLength(n, NUMBER_DIGITS);
  }

  lemma {:induction false} TextLength(t: string)
    ensures |Print(JText(t))| == |t| + 2
  {
    TailLength(t);
  }

  /** What the fields of an object and their punctuation come to. */
  function FieldBytes(fs: Fields): nat {
    if fs == [] then 0 else 4 + |fs[0].0| + |Print(fs[0].1)| + FieldBytes(fs[1..])
  }

  lemma {:induction false} MembersLength(fs: Fields)
    requires fs != []
    ensures |PrintMembers(JMembers(fs))| <= FieldBytes(fs)
    decreases |fs|
  {
    FieldLength(fs);
    if |fs| > 1 { MembersLength(fs[1..]); }
  }

  lemma {:induction false} FieldBytesAppend(fs: Fields, name: string, v: Value)
    ensures FieldBytes(fs + [(name, v)]) == FieldBytes(fs) + 4 + |name| + |Print(v)|
    decreases |fs|
  {
    hide Print;
    var all := fs + [(name, v)];
    if fs == [] {
      assert all[1..] == [];
    } else {
      FieldBytesAppend(fs[1..], name, v);
      assert all[1..] == fs[1..] + [(name, v)];
    }
  }

  lemma {:induction false} TextFieldBytes(fs: Fields, name: string, t: string)
    ensures FieldBytes(fs + [(name, JText(t))]) == FieldBytes(fs) + 6 + |name| + |t|
  {
    hide Print, JText;
    TextLength(t);
    FieldBytesAppend(fs, name, JText(t));
  }

  lemma {:induction false} IntFieldBytes(fs: Fields, name: string, n: int)
    requires 0 <= n < NUMBER_LIMIT
    ensures FieldBytes(fs + [(name, JInt(n))]) <= FieldBytes(fs) + 4 + |name| + NUMBER_DIGITS
  {
    hide Print, JInt;
    IntLength(n);
    FieldBytesAppend(fs, name, JInt(n));
  }

  /** The first and the last six fields of a record. */
  lemma {:induction false} FirstFieldBytes(r: Record)
    requires ValidRecord(r) && Short(r)
    ensures FieldBytes(RecordFields(r)[..6]) <= 265
  {
    hide FieldBytes, JText, JInt, Identifier, LowerHex;
    var fs := RecordFields(r);
    assert FieldBytes([]) == 0 by { NoFieldBytes(); }
    IntFieldBytes([], "ci_run_id", r.ciRunId);
    TextFieldBytes(fs[..1], "current_gate_id", r.currentGate);
    IntFieldBytes(fs[..2], "decided_at_epoch_s", r.decidedAt);
    TextFieldBytes(fs[..3], "decision_status", r.decisionStatus);
    TextFieldBytes(fs[..4], "device_class", r.deviceClass);
    TextFieldBytes(fs[..5], "head_sha", r.headSha);
    assert |r.currentGate| <= 64 by { IdentifierLength(r.currentGate); }
    assert |r.headSha| == 40 by { ShaLength(r.headSha); }
    assert fs[..1] == [] + [("ci_run_id", JInt(r.ciRunId))];
    assert fs[..2] == fs[..1] + [("current_gate_id", JText(r.currentGate))];
    assert fs[..3] == fs[..2] + [("decided_at_epoch_s", JInt(r.decidedAt))];
    assert fs[..4] == fs[..3] + [("decision_status", JText(r.decisionStatus))];
    assert fs[..5] == fs[..4] + [("device_class", JText(r.deviceClass))];
    assert fs[..6] == fs[..5] + [("head_sha", JText(r.headSha))];
  }

  lemma {:induction false} LastFieldBytes(r: Record)
    requires ValidRecord(r)
    ensures FieldBytes(RecordFields(r)) <= FieldBytes(RecordFields(r)[..6]) + 283
  {
    hide FieldBytes, JText, JInt, Identifier, LowerHex;
    var fs := RecordFields(r);
    TextFieldBytes(fs[..6], "next_gate_id", r.nextGate);
    TextFieldBytes(fs[..7], "observation_version", r.observationVersion);
    TextFieldBytes(fs[..8], "record_version", r.recordVersion);
    TextFieldBytes(fs[..9], "repository", r.repository);
    TextFieldBytes(fs[..10], "request_id", r.requestId);
    TextFieldBytes(fs[..11], "source", r.source);
    assert |r.nextGate| <= 64 by { IdentifierLength(r.nextGate); }
    assert |r.requestId| <= 64 by { IdentifierLength(r.requestId); }
    assert fs[..7] == fs[..6] + [("next_gate_id", JText(r.nextGate))];
    assert fs[..8] == fs[..7] + [("observation_version", JText(r.observationVersion))];
    assert fs[..9] == fs[..8] + [("record_version", JText(r.recordVersion))];
    assert fs[..10] == fs[..9] + [("repository", JText(r.repository))];
    assert fs[..11] == fs[..10] + [("request_id", JText(r.requestId))];
    assert fs == fs[..11] + [("source", JText(r.source))];
  }

  lemma {:induction false} NoFieldBytes()
    ensures FieldBytes([]) == 0
  {
  }

  lemma {:induction false} IdentifierLength(s: string)
    requires Identifier(s)
    ensures |s| <= 64
  {
  }

  lemma {:induction false} ShaLength(s: string)
    requires LowerHex(s, 40)
    ensures |s| == 40
  {
  }

  /** A valid record with short numbers takes at most 549 bytes and a separator. */
  lemma {:induction false} RecordLength(r: Record)
    requires ValidRecord(r) && Short(r)
    ensures |Print(RecordTree(r))| < RECORD_BYTES
  {
    hide FieldBytes, PrintMembers, JMembers, ValidRecord, JText, JInt;
    FirstFieldBytes(r);
    LastFieldBytes(r);
    MembersLength(RecordFields(r));
  }

  lemma {:induction false} ElemsLength(rs: seq<Record>)
    requires rs != [] && forall i :: 0 <= i < |rs| ==> ValidRecord(rs[i]) && Short(rs[i])
    ensures |PrintElems(JElems(RecordTrees(rs)))| <= RECORD_BYTES * |rs|
    decreases |rs|
  {
    hide ValidRecord, RecordTree, Print;
    RecordLength(rs[0]);
    if |rs| > 1 {
      ElemsLength(rs[1..]);
      assert RecordTrees(rs)[1..] == RecordTrees(rs[1..]);
    }
  }

  lemma {:induction false} ArrayLength(rs: seq<Record>)
    requires forall i :: 0 <= i < |rs| ==> ValidRecord(rs[i]) && Short(rs[i])
    ensures |Print(JArray(RecordTrees(rs)))| <= 2 + RECORD_BYTES * |rs|
  {
    hide ValidRecord, JElems, PrintElems;
    if rs != [] { ElemsLength(rs); }
  }

  lemma {:induction false} EnvelopeLength(revision: int, rs: seq<Record>)
    requires 0 <= revision < NUMBER_LIMIT && forall i :: 0 <= i < |rs| ==> ValidRecord(rs[i]) && Short(rs[i])
    ensures |Print(EnvelopeTree(revision, rs))| <= 54 + NUMBER_DIGITS + RECORD_BYTES * |rs|
  {
    hide FieldBytes, PrintMembers, JMembers, ValidRecord, JText, JInt, JArray;
    var fs := EnvelopeFields(revision, rs);
    NoFieldBytes();
    TextFieldBytes([], "persistence_version", PERSISTENCE_VERSION);
    ArrayLength(rs);
    FieldBytesAppend(fs[..1], "records", JArray(RecordTrees(rs)));
    IntFieldBytes(fs[..2], "revision", revision);
    assert fs[..1] == [] + [("persistence_version", JText(PERSISTENCE_VERSION))];
    assert fs[..2] == fs[..1] + [("records", JArray(RecordTrees(rs)))];
    assert fs == fs[..2] + [("revision", JInt(revision))];
    MembersLength(fs);
  }

  /** Up to 476 records with short numbers fit, whatever the records are. */
  lemma {:induction false} SmallSnapshotFits(revision: int, records: seq<Record>)
    requires 0 <= revision < NUMBER_LIMIT && ValidSnapshot(records) && |records| <= ROOM_FOR_RECORDS
    requires forall i :: 0 <= i < |records| ==> Short(records[i])
    ensures Serialize(revision, records).Some?
  {
    hide Print, EnvelopeTree, ValidRecord;
    EnvelopeLength(revision, records);
  }
}
