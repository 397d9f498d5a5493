/** Records of consumed approvals, scripts/development_remote_approval_replay_record.py. */
module ReplayRecord {
  import opened Text
  import opened DevelopmentGate

  datatype Record = Record(
    recordVersion: string, observationVersion: string, source: string, repository: string, deviceClass: string,
    requestId: string, currentGate: string, nextGate: string, headSha: string, ciRunId: int,
    decisionStatus: string, decidedAt: int)

  const RECORD_VERSION := "0.1"
  const OBSERVATION_VERSION := "0.1"
  const APPROVED_SOURCE := "CODEX_REMOTE"
  const APPROVED_DEVICE_CLASS := "IPHONE"

  /** `validate_record`. */
  predicate ValidRecord(r: Record) {
    && r.recordVersion == RECORD_VERSION && r.observationVersion == OBSERVATION_VERSION && r.source == APPROVED_SOURCE
    && r.repository == REPOSITORY && r.deviceClass == APPROVED_DEVICE_CLASS
    && Identifier(r.requestId) && Identifier(r.currentGate) && Identifier(r.nextGate) && r.currentGate != r.nextGate
    && CommitSha(r.headSha) && r.ciRunId > 0 && r.decisionStatus == "APPROVED" && r.decidedAt >= 0
  }

  /** The gate transition a record approves. */
  datatype Target = Target(currentGate: string, nextGate: string, headSha: string, ciRunId: int)

  function TargetOf(r: Record): Target { Target(r.currentGate, r.nextGate, r.headSha, r.ciRunId) }

  predicate Fresh(records: seq<Record>, r: Record) {
    forall i :: 0 <= i < |records| ==> records[i].requestId != r.requestId && TargetOf(records[i]) != TargetOf(r)
  }

  /** `validate_snapshot`: valid records, no request and no target twice. */
  predicate ValidSnapshot(records: seq<Record>) {
    && (forall i :: 0 <= i < |records| ==> ValidRecord(records[i]))
    && (forall i, j :: 0 <= i < j < |records| ==> records[i].requestId != records[j].requestId)
    && (forall i, j :: 0 <= i < j < |records| ==> TargetOf(records[i]) != TargetOf(records[j]))
  }

  lemma {:induction false} AppendKeepsSnapshot(records: seq<Record>, r: Record)
    ensures ValidSnapshot(records + [r]) <==> ValidSnapshot(records) && ValidRecord(r) && Fresh(records, r)
  {
    hide ValidRecord, TargetOf;
    var all := records + [r];
    if ValidSnapshot(all) {
      forall i | 0 <= i < |records| ensures ValidRecord(records[i]) { assert all[i] == records[i]; }
      forall i, j | 0 <= i < j < |records|
        ensures records[i].requestId != records[j].requestId && TargetOf(records[i]) != TargetOf(records[j])
      {
        assert all[i] == records[i] && all[j] == records[j];
      }
      forall i | 0 <= i < |records| ensures records[i].requestId != r.requestId && TargetOf(records[i]) != TargetOf(r) {
        assert all[i] == records[i] && all[|records|] == r;
      }
      assert all[|records|] == r;
    }
  }

  datatype Lookup = LookupInvalid | LookupBlocked | Consumed | NotConsumed

  /** `find_consumed_request`. */
  function FindConsumed(records: seq<Record>, requestId: string): Lookup {
    if !Identifier(requestId) then LookupInvalid
    else if !ValidSnapshot(records) then LookupBlocked
    else if exists i :: 0 <= i < |records| && records[i].requestId == requestId then Consumed
    else NotConsumed
  }

  /** `build_record`: only from a successful approval whose evidence names the observation's target. */
  function BuildRecord(o: Approval, action: ActionResult): Option<Record> {
    if action.version != ACTION_RESULT_VERSION || action.action != RequestApproval || action.status != Succeeded
       || action.reasons != [APPROVAL_VALIDATED] || action.evidence.None?
    then None
    else
      var e := action.evidence.value;
      if Evaluate(Some(e)) != NextGateReady || e.approvalStatus != Some("APPROVED") || o.currentGate != e.currentGate
         || o.nextGate != e.nextGate || Some(o.headSha) != e.commitSha || Some(o.ciRunId) != e.ciRunId
         || o.decidedAt.None?
      then None
      else
        var r := Record(RECORD_VERSION, o.version, o.source, o.repository, o.device, o.requestId, o.currentGate,
                        o.nextGate, o.headSha, o.ciRunId, o.status, o.decidedAt.value);
        if ValidRecord(r) then Some(r) else None
  }

  /** The target that evidence asks to start. */
  function EvidenceTarget(e: Evidence): Option<Target> {
    if e.commitSha.None? || e.ciRunId.None? then None
    else Some(Target(e.currentGate, e.nextGate, e.commitSha.value, e.ciRunId.value))
  }

  lemma {:induction false} BuiltRecordNamesItsEvidence(o: Approval, action: ActionResult)
    requires BuildRecord(o, action).Some?
    ensures var r := BuildRecord(o, action).value;
            && ValidRecord(r) && r.requestId == o.requestId && action.evidence.Some?
            && EvidenceTarget(action.evidence.value) == Some(TargetOf(r))
            && Evaluate(action.evidence) == NextGateReady
  {
    hide ValidRecord, Evaluate;
  }

  /** The approval observer and the record builder agree: a validated approval gives a record exactly
      when its time stamp fits, which the observer has already checked. */
  lemma {:induction false} ObservedApprovalIsRecorded(e: Evidence, o: Approval, now: int)
    requires ObserveApproval(e, o, now).status == Succeeded
    ensures BuildRecord(o, ObserveApproval(e, o, now)).Some?
  {
    hide Identifier, CommitSha, CheckpointRef, TestTier, DurableCheckpoint, ObserveApproval, Contains, EndsWith;
    ApprovedObservation(e, o, now);
    ApprovedEvidence(e);
  }

  /** What a successful approval has checked. */
  lemma {:induction false} ApprovedObservation(e: Evidence, o: Approval, now: int)
    requires ObserveApproval(e, o, now).status == Succeeded
    ensures Evaluate(Some(e)) == ApprovalRequired
    ensures ObserveApproval(e, o, now) ==
            Result(RequestApproval, Succeeded, Some(e.(approvalStatus := Some("APPROVED"))), APPROVAL_VALIDATED)
    ensures o.version == "0.1" && o.source == "CODEX_REMOTE" && o.repository == REPOSITORY && o.device == "IPHONE"
            && Identifier(o.requestId)
    ensures o.currentGate == e.currentGate && o.nextGate == e.nextGate && Some(o.headSha) == e.commitSha
            && Some(o.ciRunId) == e.ciRunId
    ensures o.status == "APPROVED" && o.decidedAt.Some? && o.decidedAt.value >= 0
  {
    hide Evaluate, Identifier;
  }

  lemma {:induction false} ApprovedEvidence(e: Evidence)
    requires Evaluate(Some(e)) == ApprovalRequired
    ensures Evaluate(Some(e.(approvalStatus := Some("APPROVED")))) == NextGateReady
    ensures Identifier(e.currentGate) && Identifier(e.nextGate) && e.currentGate != e.nextGate
    ensures e.commitSha.Some? && CommitSha(e.commitSha.value) && e.ciRunId.Some? && e.ciRunId.value > 0
  {
    hide Identifier, CommitSha, CheckpointRef, TestTier, DurableCheckpoint;
  }
}
