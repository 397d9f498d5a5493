/** The development gate of scripts/development_gate_evidence.py and its coordinator, with the five
    observers that move evidence from one stage to the next. */
module DevelopmentGate {
  import opened Text

  // ---------- Evidence and its evaluation ----------

  datatype Evidence = Evidence(
    currentGate: string, nextGate: string,
    checkpointStatus: Option<string>, checkpointRef: Option<string>,
    testTier: Option<string>, testStatus: Option<string>,
    commitSha: Option<string>, pushedSha: Option<string>,
    ciStatus: Option<string>, ciHeadSha: Option<string>, ciRunId: Option<int>,
    approvalStatus: Option<string>)

  function Blank(currentGate: string, nextGate: string): Evidence {
    Evidence(currentGate, nextGate, None, None, None, None, None, None, None, None, None, None)
  }

  datatype Status = EvidenceRejected | CheckpointRequired | TestRequired | CommitPushRequired | CiRequired
    | ApprovalRequired | NextGateReady

  datatype Action = NoAction | SaveCheckpoint | RunTests | CommitAndPush | WaitForCi | RequestApproval | StartNextGate

  predicate DurableCheckpoint(s: Option<string>) { s == Some("SAVED") || s == Some("NO_CHANGE") }

  predicate TestTier(s: string) { s == "FAST" || s == "REGRESSION" || s == "FULL" }

  predicate CheckpointRef(s: string) { LowerHex(s, 64) }

  predicate CommitSha(s: string) { LowerHex(s, 40) }

  /** `evaluate`; `None` stands for an argument that is not evidence at all. */
  function Evaluate(value: Option<Evidence>): Status {
    if value.None? then EvidenceRejected
    else
      var e := value.value;
      if !Identifier(e.currentGate) || !Identifier(e.nextGate) then EvidenceRejected
      else if e.currentGate == e.nextGate then EvidenceRejected
      else if e.checkpointStatus.None? && e.checkpointRef.None? then CheckpointRequired
      else if !DurableCheckpoint(e.checkpointStatus) then EvidenceRejected
      else if e.checkpointRef.None? || !CheckpointRef(e.checkpointRef.value) then EvidenceRejected
      else if e.testStatus.None? && e.testTier.None? then TestRequired
      else if e.testTier.None? || !TestTier(e.testTier.value) then EvidenceRejected
      else if e.testStatus != Some("PASSED") then EvidenceRejected
      else if e.commitSha.None? && e.pushedSha.None? then CommitPushRequired
      else if e.commitSha.None? || !CommitSha(e.commitSha.value) then EvidenceRejected
      else if e.pushedSha != e.commitSha then EvidenceRejected
      else if e.ciStatus.None? && e.ciHeadSha.None? && e.ciRunId.None? then CiRequired
      else if e.ciStatus != Some("SUCCESS") then EvidenceRejected
      else if e.ciHeadSha != e.commitSha then EvidenceRejected
      else if e.ciRunId.None? || e.ciRunId.value <= 0 then EvidenceRejected
      else if e.approvalStatus == Some("REQUIRED") then ApprovalRequired
      else if e.approvalStatus == Some("NOT_REQUIRED") || e.approvalStatus == Some("APPROVED") then NextGateReady
      else EvidenceRejected
  }

  function NextAction(s: Status): Action {
    match s
    case EvidenceRejected => NoAction
    case CheckpointRequired => SaveCheckpoint
    case TestRequired => RunTests
    case CommitPushRequired => CommitAndPush
    case CiRequired => WaitForCi
    case ApprovalRequired => RequestApproval
    case NextGateReady => StartNextGate
  }

  // ---------- The coordinator ----------

  datatype ActionStatus = Succeeded | Failed | Uncertain

  datatype ActionResult = ActionResult(version: string, action: Action, status: ActionStatus,
                                       evidence: Option<Evidence>, reasons: seq<string>)

  const ACTION_RESULT_VERSION := "0.1"

  function Result(action: Action, status: ActionStatus, evidence: Option<Evidence>, reason: string): ActionResult {
    ActionResult(ACTION_RESULT_VERSION, action, status, evidence, [reason])
  }

  /** What calling the adapter for the next action gave. */
  datatype AdapterCall = Unavailable | Raised | NotAResult | Returned(result: ActionResult)

  datatype Coordinated = CoordinationRejected | AutomationDisabled | CoordinationBlocked | ActionFailedSafe
    | ActionUncertain | NextGateStarted | ActionCompleted(after: Status)

  predicate ExpectedAfter(action: Action, after: Status) {
    match action
    case SaveCheckpoint => after == TestRequired
    case RunTests => after == CommitPushRequired
    case CommitAndPush => after == CiRequired
    case WaitForCi => after == ApprovalRequired || after == NextGateReady
    case RequestApproval => after == NextGateReady
    case _ => false
  }

  /** `DevelopmentGateCoordinator.coordinate`. */
  function Coordinate(enabled: bool, evidence: Option<Evidence>, call: AdapterCall): Coordinated {
    var before := Evaluate(evidence);
    var action := NextAction(before);
    if before == EvidenceRejected then CoordinationRejected
    else if !enabled then AutomationDisabled
    else if call.Unavailable? then CoordinationBlocked
    else if call.Raised? || call.NotAResult? then ActionFailedSafe
    else
      var r := call.result;
      if r.version != ACTION_RESULT_VERSION || r.action != action then ActionFailedSafe
      else if r.status == Uncertain then ActionUncertain
      else if r.status == Failed then ActionFailedSafe
      else if action == StartNextGate then if r.evidence.Some? then ActionFailedSafe else NextGateStarted
      else if ExpectedAfter(action, Evaluate(r.evidence)) then ActionCompleted(Evaluate(r.evidence))
      else ActionFailedSafe
  }

  // ---------- The five observers ----------

  datatype CheckpointSave = CheckpointSave(version: string, status: string, storageId: string, reasons: seq<string>)

  const CHECKPOINT_RESULT_VERSION := "0.1"

  function ObserveCheckpoint(e: Evidence, r: CheckpointSave): ActionResult {
    if Evaluate(Some(e)) != CheckpointRequired then
      Result(SaveCheckpoint, Failed, None, "CHECKPOINT_OBSERVATION_NOT_EXPECTED")
    else if r.version != CHECKPOINT_RESULT_VERSION || !DurableCheckpoint(Some(r.status)) || !CheckpointRef(r.storageId)
         || r.reasons != [if r.status == "SAVED" then "CHECKPOINT_STORED" else "CHECKPOINT_ALREADY_STORED"]
    then Result(SaveCheckpoint, Failed, None, "CHECKPOINT_SAVE_RESULT_INVALID")
    else
      Result(SaveCheckpoint, Succeeded, Some(e.(checkpointStatus := Some(r.status),
                                                checkpointRef := Some(r.storageId))),
             "CHECKPOINT_SAVE_RESULT_VALIDATED")
  }

  datatype TestRun = TestRun(version: string, source: string, checkpointRef: string, tier: string, status: string,
                             conclusion: Option<string>, tests: int, skipped: int, failures: int, errors: int)

  predicate ValidCounts(r: TestRun) {
    && r.tests > 0 && r.skipped >= 0 && r.failures >= 0 && r.errors >= 0
    && r.skipped + r.failures + r.errors <= r.tests
  }

  function ObserveTests(e: Evidence, r: TestRun): ActionResult {
    if Evaluate(Some(e)) != TestRequired then Result(RunTests, Failed, None, "TEST_OBSERVATION_NOT_EXPECTED")
    else if r.version != "0.1" || r.source != "TEST_TIER_RUNNER" || Some(r.checkpointRef) != e.checkpointRef
         || !TestTier(r.tier) || r.status !in {"QUEUED", "IN_PROGRESS", "COMPLETED"} || !ValidCounts(r)
    then Result(RunTests, Failed, None, "TEST_OBSERVATION_INVALID")
    else if r.status != "COMPLETED" then
      if r.conclusion.Some? || r.failures != 0 || r.errors != 0 then
        Result(RunTests, Failed, None, "TEST_OBSERVATION_INVALID")
      else Result(RunTests, Uncertain, None, "TEST_RUN_NOT_COMPLETED")
    else if r.conclusion != Some("PASSED") && r.conclusion != Some("FAILED") then
      Result(RunTests, Failed, None, "TEST_OBSERVATION_INVALID")
    else if r.conclusion == Some("PASSED") && r.failures == 0 && r.errors == 0 then
      Result(RunTests, Succeeded, Some(e.(testTier := Some(r.tier), testStatus := Some("PASSED"))),
             "TEST_RESULT_VALIDATED")
    else if r.conclusion == Some("FAILED") && r.failures + r.errors > 0 then
      Result(RunTests, Failed, None, "TEST_RUN_FAILED")
    else Result(RunTests, Failed, None, "TEST_OBSERVATION_CONTRADICTORY")
  }

  const REPOSITORY := "tripsoundterrorist/data-lab-jp"

  predicate BranchChar(c: char) { IdChar(c) || c == '/' }

  /** `codex/[a-z0-9][a-z0-9._/-]{0,120}` with no empty, dotted or `.lock` path part. */
  predicate FeatureBranch(s: string) {
    && 7 <= |s| <= 127 && s[..6] == "codex/" && LowerOrDigit(s[6])
    && (forall i :: 7 <= i < |s| ==> BranchChar(s[i]))
    && !Contains(s, "..") && !Contains(s, "//") && !EndsWith(s, "/") && !EndsWith(s, ".")
    && !Contains(s, "/.") && !Contains(s, ".lock/") && !EndsWith(s, ".lock")
  }

  datatype CommitPush = CommitPush(version: string, source: string, repository: string, remote: string, branch: string,
                                   base: string, checkpointRef: string, tier: string, status: string,
                                   conclusion: Option<string>, commitSha: Option<string>, pushedSha: Option<string>,
                                   force: bool)

  function ObserveCommitPush(e: Evidence, r: CommitPush): ActionResult {
    if Evaluate(Some(e)) != CommitPushRequired then
      Result(CommitAndPush, Failed, None, "COMMIT_PUSH_OBSERVATION_NOT_EXPECTED")
    else if r.version != "0.1" || r.source != "GIT_REMOTE_OBSERVER" || r.repository != REPOSITORY
            || r.remote != "origin"
         || r.base != "main" || !FeatureBranch(r.branch) || Some(r.checkpointRef) != e.checkpointRef
         || Some(r.tier) != e.testTier || r.status !in {"QUEUED", "IN_PROGRESS", "COMPLETED"} || r.force
         || (r.commitSha.Some? && !CommitSha(r.commitSha.value)) || (r.pushedSha.Some? && !CommitSha(r.pushedSha.value))
    then Result(CommitAndPush, Failed, None, "COMMIT_PUSH_OBSERVATION_INVALID")
    else if r.status != "COMPLETED" then
      if r.conclusion.Some? || r.pushedSha.Some? then
        Result(CommitAndPush, Failed, None, "COMMIT_PUSH_OBSERVATION_INVALID")
      else Result(CommitAndPush, Uncertain, None, "COMMIT_PUSH_NOT_COMPLETED")
    else if r.conclusion != Some("PUSHED") && r.conclusion != Some("FAILED") then
      Result(CommitAndPush, Failed, None, "COMMIT_PUSH_OBSERVATION_INVALID")
    else if r.conclusion == Some("FAILED") then
      Result(CommitAndPush, Failed, None, if r.pushedSha.Some? then "COMMIT_PUSH_OBSERVATION_CONTRADICTORY"
                                          else "COMMIT_PUSH_FAILED")
    else if r.commitSha.None? || r.pushedSha != r.commitSha then
      Result(CommitAndPush, Failed, None, "COMMIT_PUSH_SHA_MISMATCH")
    else
      Result(CommitAndPush, Succeeded, Some(e.(commitSha := r.commitSha, pushedSha := r.pushedSha)),
             "COMMIT_PUSH_RESULT_VALIDATED")
  }

  datatype CiJob = CiJob(name: string, status: string, conclusion: Option<string>, tier: Option<string>)

  datatype CiRun = CiRun(version: string, source: string, repository: string, workflow: string, event: string,
                         base: string,
                         branch: string, checkpointRef: string, tier: string, pushedSha: string, status: string,
                         conclusion: Option<string>, headSha: string, runId: int, jobs: seq<CiJob>)

  predicate JobPassed(j: CiJob) { j.status == "completed" && j.conclusion == Some("success") }

  /** The two jobs under their names; two jobs of one name leave a name missing. */
  predicate JobsNamed(fast: CiJob, validation: CiJob) { fast.name == "fast" && validation.name == "validation" }

  function ObserveCi(e: Evidence, r: CiRun, approvalRequired: bool): ActionResult {
    if Evaluate(Some(e)) != CiRequired then Result(WaitForCi, Failed, None, "CI_OBSERVATION_NOT_EXPECTED")
    else if r.version != "0.2" || r.source != "GITHUB_ACTIONS" || r.repository != REPOSITORY || r.workflow != "CI"
         || r.event !in {"pull_request", "push"} || r.base != "main" || Some(r.checkpointRef) != e.checkpointRef
         || Some(r.tier) != e.testTier || Some(r.pushedSha) != e.pushedSha
         || r.status !in {"queued", "in_progress", "completed"}
    then Result(WaitForCi, Failed, None, "CI_IDENTITY_INVALID")
    else if (if r.event == "pull_request" then !FeatureBranch(r.branch) else r.branch != "main") then
      Result(WaitForCi, Failed, None, "CI_REF_INVALID")
    else if Some(r.headSha) != e.commitSha || Some(r.headSha) != e.pushedSha then
      Result(WaitForCi, Failed, None, "CI_HEAD_SHA_MISMATCH")
    else if r.runId <= 0 then Result(WaitForCi, Failed, None, "CI_RUN_ID_INVALID")
    else if r.status != "completed" then
      if r.conclusion.Some? then Result(WaitForCi, Failed, None, "CI_OBSERVATION_CONTRADICTORY")
      else Result(WaitForCi, Uncertain, None, "CI_NOT_COMPLETED")
    else if r.conclusion != Some("success") then Result(WaitForCi, Failed, None, "CI_NOT_SUCCESSFUL")
    else if |r.jobs| != 2 || !(JobsNamed(r.jobs[0], r.jobs[1]) || JobsNamed(r.jobs[1], r.jobs[0])) then
      Result(WaitForCi, Failed, None, "CI_JOBS_INVALID")
    else if !JobPassed(r.jobs[0]) || !JobPassed(r.jobs[1]) then Result(WaitForCi, Failed, None, "CI_JOB_NOT_SUCCESSFUL")
    else
      var fast := if r.jobs[0].name == "fast" then r.jobs[0] else r.jobs[1];
      var validation := if r.jobs[0].name == "fast" then r.jobs[1] else r.jobs[0];
      if fast.tier != Some("FAST")
         || validation.tier != Some(if r.event == "pull_request" then "REGRESSION" else "FULL")
      then
        Result(WaitForCi, Failed, None, "CI_TIER_EVIDENCE_INVALID")
      else
        Result(WaitForCi, Succeeded,
               Some(e.(ciStatus := Some("SUCCESS"), ciHeadSha := Some(r.headSha), ciRunId := Some(r.runId),
                       approvalStatus := Some(if approvalRequired then "REQUIRED" else "NOT_REQUIRED"))),
               "CI_OBSERVATION_VALIDATED")
  }

  datatype Approval = Approval(version: string, source: string, repository: string, device: string, requestId: string,
                               currentGate: string, nextGate: string, headSha: string, ciRunId: int, status: string,
                               requestedAt: int, decidedAt: Option<int>)

  const MAX_DECISION_AGE_SECONDS := 300
  const APPROVAL_VALIDATED := "REMOTE_IPHONE_APPROVAL_VALIDATED"

  function ObserveApproval(e: Evidence, r: Approval, now: int): ActionResult {
    if Evaluate(Some(e)) != ApprovalRequired then Result(RequestApproval, Failed, None, "REMOTE_APPROVAL_NOT_EXPECTED")
    else if r.version != "0.1" || r.source != "CODEX_REMOTE" || r.repository != REPOSITORY || r.device != "IPHONE"
         || !Identifier(r.requestId)
    then Result(RequestApproval, Failed, None, "REMOTE_APPROVAL_IDENTITY_INVALID")
    else if r.currentGate != e.currentGate || r.nextGate != e.nextGate || Some(r.headSha) != e.commitSha
            || Some(r.ciRunId) != e.ciRunId
    then Result(RequestApproval, Failed, None, "REMOTE_APPROVAL_TARGET_MISMATCH")
    else if r.requestedAt < 0 || now < 0 || r.requestedAt > now then
      Result(RequestApproval, Failed, None, "REMOTE_APPROVAL_TIMESTAMP_INVALID")
    else if r.status == "PENDING" then
      if r.decidedAt.Some? then Result(RequestApproval, Failed, None, "REMOTE_APPROVAL_TIMESTAMP_INVALID")
      else Result(RequestApproval, Uncertain, None, "REMOTE_APPROVAL_PENDING")
    else if r.status != "APPROVED" && r.status != "DENIED" then
      Result(RequestApproval, Failed, None, "REMOTE_APPROVAL_STATUS_INVALID")
    else if r.decidedAt.None? || r.decidedAt.value < r.requestedAt || r.decidedAt.value > now then
      Result(RequestApproval, Failed, None, "REMOTE_APPROVAL_TIMESTAMP_INVALID")
    else if now - r.decidedAt.value > MAX_DECISION_AGE_SECONDS then
      Result(RequestApproval, Failed, None, "REMOTE_APPROVAL_STALE")
    else if r.status == "DENIED" then Result(RequestApproval, Failed, None, "REMOTE_APPROVAL_DENIED")
    else Result(RequestApproval, Succeeded, Some(e.(approvalStatus := Some("APPROVED"))), APPROVAL_VALIDATED)
  }

  /** One observation handed to the observer of its stage. */
  datatype Observation =
    | OfCheckpoint(save: CheckpointSave)
    | OfTests(run: TestRun)
    | OfCommitPush(push: CommitPush)
    | OfCi(ci: CiRun)
    | OfApproval(approval: Approval, now: int)

  function Observe(e: Evidence, o: Observation, approvalRequired: bool): ActionResult {
    match o
    case OfCheckpoint(r) => ObserveCheckpoint(e, r)
    case OfTests(r) => ObserveTests(e, r)
    case OfCommitPush(r) => ObserveCommitPush(e, r)
    case OfCi(r) => ObserveCi(e, r, approvalRequired)
    case OfApproval(r, now) => ObserveApproval(e, r, now)
  }

  // ---------- Runs ----------

  function Stage(s: Status): int {
    match s
    case EvidenceRejected => -1
    case CheckpointRequired => 0
    case TestRequired => 1
    case CommitPushRequired => 2
    case CiRequired => 3
    case ApprovalRequired => 4
    case NextGateReady => 5
  }

  predicate Kept<T(==)>(before: Option<T>, after: Option<T>) { before.Some? ==> after == before }

  /** No field that was set is changed, apart from the approval moving from required to approved. */
  predicate Extends(a: Evidence, b: Evidence) {
    && b.currentGate == a.currentGate && b.nextGate == a.nextGate
    && Kept(a.checkpointStatus, b.checkpointStatus) && Kept(a.checkpointRef, b.checkpointRef)
    && Kept(a.testTier, b.testTier) && Kept(a.testStatus, b.testStatus)
    && Kept(a.commitSha, b.commitSha) && Kept(a.pushedSha, b.pushedSha)
    && Kept(a.ciStatus, b.ciStatus) && Kept(a.ciHeadSha, b.ciHeadSha) && Kept(a.ciRunId, b.ciRunId)
    && (Kept(a.approvalStatus, b.approvalStatus)
        || (a.approvalStatus == Some("REQUIRED") && b.approvalStatus == Some("APPROVED")))
  }

  /** What a run has filled in by the time it is at a stage: nothing ahead of the stage. */
  predicate Reached(e: Evidence, approvalRequired: bool) {
    var s := Stage(Evaluate(Some(e)));
    && s >= 0
    && (s < 1 ==> e.testTier.None? && e.testStatus.None?)
    && (s < 2 ==> e.commitSha.None? && e.pushedSha.None?)
    && (s < 3 ==> e.ciStatus.None? && e.ciHeadSha.None? && e.ciRunId.None?)
    && (s <= 3 ==> e.approvalStatus.None?)
    && (s == 4 ==> approvalRequired)
    && (s == 5 ==> e.approvalStatus == Some(if approvalRequired then "APPROVED" else "NOT_REQUIRED"))
  }

  /** One coordinated action whose adapter is one of the observers. */
  predicate Completes(e: Evidence, o: Observation, approvalRequired: bool, e': Evidence) {
    && var r := Observe(e, o, approvalRequired);
    && Coordinate(true, Some(e), Returned(r)).ActionCompleted? && r.evidence == Some(e')
  }

  // What each observer leaves in the evidence when it succeeds.

  lemma {:induction false} CheckpointEffect(e: Evidence, r: CheckpointSave)
    requires ObserveCheckpoint(e, r).status == Succeeded
    ensures Evaluate(Some(e)) == CheckpointRequired && DurableCheckpoint(Some(r.status)) && CheckpointRef(r.storageId)
    ensures ObserveCheckpoint(e, r).evidence ==
            Some(e.(checkpointStatus := Some(r.status), checkpointRef := Some(r.storageId)))
  {
    hide Evaluate, CheckpointRef, DurableCheckpoint;
  }

  lemma {:induction false} TestsEffect(e: Evidence, r: TestRun)
    requires ObserveTests(e, r).status == Succeeded
    ensures Evaluate(Some(e)) == TestRequired && TestTier(r.tier)
    ensures ObserveTests(e, r).evidence == Some(e.(testTier := Some(r.tier), testStatus := Some("PASSED")))
  {
    hide Evaluate, TestTier, ValidCounts;
  }

  lemma {:induction false} CommitPushEffect(e: Evidence, r: CommitPush)
    requires ObserveCommitPush(e, r).status == Succeeded
    ensures Evaluate(Some(e)) == CommitPushRequired && r.commitSha.Some? && CommitSha(r.commitSha.value)
    ensures ObserveCommitPush(e, r).evidence == Some(e.(commitSha := r.commitSha, pushedSha := r.commitSha))
  {
    hide Evaluate, CommitSha, FeatureBranch;
  }

  lemma {:induction false} CiEffect(e: Evidence, r: CiRun, approvalRequired: bool)
    requires ObserveCi(e, r, approvalRequired).status == Succeeded
    ensures Evaluate(Some(e)) == CiRequired && Some(r.headSha) == e.commitSha && r.runId > 0
    ensures ObserveCi(e, r, approvalRequired).evidence ==
            Some(e.(ciStatus := Some("SUCCESS"), ciHeadSha := e.commitSha, ciRunId := Some(r.runId),
                    approvalStatus := Some(if approvalRequired then "REQUIRED" else "NOT_REQUIRED")))
  {
    hide Evaluate, FeatureBranch, JobPassed, JobsNamed;
  }

  lemma {:induction false} ApprovalEffect(e: Evidence, r: Approval, now: int)
    requires ObserveApproval(e, r, now).status == Succeeded
    ensures Evaluate(Some(e)) == ApprovalRequired
    ensures ObserveApproval(e, r, now).evidence == Some(e.(approvalStatus := Some("APPROVED")))
  {
    hide Evaluate, Identifier;
  }

  /** A completed action moves evidence exactly one stage, or over the approval stage from CI when
      no approval is required, and keeps every field already set. */
  lemma {:induction false} CompletedActionAdvancesOneStage(e: Evidence, o: Observation, approvalRequired: bool,
                                                           e': Evidence)
    requires Reached(e, approvalRequired) && Completes(e, o, approvalRequired, e')
    ensures Reached(e', approvalRequired) && Extends(e, e')
    ensures var s, s' := Stage(Evaluate(Some(e))), Stage(Evaluate(Some(e')));
            if s == 3 && !approvalRequired then s' == 5 else s' == s + 1
  {
    hide ObserveCheckpoint, ObserveTests, ObserveCommitPush, ObserveCi, ObserveApproval, Identifier, CheckpointRef,
         CommitSha, TestTier;
    match o
    case OfCheckpoint(r) => CheckpointEffect(e, r);
    case OfTests(r) => TestsEffect(e, r);
    case OfCommitPush(r) => CommitPushEffect(e, r);
    case OfCi(r) => CiEffect(e, r, approvalRequired);
    case OfApproval(r, now) => ApprovalEffect(e, r, now);
  }

  ghost predicate Step(e: Evidence, approvalRequired: bool, e': Evidence) {
    exists o :: Completes(e, o, approvalRequired, e')
  }

  /** The evidence after each action of a run, from blank evidence. */
  ghost predicate Run(history: seq<Evidence>, approvalRequired: bool) {
    && |history| > 0
    && history[0] == Blank(history[0].currentGate, history[0].nextGate)
    && Evaluate(Some(history[0])) != EvidenceRejected
    && forall i :: 0 <= i < |history| - 1 ==> Step(history[i], approvalRequired, history[i + 1])
  }

  /** Stage after `n` completed actions. */
  function StageAfter(n: nat, approvalRequired: bool): int { if n == 4 && !approvalRequired then 5 else n }

  lemma {:induction false} ExtendsTransitive(a: Evidence, b: Evidence, c: Evidence)
    requires Extends(a, b) && Extends(b, c)
    requires a.approvalStatus.None? || b == a
    ensures Extends(a, c)
  {
  }

  /** Every run from blank evidence: the number of completed actions fixes the stage, no run is longer
      than five actions, no field is ever rewritten, and the approval field stays blank until CI. */
  lemma {:induction false} RunsAreStaged(history: seq<Evidence>, approvalRequired: bool)
    requires Run(history, approvalRequired)
    ensures |history| - 1 <= (if approvalRequired then 5 else 4)
    ensures Reached(history[|history| - 1], approvalRequired)
    ensures Stage(Evaluate(Some(history[|history| - 1]))) == StageAfter(|history| - 1, approvalRequired)
    ensures forall i, j :: 0 <= i <= j < |history| ==> Extends(history[i], history[j])
    ensures forall i :: 0 <= i < |history| && i < 4 ==> history[i].approvalStatus.None?
    decreases |history|
  {
    var n := |history| - 1;
    if n == 0 {
      BlankReached(history[0], approvalRequired);
    } else {
      hide Completes, Extends, Evaluate, Reached;
      var prefix := history[..n];
      RunsAreStaged(prefix, approvalRequired);
      var o :| Completes(history[n - 1], o, approvalRequired, history[n]);
      CompletedActionAdvancesOneStage(history[n - 1], o, approvalRequired, history[n]);
      EndOfRun(history[n], approvalRequired);
      EndOfRun(history[n - 1], approvalRequired);
      LastExtendsAll(history);
    }
  }

  lemma {:induction false} LastExtendsAll(history: seq<Evidence>)
    requires |history| > 1 && Extends(history[|history| - 2], history[|history| - 1])
    requires var prefix := history[..|history| - 1];
             && (forall i, j :: 0 <= i <= j < |prefix| ==> Extends(prefix[i], prefix[j]))
             && (forall i :: 0 <= i < |prefix| && i < 4 ==> prefix[i].approvalStatus.None?)
    requires |history| <= 6
    ensures forall i, j :: 0 <= i <= j < |history| ==> Extends(history[i], history[j])
    ensures forall i :: 0 <= i < |history| - 1 && i < 4 ==> history[i].approvalStatus.None?
  {
    hide Extends;
    var n := |history| - 1;
    var prefix := history[..n];
    forall i | 0 <= i < n && i < 4 ensures history[i].approvalStatus.None? { assert prefix[i].approvalStatus.None?; }
    forall i, j | 0 <= i <= j < |history| ensures Extends(history[i], history[j]) {
      if j < n {
        assert Extends(prefix[i], prefix[j]);
      } else if i < n {
        assert Extends(prefix[i], prefix[n - 1]);
        ExtendsTransitive(history[i], history[n - 1], history[n]);
      } else {
        ExtendsReflexive(history[n]);
      }
    }
  }

  lemma {:induction false} ExtendsReflexive(e: Evidence)
    ensures Extends(e, e)
  {
  }

  lemma {:induction false} BlankReached(e: Evidence, approvalRequired: bool)
    requires e == Blank(e.currentGate, e.nextGate) && Evaluate(Some(e)) != EvidenceRejected
    ensures Reached(e, approvalRequired) && Stage(Evaluate(Some(e))) == 0 && e.approvalStatus.None? && Extends(e, e)
  {
  }

  /** What a stage says about the approval field, and that the last stage has no completing action. */
  lemma {:induction false} EndOfRun(e: Evidence, approvalRequired: bool)
    requires Reached(e, approvalRequired)
    ensures Stage(Evaluate(Some(e))) <= 3 ==> e.approvalStatus.None?
    ensures Stage(Evaluate(Some(e))) == 4 ==> approvalRequired
    ensures Stage(Evaluate(Some(e))) <= 5
  {
  }

  /** At the end of a run commit, push and CI name one commit, and the gate may start. */
  lemma {:induction false} ReadyEvidenceAgrees(history: seq<Evidence>, approvalRequired: bool)
    requires Run(history, approvalRequired) && Evaluate(Some(history[|history| - 1])) == NextGateReady
    ensures var e := history[|history| - 1];
            && |history| - 1 == (if approvalRequired then 5 else 4)
            && e.commitSha.Some? && e.pushedSha == e.commitSha && e.ciHeadSha == e.commitSha && e.ciRunId.Some?
            && e.approvalStatus == Some(if approvalRequired then "APPROVED" else "NOT_REQUIRED")
  {
    RunsAreStaged(history, approvalRequired);
  }

  // ---------- An honest project gets through ----------

  /** The facts of one honest passage of the gate. */
  datatype Facts = Facts(currentGate: string, nextGate: string, ref: string, tier: string, branch: string, sha: string,
                         ciRunId: int, requestId: string, now: int)

  predicate Genuine(f: Facts) {
    && Identifier(f.currentGate) && Identifier(f.nextGate) && f.currentGate != f.nextGate && CheckpointRef(f.ref)
    && TestTier(f.tier)
    && FeatureBranch(f.branch) && CommitSha(f.sha) && f.ciRunId > 0 && Identifier(f.requestId) && f.now >= 0
  }

  function AtStart(f: Facts): Evidence { Blank(f.currentGate, f.nextGate) }

  function AtTests(f: Facts): Evidence { AtStart(f).(checkpointStatus := Some("SAVED"), checkpointRef := Some(f.ref)) }

  function AtPush(f: Facts): Evidence { AtTests(f).(testTier := Some(f.tier), testStatus := Some("PASSED")) }

  function AtCi(f: Facts): Evidence { AtPush(f).(commitSha := Some(f.sha), pushedSha := Some(f.sha)) }

  function AfterCi(f: Facts, approvalRequired: bool): Evidence {
    AtCi(f).(ciStatus := Some("SUCCESS"), ciHeadSha := Some(f.sha), ciRunId := Some(f.ciRunId),
             approvalStatus := Some(if approvalRequired then "REQUIRED" else "NOT_REQUIRED"))
  }

  function Approved(f: Facts): Evidence { AfterCi(f, true).(approvalStatus := Some("APPROVED")) }

  lemma {:induction false} StagesOfFacts(f: Facts, approvalRequired: bool)
    requires Genuine(f)
    ensures Evaluate(Some(AtStart(f))) == CheckpointRequired && Evaluate(Some(AtTests(f))) == TestRequired
    ensures Evaluate(Some(AtPush(f))) == CommitPushRequired && Evaluate(Some(AtCi(f))) == CiRequired
    ensures Evaluate(Some(AfterCi(f, approvalRequired))) == if approvalRequired then ApprovalRequired else NextGateReady
    ensures Evaluate(Some(Approved(f))) == NextGateReady
  {
    hide Identifier, CheckpointRef, TestTier, FeatureBranch, CommitSha;
  }

  /** A successful observation that lands on the expected stage completes its action. */
  lemma {:induction false} ObservedCompletes(e: Evidence, o: Observation, approvalRequired: bool, e': Evidence,
                                             action: Action, reason: string)
    requires Observe(e, o, approvalRequired) == Result(action, Succeeded, Some(e'), reason)
    requires Evaluate(Some(e)) != EvidenceRejected && NextAction(Evaluate(Some(e))) == action && action != StartNextGate
    requires ExpectedAfter(action, Evaluate(Some(e')))
    ensures Step(e, approvalRequired, e')
  {
    hide Observe, Evaluate;
    assert Completes(e, o, approvalRequired, e');
  }

  lemma {:induction false} CheckpointCompletes(f: Facts, approvalRequired: bool)
    requires Genuine(f)
    ensures Step(AtStart(f), approvalRequired, AtTests(f))
  {
    hide Identifier, CheckpointRef, TestTier, FeatureBranch, CommitSha, Evaluate, Coordinate;
    StagesOfFacts(f, approvalRequired);
    var o := OfCheckpoint(CheckpointSave(CHECKPOINT_RESULT_VERSION, "SAVED", f.ref, ["CHECKPOINT_STORED"]));
    ObservedCompletes(AtStart(f), o, approvalRequired, AtTests(f), SaveCheckpoint, "CHECKPOINT_SAVE_RESULT_VALIDATED");
  }

  lemma {:induction false} TestsComplete(f: Facts, approvalRequired: bool)
    requires Genuine(f)
    ensures Step(AtTests(f), approvalRequired, AtPush(f))
  {
    hide Identifier, CheckpointRef, TestTier, FeatureBranch, CommitSha, Evaluate, Coordinate;
    StagesOfFacts(f, approvalRequired);
    var o := OfTests(TestRun("0.1", "TEST_TIER_RUNNER", f.ref, f.tier, "COMPLETED", Some("PASSED"), 1, 0, 0, 0));
    ObservedCompletes(AtTests(f), o, approvalRequired, AtPush(f), RunTests, "TEST_RESULT_VALIDATED");
  }

  lemma {:induction false} PushCompletes(f: Facts, approvalRequired: bool)
    requires Genuine(f)
    ensures Step(AtPush(f), approvalRequired, AtCi(f))
  {
    hide Identifier, CheckpointRef, TestTier, FeatureBranch, CommitSha, Evaluate, Coordinate;
    StagesOfFacts(f, approvalRequired);
    var o := OfCommitPush(CommitPush("0.1", "GIT_REMOTE_OBSERVER", REPOSITORY, "origin", f.branch, "main", f.ref,
                                     f.tier, "COMPLETED", Some("PUSHED"), Some(f.sha), Some(f.sha), false));
    ObservedCompletes(AtPush(f), o, approvalRequired, AtCi(f), CommitAndPush, "COMMIT_PUSH_RESULT_VALIDATED");
  }

  lemma {:induction false} CiCompletes(f: Facts, approvalRequired: bool)
    requires Genuine(f)
    ensures Step(AtCi(f), approvalRequired, AfterCi(f, approvalRequired))
  {
    hide Identifier, CheckpointRef, TestTier, FeatureBranch, CommitSha, Evaluate, Coordinate;
    StagesOfFacts(f, approvalRequired);
    var o := OfCi(CiRun("0.2", "GITHUB_ACTIONS", REPOSITORY, "CI", "pull_request", "main", f.branch, f.ref, f.tier,
                        f.sha, "completed", Some("success"), f.sha, f.ciRunId,
                        [CiJob("fast", "completed", Some("success"), Some("FAST")),
                         CiJob("validation", "completed", Some("success"), Some("REGRESSION"))]));
    ObservedCompletes(AtCi(f), o, approvalRequired, AfterCi(f, approvalRequired), WaitForCi,
                      "CI_OBSERVATION_VALIDATED");
  }

  /** The approval that the owner gives in time. */
  function ApprovalOf(f: Facts): Approval {
    Approval("0.1", "CODEX_REMOTE", REPOSITORY, "IPHONE", f.requestId, f.currentGate, f.nextGate, f.sha, f.ciRunId,
             "APPROVED", f.now, Some(f.now))
  }

  lemma {:induction false} GenuineApprovalIsValidated(f: Facts)
    requires Genuine(f)
    ensures ObserveApproval(AfterCi(f, true), ApprovalOf(f), f.now) ==
            Result(RequestApproval, Succeeded, Some(Approved(f)), APPROVAL_VALIDATED)
  {
    hide Identifier, CheckpointRef, TestTier, FeatureBranch, CommitSha, Evaluate;
    StagesOfFacts(f, true);
  }

  lemma {:induction false} ApprovalCompletes(f: Facts)
    requires Genuine(f)
    ensures Step(AfterCi(f, true), true, Approved(f))
  {
    hide Genuine, Evaluate, Coordinate, ObserveApproval;
    StagesOfFacts(f, true);
    GenuineApprovalIsValidated(f);
    var o := OfApproval(ApprovalOf(f), f.now);
    ObservedCompletes(AfterCi(f, true), o, true, Approved(f), RequestApproval, APPROVAL_VALIDATED);
  }

  /** Every gate can be passed: genuine facts give a run that ends ready, in four actions, or in five with approval. */
  lemma {:induction false} GenuineFactsPass(f: Facts, approvalRequired: bool) returns (history: seq<Evidence>)
    requires Genuine(f)
    ensures Run(history, approvalRequired) && history[0] == AtStart(f)
    ensures Evaluate(Some(history[|history| - 1])) == NextGateReady
    ensures |history| - 1 == if approvalRequired then 5 else 4
  {
    hide Step, Genuine, Evaluate;
    StagesOfFacts(f, approvalRequired);
    CheckpointCompletes(f, approvalRequired);
    TestsComplete(f, approvalRequired);
    PushCompletes(f, approvalRequired);
    CiCompletes(f, approvalRequired);
    history := [AtStart(f), AtTests(f), AtPush(f), AtCi(f), AfterCi(f, approvalRequired)];
    if approvalRequired {
      ApprovalCompletes(f);
      history := history + [Approved(f)];
    }
  }
}
