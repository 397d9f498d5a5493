/** The development gate with the durable approval bridge as the adapter of its approval stage:
    scripts/development_durable_remote_approval_action_bridge.py between the coordinators of the gate and
    of the replay store. Runs of the gate go on beside runs of the store. */
module DurableGate {
  import opened Text
  import opened DevelopmentGate
  import opened ReplayRecord
  import opened ReplayCodec
  import opened ReplayProtocol
  import opened ReplaySafety
  import opened ReplaySize
  import opened ReplayStore

  // ---------- The bridge ----------

  predicate ReasonChar(c: char) { 'A' <= c <= 'Z' || '0' <= c <= '9' || c == '_' }

  predicate ValidReason(reason: string) { |reason| > 0 && forall k :: 0 <= k < |reason| ==> ReasonChar(reason[k]) }

  predicate ValidReasons(reasons: seq<string>) {
    |reasons| > 0 && forall i :: 0 <= i < |reasons| ==> ValidReason(reasons[i])
  }

  const RECORDED_DURABLY := "REMOTE_APPROVAL_RECORDED_DURABLY"
  const BRIDGE_INVALID := "DURABLE_REMOTE_APPROVAL_RESULT_INVALID"

  /** `DurableRemoteApprovalActionBridge.__call__` on what its coordinator returned. */
  function BridgeAction(r: DurableResult, reasons: seq<string>): ActionResult {
    if !ValidReasons(reasons) then Result(RequestApproval, Failed, None, BRIDGE_INVALID)
    else if r.AppliedDurably? then
      if Evaluate(Some(r.evidence)) != NextGateReady then Result(RequestApproval, Failed, None, BRIDGE_INVALID)
      else Result(RequestApproval, Succeeded, Some(r.evidence), "DURABLE_REMOTE_APPROVAL_CONFIRMED")
    else
      var status := if r.ApprovalUncertain? then Uncertain else Failed;
      ActionResult(ACTION_RESULT_VERSION, RequestApproval, status, None, reasons)
  }

  /** The gate, asked for evidence `e`, completes its action with the bridge's answer to `pc` and gets `e'`. */
  predicate Bridged(pc: Pc, e: Evidence, reasons: seq<string>, e': Evidence) {
    && pc.Finished? && pc.outcome.Durable? && pc.outcome.task.Approve? && pc.outcome.task.evidence == e
    && var action := BridgeAction(pc.outcome.result, reasons);
    && Coordinate(true, Some(e), Returned(action)).ActionCompleted? && action.evidence == Some(e')
  }

  lemma {:induction false} BridgedReleases(pc: Pc, e: Evidence, reasons: seq<string>, e': Evidence)
    requires Bridged(pc, e, reasons, e')
    ensures Releases(pc) && ReleaseBy(pc).task.Approve? && ReleaseBy(pc).task.evidence == e
            && ReleaseBy(pc).evidence == e'
    ensures Evaluate(Some(e)) == ApprovalRequired && Evaluate(Some(e')) == NextGateReady
  {
    hide Evaluate, ValidReasons;
  }

  // ---------- What observers vouch for ----------

  /** An observer is given by the answers that it may give to a coordination. */
  type Observer = (Task, ActionResult) -> bool

  /** The observer that the coordinator has unless another one is put in. */
  ghost predicate DefaultAnswer(task: Task, action: ActionResult) {
    task.Approve? && exists now :: action == ObserveApproval(task.evidence, task.approval, now)
  }

  predicate Asked(task: Task) { task.Approve? && Evaluate(Some(task.evidence)) == ApprovalRequired }

  /** `record` was built from an answer of the observer, and `r` hands out the evidence of that answer. */
  ghost predicate Backed(r: Release, record: Record, observer: Observer) {
    && Asked(r.task)
    && exists action :: observer(r.task, action) && action.evidence == Some(r.evidence)
                        && BuildRecord(r.task.approval, action) == Some(record)
  }

  ghost predicate JobBacked(job: Job, observer: Observer) {
    job.release.Some? ==> Backed(job.release.value, job.record, observer)
  }

  predicate AtLoad(pc: Pc) { pc.LoadLock? || pc.LoadTemp? || pc.LoadMain? || pc.LoadRead? || pc.Observing? }

  ghost predicate PcBacked(pc: Pc, observer: Observer) {
    && (AtLoad(pc) && pc.task.Approve? ==> Asked(pc.task))
    && ((pc.SaveLock? || Holds(pc)) ==> JobBacked(pc.job, observer))
  }

  ghost predicate ReceiptsBacked(receipts: seq<Receipt>, observer: Observer) {
    forall i :: 0 <= i < |receipts| && receipts[i].released.Some? ==>
             Backed(receipts[i].released.value, receipts[i].record, observer)
  }

  ghost predicate SystemBacked(s: System, observer: Observer) {
    (forall p :: p in s.procs ==> PcBacked(s.procs[p], observer)) && ReceiptsBacked(s.receipts, observer)
  }

  /** The step is not an observation, or the observation is one that the observer may give. */
  predicate Answers(s: System, p: nat, c: Choice, observer: Observer) {
    c.Observed? && c.action.Some? && p in s.procs && s.procs[p].Observing? ==> observer(s.procs[p].task, c.action.value)
  }

  predicate AnsweredBy(s: System, steps: Steps, observer: Observer) {
    forall k :: 0 <= k < |steps| ==> Answers(Execute(s, steps[..k]), steps[k].0, steps[k].1, observer)
  }

  lemma {:induction false} AnsweredPrefix(s: System, steps: Steps, k: nat, observer: Observer)
    requires AnsweredBy(s, steps, observer) && k <= |steps|
    ensures AnsweredBy(s, steps[..k], observer)
  {
    hide Execute, Answers;
    forall i | 0 <= i < k ensures Answers(Execute(s, steps[..k][..i]), steps[..k][i].0, steps[..k][i].1, observer) {
      assert steps[..k][..i] == steps[..i] && steps[..k][i] == steps[i];
    }
  }

  lemma {:induction false} AfterLoadBacked(task: Task, load: LoadResult, observer: Observer)
    requires task.Approve? ==> Asked(task)
    ensures PcBacked(AfterLoad(task, load), observer)
  {
    hide FindConsumed, Asked;
  }

  lemma {:induction false} AfterObserverBacked(task: Task, action: Option<ActionResult>, observer: Observer)
    requires Asked(task) && (action.Some? ==> observer(task, action.value))
    ensures PcBacked(AfterObserver(task, action), observer)
  {
    hide BuildRecord, Evaluate;
    if action.Some? && BuildRecord(task.approval, action.value).Some? {
      BuiltRecordNamesItsEvidence(task.approval, action.value);
    }
  }

  lemma {:induction false} StartBacked(task: Task, observer: Observer)
    ensures PcBacked(Start(task), observer)
  {
    hide Evaluate;
  }

  lemma {:induction false} JudgeBacked(job: Job, content: string, observer: Observer)
    requires JobBacked(job, observer)
    ensures PcBacked(Judge(job, content), observer)
  {
    hide DecodeStore, Serialize, ValidRecord, JobBacked;
  }

  lemma {:induction false} ErrorBacked(pc: Pc, observer: Observer)
    requires PcBacked(pc, observer)
    ensures PcBacked(OnError(pc), observer)
  {
    hide AfterLoad, JobBacked, Asked;
    match pc
    case LoadLock(t) => AfterLoadBacked(t, LoadBlocked, observer);
    case LoadTemp(t) => AfterLoadBacked(t, LoadBlocked, observer);
    case LoadMain(t) => AfterLoadBacked(t, LoadBlocked, observer);
    case LoadRead(t) => AfterLoadBacked(t, LoadBlocked, observer);
    case _ =>
  }

  lemma {:induction false} LoadStepBacked(s: System, p: nat, observer: Observer)
    requires p in s.procs && AtLoad(s.procs[p]) && PcBacked(s.procs[p], observer)
    ensures var t := Operate(s, p, s.procs[p]);
            p in t.procs && t == Goto(s, p, t.procs[p]) && PcBacked(t.procs[p], observer)
  {
    hide DecodeStore, AfterLoad, Asked;
    match s.procs[p]
    case LoadLock(t) => AfterLoadBacked(t, LoadLocked, observer);
    case LoadTemp(t) => AfterLoadBacked(t, LoadManualReview, observer);
    case LoadMain(t) => AfterLoadBacked(t, LoadMissing, observer);
    case LoadRead(t) =>
      AfterLoadBacked(t, LoadBlocked, observer);
      if s.disk.main.Some? && DecodeStore(s.disk.main.value).Healthy? {
        var decoded := DecodeStore(s.disk.main.value);
        AfterLoadBacked(t, LoadHealthy(decoded.revision, decoded.records), observer);
      }
    case Observing(_) => assert s.procs[p := s.procs[p]] == s.procs;
  }

  lemma {:induction false} OperateBacked(s: System, p: nat, observer: Observer)
    requires SystemBacked(s, observer) && p in s.procs
    ensures SystemBacked(Operate(s, p, s.procs[p]), observer)
  {
    hide Serialize, NewContent, DecodeStore, INITIAL, AfterLoad, Judge, Backed, SaveOutcome, Asked;
    var pc := s.procs[p];
    if AtLoad(pc) { LoadStepBacked(s, p, observer); }
    if pc.SaveRead? && s.disk.main.Some? { JudgeBacked(pc.job, s.disk.main.value, observer); }
  }

  lemma {:induction false} StepBacked(s: System, p: nat, c: Choice, observer: Observer)
    requires SystemBacked(s, observer) && p in s.procs && Answers(s, p, c, observer)
    ensures SystemBacked(Next(s, p, c), observer)
  {
    hide Operate, OnError, AfterObserver, Start, Backed, NewContent, INITIAL, SaveOutcome, Asked;
    var pc := s.procs[p];
    match c
    case Proceed => OperateBacked(s, p, observer);
    case FailIo => if !pc.SaveUnlock? { ErrorBacked(pc, observer); }
    case Observed(action) => if pc.Observing? && pc.task.Approve? { AfterObserverBacked(pc.task, action, observer); }
    case Begin(task) => StartBacked(task, observer);
    case _ =>
  }

  lemma {:induction false} RunBacked(s: System, steps: Steps, observer: Observer)
    requires Boot(s) && AnsweredBy(s, steps, observer)
    ensures SystemBacked(Execute(s, steps), observer)
    decreases |steps|
  {
    hide MainOk, Next, Answers, Backed;
    if steps == [] {
    } else {
      hide SystemBacked;
      var n := |steps| - 1;
      AnsweredPrefix(s, steps, n, observer);
      RunBacked(s, steps[..n], observer);
      assert Answers(Execute(s, steps[..n]), steps[n].0, steps[n].1, observer);
      var (p, c) := steps[n];
      if p in Execute(s, steps[..n]).procs { StepBacked(Execute(s, steps[..n]), p, c, observer); }
    }
  }

  /** The store holds the record from which `r` was released. */
  ghost predicate RecordedFor(log: seq<Record>, r: Release, observer: Observer) {
    exists i :: 0 <= i < |log| && Backed(r, log[i], observer)
  }

  /** Wherever a run has brought a process to release evidence, the store decodes as healthy and holds the record
      that was built, for the approval of that very coordination, from the observer's answer with that evidence. */
  lemma {:induction false} ReleaseIsRecorded(s: System, steps: Steps, p: nat, observer: Observer)
    requires Boot(s) && AnsweredBy(s, steps, observer)
    requires p in Execute(s, steps).procs && Releases(Execute(s, steps).procs[p])
    ensures var t := Execute(s, steps);
            && t.disk.main.Some? && DecodeStore(t.disk.main.value) == Healthy(|t.log|, t.log)
            && RecordedFor(t.log, ReleaseBy(t.procs[p]), observer)
  {
    hide DecodeStore, Boot, Exclusive, Execute, MainOk, ReceiptsOk, ValidSnapshot, HolderOk, Backed, PcBacked,
         AnsweredBy;
    var t := Execute(s, steps);
    RunKeeps(s, steps);
    RunBacked(s, steps, observer);
    StoreIsHealthyOrEmpty(s, steps);
    assert PcOk(t.disk, t.log, t.receipts, t.procs[p]);
    ReleasedIsRecorded(t.log, t.receipts, ReleaseBy(t.procs[p]), observer);
  }

  lemma {:induction false} ReleasedIsRecorded(log: seq<Record>, receipts: seq<Receipt>, r: Release, observer: Observer)
    requires ReceiptsOk(log, receipts) && ReceiptsBacked(receipts, observer) && Released(receipts, r)
    ensures RecordedFor(log, r, observer) && receipts != []
  {
    hide Backed, Names;
    var i :| 0 <= i < |receipts| && receipts[i].released == Some(r);
    assert ReceiptOk(log, receipts[i]);
  }

  // ---------- Which observers keep the target ----------

  function ApprovalTarget(o: Approval): Target { Target(o.currentGate, o.nextGate, o.headSha, o.ciRunId) }

  /** What backing means under every observer. */
  lemma {:induction false} BackedEvidence(r: Release, record: Record, observer: Observer)
    requires Backed(r, record, observer)
    ensures Asked(r.task) && Evaluate(Some(r.evidence)) == NextGateReady
            && r.evidence.approvalStatus == Some("APPROVED")
    ensures EvidenceTarget(r.evidence) == Some(TargetOf(record)) == Some(ApprovalTarget(r.task.approval))
    ensures record.requestId == r.task.approval.requestId && ValidRecord(record)
  {
    hide Evaluate, ValidRecord;
    var action :| observer(r.task, action) && action.evidence == Some(r.evidence)
        && BuildRecord(r.task.approval, action) == Some(record);
    BuiltRecordNamesItsEvidence(r.task.approval, action);
  }

  /** The record of a request for a target is in the store. */
  predicate Holding(log: seq<Record>, requestId: string, target: Target) {
    exists i :: 0 <= i < |log| && log[i].requestId == requestId && TargetOf(log[i]) == target
  }

  /** A record of the target of this evidence is in the store. */
  predicate Recorded(log: seq<Record>, e: Evidence) {
    exists i :: 0 <= i < |log| && EvidenceTarget(e) == Some(TargetOf(log[i]))
  }

  predicate AnyAnswer(task: Task, action: ActionResult) { true }

  /** Under every observer, released evidence is ready and names the target of the approval, whose record is in the
      store. It names the target of the evidence that the gate asked with exactly when the approval does: the
      coordinator itself does not compare them, the default observer does. */
  lemma {:induction false} ReleasedForItsApproval(s: System, steps: Steps, p: nat)
    requires Boot(s) && p in Execute(s, steps).procs && Releases(Execute(s, steps).procs[p])
    ensures var t := Execute(s, steps); var r := ReleaseBy(t.procs[p]);
            && Asked(r.task) && Evaluate(Some(r.evidence)) == NextGateReady
            && r.evidence.approvalStatus == Some("APPROVED")
            && EvidenceTarget(r.evidence) == Some(ApprovalTarget(r.task.approval))
            && (EvidenceTarget(r.evidence) == EvidenceTarget(r.task.evidence) <==>
                EvidenceTarget(r.task.evidence) == Some(ApprovalTarget(r.task.approval)))
            && t.disk.main.Some? && DecodeStore(t.disk.main.value) == Healthy(|t.log|, t.log)
            && Holding(t.log, r.task.approval.requestId, ApprovalTarget(r.task.approval))
  {
    hide DecodeStore, Boot, Execute, Backed, Evaluate, EvidenceTarget, ValidRecord;
    ReleaseIsRecorded(s, steps, p, AnyAnswer);
    var t := Execute(s, steps);
    var r := ReleaseBy(t.procs[p]);
    var i :| 0 <= i < |t.log| && Backed(r, t.log[i], AnyAnswer);
    BackedEvidence(r, t.log[i], AnyAnswer);
  }

  /** With the default observer the released evidence is the evidence that the gate asked with, approved: a validated
      approval of it was answered, nothing else of it changed, and its target is in the store. */
  lemma {:induction false} DefaultReleaseApproves(s: System, steps: Steps, p: nat)
    requires Boot(s) && AnsweredBy(s, steps, DefaultAnswer)
    requires p in Execute(s, steps).procs && Releases(Execute(s, steps).procs[p])
    ensures var t := Execute(s, steps); var r := ReleaseBy(t.procs[p]);
            && Asked(r.task) && r.evidence == r.task.evidence.(approvalStatus := Some("APPROVED"))
            && Extends(r.task.evidence, r.evidence) && EvidenceTarget(r.evidence) == EvidenceTarget(r.task.evidence)
            && (exists now :: ObserveApproval(r.task.evidence, r.task.approval, now).status == Succeeded)
            && t.disk.main.Some? && DecodeStore(t.disk.main.value) == Healthy(|t.log|, t.log)
            && Recorded(t.log, r.evidence)
  {
    hide DecodeStore, Boot, Execute, Backed, Evaluate, AnsweredBy, Asked;
    var observer: Observer := DefaultAnswer;
    ReleaseIsRecorded(s, steps, p, observer);
    var t := Execute(s, steps);
    var r := ReleaseBy(t.procs[p]);
    var i :| 0 <= i < |t.log| && Backed(r, t.log[i], observer);
    BackedEvidence(r, t.log[i], observer);
    DefaultBacking(r, t.log[i]);
  }

  lemma {:induction false} DefaultBacking(r: Release, record: Record)
    requires Backed(r, record, DefaultAnswer)
    ensures r.evidence == r.task.evidence.(approvalStatus := Some("APPROVED"))
    ensures Extends(r.task.evidence, r.evidence) && EvidenceTarget(r.evidence) == EvidenceTarget(r.task.evidence)
    ensures exists now :: ObserveApproval(r.task.evidence, r.task.approval, now).status == Succeeded
  {
    hide Evaluate, ObserveApproval, ValidRecord;
    var action :| DefaultAnswer(r.task, action) && action.evidence == Some(r.evidence)
                  && BuildRecord(r.task.approval, action) == Some(record);
    var now :| action == ObserveApproval(r.task.evidence, r.task.approval, now);
    ApprovedObservation(r.task.evidence, r.task.approval, now);
    RequiredApprovalExtends(r.task.evidence);
  }

  lemma {:induction false} RequiredApprovalExtends(e: Evidence)
    requires Evaluate(Some(e)) == ApprovalRequired
    ensures Extends(e, e.(approvalStatus := Some("APPROVED")))
  {
    hide Identifier, CommitSha, CheckpointRef, TestTier, DurableCheckpoint;
  }

  /** Another observer need not keep the target: one that answers with ready evidence for another CI run, for which
      the approval was given, is recorded and moves the gate. */
  lemma {:induction false} OtherObserverMovesTarget() returns (e: Evidence, approval: Approval, action: ActionResult)
    ensures var r := CoordinateOf(Disk(Some(INITIAL), None, false), e, approval, 0, Some(action));
            && r.AppliedDurably? && Coordinate(true, Some(e),
                                               Returned(BridgeAction(r, [RECORDED_DURABLY]))).ActionCompleted?
            && EvidenceTarget(r.evidence).Some? && EvidenceTarget(r.evidence) != EvidenceTarget(e)
  {
    hide Serialize, DecodeStore, INITIAL, ValidReasons, Evaluate, EvidenceTarget, BuildRecord;
    e := Required(1);
    approval := Approval("0.1", "CODEX_REMOTE", REPOSITORY, "IPHONE", "r", "a", "b", Zeros(40), 2, "APPROVED", 0,
                         Some(0));
    action := Result(RequestApproval, Succeeded, Some(Required(2).(approvalStatus := Some("APPROVED"))),
                     APPROVAL_VALIDATED);
    RequiredIsRequired(1);
    RequiredIsRequired(2);
    ApprovedEvidence(Required(2));
    OtherRecordIsBuilt(approval, action);
    FirstApprovalIsSaved(e, approval, action);
    RecordedDurablyIsReason();
    OtherRunOtherTarget();
  }

  function Zeros(n: nat): string { seq(n, _ => '0') }

  /** Evidence that waits for its approval. */
  function Required(ciRunId: int): Evidence {
    Evidence("a", "b", Some("SAVED"), Some(Zeros(64)), Some("FAST"), Some("PASSED"), Some(Zeros(40)), Some(Zeros(40)),
             Some("SUCCESS"), Some(Zeros(40)), Some(ciRunId), Some("REQUIRED"))
  }

  lemma {:induction false} RequiredIsRequired(ciRunId: int)
    requires ciRunId > 0
    ensures Evaluate(Some(Required(ciRunId))) == ApprovalRequired
  {
    assert Identifier("a") && Identifier("b");
  }

  lemma {:induction false} OtherRunOtherTarget()
    ensures EvidenceTarget(Required(1)).Some?
    ensures EvidenceTarget(Required(2).(approvalStatus := Some("APPROVED"))).Some?
    ensures EvidenceTarget(Required(1)) != EvidenceTarget(Required(2).(approvalStatus := Some("APPROVED")))
  {
  }

  lemma {:induction false} RecordedDurablyIsReason()
    ensures ValidReasons([RECORDED_DURABLY])
  {
    assert ValidReason(RECORDED_DURABLY);
  }

  lemma {:induction false} OtherRecordIsBuilt(approval: Approval, action: ActionResult)
    requires approval == Approval("0.1", "CODEX_REMOTE", REPOSITORY, "IPHONE", "r", "a", "b", Zeros(40), 2, "APPROVED",
                                  0, Some(0))
    requires action == Result(RequestApproval, Succeeded, Some(Required(2).(approvalStatus := Some("APPROVED"))),
                              APPROVAL_VALIDATED)
    requires Evaluate(Some(Required(2).(approvalStatus := Some("APPROVED")))) == NextGateReady
    ensures BuildRecord(approval, action).Some?
    ensures Short(BuildRecord(approval, action).value)
  {
    hide Evaluate;
    assert Identifier("a") && Identifier("b") && Identifier("r");
  }

  /** On an empty store the first approval whose record can be built is saved and released. */
  lemma {:induction false} FirstApprovalIsSaved(e: Evidence, approval: Approval, action: ActionResult)
    requires Evaluate(Some(e)) == ApprovalRequired
    requires BuildRecord(approval, action).Some? && Short(BuildRecord(approval, action).value)
    ensures action.evidence.Some?
    ensures CoordinateOf(Disk(Some(INITIAL), None, false), e, approval, 0, Some(action)) ==
            AppliedDurably(action.evidence.value)
  {
    hide Serialize, DecodeStore, INITIAL, Evaluate, EvidenceTarget;
    InitialFits();
    BuiltRecordNamesItsEvidence(approval, action);
    var d := Disk(Some(INITIAL), None, false);
    assert LoadOf(d) == LoadHealthy(0, []);
    SmallStoreSaves(d, BuildRecord(approval, action).value, 0);
  }

  // ---------- Runs of the gate beside runs of the store ----------

  /** At a state of the store some process has ended a coordination for `e` whose answer moves the gate to `e'`. Which
      process and when it began does not matter, so the answer of any coordination for `e` is allowed for. */
  ghost predicate ApprovedThrough(t: System, e: Evidence, e': Evidence) {
    exists p, reasons :: p in t.procs && Bridged(t.procs[p], e, reasons, e')
  }

  /** One completed action of the gate: one of the four observers before the approval, or the bridge. */
  ghost predicate DurableStep(e: Evidence, approvalRequired: bool, t: System, e': Evidence) {
    (exists o: Observation :: !o.OfApproval? && Completes(e, o, approvalRequired, e')) || ApprovedThrough(t, e, e')
  }

  /** A run of the gate from blank evidence beside the run `steps` of the store from `s`: action `i` completes
      after `at[i]` of the steps. */
  ghost predicate DurableRun(history: seq<Evidence>, approvalRequired: bool, s: System, steps: Steps, at: seq<nat>) {
    && |history| > 0 && |at| == |history| - 1
    && history[0] == Blank(history[0].currentGate, history[0].nextGate)
    && Evaluate(Some(history[0])) != EvidenceRejected
    && (forall i :: 0 <= i < |at| ==> at[i] <= |steps|)
    && (forall i, j :: 0 <= i <= j < |at| ==> at[i] <= at[j])
    && (forall i :: 0 <= i < |at| ==> DurableStep(history[i], approvalRequired, Execute(s, steps[..at[i]]),
                                                  history[i + 1]))
  }

  lemma {:induction false} OnlyApprovalCompletes(e: Evidence, o: Observation, approvalRequired: bool, e': Evidence)
    requires Completes(e, o, approvalRequired, e') && Evaluate(Some(e)) == ApprovalRequired
    ensures o.OfApproval?
  {
    hide Evaluate, CommitSha, CheckpointRef, TestTier, DurableCheckpoint, FeatureBranch, ValidCounts, JobPassed,
         JobsNamed;
  }

  /** Every completed action moves the gate one stage, whatever the observer of the coordinator is. */
  lemma {:induction false} DurableStepAdvances(e: Evidence, approvalRequired: bool, s: System, steps: Steps,
                                               e': Evidence)
    requires Boot(s) && Reached(e, approvalRequired) && DurableStep(e, approvalRequired, Execute(s, steps), e')
    ensures Reached(e', approvalRequired)
    ensures var n, n' := Stage(Evaluate(Some(e))), Stage(Evaluate(Some(e')));
            if n == 3 && !approvalRequired then n' == 5 else n' == n + 1
  {
    hide Boot, Execute, Evaluate, Completes, Bridged, EvidenceTarget, DecodeStore, Extends;
    if o: Observation :| !o.OfApproval? && Completes(e, o, approvalRequired, e') {
      CompletedActionAdvancesOneStage(e, o, approvalRequired, e');
    } else {
      var t := Execute(s, steps);
      var p, reasons :| p in t.procs && Bridged(t.procs[p], e, reasons, e');
      BridgedReleases(t.procs[p], e, reasons, e');
      ReleasedForItsApproval(s, steps, p);
    }
  }

  lemma {:induction false} DurableRunPrefix(history: seq<Evidence>, approvalRequired: bool, s: System, steps: Steps,
                                            at: seq<nat>)
    requires DurableRun(history, approvalRequired, s, steps, at) && |history| > 1
    ensures DurableRun(history[..|history| - 1], approvalRequired, s, steps, at[..|at| - 1])
  {
    hide DurableStep, Execute, Evaluate;
    var n := |history| - 1;
    forall i | 0 <= i < n - 1
      ensures DurableStep(history[..n][i], approvalRequired, Execute(s, steps[..at[..n - 1][i]]), history[..n][i + 1])
    {
      assert DurableStep(history[i], approvalRequired, Execute(s, steps[..at[i]]), history[i + 1]);
    }
  }

  /** Every run of the gate through the bridge, beside every run of the store and under every observer: the number of
      completed actions fixes the stage, and no run is longer than five actions. */
  lemma {:induction false} DurableRunsAreStaged(history: seq<Evidence>, approvalRequired: bool, s: System, steps: Steps,
                                                at: seq<nat>)
    requires Boot(s) && DurableRun(history, approvalRequired, s, steps, at)
    ensures |history| - 1 <= (if approvalRequired then 5 else 4)
    ensures Reached(history[|history| - 1], approvalRequired)
    ensures Stage(Evaluate(Some(history[|history| - 1]))) == StageAfter(|history| - 1, approvalRequired)
    decreases |history|
  {
    hide Boot, Execute, Evaluate, DurableStep, Reached;
    var n := |history| - 1;
    if n == 0 {
      BlankReached(history[0], approvalRequired);
    } else {
      DurableRunPrefix(history, approvalRequired, s, steps, at);
      DurableRunsAreStaged(history[..n], approvalRequired, s, steps, at[..n - 1]);
      assert DurableStep(history[n - 1], approvalRequired, Execute(s, steps[..at[n - 1]]), history[n]);
      DurableStepAdvances(history[n - 1], approvalRequired, s, steps[..at[n - 1]], history[n]);
      EndOfRun(history[n - 1], approvalRequired);
      EndOfRun(history[n], approvalRequired);
    }
  }

  /** A gate that needs approval is ready to start the next gate only when the store decodes as healthy with a record
      of the target of the gate's evidence; and there it stays. */
  lemma {:induction false} ReadyGateIsRecorded(history: seq<Evidence>, s: System, steps: Steps, at: seq<nat>)
    requires Boot(s) && DurableRun(history, true, s, steps, at)
    requires Evaluate(Some(history[|history| - 1])) == NextGateReady
    ensures var t := Execute(s, steps);
            && |history| == 6
            && t.disk.main.Some? && DecodeStore(t.disk.main.value) == Healthy(|t.log|, t.log)
            && Recorded(t.log, history[5])
  {
    hide Boot, Execute, Evaluate, DurableStep, Reached, DecodeStore, Recorded;
    DurableRunsAreStaged(history, true, s, steps, at);
    DurableRunPrefix(history, true, s, steps, at);
    DurableRunsAreStaged(history[..5], true, s, steps, at[..4]);
    assert DurableStep(history[4], true, Execute(s, steps[..at[4]]), history[5]);
    StageFourIsApproval(history[4]);
    ApprovalStepIsRecorded(history[4], s, steps, at[4], history[5]);
  }

  lemma {:induction false} StageFourIsApproval(e: Evidence)
    requires Stage(Evaluate(Some(e))) == 4
    ensures Evaluate(Some(e)) == ApprovalRequired
  {
    hide Evaluate;
  }

  /** Once the bridge has moved the gate, the store keeps the record of the target. */
  lemma {:induction false} ApprovalStepIsRecorded(e: Evidence, s: System, steps: Steps, k: nat, e': Evidence)
    requires Boot(s) && k <= |steps| && Evaluate(Some(e)) == ApprovalRequired
    requires DurableStep(e, true, Execute(s, steps[..k]), e')
    ensures var t := Execute(s, steps);
            t.disk.main.Some? && DecodeStore(t.disk.main.value) == Healthy(|t.log|, t.log) && Recorded(t.log, e')
  {
    hide Boot, Execute, Evaluate, Completes, Bridged, EvidenceTarget, DecodeStore, Extends, Asked;
    if o: Observation :| !o.OfApproval? && Completes(e, o, true, e') { OnlyApprovalCompletes(e, o, true, e'); }
    var t, u := Execute(s, steps[..k]), Execute(s, steps);
    var p, reasons :| p in t.procs && Bridged(t.procs[p], e, reasons, e');
    BridgedReleases(t.procs[p], e, reasons, e');
    ReleasedForItsApproval(s, steps[..k], p);
    LaterLogsExtend(s, steps, k);
    var i :| 0 <= i < |t.log| && t.log[i].requestId == ReleaseBy(t.procs[p]).task.approval.requestId
             && TargetOf(t.log[i]) == ApprovalTarget(ReleaseBy(t.procs[p]).task.approval);
    assert u.log[i] == t.log[i];
    StoreIsHealthyOrEmpty(s, steps);
  }

  /** With the default observer the bridge adds nothing to what the gate may do: every run through it is a run whose
      approval step is a validated approval. So no field is rewritten, and commit, push and CI name one commit. */
  lemma {:induction false} DurableRunIsRun(history: seq<Evidence>, approvalRequired: bool, s: System, steps: Steps,
                                           at: seq<nat>)
    requires Boot(s) && AnsweredBy(s, steps, DefaultAnswer)
    requires DurableRun(history, approvalRequired, s, steps, at)
    ensures Run(history, approvalRequired)
    ensures forall i, j :: 0 <= i <= j < |history| ==> Extends(history[i], history[j])
    ensures Evaluate(Some(history[|history| - 1])) == NextGateReady ==>
              var e := history[|history| - 1];
              e.commitSha.Some? && e.pushedSha == e.commitSha && e.ciHeadSha == e.commitSha && e.ciRunId.Some?
  {
    hide Boot, Execute, Evaluate, DurableStep, AnsweredBy, Step, Extends;
    forall i | 0 <= i < |history| - 1 ensures Step(history[i], approvalRequired, history[i + 1]) {
      assert DurableStep(history[i], approvalRequired, Execute(s, steps[..at[i]]), history[i + 1]);
      AnsweredPrefix(s, steps, at[i], DefaultAnswer);
      DurableStepIsStep(history[i], approvalRequired, s, steps[..at[i]], history[i + 1]);
    }
    RunsAreStaged(history, approvalRequired);
    if Evaluate(Some(history[|history| - 1])) == NextGateReady { ReadyEvidenceAgrees(history, approvalRequired); }
  }

  lemma {:induction false} DurableStepIsStep(e: Evidence, approvalRequired: bool, s: System, steps: Steps, e': Evidence)
    requires Boot(s) && AnsweredBy(s, steps, DefaultAnswer)
    requires DurableStep(e, approvalRequired, Execute(s, steps), e')
    ensures Step(e, approvalRequired, e')
  {
    hide Boot, Execute, Evaluate, Completes, Bridged, EvidenceTarget, DecodeStore, Extends, Asked, AnsweredBy,
         ObserveApproval, Recorded;
    if o: Observation :| !o.OfApproval? && Completes(e, o, approvalRequired, e') {
    } else {
      var t := Execute(s, steps);
      var p, reasons :| p in t.procs && Bridged(t.procs[p], e, reasons, e');
      BridgedReleases(t.procs[p], e, reasons, e');
      DefaultReleaseApproves(s, steps, p);
      var approval := ReleaseBy(t.procs[p]).task.approval;
      var now :| ObserveApproval(e, approval, now).status == Succeeded;
      ApprovedObservation(e, approval, now);
      ObservedCompletes(e, OfApproval(approval, now), approvalRequired, e', RequestApproval, APPROVAL_VALIDATED);
    }
  }

  // ---------- An honest project gets through the durable gate ----------

  function Times(p: nat, n: nat): Steps { seq(n, _ => (p, Proceed)) }

  lemma {:induction false} ExecuteSolo(s: System, steps: Steps, p: nat, n: nat)
    requires p in Execute(s, steps).procs
    ensures Execute(s, steps + Times(p, n)) == Solo(Execute(s, steps), p, n)
    decreases n
  {
    hide Next;
    if n == 0 {
      assert steps + Times(p, 0) == steps;
    } else {
      var more := steps + [(p, Proceed)];
      assert more[..|more| - 1] == steps;
      StepKeepsProcess(Execute(s, steps), p, Proceed);
      ExecuteSolo(s, more, p, n - 1);
      assert more + Times(p, n - 1) == steps + Times(p, n);
    }
  }

  lemma {:induction false} StepKeepsProcess(s: System, p: nat, c: Choice)
    requires p in s.procs
    ensures p in Next(s, p, c).procs
  {
    hide AfterLoad, Judge, DecodeStore, Serialize, AfterObserver, Start, OnError, NewContent, INITIAL, SaveOutcome;
  }

  /** The steps of one coordination by process 0 alone. */
  function ApprovalSteps(task: Task, action: ActionResult): Steps {
    [(0, Begin(task))] + Times(0, 4) + [(0, Observed(Some(action)))] + Times(0, 9)
  }

  lemma {:induction false} ExecuteNext(s: System, steps: Steps, p: nat, c: Choice)
    requires p in Execute(s, steps).procs
    ensures Execute(s, steps + [(p, c)]) == Next(Execute(s, steps), p, c)
  {
    hide Next;
    assert (steps + [(p, c)])[..|steps|] == steps;
  }

  lemma {:induction false} SoloKeepsProcess(s: System, p: nat, n: nat)
    requires p in s.procs
    ensures p in Solo(s, p, n).procs
    decreases n
  {
    hide Next;
    if n > 0 {
      StepKeepsProcess(s, p, Proceed);
      SoloKeepsProcess(Next(s, p, Proceed), p, n - 1);
    }
  }

  /** The steps come to the solo coordination of `ReplayStore`. */
  lemma {:induction false} ExecuteApproval(s: System, task: Task, action: ActionResult)
    requires 0 in s.procs
    ensures Execute(s, ApprovalSteps(task, action)) == SoloApprove(s, 0, task, Some(action))
    ensures Execute(s, ApprovalSteps(task, action)[..5]) == Solo(Next(s, 0, Begin(task)), 0, 4)
  {
    hide Next, Solo, Execute;
    var begin, observe := [(0, Begin(task))], [(0, Observed(Some(action)))];
    assert Execute(s, []) == s by { NoSteps(s); }
    assert [] + begin == begin;
    ExecuteNext(s, [], 0, Begin(task));
    StepKeepsProcess(s, 0, Begin(task));
    ExecuteSolo(s, begin, 0, 4);
    SoloKeepsProcess(Next(s, 0, Begin(task)), 0, 4);
    ExecuteNext(s, begin + Times(0, 4), 0, Observed(Some(action)));
    StepKeepsProcess(Execute(s, begin + Times(0, 4)), 0, Observed(Some(action)));
    ExecuteSolo(s, begin + Times(0, 4) + observe, 0, 9);
    assert ApprovalSteps(task, action)[..5] == begin + Times(0, 4);
  }

  lemma {:induction false} NoSteps(s: System)
    ensures Execute(s, []) == s
  {
  }

  /** An initialized, empty store and one idle process. */
  function EmptyStore(): System { System(Disk(Some(INITIAL), None, false), map[0 := Idle], [], []) }

  lemma {:induction false} EmptyStoreBoots()
    ensures Boot(EmptyStore()) && LoadOf(EmptyStore().disk) == LoadHealthy(0, [])
  {
    hide Serialize, DecodeStore, INITIAL;
    InitialFits();
    InitialIsComplete();
  }

  lemma {:induction false} ApprovalStepsAreDefault(e: Evidence, approval: Approval, now: int)
    requires Asked(Approve(e, approval, 0)) && Identifier(approval.requestId)
    ensures AnsweredBy(EmptyStore(), ApprovalSteps(Approve(e, approval, 0), ObserveApproval(e, approval, now)),
                       DefaultAnswer)
  {
    hide Next, Execute, Evaluate, ObserveApproval, LoadOf, Solo, Identifier;
    var s, task, action := EmptyStore(), Approve(e, approval, 0), ObserveApproval(e, approval, now);
    var steps := ApprovalSteps(task, action);
    EmptyStoreBoots();
    ExecuteApproval(s, task, action);
    LoadedIsObserving(task);
    assert DefaultAnswer(task, action);
    forall k | 0 <= k < |steps| ensures Answers(Execute(s, steps[..k]), steps[k].0, steps[k].1, DefaultAnswer) {
      assert k != 5 ==> !steps[k].1.Observed?;
    }
  }

  lemma {:induction false} LoadedIsObserving(task: Task)
    requires Asked(task) && task.expected == 0 && Identifier(task.approval.requestId)
    ensures var t := Solo(Next(EmptyStore(), 0, Begin(task)), 0, 4); 0 in t.procs && t.procs[0] == Observing(task)
  {
    hide Evaluate, LoadOf, Solo, Identifier, INITIAL, AfterLoad, Operate, OnError, Answer, AfterObserver, NewContent;
    var begun := Next(EmptyStore(), 0, Begin(task));
    EmptyStoreBoots();
    AskedIsLoaded(task);
    assert begun == Goto(EmptyStore(), 0, LoadLock(task));
    SoloLoads(begun, 0, task);
  }

  lemma {:induction false} AskedIsLoaded(task: Task)
    requires Asked(task) && task.expected == 0 && Identifier(task.approval.requestId)
    ensures Start(task) == LoadLock(task) && AfterLoad(task, LoadHealthy(0, [])) == Observing(task)
  {
    hide Evaluate, Identifier;
  }

  lemma {:induction false} GenuineRecordIsShort(f: Facts)
    requires Genuine(f) && f.ciRunId < NUMBER_LIMIT && f.now < NUMBER_LIMIT
    ensures var action := ObserveApproval(AfterCi(f, true), ApprovalOf(f), f.now);
            BuildRecord(ApprovalOf(f), action).Some? && Short(BuildRecord(ApprovalOf(f), action).value)
  {
    hide Genuine, Evaluate, ObserveApproval, ValidRecord;
    GenuineApprovalIsValidated(f);
    ObservedApprovalIsRecorded(AfterCi(f, true), ApprovalOf(f), f.now);
  }

  lemma {:induction false} GenuineApprovalIsReleased(f: Facts)
    requires Genuine(f) && f.ciRunId < NUMBER_LIMIT && f.now < NUMBER_LIMIT
    ensures var e, approval := AfterCi(f, true), ApprovalOf(f);
            var task := Approve(e, approval, 0);
            var t := Execute(EmptyStore(), ApprovalSteps(task, ObserveApproval(e, approval, f.now)));
            0 in t.procs && t.procs[0] == Finished(Durable(task, AppliedDurably(Approved(f))))
  {
    hide Genuine, Evaluate, ObserveApproval, ValidRecord, Execute, SoloApprove, CoordinateOf, BuildRecord, AfterCi,
         Approved, ApprovalOf, INITIAL, ApprovalSteps;
    var e, approval := AfterCi(f, true), ApprovalOf(f);
    var task, action := Approve(e, approval, 0), ObserveApproval(e, approval, f.now);
    StagesOfFacts(f, true);
    GenuineApprovalIsValidated(f);
    GenuineRecordIsShort(f);
    FirstApprovalIsSaved(e, approval, action);
    SoloApproveAnswers(EmptyStore(), 0, e, approval, 0, Some(action));
    ExecuteApproval(EmptyStore(), task, action);
  }

  lemma {:induction false} ReleasedIsBridged(task: Task, e': Evidence)
    requires Asked(task) && Evaluate(Some(e')) == NextGateReady
    ensures Bridged(Finished(Durable(task, AppliedDurably(e'))), task.evidence, [RECORDED_DURABLY], e')
  {
    hide Evaluate, ValidReasons;
    RecordedDurablyIsReason();
  }

  /** The coordination of a genuine approval moves the gate. */
  lemma {:induction false} GenuineApprovalIsBridged(f: Facts)
    requires Genuine(f) && f.ciRunId < NUMBER_LIMIT && f.now < NUMBER_LIMIT
    ensures var e, approval := AfterCi(f, true), ApprovalOf(f);
            var steps := ApprovalSteps(Approve(e, approval, 0), ObserveApproval(e, approval, f.now));
            ApprovedThrough(Execute(EmptyStore(), steps), e, Approved(f))
  {
    hide Genuine, Evaluate, ObserveApproval, Execute, AfterCi, Approved, ApprovalOf, INITIAL, ApprovalSteps, Bridged;
    var e, approval := AfterCi(f, true), ApprovalOf(f);
    var task := Approve(e, approval, 0);
    StagesOfFacts(f, true);
    GenuineApprovalIsReleased(f);
    ReleasedIsBridged(task, Approved(f));
    var t := Execute(EmptyStore(), ApprovalSteps(task, ObserveApproval(e, approval, f.now)));
    assert Bridged(t.procs[0], e, [RECORDED_DURABLY], Approved(f));
  }

  /** Blank evidence that four observers bring to the approval stage, and one more evidence. */
  ghost predicate BeforeApproval(history: seq<Evidence>) {
    && |history| == 6
    && history[0] == Blank(history[0].currentGate, history[0].nextGate)
    && Evaluate(Some(history[0])) != EvidenceRejected
    && forall i :: 0 <= i < 4 ==>
         Step(history[i], true, history[i + 1]) && Evaluate(Some(history[i])) != ApprovalRequired
  }

  lemma {:induction false} BridgedRun(history: seq<Evidence>, s: System, steps: Steps)
    requires BeforeApproval(history) && ApprovedThrough(Execute(s, steps), history[4], history[5])
    ensures DurableRun(history, true, s, steps, [0, 0, 0, 0, |steps|])
  {
    hide Evaluate, Execute, Step, ApprovedThrough, Completes;
    var at: seq<nat> := [0, 0, 0, 0, |steps|];
    assert steps[..|steps|] == steps;
    forall i | 0 <= i < 5 ensures DurableStep(history[i], true, Execute(s, steps[..at[i]]), history[i + 1]) {
      if i < 4 {
        assert Step(history[i], true, history[i + 1]);
        EarlyStep(history[i], Execute(s, steps[..at[i]]), history[i + 1]);
      }
    }
  }

  function StagesOf(f: Facts): seq<Evidence> {
    [AtStart(f), AtTests(f), AtPush(f), AtCi(f), AfterCi(f, true), Approved(f)]
  }

  lemma {:induction false} GenuineStages(f: Facts)
    requires Genuine(f)
    ensures BeforeApproval(StagesOf(f)) && Evaluate(Some(Approved(f))) == NextGateReady
  {
    hide Genuine, Evaluate, Step, AtTests, AtPush, AtCi, AfterCi, Approved;
    StagesOfFacts(f, true);
    CheckpointCompletes(f, true);
    TestsComplete(f, true);
    PushCompletes(f, true);
    CiCompletes(f, true);
  }

  /** Every gate can be passed through the bridge: genuine facts and a fresh store give a run that ends ready. */
  lemma {:induction false} GenuineFactsPassDurably(f: Facts) returns (steps: Steps)
    requires Genuine(f) && f.ciRunId < NUMBER_LIMIT && f.now < NUMBER_LIMIT
    ensures Boot(EmptyStore()) && AnsweredBy(EmptyStore(), steps, DefaultAnswer)
    ensures DurableRun(StagesOf(f), true, EmptyStore(), steps, [0, 0, 0, 0, |steps|])
    ensures Evaluate(Some(Approved(f))) == NextGateReady
  {
    hide Genuine, Evaluate, ObserveApproval, Execute, Step, AnsweredBy, ApprovedThrough, Boot, ApprovalSteps,
         DurableRun, EmptyStore, AtStart, AtTests, AtPush, AtCi, AfterCi, Approved, ApprovalOf, BeforeApproval;
    var e, approval := AfterCi(f, true), ApprovalOf(f);
    GenuineStages(f);
    GenuineApprovalIsBridged(f);
    EmptyStoreBoots();
    GenuineRequest(f);
    StagesOfFacts(f, true);
    ApprovalStepsAreDefault(e, approval, f.now);
    steps := ApprovalSteps(Approve(e, approval, 0), ObserveApproval(e, approval, f.now));
    BridgedRun(StagesOf(f), EmptyStore(), steps);
  }

  lemma {:induction false} GenuineRequest(f: Facts)
    requires Genuine(f)
    ensures Identifier(ApprovalOf(f).requestId)
  {
    hide Identifier;
  }

  /** Before the approval stage the gate steps without the bridge. */
  lemma {:induction false} EarlyStep(e: Evidence, t: System, e': Evidence)
    requires Step(e, true, e') && Evaluate(Some(e)) != ApprovalRequired
    ensures DurableStep(e, true, t, e')
  {
    hide Evaluate, ApprovedThrough;
    var o: Observation :| Completes(e, o, true, e');
    if o.OfApproval? { ApprovalNeedsItsStage(e, o, e'); }
  }

  lemma {:induction false} ApprovalNeedsItsStage(e: Evidence, o: Observation, e': Evidence)
    requires o.OfApproval? && Completes(e, o, true, e')
    ensures Evaluate(Some(e)) == ApprovalRequired
  {
    hide Evaluate, Identifier;
  }
}
