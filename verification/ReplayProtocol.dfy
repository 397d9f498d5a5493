/** The approval replay store and the durable approval coordinator as a protocol: any number of
    processes take atomic file-system steps on one lock file, one temporary file and one main file.
    Every step may also fail with an I/O error, and a process may crash at every step. */
module ReplayProtocol {
  import opened Text
  import opened DevelopmentGate
  import opened ReplayRecord
  import opened ReplayCodec

  datatype Disk = Disk(main: Option<string>, temp: Option<string>, lock: bool)

  datatype LoadResult = LoadHealthy(revision: int,
                                    records: seq<Record>) | LoadLocked | LoadManualReview | LoadMissing | LoadBlocked

  datatype SaveResult = Saved(revision: int) | SaveLocked | SaveManualReview | SaveMissing | SaveBlocked | StaleRevision
    | AlreadyConsumed(revision: int)

  datatype DurableResult = AppliedDurably(evidence: Evidence) | RecoveryBlocked | ApprovalConflict | ReplayBlocked
    | ApprovalUncertain | ApprovalRejected

  /** What a process is asked to do. */
  datatype Task =
    | Initialize
    | Load
    | Save(record: Record, expected: int)
    | Approve(evidence: Evidence, approval: Approval, expected: int)

  /** Evidence to hand out, and the coordination that asked for it. */
  datatype Release = Release(task: Task, evidence: Evidence)

  /** A save in progress; `release` is what to hand out when it succeeds. */
  datatype Job = Job(record: Record, expected: int, release: Option<Release>)

  datatype Outcome =
    | Loaded(load: LoadResult)
    | SaveDone(save: SaveResult)
    | Initialized(ok: bool)
    | Durable(task: Task, result: DurableResult)

  /** Where a process stands; each constructor is followed by exactly one file-system operation. */
  datatype Pc =
    | Idle
    | LoadLock(task: Task) | LoadTemp(task: Task) | LoadMain(task: Task) | LoadRead(task: Task)
    | Observing(task: Task)
    | SaveLock(job: Job) | SaveTemp(job: Job) | SaveMain(job: Job) | SaveRead(job: Job)
    | SaveCreate(job: Job, base: seq<Record>) | SaveWrite(job: Job, base: seq<Record>)
    | SaveReplace(job: Job, base: seq<Record>) | SaveCheck(job: Job, base: seq<Record>)
    | SaveUnlock(job: Job, pending: SaveResult)
    | InitExists | InitCreate | InitWrite | InitCheck
    | Finished(outcome: Outcome)
    | Crashed

  /** A save that returned SAVED, and the evidence released with it. */
  datatype Receipt = Receipt(record: Record, expected: int, revision: int, released: Option<Release>)

  /** `log` is every record ever put into the main file and `receipts` every SAVED answer. */
  datatype System = System(disk: Disk, procs: map<nat, Pc>, log: seq<Record>, receipts: seq<Receipt>)

  /** What the environment decides about one step. */
  datatype Choice =
    | Proceed
    | FailIo
    | Crash
    | WritePart(n: nat)
    | Observed(action: Option<ActionResult>)
    | Begin(task: Task)

  const INITIAL: string := Serialize(0, []).GetOr("")

  // ---------- The step function ----------

  /** `coordinate` after its load: go on to the observer, or stop. */
  function AfterLoad(task: Task, load: LoadResult): Pc {
    if !task.Approve? then Finished(Loaded(load))
    else if !load.LoadHealthy? then Finished(Durable(task, RecoveryBlocked))
    else if load.revision != task.expected then Finished(Durable(task, ApprovalConflict))
    else
      match FindConsumed(load.records, task.approval.requestId)
      case Consumed => Finished(Durable(task, ReplayBlocked))
      case NotConsumed => Observing(task)
      case _ => Finished(Durable(task, RecoveryBlocked))
  }

  /** `coordinate` after its observer, which may return anything or raise. */
  function AfterObserver(task: Task, action: Option<ActionResult>): Pc
    requires task.Approve?
  {
    if action.None? || action.value.status == Uncertain then Finished(Durable(task, ApprovalUncertain))
    else if action.value.status != Succeeded then Finished(Durable(task, ApprovalRejected))
    else
      var record := BuildRecord(task.approval, action.value);
      if record.None? then Finished(Durable(task, RecoveryBlocked))
      else SaveLock(Job(record.value, task.expected, Some(Release(task, action.value.evidence.value))))
  }

  /** `save_record` after reading the main file: the checks before anything is written. */
  function Judge(job: Job, content: string): Pc {
    match DecodeStore(content)
    case Invalid => SaveUnlock(job, SaveBlocked)
    case Healthy(revision, records) =>
      if job.expected != revision then SaveUnlock(job, StaleRevision)
      else if !ValidRecord(job.record) then SaveUnlock(job, SaveBlocked)
      else if exists i :: 0 <= i < |records| && records[i].requestId == job.record.requestId then
        SaveUnlock(job, if job.record in records then AlreadyConsumed(revision) else SaveBlocked)
      else if exists i :: 0 <= i < |records| && TargetOf(records[i]) == TargetOf(job.record) then
        SaveUnlock(job, SaveBlocked)
      else if Serialize(revision + 1, records + [job.record]).None? then SaveUnlock(job, SaveBlocked)
      else SaveCreate(job, records)
  }

  function SaveOutcome(job: Job, result: SaveResult): Outcome {
    if job.release.None? then SaveDone(result)
    else
      var task := job.release.value.task;
      match result
      case Saved(_) => Durable(task, AppliedDurably(job.release.value.evidence))
      case StaleRevision => Durable(task, ApprovalConflict)
      case AlreadyConsumed(_) => Durable(task, ReplayBlocked)
      case _ => Durable(task, ApprovalUncertain)
  }

  /** The content that a save writes. */
  function NewContent(job: Job, base: seq<Record>): Option<string> { Serialize(job.expected + 1, base + [job.record]) }

  function Start(task: Task): Pc {
    match task
    case Initialize => InitExists
    case Load => LoadLock(task)
    case Save(record, expected) => SaveLock(Job(record, expected, None))
    case Approve(evidence, _, expected) =>
      if Evaluate(Some(evidence)) != ApprovalRequired || expected < 0 then Finished(Durable(task, RecoveryBlocked))
      else LoadLock(task)
  }

  /** The lock is held between its creation and its removal. */
  predicate Holds(pc: Pc) {
    pc.SaveTemp? || pc.SaveMain? || pc.SaveRead? || pc.SaveCreate? || pc.SaveWrite? || pc.SaveReplace? || pc.SaveCheck?
    || pc.SaveUnlock?
  }

  /** An I/O error: `load` and `initialize` answer at once, a save that holds the lock goes on to release it. */
  function OnError(pc: Pc): Pc {
    match pc
    case LoadLock(t) => AfterLoad(t, LoadBlocked)
    case LoadTemp(t) => AfterLoad(t, LoadBlocked)
    case LoadMain(t) => AfterLoad(t, LoadBlocked)
    case LoadRead(t) => AfterLoad(t, LoadBlocked)
    case SaveLock(job) => Finished(SaveOutcome(job, SaveBlocked))
    case SaveTemp(job) => SaveUnlock(job, SaveBlocked)
    case SaveMain(job) => SaveUnlock(job, SaveBlocked)
    case SaveRead(job) => SaveUnlock(job, SaveBlocked)
    case SaveCreate(job, _) => SaveUnlock(job, SaveBlocked)
    case SaveWrite(job, _) => SaveUnlock(job, SaveBlocked)
    case SaveReplace(job, _) => SaveUnlock(job, SaveBlocked)
    case SaveCheck(job, _) => SaveUnlock(job, SaveBlocked)
    case InitExists => Finished(Initialized(false))
    case InitCreate => Finished(Initialized(false))
    case InitWrite => Finished(Initialized(false))
    case InitCheck => Finished(Initialized(false))
    case _ => pc
  }

  function Goto(s: System, p: nat, pc: Pc): System { s.(procs := s.procs[p := pc]) }

  /** A finished save gives its answer, and a SAVED answer is recorded as a receipt. */
  function Answer(s: System, p: nat, job: Job, result: SaveResult): System {
    var done := Goto(s, p, Finished(SaveOutcome(job, result)));
    if !result.Saved? then done
    else done.(receipts := s.receipts + [Receipt(job.record, job.expected, result.revision, job.release)])
  }

  /** The file-system operation that `pc` stands for, when it goes through. */
  function Operate(s: System, p: nat, pc: Pc): System {
    var d := s.disk;
    match pc
    case LoadLock(t) => Goto(s, p, if d.lock then AfterLoad(t, LoadLocked) else LoadTemp(t))
    case LoadTemp(t) => Goto(s, p, if d.temp.Some? then AfterLoad(t, LoadManualReview) else LoadMain(t))
    case LoadMain(t) => Goto(s, p, if d.main.None? then AfterLoad(t, LoadMissing) else LoadRead(t))
    case LoadRead(t) =>
      var decoded := if d.main.None? then Invalid else DecodeStore(d.main.value);
      Goto(s, p, AfterLoad(t, if decoded.Healthy? then LoadHealthy(decoded.revision, decoded.records) else LoadBlocked))
    case SaveLock(job) =>
      if d.lock then Goto(s, p, Finished(SaveOutcome(job, SaveLocked)))
      else Goto(s.(disk := d.(lock := true)), p, SaveTemp(job))
    case SaveTemp(job) => Goto(s, p, if d.temp.Some? then SaveUnlock(job, SaveManualReview) else SaveMain(job))
    case SaveMain(job) => Goto(s, p, if d.main.None? then SaveUnlock(job, SaveMissing) else SaveRead(job))
    case SaveRead(job) => Goto(s, p, if d.main.None? then SaveUnlock(job, SaveBlocked) else Judge(job, d.main.value))
    case SaveCreate(job, base) =>
      if d.temp.Some? then Goto(s, p, SaveUnlock(job, SaveBlocked))
      else Goto(s.(disk := d.(temp := Some(""))), p, SaveWrite(job, base))
    case SaveWrite(job, base) => Goto(s.(disk := d.(temp := NewContent(job, base))), p, SaveReplace(job, base))
    case SaveReplace(job, base) =>
      if d.temp.None? then Goto(s, p, SaveUnlock(job, SaveBlocked))
      else Goto(s.(disk := d.(main := d.temp, temp := None), log := s.log + [job.record]), p, SaveCheck(job, base))
    case SaveCheck(job, base) =>
      var readBack := if d.main.None? then Invalid else DecodeStore(d.main.value);
      var saved := readBack == Healthy(job.expected + 1, base + [job.record]);
      Goto(s, p, SaveUnlock(job, if saved then Saved(job.expected + 1) else SaveBlocked))
    case SaveUnlock(job, result) => Answer(s.(disk := d.(lock := false)), p, job, result)
    case InitExists => Goto(s, p, if d.main.Some? then Finished(Initialized(false)) else InitCreate)
    case InitCreate =>
      if d.main.Some? then Goto(s, p, Finished(Initialized(false)))
      else Goto(s.(disk := d.(main := Some(""))), p, InitWrite)
    case InitWrite => Goto(s.(disk := d.(main := Some(INITIAL))), p, InitCheck)
    case InitCheck => Goto(s, p, Finished(Initialized(
        d.main.Some? && match DecodeStore(d.main.value) case Invalid => false case Healthy(r, _) => r == 0)))
    case _ => s
  }

  /** One step of process `p`. A choice that does not apply changes nothing. */
  function Next(s: System, p: nat, c: Choice): System
    requires p in s.procs
  {
    var pc := s.procs[p];
    match c
    case Proceed => Operate(s, p, pc)
    case FailIo => if pc.SaveUnlock? then Answer(s, p, pc.job, pc.pending) else Goto(s, p, OnError(pc))
    case Crash => Goto(s, p, Crashed)
    case WritePart(n) =>
      if pc.InitWrite? && n < |INITIAL| then s.(disk := s.disk.(main := Some(INITIAL[..n])))
      else if pc.SaveWrite? && NewContent(pc.job, pc.base).Some? && n < |NewContent(pc.job, pc.base).value| then
        s.(disk := s.disk.(temp := Some(NewContent(pc.job, pc.base).value[..n])))
      else s
    case Observed(action) =>
      if pc.Observing? && pc.task.Approve? then Goto(s, p, AfterObserver(pc.task, action)) else s
    case Begin(task) => if pc.Idle? || pc.Finished? then Goto(s, p, Start(task)) else s
  }
}
