/** What the replay store keeps over every run of the protocol in ReplayProtocol: a complete main
    file stays complete and only grows, and approved evidence is released at most once. */
module ReplaySafety {
  import opened Text
  import opened DevelopmentGate
  import opened ReplayRecord
  import opened ReplayCodec
  import opened ReplayProtocol

  // ---------- The invariant ----------

  /** The first write of the main file has begun and is not complete. */
  predicate Unfinished(main: Option<string>) {
    main.Some? && exists n :: 0 <= n < |INITIAL| && main.value == INITIAL[..n]
  }

  /** The main file holds exactly the log. */
  predicate Complete(main: Option<string>, log: seq<Record>) { main.Some? && Serialize(|log|, log) == main }

  predicate MainOk(main: Option<string>, log: seq<Record>) {
    Complete(main, log) || (log == [] && (main.None? || Unfinished(main)))
  }

  predicate Released(receipts: seq<Receipt>, r: Release) {
    exists i :: 0 <= i < |receipts| && receipts[i].released == Some(r)
  }

  predicate Names(release: Option<Release>, record: Record) {
    release.Some? ==> EvidenceTarget(release.value.evidence) == Some(TargetOf(record))
  }

  /** The evidence a job will release names the target of the record it saves. */
  predicate JobOk(job: Job) { Names(job.release, job.record) }

  predicate ReadyToWrite(disk: Disk, log: seq<Record>, job: Job, base: seq<Record>) {
    base == log && job.expected == |log| && Complete(disk.main, log) && NewContent(job, base).Some?
  }

  /** The record of `job` is the last of the log and has no receipt yet. */
  predicate JustStored(log: seq<Record>, receipts: seq<Receipt>, job: Job) {
    && 0 <= job.expected && |log| == job.expected + 1 && log[job.expected] == job.record
    && forall i :: 0 <= i < |receipts| ==> receipts[i].revision < |log|
  }

  predicate OutcomeOk(receipts: seq<Receipt>, o: Outcome) {
    o.Durable? && o.result.AppliedDurably? ==> Released(receipts, Release(o.task, o.result.evidence))
  }

  predicate HolderOk(disk: Disk, log: seq<Record>, receipts: seq<Receipt>, pc: Pc) {
    match pc
    case SaveTemp(job) => JobOk(job)
    case SaveMain(job) => JobOk(job)
    case SaveRead(job) => JobOk(job)
    case SaveCreate(job, base) => JobOk(job) && ReadyToWrite(disk, log, job, base)
    case SaveWrite(job, base) => JobOk(job) && ReadyToWrite(disk, log, job, base)
    case SaveReplace(job, base) => JobOk(job) && ReadyToWrite(disk, log, job, base)
         && disk.temp == NewContent(job, base)
    case SaveCheck(job, _) => JobOk(job) && JustStored(log, receipts, job)
    case SaveUnlock(job, result) => JobOk(job)
         && (result.Saved? ==> result.revision == |log| && JustStored(log, receipts, job))
    case _ => true
  }

  predicate PcOk(disk: Disk, log: seq<Record>, receipts: seq<Receipt>, pc: Pc) {
    if Holds(pc) then HolderOk(disk, log, receipts, pc)
    else if pc.SaveLock? then JobOk(pc.job)
    else if pc.InitWrite? then Unfinished(disk.main)
    else pc.Finished? ==> OutcomeOk(receipts, pc.outcome)
  }

  predicate ReceiptOk(log: seq<Record>, r: Receipt) {
    1 <= r.revision <= |log| && r.revision == r.expected + 1 && log[r.expected] == r.record
    && Names(r.released, r.record)
  }

  predicate ReceiptsOk(log: seq<Record>, receipts: seq<Receipt>) {
    && (forall i :: 0 <= i < |receipts| ==> ReceiptOk(log, receipts[i]))
    && (forall i, j :: 0 <= i < j < |receipts| ==> receipts[i].revision != receipts[j].revision)
  }

  /** One process at most holds the lock, and one at most writes the first main file. */
  predicate Exclusive(procs: map<nat, Pc>, lock: bool) {
    && (forall p :: p in procs && Holds(procs[p]) ==> lock)
    && (forall p, q :: p in procs && q in procs && Holds(procs[p]) && Holds(procs[q]) ==> p == q)
    && (forall p, q :: p in procs && q in procs && procs[p].InitWrite? && procs[q].InitWrite? ==> p == q)
  }

  predicate PcsOk(disk: Disk, log: seq<Record>, receipts: seq<Receipt>, procs: map<nat, Pc>) {
    forall p :: p in procs ==> PcOk(disk, log, receipts, procs[p])
  }

  predicate Inv(s: System) {
    && MainOk(s.disk.main, s.log) && Exclusive(s.procs, s.disk.lock) && PcsOk(s.disk, s.log, s.receipts, s.procs)
    && ReceiptsOk(s.log, s.receipts)
  }

  // ---------- What the main file may hold ----------

  lemma {:induction false} InitialFits()
    ensures Serialize(0, []) == Some(INITIAL) && DecodeStore(INITIAL) == Healthy(0, []) && 0 < |INITIAL|
  {
    hide Serialize, DecodeStore;
    EmptyStoreFits();
    DecodeSerialize(0, []);
  }

  lemma {:induction false} UnfinishedIsInvalid(main: Option<string>)
    requires Unfinished(main)
    ensures DecodeStore(main.value) == Invalid && !Complete(main, [])
  {
    hide Serialize, DecodeStore;
    InitialFits();
    var n :| 0 <= n < |INITIAL| && main.value == INITIAL[..n];
    UnfinishedWriteIsInvalid(0, [], n);
  }

  lemma {:induction false} CompleteDecodes(main: Option<string>, log: seq<Record>)
    requires Complete(main, log)
    ensures DecodeStore(main.value) == Healthy(|log|, log) && ValidSnapshot(log)
  {
    DecodeSerialize(|log|, log);
  }

  /** A main file that decodes as healthy holds exactly the log. */
  lemma {:induction false} HealthyIsComplete(main: Option<string>, log: seq<Record>)
    requires MainOk(main, log) && main.Some? && DecodeStore(main.value).Healthy?
    ensures Complete(main, log) && DecodeStore(main.value) == Healthy(|log|, log)
  {
    hide Serialize, DecodeStore, Complete, Unfinished;
    if Unfinished(main) { UnfinishedIsInvalid(main); }
    CompleteDecodes(main, log);
  }

  // ---------- Every step keeps the invariant ----------

  /** A step that only moves `p`, and not into the lock or the first write. */
  lemma {:induction false} GotoKeeps(s: System, p: nat, pc: Pc)
    requires Inv(s) && p in s.procs && PcOk(s.disk, s.log, s.receipts, pc)
    requires (Holds(pc) ==> Holds(s.procs[p])) && (pc.InitWrite? ==> s.procs[p].InitWrite?)
    ensures Inv(Goto(s, p, pc))
  {
    hide PcOk, MainOk, ReceiptsOk, Holds;
  }

  lemma {:induction false} ReleasedGrows(receipts: seq<Receipt>, receipts': seq<Receipt>, r: Release)
    requires receipts <= receipts' && Released(receipts, r)
    ensures Released(receipts', r)
  {
    var i :| 0 <= i < |receipts| && receipts[i].released == Some(r);
    assert receipts'[i] == receipts[i];
  }

  /** What is known of a process outside the lock does not depend on what the holder of the lock does. */
  lemma {:induction false} BystanderOk(disk: Disk, disk': Disk, log: seq<Record>, log': seq<Record>,
                                       receipts: seq<Receipt>, receipts': seq<Receipt>, pc: Pc)
    requires PcOk(disk, log, receipts, pc) && !Holds(pc) && receipts <= receipts'
    requires pc.InitWrite? ==> (Unfinished(disk.main) ==> Unfinished(disk'.main))
    ensures PcOk(disk', log', receipts', pc)
  {
    hide Released, JobOk, HolderOk, Holds, Unfinished;
    if pc.Finished? && pc.outcome.Durable? && pc.outcome.result.AppliedDurably? {
      ReleasedGrows(receipts, receipts', Release(pc.outcome.task, pc.outcome.result.evidence));
    }
  }

  /** A step of the process that holds the lock, which may change every file. */
  lemma {:induction false} HolderKeeps(s: System, p: nat, disk: Disk, log: seq<Record>, receipts: seq<Receipt>, pc: Pc)
    requires Inv(s) && p in s.procs && Holds(s.procs[p])
    requires MainOk(disk.main, log) && ReceiptsOk(log, receipts) && s.receipts <= receipts
    requires Unfinished(s.disk.main) ==> disk.main == s.disk.main
    requires PcOk(disk, log, receipts, pc) && !pc.InitWrite? && (Holds(pc) ==> disk.lock)
    ensures Inv(System(disk, s.procs[p := pc], log, receipts))
  {
    hide MainOk, ReceiptsOk, Unfinished, PcOk, Holds;
    var procs := s.procs[p := pc];
    forall q | q in procs ensures PcOk(disk, log, receipts, procs[q]) {
      if q != p { BystanderOk(s.disk, disk, s.log, log, s.receipts, receipts, s.procs[q]); }
    }
  }

  /** Taking the lock. */
  lemma {:induction false} LockKeeps(s: System, p: nat, job: Job)
    requires Inv(s) && p in s.procs && s.procs[p] == SaveLock(job) && !s.disk.lock
    ensures Inv(Goto(s.(disk := s.disk.(lock := true)), p, SaveTemp(job)))
  {
    hide MainOk, ReceiptsOk, JobOk;
    assert PcOk(s.disk, s.log, s.receipts, s.procs[p]);
    OthersSurvive(s, p, s.disk.(lock := true));
  }

  /** Without a holder of the lock, the other processes do not depend on the disk. */
  lemma {:induction false} OthersSurvive(s: System, p: nat, disk: Disk)
    requires Inv(s) && p in s.procs && forall q :: q in s.procs && q != p ==> !Holds(s.procs[q])
    requires forall q :: q in s.procs && q != p && s.procs[q].InitWrite? && Unfinished(s.disk.main) ==>
               Unfinished(disk.main)
    ensures forall q :: q in s.procs && q != p ==> PcOk(disk, s.log, s.receipts, s.procs[q])
  {
    hide MainOk, ReceiptsOk, PcOk, Unfinished, Holds;
    forall q | q in s.procs && q != p ensures PcOk(disk, s.log, s.receipts, s.procs[q]) {
      BystanderOk(s.disk, disk, s.log, s.log, s.receipts, s.receipts, s.procs[q]);
    }
  }

  /** While the main file is not complete, a holder of the lock has nothing to write. */
  lemma {:induction false} HolderWaits(disk: Disk, disk': Disk, log: seq<Record>, receipts: seq<Receipt>, pc: Pc)
    requires HolderOk(disk, log, receipts, pc) && !Complete(disk.main, log)
    ensures HolderOk(disk', log, receipts, pc)
  {
    hide JobOk, JustStored, Complete, NewContent;
  }

  /** The process that writes the first main file. */
  lemma {:induction false} FirstWriteKeeps(s: System, p: nat, main: Option<string>, pc: Pc)
    requires Inv(s) && p in s.procs && s.log == []
             && (s.disk.main.None? || (s.procs[p].InitWrite? && Unfinished(s.disk.main)))
    requires !Holds(s.procs[p]) && !Holds(pc) && MainOk(main, []) && PcOk(s.disk.(main := main), [], s.receipts, pc)
    ensures Inv(Goto(s.(disk := s.disk.(main := main)), p, pc))
  {
    hide ReceiptsOk, HolderOk, OutcomeOk, JobOk, Unfinished, Serialize, Complete;
    if Unfinished(s.disk.main) { UnfinishedIsInvalid(s.disk.main); }
    assert !Complete(s.disk.main, s.log) by { NoneIsNotComplete(s.disk.main, s.log); }
    var disk := s.disk.(main := main);
    forall q | q in s.procs && q != p ensures PcOk(disk, s.log, s.receipts, s.procs[q]) && !s.procs[q].InitWrite? {
      assert PcOk(s.disk, s.log, s.receipts, s.procs[q]);
      if s.procs[q].InitWrite? { NoneIsNotUnfinished(s.disk.main); }
      if Holds(s.procs[q]) { HolderWaits(s.disk, disk, s.log, s.receipts, s.procs[q]); }
    }
  }

  lemma {:induction false} NoneIsNotComplete(main: Option<string>, log: seq<Record>)
    ensures main.None? ==> !Complete(main, log)
  {
  }

  lemma {:induction false} NoneIsNotUnfinished(main: Option<string>)
    ensures main.None? ==> !Unfinished(main)
  {
  }

  lemma {:induction false} AfterLoadOk(disk: Disk, log: seq<Record>, receipts: seq<Receipt>, task: Task,
                                       load: LoadResult)
    ensures var pc := AfterLoad(task, load); PcOk(disk, log, receipts, pc) && !Holds(pc) && !pc.InitWrite?
  {
    hide FindConsumed;
  }

  lemma {:induction false} AfterObserverOk(disk: Disk, log: seq<Record>, receipts: seq<Receipt>, task: Task,
                                           action: Option<ActionResult>)
    requires task.Approve?
    ensures var pc := AfterObserver(task, action); PcOk(disk, log, receipts, pc) && !Holds(pc) && !pc.InitWrite?
  {
    hide BuildRecord, EvidenceTarget, TargetOf;
    if action.Some? && BuildRecord(task.approval, action.value).Some? {
      BuiltRecordNamesItsEvidence(task.approval, action.value);
    }
  }

  lemma {:induction false} StartOk(disk: Disk, log: seq<Record>, receipts: seq<Receipt>, task: Task)
    ensures var pc := Start(task); PcOk(disk, log, receipts, pc) && !Holds(pc) && !pc.InitWrite?
  {
    hide Evaluate, EvidenceTarget;
  }

  lemma {:induction false} RefusalOk(receipts: seq<Receipt>, job: Job, result: SaveResult)
    requires !result.Saved?
    ensures OutcomeOk(receipts, SaveOutcome(job, result))
  {
  }

  lemma {:induction false} OnErrorOk(disk: Disk, log: seq<Record>, receipts: seq<Receipt>, pc: Pc)
    requires PcOk(disk, log, receipts, pc)
    ensures var after := OnError(pc);
            PcOk(disk, log, receipts, after) && (Holds(after) ==> Holds(pc)) && (after.InitWrite? ==> pc.InitWrite?)
  {
    hide JobOk, ReadyToWrite, JustStored, NewContent, Released, Unfinished, AfterLoad, SaveOutcome, OutcomeOk;
    match pc
    case LoadLock(t) => AfterLoadOk(disk, log, receipts, t, LoadBlocked);
    case LoadTemp(t) => AfterLoadOk(disk, log, receipts, t, LoadBlocked);
    case LoadMain(t) => AfterLoadOk(disk, log, receipts, t, LoadBlocked);
    case LoadRead(t) => AfterLoadOk(disk, log, receipts, t, LoadBlocked);
    case SaveLock(job) => RefusalOk(receipts, job, SaveBlocked);
    case InitExists | InitCreate | InitWrite | InitCheck => InitOutcomeOk(receipts, false);
    case _ =>
  }

  lemma {:induction false} InitOutcomeOk(receipts: seq<Receipt>, ok: bool)
    ensures OutcomeOk(receipts, Initialized(ok))
  {
  }

  /** Reading the main file: a save goes on to write only from the log itself, and with content that fits. */
  lemma {:induction false} JudgeOk(disk: Disk, log: seq<Record>, receipts: seq<Receipt>, job: Job)
    requires MainOk(disk.main, log) && disk.main.Some? && JobOk(job)
    ensures var pc := Judge(job, disk.main.value); Holds(pc) && HolderOk(disk, log, receipts, pc)
  {
    hide DecodeStore, Serialize, ValidRecord, TargetOf, JobOk, MainOk, Complete;
    if DecodeStore(disk.main.value).Healthy? { HealthyIsComplete(disk.main, log); }
  }

  /** The new main file: what was written holds the log with the record of the job at its end. */
  lemma {:induction false} ReplaceOk(disk: Disk, log: seq<Record>, receipts: seq<Receipt>, job: Job, base: seq<Record>)
    requires ReadyToWrite(disk, log, job, base) && disk.temp == NewContent(job, base) && ReceiptsOk(log, receipts)
    ensures Complete(disk.temp, log + [job.record]) && JustStored(log + [job.record], receipts, job)
    ensures ReceiptsOk(log + [job.record], receipts)
  {
    hide Serialize, Names;
    forall i | 0 <= i < |receipts| ensures ReceiptOk(log + [job.record], receipts[i]) {
      assert ReceiptOk(log, receipts[i]);
    }
  }

  /** A SAVED answer gets a revision of its own. */
  lemma {:induction false} AnswerOk(log: seq<Record>, receipts: seq<Receipt>, job: Job)
    requires JobOk(job) && JustStored(log, receipts, job) && ReceiptsOk(log, receipts)
    ensures var all := receipts + [Receipt(job.record, job.expected, |log|, job.release)];
            ReceiptsOk(log, all) && OutcomeOk(all, SaveOutcome(job, Saved(|log|)))
  {
    hide Names;
    var all := receipts + [Receipt(job.record, job.expected, |log|, job.release)];
    assert all[|receipts|].released == job.release;
    forall i | 0 <= i < |all| ensures ReceiptOk(log, all[i]) {
      if i < |receipts| { assert ReceiptOk(log, receipts[i]); } else { assert JobOk(job); }
    }
  }

  /** Giving the answer of a save, with the lock removed or not. */
  lemma {:induction false} AnswerKeeps(s: System, p: nat, lock: bool)
    requires Inv(s) && p in s.procs && s.procs[p].SaveUnlock?
    ensures Inv(Answer(s.(disk := s.disk.(lock := lock)), p, s.procs[p].job, s.procs[p].pending))
  {
    hide MainOk, ReceiptsOk, JobOk, JustStored, OutcomeOk, SaveOutcome, Unfinished;
    var job, result := s.procs[p].job, s.procs[p].pending;
    assert PcOk(s.disk, s.log, s.receipts, s.procs[p]);
    var disk := s.disk.(lock := lock);
    if result.Saved? {
      AnswerOk(s.log, s.receipts, job);
      HolderKeeps(s, p, disk, s.log, s.receipts + [Receipt(job.record, job.expected, |s.log|, job.release)],
                  Finished(SaveOutcome(job, result)));
    } else {
      RefusalOk(s.receipts, job, result);
      HolderKeeps(s, p, disk, s.log, s.receipts, Finished(SaveOutcome(job, result)));
    }
  }

  /** The steps of a process inside the lock. */
  lemma {:induction false} HolderStepKeeps(s: System, p: nat)
    requires Inv(s) && p in s.procs && Holds(s.procs[p])
    ensures Inv(Operate(s, p, s.procs[p]))
  {
    hide MainOk, ReceiptsOk, JobOk, JustStored, Unfinished, Judge, DecodeStore, NewContent, Complete, Answer;
    var pc := s.procs[p];
    assert HolderOk(s.disk, s.log, s.receipts, pc) by { assert PcOk(s.disk, s.log, s.receipts, pc); }
    match pc
    case SaveRead(job) =>
      if s.disk.main.Some? { JudgeOk(s.disk, s.log, s.receipts, job); MoveInside(s, p, Judge(job, s.disk.main.value)); }
                          else { MoveInside(s, p, SaveUnlock(job, SaveBlocked)); }
    case SaveReplace(job, base) => ReplaceKeeps(s, p);
    case SaveUnlock(job, result) => AnswerKeeps(s, p, false);
    case SaveCreate(job, base) =>
      if s.disk.temp.Some? {
        MoveInside(s, p, SaveUnlock(job, SaveBlocked));
      } else {
        TempKeeps(s, p, Some(""), SaveWrite(job, base));
      }
    case SaveWrite(job, base) => TempKeeps(s, p, NewContent(job, base), SaveReplace(job, base));
    case SaveTemp(job) =>
      MoveInside(s, p, if s.disk.temp.Some? then SaveUnlock(job, SaveManualReview) else SaveMain(job));
    case SaveMain(job) => MoveInside(s, p, if s.disk.main.None? then SaveUnlock(job, SaveMissing) else SaveRead(job));
    case SaveCheck(job, base) => CheckKeeps(s, p);
  }

  lemma {:induction false} MoveInside(s: System, p: nat, pc: Pc)
    requires Inv(s) && p in s.procs && Holds(s.procs[p]) && Holds(pc) && HolderOk(s.disk, s.log, s.receipts, pc)
    ensures Inv(Goto(s, p, pc))
  {
    hide HolderOk, Inv;
    GotoKeeps(s, p, pc);
  }

  /** Writing the temporary file. */
  lemma {:induction false} TempKeeps(s: System, p: nat, temp: Option<string>, pc: Pc)
    requires Inv(s) && p in s.procs && Holds(s.procs[p]) && Holds(pc)
             && HolderOk(s.disk.(temp := temp), s.log, s.receipts, pc)
    ensures Inv(Goto(s.(disk := s.disk.(temp := temp)), p, pc))
  {
    hide HolderOk, MainOk, ReceiptsOk, Unfinished;
    HolderKeeps(s, p, s.disk.(temp := temp), s.log, s.receipts, pc);
  }

  lemma {:induction false} ReplaceKeeps(s: System, p: nat)
    requires Inv(s) && p in s.procs && s.procs[p].SaveReplace?
    ensures Inv(Operate(s, p, s.procs[p]))
  {
    hide ReceiptsOk, JobOk, JustStored, NewContent, Complete, Unfinished, Serialize;
    var job, base := s.procs[p].job, s.procs[p].base;
    assert PcOk(s.disk, s.log, s.receipts, s.procs[p]);
    ReplaceOk(s.disk, s.log, s.receipts, job, base);
    if Unfinished(s.disk.main) { UnfinishedIsNotComplete(s.disk.main, s.log); }
    HolderKeeps(s, p, s.disk.(main := s.disk.temp, temp := None), s.log + [job.record], s.receipts,
                SaveCheck(job, base));
  }

  lemma {:induction false} UnfinishedIsNotComplete(main: Option<string>, log: seq<Record>)
    requires Unfinished(main)
    ensures !Complete(main, log)
  {
    hide Serialize, DecodeStore, Unfinished;
    UnfinishedIsInvalid(main);
    if Complete(main, log) { CompleteDecodes(main, log); }
  }

  lemma {:induction false} CheckKeeps(s: System, p: nat)
    requires Inv(s) && p in s.procs && s.procs[p].SaveCheck?
    ensures Inv(Operate(s, p, s.procs[p]))
  {
    hide MainOk, ReceiptsOk, JobOk, DecodeStore;
    assert PcOk(s.disk, s.log, s.receipts, s.procs[p]);
    var job := s.procs[p].job;
    GotoKeeps(s, p, SaveUnlock(job, SaveBlocked));
    GotoKeeps(s, p, SaveUnlock(job, Saved(job.expected + 1)));
  }

  /** The steps that create the store. */
  lemma {:induction false} InitStepKeeps(s: System, p: nat)
    requires Inv(s) && p in s.procs && (s.procs[p].InitExists? || s.procs[p].InitCreate? || s.procs[p].InitWrite?
                                        || s.procs[p].InitCheck?)
    ensures Inv(Operate(s, p, s.procs[p]))
  {
    hide ReceiptsOk, DecodeStore, Complete, Serialize, INITIAL;
    var pc := s.procs[p];
    assert PcOk(s.disk, s.log, s.receipts, pc);
    InitialFits();
    match pc
    case InitExists => GotoKeeps(s, p, Finished(Initialized(false))); GotoKeeps(s, p, InitCreate);
    case InitCreate =>
      if s.disk.main.Some? { GotoKeeps(s, p, Finished(Initialized(false))); }
      else { EmptyIsUnfinished(); NoneHasNoLog(s.disk.main, s.log); FirstWriteKeeps(s, p, Some(""), InitWrite); }
    case InitWrite =>
      UnfinishedIsNotComplete(s.disk.main, s.log);
      InitialIsComplete();
      FirstWriteKeeps(s, p, Some(INITIAL), InitCheck);
    case InitCheck => GotoKeeps(s, p, Finished(Initialized(false))); GotoKeeps(s, p, Finished(Initialized(true)));
  }

  lemma {:induction false} NoneHasNoLog(main: Option<string>, log: seq<Record>)
    requires MainOk(main, log) && main.None?
    ensures log == []
  {
  }

  lemma {:induction false} EmptyIsUnfinished()
    ensures Unfinished(Some(""))
  {
    hide INITIAL;
    InitialFits();
    assert INITIAL[..0] == "";
  }

  lemma {:induction false} InitialIsComplete()
    ensures Complete(Some(INITIAL), [])
  {
    hide Serialize, INITIAL;
    InitialFits();
  }

  lemma {:induction false} LoadStepKeeps(s: System, p: nat)
    requires Inv(s) && p in s.procs && (s.procs[p].LoadLock? || s.procs[p].LoadTemp? || s.procs[p].LoadMain?
                                        || s.procs[p].LoadRead?)
    ensures Inv(Operate(s, p, s.procs[p]))
  {
    hide Inv, AfterLoad, DecodeStore;
    var d := s.disk;
    match s.procs[p]
    case LoadLock(t) => LoadKeeps(s, p, t, LoadLocked); GotoLoadKeeps(s, p, LoadTemp(t));
    case LoadTemp(t) => LoadKeeps(s, p, t, LoadManualReview); GotoLoadKeeps(s, p, LoadMain(t));
    case LoadMain(t) => LoadKeeps(s, p, t, LoadMissing); GotoLoadKeeps(s, p, LoadRead(t));
    case LoadRead(t) =>
      LoadKeeps(s, p, t, LoadBlocked);
      if d.main.Some? && DecodeStore(d.main.value).Healthy? {
        LoadKeeps(s, p, t, LoadHealthy(DecodeStore(d.main.value).revision, DecodeStore(d.main.value).records));
      }
  }

  lemma {:induction false} LoadKeeps(s: System, p: nat, task: Task, load: LoadResult)
    requires Inv(s) && p in s.procs
    ensures Inv(Goto(s, p, AfterLoad(task, load)))
  {
    hide Inv, AfterLoad;
    AfterLoadOk(s.disk, s.log, s.receipts, task, load);
    GotoKeeps(s, p, AfterLoad(task, load));
  }

  lemma {:induction false} GotoLoadKeeps(s: System, p: nat, pc: Pc)
    requires Inv(s) && p in s.procs && (pc.LoadTemp? || pc.LoadMain? || pc.LoadRead?)
    ensures Inv(Goto(s, p, pc))
  {
    hide Inv;
    GotoKeeps(s, p, pc);
  }

  lemma {:induction false} WritePartKeeps(s: System, p: nat, n: nat)
    requires Inv(s) && p in s.procs
    ensures Inv(Next(s, p, WritePart(n)))
  {
    hide ReceiptsOk, Complete, Serialize, JobOk, NewContent, INITIAL;
    var pc := s.procs[p];
    assert PcOk(s.disk, s.log, s.receipts, pc);
    assert s.procs[p := pc] == s.procs;
    if pc.InitWrite? && n < |INITIAL| {
      UnfinishedIsNotComplete(s.disk.main, s.log);
      assert Unfinished(Some(INITIAL[..n]));
      FirstWriteKeeps(s, p, Some(INITIAL[..n]), pc);
    } else if pc.SaveWrite? && NewContent(pc.job, pc.base).Some? && n < |NewContent(pc.job, pc.base).value| {
      TempKeeps(s, p, Some(NewContent(pc.job, pc.base).value[..n]), pc);
    }
  }

  /** Every step of every process keeps the invariant. */
  lemma {:induction false} NextKeeps(s: System, p: nat, c: Choice)
    requires Inv(s) && p in s.procs
    ensures Inv(Next(s, p, c))
  {
    hide Inv, Operate, Answer, OnError, AfterObserver, Start, PcOk;
    var pc := s.procs[p];
    match c
    case Proceed => OperateKeeps(s, p);
    case FailIo =>
      if pc.SaveUnlock? {
        assert s.disk.(lock := s.disk.lock) == s.disk;
        AnswerKeeps(s, p, s.disk.lock);
      } else {
        PcOfInv(s, p);
        OnErrorOk(s.disk, s.log, s.receipts, pc);
        GotoKeeps(s, p, OnError(pc));
      }
    case Crash => CrashedOk(s.disk, s.log, s.receipts); GotoKeeps(s, p, Crashed);
    case WritePart(n) => WritePartKeeps(s, p, n);
    case Observed(action) =>
      if pc.Observing? && pc.task.Approve? {
        AfterObserverOk(s.disk, s.log, s.receipts, pc.task, action);
        GotoKeeps(s, p, AfterObserver(pc.task, action));
      }
    case Begin(task) =>
      StartOk(s.disk, s.log, s.receipts, task);
      if pc.Idle? || pc.Finished? { GotoKeeps(s, p, Start(task)); }
  }

  lemma {:induction false} PcOfInv(s: System, p: nat)
    requires Inv(s) && p in s.procs
    ensures PcOk(s.disk, s.log, s.receipts, s.procs[p])
  {
  }

  lemma {:induction false} CrashedOk(disk: Disk, log: seq<Record>, receipts: seq<Receipt>)
    ensures PcOk(disk, log, receipts, Crashed)
  {
  }

  lemma {:induction false} OperateKeeps(s: System, p: nat)
    requires Inv(s) && p in s.procs
    ensures Inv(Operate(s, p, s.procs[p]))
  {
    hide Inv, Answer, AfterLoad, Judge, DecodeStore, NewContent;
    match s.procs[p]
    case LoadLock(_) | LoadTemp(_) | LoadMain(_) | LoadRead(_) => LoadStepKeeps(s, p);
    case InitExists | InitCreate | InitWrite | InitCheck => InitStepKeeps(s, p);
    case SaveLock(job) =>
      if s.disk.lock {
        SaveLockedOk(s, p, job);
        GotoKeeps(s, p, Finished(SaveOutcome(job, SaveLocked)));
      } else { LockKeeps(s, p, job); }
    case Idle | Observing(_) | Finished(_) | Crashed =>
    case _ => HolderStepKeeps(s, p);
  }

  lemma {:induction false} SaveLockedOk(s: System, p: nat, job: Job)
    ensures PcOk(s.disk, s.log, s.receipts, Finished(SaveOutcome(job, SaveLocked)))
  {
    RefusalOk(s.receipts, job, SaveLocked);
  }

  // ---------- Whole runs ----------

  /** A run is any sequence of steps by any processes. */
  type Steps = seq<(nat, Choice)>

  function Act(s: System, step: (nat, Choice)): System { if step.0 in s.procs then Next(s, step.0, step.1) else s }

  function Execute(s: System, steps: Steps): System {
    if steps == [] then s else Act(Execute(s, steps[..|steps| - 1]), steps[|steps| - 1])
  }

  /** Any number of idle processes beside a store that was never created or holds its log; the lock
      and the temporary file may be left over from anything. */
  predicate Boot(s: System) {
    MainOk(s.disk.main, s.log) && s.receipts == [] && forall p :: p in s.procs ==> s.procs[p] == Idle
  }

  lemma {:induction false} RunKeeps(s: System, steps: Steps)
    requires Boot(s)
    ensures Inv(Execute(s, steps))
    decreases |steps|
  {
    hide MainOk, Next;
    if steps == [] {
    } else {
      hide Inv;
      var prefix := steps[..|steps| - 1];
      RunKeeps(s, prefix);
      var (p, c) := steps[|steps| - 1];
      if p in Execute(s, prefix).procs { NextKeeps(Execute(s, prefix), p, c); }
    }
  }

  /** What one step does to the log: nothing, or one new record that the main file then ends with.
      A complete main file stays complete. */
  lemma {:induction false} StepExtendsTheLog(s: System, p: nat, c: Choice)
    requires Inv(s) && p in s.procs
    ensures var t := Next(s, p, c);
            && (t.log == s.log || (|t.log| == |s.log| + 1 && s.log <= t.log && Complete(t.disk.main, t.log)))
            && (Complete(s.disk.main, s.log) ==> Complete(t.disk.main, t.log))
  {
    hide JobOk, ReceiptsOk, Serialize, Complete, NewContent, AfterLoad, Judge, OnError, AfterObserver, Start,
         DecodeStore, SaveOutcome, INITIAL;
    var pc := s.procs[p];
    assert PcOk(s.disk, s.log, s.receipts, pc);
    if c.Proceed? && pc.SaveReplace? {
      ReplaceOk(s.disk, s.log, s.receipts, pc.job, pc.base);
    } else if pc.InitWrite? {
      UnfinishedIsNotComplete(s.disk.main, s.log);
    } else if pc.InitCreate? && s.disk.main.None? {
      NoneIsNotComplete(s.disk.main, s.log);
    }
  }

  lemma {:induction false} RunExtendsTheLog(s: System, steps: Steps)
    requires Boot(s)
    ensures var t := Execute(s, steps);
            s.log <= t.log && (Complete(s.disk.main, s.log) ==> Complete(t.disk.main, t.log))
    decreases |steps|
  {
    hide Inv, Next, Complete, Boot;
    if steps != [] {
      var prefix := steps[..|steps| - 1];
      RunExtendsTheLog(s, prefix);
      RunKeeps(s, prefix);
      var (p, c) := steps[|steps| - 1];
      if p in Execute(s, prefix).procs { StepExtendsTheLog(Execute(s, prefix), p, c); }
    }
  }

  /** What an earlier point of a run had recorded is still recorded later. */
  lemma {:induction false} LaterLogsExtend(s: System, steps: Steps, k: nat)
    requires Boot(s) && k <= |steps|
    ensures Execute(s, steps[..k]).log <= Execute(s, steps).log
    decreases |steps|
  {
    hide Inv, Next, Complete, Boot;
    if k == |steps| {
      assert steps[..k] == steps;
    } else {
      var prefix := steps[..|steps| - 1];
      assert prefix[..k] == steps[..k];
      LaterLogsExtend(s, prefix, k);
      RunKeeps(s, prefix);
      var (p, c) := steps[|steps| - 1];
      if p in Execute(s, prefix).procs { StepExtendsTheLog(Execute(s, prefix), p, c); }
    }
  }

  /** Over every run from an initialized store, with any interleaving, I/O error and crash, the main file
      decodes as healthy, its revision is the number of its records, the records it started with stay,
      and no request and no target appears twice. */
  lemma {:induction false} StoreStaysHealthy(s: System, steps: Steps)
    requires Boot(s) && Complete(s.disk.main, s.log)
    ensures var t := Execute(s, steps);
            && t.disk.main.Some? && DecodeStore(t.disk.main.value) == Healthy(|t.log|, t.log)
            && s.log <= t.log && ValidSnapshot(t.log)
  {
    hide Serialize, DecodeStore, ValidSnapshot, Boot;
    RunExtendsTheLog(s, steps);
    CompleteDecodes(Execute(s, steps).disk.main, Execute(s, steps).log);
  }

  /** Where the store was never initialized the main file may also be missing or half written, but then
      nothing was ever recorded and it does not decode. */
  lemma {:induction false} StoreIsHealthyOrEmpty(s: System, steps: Steps)
    requires Boot(s)
    ensures var t := Execute(s, steps);
            && ValidSnapshot(t.log)
            && (t.disk.main.Some? && DecodeStore(t.disk.main.value).Healthy? ==>
                DecodeStore(t.disk.main.value) == Healthy(|t.log|, t.log))
            && (!(t.disk.main.Some? && DecodeStore(t.disk.main.value).Healthy?) ==> t.log == [] && t.receipts == [])
  {
    hide Serialize, DecodeStore, ReceiptsOk, Complete, Unfinished, Boot, Exclusive, PcsOk;
    RunKeeps(s, steps);
    var t := Execute(s, steps);
    if Complete(t.disk.main, t.log) {
      NoneIsNotComplete(t.disk.main, t.log);
      CompleteDecodes(t.disk.main, t.log);
    } else {
      if t.disk.main.Some? { UnfinishedIsInvalid(t.disk.main); }
      EmptyLogHasNoReceipt(t.receipts);
    }
  }

  lemma {:induction false} EmptyLogHasNoReceipt(receipts: seq<Receipt>)
    requires ReceiptsOk([], receipts)
    ensures receipts == []
  {
    assert receipts == [] || ReceiptOk([], receipts[0]);
  }

  /** Two saves never both return SAVED for one expected revision, and each SAVED record is in the
      store at its revision. */
  lemma {:induction false} SavedAtMostOncePerRevision(s: System, steps: Steps)
    requires Boot(s)
    ensures var t := Execute(s, steps);
            && (forall i, j :: 0 <= i < j < |t.receipts| ==> t.receipts[i].expected != t.receipts[j].expected)
            && (forall i :: 0 <= i < |t.receipts| ==>
                  0 <= t.receipts[i].expected < |t.log| && t.log[t.receipts[i].expected] == t.receipts[i].record)
  {
    hide MainOk, Exclusive, PcsOk, Boot, Execute, Names;
    RunKeeps(s, steps);
    var t := Execute(s, steps);
    forall i | 0 <= i < |t.receipts|
      ensures ReceiptOk(t.log, t.receipts[i])
    {
    }
  }

  /** At most once: no two releases share a request or a target, and the released evidence names the
      target of a record that is in the store. */
  lemma {:induction false} ReleasedAtMostOnce(s: System, steps: Steps, i: nat, j: nat)
    requires Boot(s)
    requires i < j < |Execute(s, steps).receipts|
    ensures var t := Execute(s, steps); var a, b := t.receipts[i], t.receipts[j];
            && a.record.requestId != b.record.requestId
            && (a.released.Some? && b.released.Some? ==>
                EvidenceTarget(a.released.value.evidence) != EvidenceTarget(b.released.value.evidence))
            && a.record in t.log && b.record in t.log
            && (a.released.Some? ==> EvidenceTarget(a.released.value.evidence) == Some(TargetOf(a.record)))
  {
    hide DecodeStore, Boot, ValidRecord, Execute, Exclusive, PcsOk, MainOk;
    RunKeeps(s, steps);
    SavedAtMostOncePerRevision(s, steps);
    StoreIsHealthyOrEmpty(s, steps);
    var t := Execute(s, steps);
    var a, b := t.receipts[i], t.receipts[j];
    assert ReceiptOk(t.log, a) && ReceiptOk(t.log, b);
    assert a.expected < b.expected || b.expected < a.expected;
    assert t.log[a.expected] == a.record && t.log[b.expected] == b.record;
  }

  // ---------- Successive sessions ----------

  /** A process between replacing the main file and its answer works on a record from `n` on. */
  predicate PcSince(pc: Pc, n: nat) {
    (pc.SaveCheck? || (pc.SaveUnlock? && pc.pending.Saved?)) ==> pc.job.expected >= n
  }

  predicate Since(s: System, n: nat) {
    && |s.log| >= n
    && (forall p :: p in s.procs ==> PcSince(s.procs[p], n))
    && (forall i :: 0 <= i < |s.receipts| ==> s.receipts[i].expected >= n)
  }

  lemma {:induction false} StepKeepsSince(s: System, p: nat, c: Choice, n: nat)
    requires Inv(s) && p in s.procs && Since(s, n)
    ensures Since(Next(s, p, c), n)
  {
    hide MainOk, Exclusive, ReceiptsOk, Serialize, NewContent, DecodeStore, INITIAL, SaveOutcome, JobOk, Complete,
         Unfinished, OutcomeOk, AfterLoad, AfterObserver, Judge, Start, JustStored;
    var pc := s.procs[p];
    assert PcOk(s.disk, s.log, s.receipts, pc);
    match c
    case Proceed =>
      if pc.LoadLock? || pc.LoadTemp? || pc.LoadMain? || pc.LoadRead? { LoadsAreElsewhere(s, p); }
      if pc.SaveRead? && s.disk.main.Some? { JudgeIsElsewhere(pc.job, s.disk.main.value); }
    case FailIo => if !pc.SaveUnlock? { ErrorIsElsewhere(pc); }
    case Observed(action) => if pc.Observing? && pc.task.Approve? { AfterObserverIsElsewhere(pc.task, action); }
    case Begin(task) => StartIsElsewhere(task);
    case _ =>
  }

  /** Neither behind the replacement of the main file nor with a SAVED answer at hand. */
  predicate Elsewhere(pc: Pc) { !pc.SaveCheck? && (pc.SaveUnlock? ==> !pc.pending.Saved?) }

  lemma {:induction false} AfterLoadIsElsewhere(task: Task, load: LoadResult)
    ensures Elsewhere(AfterLoad(task, load))
  {
    hide FindConsumed;
  }

  lemma {:induction false} AfterObserverIsElsewhere(task: Task, action: Option<ActionResult>)
    requires task.Approve?
    ensures Elsewhere(AfterObserver(task, action))
  {
    hide BuildRecord;
  }

  lemma {:induction false} StartIsElsewhere(task: Task)
    ensures Elsewhere(Start(task))
  {
    hide Evaluate;
  }

  lemma {:induction false} JudgeIsElsewhere(job: Job, content: string)
    ensures Elsewhere(Judge(job, content))
  {
    hide DecodeStore, Serialize, ValidRecord;
  }

  lemma {:induction false} ErrorIsElsewhere(pc: Pc)
    requires !pc.SaveUnlock?
    ensures Elsewhere(OnError(pc))
  {
    hide AfterLoad;
    match pc
    case LoadLock(t) => AfterLoadIsElsewhere(t, LoadBlocked);
    case LoadTemp(t) => AfterLoadIsElsewhere(t, LoadBlocked);
    case LoadMain(t) => AfterLoadIsElsewhere(t, LoadBlocked);
    case LoadRead(t) => AfterLoadIsElsewhere(t, LoadBlocked);
    case _ =>
  }

  lemma {:induction false} LoadsAreElsewhere(s: System, p: nat)
    requires p in s.procs && (s.procs[p].LoadLock? || s.procs[p].LoadTemp? || s.procs[p].LoadMain?
                              || s.procs[p].LoadRead?)
    ensures var t := Operate(s, p, s.procs[p]);
            p in t.procs && t == Goto(s, p, t.procs[p]) && Elsewhere(t.procs[p])
  {
    hide DecodeStore, AfterLoad;
    match s.procs[p]
    case LoadLock(t) => AfterLoadIsElsewhere(t, LoadLocked);
    case LoadTemp(t) => AfterLoadIsElsewhere(t, LoadManualReview);
    case LoadMain(t) => AfterLoadIsElsewhere(t, LoadMissing);
    case LoadRead(t) =>
      AfterLoadIsElsewhere(t, LoadBlocked);
      if s.disk.main.Some? && DecodeStore(s.disk.main.value).Healthy? {
        var decoded := DecodeStore(s.disk.main.value);
        AfterLoadIsElsewhere(t, LoadHealthy(decoded.revision, decoded.records));
      }
  }

  /** A SAVED answer is only ever given for a record that was added in this run. */
  lemma {:induction false} ReceiptsAreNew(s: System, steps: Steps)
    requires Boot(s)
    ensures Since(Execute(s, steps), |s.log|)
    decreases |steps|
  {
    hide MainOk, Next, Inv;
    if steps == [] {
    } else {
      hide Since;
      var prefix := steps[..|steps| - 1];
      ReceiptsAreNew(s, prefix);
      RunKeeps(s, prefix);
      var (p, c) := steps[|steps| - 1];
      if p in Execute(s, prefix).procs { StepKeepsSince(Execute(s, prefix), p, c, |s.log|); }
    }
  }

  /** One run of the system after another on the same store. */
  datatype Session = Session(start: System, steps: Steps) {
    function End(): System { Execute(start, steps) }
  }

  /** Each session starts with idle processes on the store that the one before it left; the lock and the
      temporary file may have been left or cleared in between. */
  predicate Successive(sessions: seq<Session>) {
    && (forall k :: 0 <= k < |sessions| ==> Boot(sessions[k].start))
    && (forall k :: 0 <= k < |sessions| - 1 ==> sessions[k + 1].start.log == sessions[k].End().log)
  }

  lemma {:induction false} LogsGrow(sessions: seq<Session>, a: nat, b: nat)
    requires Successive(sessions) && a < b < |sessions|
    ensures sessions[a].End().log <= sessions[b].start.log
    decreases b
  {
    hide Execute, Boot, Complete;
    assert sessions[b - 1 + 1].start.log == sessions[b - 1].End().log;
    if a < b - 1 {
      LogsGrow(sessions, a, b - 1);
      RunExtendsTheLog(sessions[b - 1].start, sessions[b - 1].steps);
    }
  }

  /** At most once for the life of the store: over any number of sessions, with crashes that leave the lock
      behind and are recovered from, no two SAVED answers share a request or a target. */
  lemma {:induction false} ReleasedAtMostOnceEver(sessions: seq<Session>, a: nat, i: nat, b: nat, j: nat)
    requires Successive(sessions) && a < |sessions| && b < |sessions|
    requires i < |sessions[a].End().receipts| && j < |sessions[b].End().receipts|
    requires a < b || (a == b && i < j)
    ensures var x, y := sessions[a].End().receipts[i], sessions[b].End().receipts[j];
            && x.record.requestId != y.record.requestId && TargetOf(x.record) != TargetOf(y.record)
            && (x.released.Some? && y.released.Some? ==>
                  EvidenceTarget(x.released.value.evidence) != EvidenceTarget(y.released.value.evidence))
            && x.record in sessions[b].End().log && y.record in sessions[b].End().log
  {
    hide Execute, Boot, MainOk, Exclusive, PcsOk, DecodeStore, ValidRecord, TargetOf, EvidenceTarget, Complete;
    var t, u := sessions[a].End(), sessions[b].End();
    RunKeeps(sessions[a].start, sessions[a].steps);
    RunKeeps(sessions[b].start, sessions[b].steps);
    StoreIsHealthyOrEmpty(sessions[b].start, sessions[b].steps);
    var x, y := t.receipts[i], u.receipts[j];
    assert ReceiptOk(t.log, x) && ReceiptOk(u.log, y);
    if a < b {
      LogsGrow(sessions, a, b);
      RunExtendsTheLog(sessions[b].start, sessions[b].steps);
      ReceiptsAreNew(sessions[b].start, sessions[b].steps);
      assert x.expected < |t.log| <= |sessions[b].start.log| <= y.expected;
    } else {
      SavedAtMostOncePerRevision(sessions[a].start, sessions[a].steps);
    }
    assert u.log[x.expected] == x.record && u.log[y.expected] == y.record && x.expected != y.expected;
  }

  // ---------- Releases and receipts ----------

  /** Evidence is released in no other way: a process that comes to release evidence has got a new
      receipt for it in the same step, and no other step adds a receipt. */
  lemma {:induction false} ReleaseIsReceipted(s: System, p: nat, c: Choice)
    requires Inv(s) && p in s.procs
    ensures Receipted(s, Next(s, p, c), p)
  {
    hide MainOk, Exclusive, ReceiptsOk, Serialize, NewContent, DecodeStore, INITIAL, FindConsumed, BuildRecord,
         Evaluate, Inv, AfterLoad, AfterObserver, Judge, Start;
    var pc := s.procs[p];
    match c
    case Proceed => OperateReleases(s, p);
    case FailIo => if !pc.SaveUnlock? { OnErrorReleases(pc); }
    case Observed(action) => if pc.Observing? && pc.task.Approve? { AfterObserverReleases(pc.task, action); }
    case Begin(task) => StartReleases(task);
    case _ =>
  }

  /** From `s` to `t`: at most one receipt is added, to a process that finishes; and where `p` comes to
      release evidence, the added receipt is for that evidence. */
  predicate Receipted(s: System, t: System, p: nat) {
    && p in s.procs && p in t.procs
    && (t.receipts == s.receipts || (|t.receipts| == |s.receipts| + 1 && s.receipts <= t.receipts
                                     && t.procs[p].Finished?))
    && (Releases(t.procs[p]) && t.procs[p] != s.procs[p] ==>
          |t.receipts| == |s.receipts| + 1 && t.receipts[|s.receipts|].released == Some(ReleaseBy(t.procs[p])))
  }

  predicate Releases(pc: Pc) { pc.Finished? && pc.outcome.Durable? && pc.outcome.result.AppliedDurably? }

  function ReleaseBy(pc: Pc): Release
    requires Releases(pc)
  {
    Release(pc.outcome.task, pc.outcome.result.evidence)
  }

  lemma {:induction false} StartReleases(task: Task)
    ensures !Releases(Start(task))
  {
    hide Evaluate;
  }

  lemma {:induction false} AfterObserverReleases(task: Task, action: Option<ActionResult>)
    requires task.Approve?
    ensures !Releases(AfterObserver(task, action))
  {
    hide BuildRecord;
  }

  lemma {:induction false} AfterLoadReleases(task: Task, load: LoadResult)
    ensures !Releases(AfterLoad(task, load))
  {
    hide FindConsumed;
  }

  lemma {:induction false} OnErrorReleases(pc: Pc)
    requires !pc.SaveUnlock?
    ensures Releases(OnError(pc)) ==> OnError(pc) == pc
  {
    hide AfterLoad;
    match pc
    case LoadLock(t) => AfterLoadReleases(t, LoadBlocked);
    case LoadTemp(t) => AfterLoadReleases(t, LoadBlocked);
    case LoadMain(t) => AfterLoadReleases(t, LoadBlocked);
    case LoadRead(t) => AfterLoadReleases(t, LoadBlocked);
    case _ =>
  }

  lemma {:induction false} LoadsRelease(s: System, p: nat)
    requires p in s.procs && (s.procs[p].LoadLock? || s.procs[p].LoadTemp? || s.procs[p].LoadMain?
                              || s.procs[p].LoadRead?)
    ensures var t := Operate(s, p, s.procs[p]); t.receipts == s.receipts && !Releases(t.procs[p])
  {
    hide DecodeStore, AfterLoad;
    match s.procs[p]
    case LoadLock(t) => AfterLoadReleases(t, LoadLocked);
    case LoadTemp(t) => AfterLoadReleases(t, LoadManualReview);
    case LoadMain(t) => AfterLoadReleases(t, LoadMissing);
    case LoadRead(t) =>
      AfterLoadReleases(t, LoadBlocked);
      if s.disk.main.Some? && DecodeStore(s.disk.main.value).Healthy? {
        AfterLoadReleases(t, LoadHealthy(DecodeStore(s.disk.main.value).revision,
                                         DecodeStore(s.disk.main.value).records));
      }
  }

  lemma {:induction false} JudgeReleases(job: Job, content: string)
    ensures !Releases(Judge(job, content))
  {
    hide DecodeStore, Serialize, ValidRecord;
  }

  lemma {:induction false} OperateReleases(s: System, p: nat)
    requires p in s.procs
    ensures Receipted(s, Operate(s, p, s.procs[p]), p)
  {
    hide Serialize, NewContent, DecodeStore, INITIAL, AfterLoad, Judge;
    match s.procs[p]
    case LoadLock(_) | LoadTemp(_) | LoadMain(_) | LoadRead(_) => LoadsRelease(s, p);
    case SaveRead(job) => if s.disk.main.Some? { JudgeReleases(job, s.disk.main.value); }
    case _ =>
  }
}
