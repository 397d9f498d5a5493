/** The replay store and the durable coordinator as one caller sees them when nobody else is at work:
    the methods of scripts/development_remote_approval_replay_persistence.py and of
    scripts/development_remote_approval_durable_coordinator.py over fields that stand for the files. */
module ReplayStore {
  import opened Text
  import opened DevelopmentGate
  import opened ReplayRecord
  import opened ReplayCodec
  import opened ReplayProtocol
  import opened ReplaySafety
  import opened ReplaySize

  // ---------- What the operations do ----------

  function LoadOf(d: Disk): LoadResult {
    if d.lock then LoadLocked
    else if d.temp.Some? then LoadManualReview
    else if d.main.None? then LoadMissing
    else
      match DecodeStore(d.main.value)
      case Invalid => LoadBlocked
      case Healthy(revision, records) => LoadHealthy(revision, records)
  }

  /** A save succeeds exactly when the store is free and healthy at the expected revision and the record
      is valid, new and fits; only then does it change anything. */
  predicate Savable(d: Disk, record: Record, expected: int) {
    && LoadOf(d).LoadHealthy? && LoadOf(d).revision == expected && ValidRecord(record)
    && Fresh(LoadOf(d).records, record)
    && Serialize(expected + 1, LoadOf(d).records + [record]).Some?
  }

  function DiskAfter(d: Disk, record: Record, expected: int): Disk {
    if Savable(d, record, expected) then d.(main := Serialize(expected + 1, LoadOf(d).records + [record])) else d
  }

  function SaveOf(d: Disk, record: Record, expected: int): SaveResult {
    match LoadOf(d)
    case LoadLocked => SaveLocked
    case LoadManualReview => SaveManualReview
    case LoadMissing => SaveMissing
    case LoadBlocked => SaveBlocked
    case LoadHealthy(revision, records) =>
      if expected != revision then StaleRevision
      else if Savable(d, record, expected) then Saved(expected + 1)
      else if ValidRecord(record) && record in records then AlreadyConsumed(revision)
      else SaveBlocked
  }

  /** The result of a coordinated approval, whose observer answers `action`. */
  function CoordinateOf(d: Disk, evidence: Evidence, approval: Approval, expected: int,
                        action: Option<ActionResult>): DurableResult {
    if Evaluate(Some(evidence)) != ApprovalRequired || expected < 0 then RecoveryBlocked
    else
      var load := AfterLoad(Approve(evidence, approval, expected), LoadOf(d));
      if load.Finished? && load.outcome.Durable? then load.outcome.result
      else
        var observed := AfterObserver(Approve(evidence, approval, expected), action);
        if observed.SaveLock? then
          var outcome := SaveOutcome(observed.job, SaveOf(d, observed.job.record, expected));
          if outcome.Durable? then outcome.result else RecoveryBlocked
        else if observed.Finished? && observed.outcome.Durable? then observed.outcome.result
        else RecoveryBlocked
  }

  /** The file limit refuses nothing in a store of fewer than 476 records with numbers below 10^19: there a
      record is saved exactly when it comes at the current revision, is valid and is new. */
  lemma {:induction false} SmallStoreSaves(d: Disk, record: Record, expected: int)
    requires LoadOf(d).LoadHealthy? && |LoadOf(d).records| < ROOM_FOR_RECORDS && LoadOf(d).revision < NUMBER_LIMIT - 1
    requires Short(record) && forall i :: 0 <= i < |LoadOf(d).records| ==> Short(LoadOf(d).records[i])
    ensures SaveOf(d, record, expected).Saved? <==>
            expected == LoadOf(d).revision && ValidRecord(record) && Fresh(LoadOf(d).records, record)
  {
    hide DecodeStore, Serialize, ValidRecord, TargetOf, Fresh, ValidSnapshot;
    var records := LoadOf(d).records;
    ReadSnapshotIsValid(d.main.value);
    if expected == LoadOf(d).revision && ValidRecord(record) && Fresh(records, record) {
      AppendKeepsSnapshot(records, record);
      SmallSnapshotFits(expected + 1, records + [record]);
    }
  }

  predicate RequestKnown(records: seq<Record>, record: Record) {
    exists i :: 0 <= i < |records| && records[i].requestId == record.requestId
  }

  predicate TargetKnown(records: seq<Record>, record: Record) {
    exists i :: 0 <= i < |records| && TargetOf(records[i]) == TargetOf(record)
  }

  // ---------- The store ----------

  class RemoteApprovalReplayStore {
    var main: Option<string>
    var temp: Option<string>
    var lock: bool

    function Files(): Disk
      reads this
    {
      Disk(main, temp, lock)
    }

    constructor (disk: Disk)
      ensures Files() == disk
    {
      main, temp, lock := disk.main, disk.temp, disk.lock;
    }

    method Initialize() returns (ok: bool)
      modifies this
      ensures ok <==> old(main).None?
      ensures Files() == if ok then old(Files()).(main := Some(INITIAL)) else old(Files())
      ensures ok ==> DecodeStore(main.value) == Healthy(0, [])
    {
      hide DecodeStore, Serialize;
      InitialFits();
      if main.Some? { return false; }
      main := Serialize(0, []);
      match DecodeStore(main.value)
      case Invalid => ok := false;
      case Healthy(revision, _) => ok := revision == 0;
    }

    method Load() returns (r: LoadResult)
      ensures r == LoadOf(Files())
    {
      if lock { return LoadLocked; }
      if temp.Some? { return LoadManualReview; }
      if main.None? { return LoadMissing; }
      match DecodeStore(main.value)
      case Invalid => return LoadBlocked;
      case Healthy(revision, records) => return LoadHealthy(revision, records);
    }

    method SaveRecord(record: Record, expected: int) returns (r: SaveResult)
      modifies this
      ensures r == SaveOf(old(Files()), record, expected)
      ensures Files() == DiskAfter(old(Files()), record, expected)
    {
      hide ValidRecord, TargetOf, DecodeStore, Serialize;
      if lock { return SaveLocked; }
      lock := true;
      r := SaveLockedRecord(record, expected);
      lock := false;
    }

    /** The body of a save, inside the lock. */
    method SaveLockedRecord(record: Record, expected: int) returns (r: SaveResult)
      requires lock
      modifies this
      ensures var d := old(Files()).(lock := false);
              r == SaveOf(d, record, expected) && Files() == DiskAfter(d, record, expected).(lock := true)
    {
      hide ValidRecord, TargetOf, DecodeStore, Serialize;
      if temp.Some? { return SaveManualReview; }
      if main.None? { return SaveMissing; }
      var current := DecodeStore(main.value);
      if current.Invalid? { return SaveBlocked; }
      if expected != current.revision { return StaleRevision; }
      if !ValidRecord(record) { return SaveBlocked; }
      var records := current.records;
      ReadSnapshotIsValid(main.value);
      if RequestKnown(records, record) {
        KnownIsNotFresh(records, record);
        return if record in records then AlreadyConsumed(current.revision) else SaveBlocked;
      }
      if TargetKnown(records, record) {
        MemberIsKnown(records, record);
        KnownIsNotFresh(records, record);
        return SaveBlocked;
      }
      UnknownIsFresh(records, record);
      MemberIsKnown(records, record);
      var content := Serialize(expected + 1, records + [record]);
      if content.None? { return SaveBlocked; }
      temp := content;
      main, temp := temp, None;
      DecodeSerialize(expected + 1, records + [record]);
      var readBack := DecodeStore(main.value);
      if readBack != Healthy(expected + 1, records + [record]) { return SaveBlocked; }
      return Saved(expected + 1);
    }
  }

  lemma {:induction false} KnownIsNotFresh(records: seq<Record>, record: Record)
    ensures RequestKnown(records, record) || TargetKnown(records, record) ==> !Fresh(records, record)
  {
  }

  lemma {:induction false} UnknownIsFresh(records: seq<Record>, record: Record)
    requires !RequestKnown(records, record) && !TargetKnown(records, record)
    ensures Fresh(records, record)
  {
  }

  lemma {:induction false} MemberIsKnown(records: seq<Record>, record: Record)
    ensures record in records ==> RequestKnown(records, record)
  {
  }

  lemma {:induction false} ReadSnapshotIsValid(content: string)
    requires DecodeStore(content).Healthy?
    ensures var l := DecodeStore(content); l.revision >= 0 && ValidSnapshot(l.records)
  {
    hide ReadEnvelope;
  }

  // ---------- The coordinator ----------

  /** `DurableRemoteApprovalCoordinator.coordinate`, with the answer of the observer as an argument. */
  method CoordinateApproval(store: RemoteApprovalReplayStore, evidence: Evidence, approval: Approval, expected: int,
                            action: Option<ActionResult>) returns (r: DurableResult)
    modifies store
    ensures r == CoordinateOf(old(store.Files()), evidence, approval, expected, action)
    ensures r.AppliedDurably? ==> action.Some? && BuildRecord(approval, action.value).Some?
    ensures store.Files() == if r.AppliedDurably?
                             then DiskAfter(old(store.Files()), BuildRecord(approval, action.value).value, expected)
                             else old(store.Files())
  {
    hide Evaluate, BuildRecord, ValidRecord, ValidSnapshot, Identifier, Savable;
    if Evaluate(Some(evidence)) != ApprovalRequired { return RecoveryBlocked; }
    if expected < 0 { return RecoveryBlocked; }
    var loaded := store.Load();
    if !loaded.LoadHealthy? { return RecoveryBlocked; }
    if loaded.revision != expected { return ApprovalConflict; }
    match FindConsumed(loaded.records, approval.requestId) {
      case LookupInvalid | LookupBlocked => return RecoveryBlocked;
      case Consumed => return ReplayBlocked;
      case NotConsumed =>
    }
    if action.None? { return ApprovalUncertain; }
    var observed := action.value;
    if observed.status == Uncertain { return ApprovalUncertain; }
    if observed.status != Succeeded { return ApprovalRejected; }
    var record := BuildRecord(approval, observed);
    if record.None? { return RecoveryBlocked; }
    BuiltRecordNamesItsEvidence(approval, observed);
    var saved := store.SaveRecord(record.value, expected);
    match saved {
      case Saved(_) => return AppliedDurably(observed.evidence.value);
      case StaleRevision => return ApprovalConflict;
      case AlreadyConsumed(_) => return ReplayBlocked;
      case _ => return ApprovalUncertain;
    }
  }

  // ---------- What the results mean ----------

  /** After a save that returned SAVED the store loads with the old records and the new one at the next
      revision, and the same save again, at the new revision, is recognized as already consumed. */
  lemma {:induction false} SavedIsLoaded(d: Disk, record: Record, expected: int)
    requires SaveOf(d, record, expected).Saved?
    ensures var d' := DiskAfter(d, record, expected);
            && LoadOf(d') == LoadHealthy(expected + 1, LoadOf(d).records + [record])
            && d'.temp == d.temp && d'.lock == d.lock
            && SaveOf(d', record, expected + 1) == AlreadyConsumed(expected + 1)
            && SaveOf(d', record, expected) == StaleRevision
  {
    hide ValidRecord, DecodeStore, Serialize;
    var records := LoadOf(d).records + [record];
    DecodeSerialize(expected + 1, records);
    assert records[|records| - 1] == record;
  }

  /** Released evidence is on disk: the store then loads with one new record, which is valid, carries
      the request of the approval and names the target of the evidence. The same approval is refused
      from then on, whatever its observer says. */
  lemma {:induction false} ReleasedEvidenceIsOnDisk(d: Disk, evidence: Evidence, approval: Approval, expected: int,
                                                    action: ActionResult,
                                                     again: Option<ActionResult>)
    requires CoordinateOf(d, evidence, approval, expected, Some(action)).AppliedDurably?
    ensures BuildRecord(approval, action).Some? && LoadOf(d).LoadHealthy?
    ensures var r := CoordinateOf(d, evidence, approval, expected, Some(action)).evidence;
            var record := BuildRecord(approval, action).value;
            var d' := DiskAfter(d, record, expected);
            && LoadOf(d') == LoadHealthy(expected + 1, LoadOf(d).records + [record])
            && EvidenceTarget(r) == Some(TargetOf(record)) && record.requestId == approval.requestId
            && ValidRecord(record)
            && CoordinateOf(d', evidence, approval, expected + 1, again) == ReplayBlocked
  {
    hide Evaluate, BuildRecord, ValidRecord, DecodeStore, Serialize, Identifier, Savable;
    BuiltRecordNamesItsEvidence(approval, action);
    var record := BuildRecord(approval, action).value;
    SavedIsLoaded(d, record, expected);
    ConsumedIsFound(d, record, expected);
  }

  lemma {:induction false} ConsumedIsFound(d: Disk, record: Record, expected: int)
    requires SaveOf(d, record, expected).Saved?
    ensures FindConsumed(LoadOf(d).records + [record], record.requestId) == Consumed
  {
    hide DecodeStore, TargetOf;
    ReadSnapshotIsValid(d.main.value);
    var records := LoadOf(d).records;
    AppendKeepsSnapshot(records, record);
    assert (records + [record])[|records|].requestId == record.requestId;
  }

  // ---------- The protocol, run by one process alone ----------

  /** `n` steps of `p` with no other process at work and no fault. */
  function Solo(s: System, p: nat, n: nat): System
    decreases n
  {
    if n == 0 || p !in s.procs then s else Solo(Next(s, p, Proceed), p, n - 1)
  }

  lemma {:induction false} SoloUnlocks(s: System, p: nat, job: Job, result: SaveResult, n: nat)
    requires p in s.procs && s.procs[p] == SaveUnlock(job, result) && n >= 1
    ensures var t := Solo(s, p, n);
            p in t.procs && t.procs[p] == Finished(SaveOutcome(job, result)) && t.disk == s.disk.(lock := false)
  {
    hide SaveOutcome;
    SoloStays(Next(s, p, Proceed), p, n - 1);
  }

  lemma {:induction false} SoloStays(s: System, p: nat, n: nat)
    requires p in s.procs && (s.procs[p].Finished? || s.procs[p].Observing?)
    ensures Solo(s, p, n) == s
  {
    hide SaveOutcome;
    if n > 0 { SoloStays(s, p, n - 1); }
  }

  /** From the decision to write: create, write, replace, check, unlock. */
  lemma {:induction false} SoloWrites(s: System, p: nat, job: Job, base: seq<Record>, n: nat)
    requires p in s.procs && s.procs[p] == SaveCreate(job, base) && s.disk.temp.None? && n >= 5
    requires Serialize(job.expected + 1, base + [job.record]).Some?
    ensures var t := Solo(s, p, n);
            && p in t.procs && t.procs[p] == Finished(SaveOutcome(job, Saved(job.expected + 1)))
            && t.disk == Disk(Serialize(job.expected + 1, base + [job.record]), None, false)
  {
    hide Serialize, DecodeStore, SaveOutcome, Answer, ValidRecord, Judge;
    DecodeSerialize(job.expected + 1, base + [job.record]);
    var created := Next(s, p, Proceed);
    assert created.procs[p] == SaveWrite(job, base);
    var written := Next(created, p, Proceed);
    assert written.procs[p] == SaveReplace(job, base);
    var replaced := Next(written, p, Proceed);
    assert replaced.procs[p] == SaveCheck(job, base);
    var checked := Next(replaced, p, Proceed);
    assert checked.procs[p] == SaveUnlock(job, Saved(job.expected + 1));
    SoloUnlocks(checked, p, job, Saved(job.expected + 1), n - 4);
    assert Solo(written, p, n - 2) == Solo(replaced, p, n - 3) == Solo(checked, p, n - 4);
    assert Solo(s, p, n) == Solo(created, p, n - 1) == Solo(written, p, n - 2);
  }

  /** What a save decides after reading the main file. */
  lemma {:induction false} JudgeDecides(d: Disk, job: Job)
    requires !d.lock && d.temp.None? && d.main.Some?
    ensures var pc, result := Judge(job, d.main.value), SaveOf(d, job.record, job.expected);
            if Savable(d, job.record, job.expected) then pc == SaveCreate(job, LoadOf(d).records)
            else pc == SaveUnlock(job, result)
  {
    hide Serialize, DecodeStore, ValidRecord, TargetOf, ValidSnapshot;
    if DecodeStore(d.main.value).Healthy? {
      var records := DecodeStore(d.main.value).records;
      KnownIsNotFresh(records, job.record);
      MemberIsKnown(records, job.record);
      if !RequestKnown(records, job.record) && !TargetKnown(records, job.record) {
        UnknownIsFresh(records, job.record);
      }
    }
  }

  /** `p` ends a save of `job` with the answer and the files of `SaveOf` on the unlocked disk `d`. */
  predicate SoloAnswers(s: System, p: nat, n: nat, d: Disk, job: Job) {
    var t := Solo(s, p, n);
    && p in t.procs && t.procs[p] == Finished(SaveOutcome(job, SaveOf(d, job.record, job.expected)))
    && t.disk == DiskAfter(d, job.record, job.expected)
  }

  lemma {:induction false} SoloReads(s: System, p: nat, d: Disk, job: Job)
    requires p in s.procs && s.procs[p] == SaveRead(job) && s.disk == d.(lock := true) && !d.lock && d.temp.None?
             && d.main.Some?
    ensures SoloAnswers(s, p, 6, d, job)
  {
    hide Serialize, DecodeStore, ValidRecord, SaveOutcome, Judge, Solo, Answer, Fresh;
    SoloNext(s, p, 6);
    JudgeDecides(d, job);
    var judged := Next(s, p, Proceed);
    if Savable(d, job.record, job.expected) {
      SoloWrites(judged, p, job, LoadOf(d).records, 5);
    } else {
      SoloUnlocks(judged, p, job, SaveOf(d, job.record, job.expected), 5);
    }
  }

  lemma {:induction false} SoloLooks(s: System, p: nat, d: Disk, job: Job)
    requires p in s.procs && s.procs[p] == SaveTemp(job) && s.disk == d.(lock := true) && !d.lock
    ensures SoloAnswers(s, p, 8, d, job)
  {
    hide Serialize, DecodeStore, ValidRecord, SaveOutcome, Judge, Solo, Answer, Fresh;
    SoloNext(s, p, 8);
    var free := Next(s, p, Proceed);
    if d.temp.Some? {
      SoloUnlocks(free, p, job, SaveManualReview, 7);
    } else {
      SoloNext(free, p, 7);
      var found := Next(free, p, Proceed);
      if d.main.None? { SoloUnlocks(found, p, job, SaveMissing, 6); } else { SoloReads(found, p, d, job); }
    }
  }

  /** Alone, a save of the protocol ends with exactly the answer and the files of `SaveOf`. */
  lemma {:induction false} SoloSaveAnswers(s: System, p: nat, job: Job)
    requires p in s.procs && s.procs[p] == SaveLock(job)
    ensures SoloAnswers(s, p, 9, s.disk, job)
  {
    hide Serialize, DecodeStore, ValidRecord, SaveOutcome, Judge, Solo, Answer, Fresh;
    SoloNext(s, p, 9);
    var locked := Next(s, p, Proceed);
    if s.disk.lock { SoloStays(locked, p, 8); } else { SoloLooks(locked, p, s.disk, job); }
  }

  lemma {:induction false} SoloNext(s: System, p: nat, n: nat)
    requires p in s.procs && n > 0
    ensures Solo(s, p, n) == Solo(Next(s, p, Proceed), p, n - 1)
  {
    hide Next;
  }

  lemma {:induction false} GotoTwice(s: System, p: nat, first: Pc, second: Pc)
    ensures Goto(Goto(s, p, first), p, second) == Goto(s, p, second)
  {
  }

  lemma {:induction false} AfterLoadRests(task: Task, load: LoadResult)
    ensures var pc := AfterLoad(task, load); pc.Finished? || pc.Observing?
  {
    hide FindConsumed;
  }

  /** A load that has come to its result stays there until something else is decided. */
  lemma {:induction false} LoadRests(s: System, p: nat, task: Task, load: LoadResult, n: nat)
    ensures var t := Goto(s, p, AfterLoad(task, load)); Solo(t, p, n) == t
  {
    hide AfterLoad, Solo;
    AfterLoadRests(task, load);
    SoloStays(Goto(s, p, AfterLoad(task, load)), p, n);
  }

  lemma {:induction false} SoloLoadReads(s: System, p: nat, task: Task, n: nat)
    requires p in s.procs && s.procs[p] == LoadRead(task) && n >= 1
    requires !s.disk.lock && s.disk.temp.None? && s.disk.main.Some?
    ensures Solo(s, p, n) == Goto(s, p, AfterLoad(task, LoadOf(s.disk)))
  {
    hide DecodeStore, AfterLoad, Solo;
    SoloNext(s, p, n);
    LoadRests(s, p, task, LoadOf(s.disk), n - 1);
  }

  lemma {:induction false} SoloLoadFinds(s: System, p: nat, task: Task, n: nat)
    requires p in s.procs && s.procs[p] == LoadMain(task) && n >= 2 && !s.disk.lock && s.disk.temp.None?
    ensures Solo(s, p, n) == Goto(s, p, AfterLoad(task, LoadOf(s.disk)))
  {
    hide DecodeStore, AfterLoad, Solo;
    SoloNext(s, p, n);
    if s.disk.main.None? {
      LoadRests(s, p, task, LoadMissing, n - 1);
    } else {
      SoloLoadReads(Goto(s, p, LoadRead(task)), p, task, n - 1);
      GotoTwice(s, p, LoadRead(task), AfterLoad(task, LoadOf(s.disk)));
    }
  }

  lemma {:induction false} SoloLoadLooks(s: System, p: nat, task: Task, n: nat)
    requires p in s.procs && s.procs[p] == LoadTemp(task) && n >= 3 && !s.disk.lock
    ensures Solo(s, p, n) == Goto(s, p, AfterLoad(task, LoadOf(s.disk)))
  {
    hide DecodeStore, AfterLoad, Solo;
    SoloNext(s, p, n);
    if s.disk.temp.Some? {
      LoadRests(s, p, task, LoadManualReview, n - 1);
    } else {
      SoloLoadFinds(Goto(s, p, LoadMain(task)), p, task, n - 1);
      GotoTwice(s, p, LoadMain(task), AfterLoad(task, LoadOf(s.disk)));
    }
  }

  /** Alone, a load of the protocol comes to what `LoadOf` says of the files and leaves them as they are. */
  lemma {:induction false} SoloLoads(s: System, p: nat, task: Task)
    requires p in s.procs && s.procs[p] == LoadLock(task)
    ensures Solo(s, p, 4) == Goto(s, p, AfterLoad(task, LoadOf(s.disk)))
  {
    hide DecodeStore, AfterLoad, Solo;
    SoloNext(s, p, 4);
    if s.disk.lock {
      LoadRests(s, p, task, LoadLocked, 3);
    } else {
      SoloLoadLooks(Goto(s, p, LoadTemp(task)), p, task, 3);
      GotoTwice(s, p, LoadTemp(task), AfterLoad(task, LoadOf(s.disk)));
    }
  }

  /** A whole coordination by one process: begin, load, hear the observer, save. */
  function SoloApprove(s: System, p: nat, task: Task, action: Option<ActionResult>): System
    requires p in s.procs
  {
    var loaded := Solo(Next(s, p, Begin(task)), p, 4);
    if p in loaded.procs then Solo(Next(loaded, p, Observed(action)), p, 9) else loaded
  }

  /** Alone, a coordination of the protocol ends with exactly the answer of `CoordinateOf`, and it changes the
      store exactly when it releases evidence. */
  lemma {:induction false} SoloApproveAnswers(s: System, p: nat, evidence: Evidence, approval: Approval, expected: int,
                                              action: Option<ActionResult>)
    requires p in s.procs && (s.procs[p].Idle? || s.procs[p].Finished?)
    ensures var task := Approve(evidence, approval, expected);
            var t, r := SoloApprove(s, p, task, action), CoordinateOf(s.disk, evidence, approval, expected, action);
            && p in t.procs && t.procs[p] == Finished(Durable(task, r))
            && (r.AppliedDurably? ==> action.Some? && BuildRecord(approval, action.value).Some?)
            && t.disk == if r.AppliedDurably?
                         then DiskAfter(s.disk, BuildRecord(approval, action.value).value, expected) else s.disk
  {
    hide Evaluate, BuildRecord, Solo, FindConsumed, Savable, Serialize, DecodeStore, LoadOf, SaveOf, DiskAfter,
         AfterLoad, AfterObserver;
    var task := Approve(evidence, approval, expected);
    var begun := Next(s, p, Begin(task));
    if Evaluate(Some(evidence)) != ApprovalRequired || expected < 0 {
      SoloStays(begun, p, 4);
      SoloStays(begun, p, 9);
    } else {
      SoloLoads(begun, p, task);
      AfterLoadOfApproval(evidence, approval, expected, LoadOf(s.disk));
      var loaded := Goto(begun, p, AfterLoad(task, LoadOf(s.disk)));
      if AfterLoad(task, LoadOf(s.disk)).Finished? {
        SoloStays(loaded, p, 9);
      } else {
        SoloObserves(loaded, p, evidence, approval, expected, action);
        if AfterObserver(task, action).SaveLock? { CoordinationSaves(s.disk, evidence, approval, expected, action); }
      }
    }
  }

  lemma {:induction false} CoordinationSaves(d: Disk, evidence: Evidence, approval: Approval, expected: int,
                                             action: Option<ActionResult>)
    requires var task := Approve(evidence, approval, expected);
             && Evaluate(Some(evidence)) == ApprovalRequired && expected >= 0 && AfterLoad(task, LoadOf(d)).Observing?
             && AfterObserver(task, action).SaveLock? && AfterObserver(task, action).job.release.Some?
             && AfterObserver(task, action).job.release.value.task == task
    ensures var task, r := Approve(evidence, approval, expected), CoordinateOf(d, evidence, approval, expected, action);
            var job := AfterObserver(task, action).job;
            && SaveOutcome(job, SaveOf(d, job.record, expected)) == Durable(task, r)
            && (r.AppliedDurably? <==> SaveOf(d, job.record, expected).Saved?)
            && (!r.AppliedDurably? ==> DiskAfter(d, job.record, expected) == d)
  {
    hide Evaluate, BuildRecord, Serialize, DecodeStore, AfterLoad, AfterObserver, ValidRecord, Fresh;
  }

  lemma {:induction false} AfterLoadOfApproval(evidence: Evidence, approval: Approval, expected: int, load: LoadResult)
    ensures var task := Approve(evidence, approval, expected);
            var pc := AfterLoad(task, load);
            pc == Observing(task) || (pc.Finished? && pc.outcome.Durable? && pc.outcome.task == task
                                      && !pc.outcome.result.AppliedDurably?)
  {
    hide FindConsumed;
  }

  /** The second half of a coordination: the observer's answer and the save. */
  lemma {:induction false} SoloObserves(s: System, p: nat, evidence: Evidence, approval: Approval, expected: int,
                                        action: Option<ActionResult>)
    requires var task := Approve(evidence, approval, expected); p in s.procs && s.procs[p] == Observing(task)
    ensures var task := Approve(evidence, approval, expected);
            var t, observed := Solo(Next(s, p, Observed(action)), p, 9), AfterObserver(task, action);
            && p in t.procs && (observed.SaveLock? || observed.Finished?)
            && (observed.Finished? ==> t.procs[p] == observed && t.disk == s.disk && observed.outcome.Durable?
                                       && observed.outcome.task == task && !observed.outcome.result.AppliedDurably?)
            && (observed.SaveLock? ==>
                  && observed.job.release.Some? && observed.job.release.value.task == task
                  && observed.job.expected == expected
                  && action.Some? && BuildRecord(approval, action.value) == Some(observed.job.record)
                  && t.procs[p] == Finished(SaveOutcome(observed.job, SaveOf(s.disk, observed.job.record, expected)))
                  && t.disk == DiskAfter(s.disk, observed.job.record, expected))
  {
    hide BuildRecord, Solo, SaveOf, DiskAfter, SaveOutcome;
    var after := Next(s, p, Observed(action));
    if after.procs[p].Finished? { SoloStays(after, p, 9); } else { SoloSaveAnswers(after, p, after.procs[p].job); }
  }

  lemma {:induction false} SoloInitChecks(s: System, p: nat)
    requires p in s.procs && s.procs[p] == InitCheck && s.disk.main == Some(INITIAL)
    ensures Solo(s, p, 1) == Goto(s, p, Finished(Initialized(true)))
  {
    hide INITIAL, DecodeStore, Serialize, Solo, Judge, AfterLoad, Answer;
    InitialFits();
    SoloNext(s, p, 1);
    SoloStays(Next(s, p, Proceed), p, 0);
  }

  lemma {:induction false} SoloInitWrites(s: System, p: nat)
    requires p in s.procs && s.procs[p] == InitWrite
    ensures var t := Solo(s, p, 2);
            p in t.procs && t.procs[p] == Finished(Initialized(true)) && t.disk == s.disk.(main := Some(INITIAL))
  {
    hide INITIAL, DecodeStore, Serialize, Solo, Judge, AfterLoad, Answer;
    SoloNext(s, p, 2);
    SoloInitChecks(Next(s, p, Proceed), p);
  }

  lemma {:induction false} SoloInitCreates(s: System, p: nat)
    requires p in s.procs && s.procs[p] == InitCreate && s.disk.main.None?
    ensures var t := Solo(s, p, 3);
            p in t.procs && t.procs[p] == Finished(Initialized(true)) && t.disk == s.disk.(main := Some(INITIAL))
  {
    hide INITIAL, DecodeStore, Serialize, Solo, Judge, AfterLoad, Answer;
    SoloNext(s, p, 3);
    SoloInitWrites(Next(s, p, Proceed), p);
  }

  /** Alone, an initialization of the protocol creates the empty store exactly where there is no main file. */
  lemma {:induction false} SoloInitializes(s: System, p: nat)
    requires p in s.procs && s.procs[p] == InitExists
    ensures var t := Solo(s, p, 4);
            && p in t.procs && t.procs[p] == Finished(Initialized(s.disk.main.None?))
            && t.disk == if s.disk.main.None? then s.disk.(main := Some(INITIAL)) else s.disk
  {
    hide INITIAL, DecodeStore, Serialize, Solo, Judge, AfterLoad, Answer;
    SoloNext(s, p, 4);
    var looked := Next(s, p, Proceed);
    if s.disk.main.Some? { SoloStays(looked, p, 3); } else { SoloInitCreates(looked, p); }
  }
}
