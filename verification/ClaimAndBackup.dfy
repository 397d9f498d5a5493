/** The exclusive native-run claim of scripts/collector_preflight.py and the locked backup of
    scripts/backup-data-lab-db.py as one protocol: any number of processes take atomic steps on one database
    whose writer lock (BEGIN IMMEDIATE) one of them may hold. A step may fail and a process may crash anywhere. */
module ClaimAndBackup {
  import opened Text

  /** What runs collect: the items one by one, and the snapshots as a version of their content. */
  datatype Data = Data(items: seq<nat>, snapshots: nat)

  /** The committed database: native runs with whether they are running, and what was collected. */
  datatype Db = Db(runs: map<nat, bool>, data: Data)

  /** A temporary backup file, which is filled piece by piece. */
  datatype Copy = Copy(runs: Option<map<nat, bool>>, data: Option<Data>)

  datatype Pc =
    | Idle
    | ClaimBegin(run: nat) | ClaimCount(run: nat) | ClaimInsert(run: nat) | ClaimCommit(run: nat)
    | Collecting(run: nat)
    | EndBegin(run: nat, data: Data) | EndCommit(run: nat, data: Data)
    | OtherBegin(data: Data) | OtherCommit(data: Data)
    | BackupBegin | BackupCount | BackupValidate
    | BackupRuns(source: Db, copy: Copy) | BackupData(source: Db, copy: Copy) | BackupUnlock(source: Db, copy: Copy)
    | BackupCompare(source: Db, copy: Copy)
    | Finished
    | Crashed

  /** `commits` is every committed state in order, and `backups` every backup that got its final name. */
  datatype System = System(db: Db, writer: Option<nat>, procs: map<nat, Pc>, commits: seq<Db>, backups: seq<Db>)

  datatype Task = Claim(run: nat) | OtherWrite(data: Data) | Backup

  /** What the environment decides about a step; `EndRun` ends a collection with the data it brought, or as failed. */
  datatype Choice = Proceed | Fail | Crash | Begin(task: Task) | EndRun(data: Data)

  predicate NoneRunning(db: Db) { forall r :: r in db.runs ==> !db.runs[r] }

  predicate OneRunning(db: Db) { forall r, q :: r in db.runs && q in db.runs && db.runs[r] && db.runs[q] ==> r == q }

  /** The states in which a process has the writer lock. */
  predicate Writes(pc: Pc) {
    pc.ClaimCount? || pc.ClaimInsert? || pc.ClaimCommit? || pc.EndCommit? || pc.OtherCommit? || pc.BackupCount?
    || pc.BackupValidate?
    || pc.BackupRuns? || pc.BackupData? || pc.BackupUnlock?
  }

  /** `states_match`: the runs and the snapshots agree by their digests, the items only by their number. */
  predicate StatesMatch(source: Db, copy: Copy) {
    && copy.runs == Some(source.runs) && copy.data.Some?
    && copy.data.value.snapshots == source.data.snapshots && |copy.data.value.items| == |source.data.items|
  }

  function Goto(s: System, p: nat, pc: Pc): System { s.(procs := s.procs[p := pc]) }

  /** Letting go of the lock, if held, without a commit. */
  function Release(s: System, p: nat): System { if s.writer == Some(p) then s.(writer := None) else s }

  function Commit(s: System, p: nat, db: Db, pc: Pc): System {
    Goto(s.(db := db, writer := None, commits := s.commits + [db]), p, pc)
  }

  function Lock(s: System, p: nat, pc: Pc): System {
    if s.writer.Some? then Goto(s, p, Finished) else Goto(s.(writer := Some(p)), p, pc)
  }

  function Proceeds(s: System, p: nat, pc: Pc): System {
    match pc
    case ClaimBegin(run) => Lock(s, p, ClaimCount(run))
    case ClaimCount(run) => if NoneRunning(s.db) then Goto(s, p, ClaimInsert(run)) else Goto(Release(s, p), p, Finished)
    case ClaimInsert(run) => if run in s.db.runs then Goto(Release(s, p), p, Finished) else Goto(s, p, ClaimCommit(run))
    case ClaimCommit(run) => Commit(s, p, s.db.(runs := s.db.runs[run := true]), Collecting(run))
    case EndBegin(run, data) => Lock(s, p, EndCommit(run, data))
    case EndCommit(run, data) => Commit(s, p, Db(s.db.runs[run := false], data), Finished)
    case OtherBegin(data) => Lock(s, p, OtherCommit(data))
    case OtherCommit(data) => Commit(s, p, s.db.(data := data), Finished)
    case BackupBegin => Lock(s, p, BackupCount)
    case BackupCount => if NoneRunning(s.db) then Goto(s, p, BackupValidate) else Goto(Release(s, p), p, Finished)
    case BackupValidate => Goto(s, p, BackupRuns(s.db, Copy(None, None)))
    case BackupRuns(source, copy) => Goto(s, p, BackupData(source, copy.(runs := Some(s.db.runs))))
    case BackupData(source, copy) => Goto(s, p, BackupUnlock(source, copy.(data := Some(s.db.data))))
    case BackupUnlock(source, copy) => Goto(Release(s, p), p, BackupCompare(source, copy))
    case BackupCompare(source, copy) =>
      if StatesMatch(source, copy) then
        Goto(s.(backups := s.backups + [Db(copy.runs.value, copy.data.value)]), p, Finished)
      else Goto(s, p, Finished)
    case _ => s
  }

  function Begins(task: Task): Pc {
    match task
    case Claim(run) => ClaimBegin(run)
    case OtherWrite(data) => OtherBegin(data)
    case Backup => BackupBegin
  }

  /** A step of a process. A transaction that fails or whose process crashes is rolled back; a run whose process
      crashes stays running in the database. */
  function Next(s: System, p: nat, c: Choice): System
    requires p in s.procs
  {
    var pc := s.procs[p];
    match c
    case Proceed => Proceeds(s, p, pc)
    case Fail => if pc.Collecting? || pc.Idle? || pc.Crashed? then s else Goto(Release(s, p), p, Finished)
    case Crash => Goto(Release(s, p), p, Crashed)
    case Begin(task) =>
      if !pc.Idle? && !pc.Finished? then s
      else Goto(s, p, Begins(task))
    case EndRun(data) => if pc.Collecting? then Goto(s, p, EndBegin(pc.run, data)) else s
  }

  // ---------- What every step keeps ----------

  predicate Copied(db: Db, source: Db, copy: Copy, runs: bool, data: bool) {
    source == db && NoneRunning(db) && (runs ==> copy.runs == Some(db.runs)) && (data ==> copy.data == Some(db.data))
  }

  /** What a process that holds the lock knows. */
  predicate WriterOk(db: Db, pc: Pc) {
    match pc
    case ClaimInsert(_) => NoneRunning(db)
    case ClaimCommit(_) => NoneRunning(db)
    case BackupValidate => NoneRunning(db)
    case BackupRuns(source, copy) => Copied(db, source, copy, false, false)
    case BackupData(source, copy) => Copied(db, source, copy, true, false)
    case BackupUnlock(source, copy) => Copied(db, source, copy, true, true)
    case _ => true
  }

  /** A state that was committed and in which no native run was running. */
  predicate Quiescent(commits: seq<Db>, db: Db) { db in commits && NoneRunning(db) }

  predicate PcOk(s: System, p: nat, pc: Pc) {
    && (Writes(pc) ==> s.writer == Some(p) && WriterOk(s.db, pc))
    && (pc.BackupCompare? ==>
          Quiescent(s.commits, pc.source) && pc.copy == Copy(Some(pc.source.runs), Some(pc.source.data)))
  }

  predicate Inv(s: System) {
    && OneRunning(s.db) && s.commits != [] && s.commits[|s.commits| - 1] == s.db
    && (forall p :: p in s.procs ==> PcOk(s, p, s.procs[p]))
    && (forall i :: 0 <= i < |s.commits| ==> OneRunning(s.commits[i]))
    && (forall i :: 0 <= i < |s.backups| ==> Quiescent(s.commits, s.backups[i]))
  }

  /** A step that only moves `p` and may take or give back the lock. */
  lemma {:induction false} MoveKeeps(s: System, p: nat, writer: Option<nat>, pc: Pc)
    requires Inv(s) && p in s.procs && PcOk(s.(writer := writer), p, pc)
    requires writer == s.writer || (writer == None && s.writer == Some(p)) || (writer == Some(p) && s.writer == None)
    ensures Inv(Goto(s.(writer := writer), p, pc))
  {
    hide WriterOk, OneRunning, Quiescent, Writes;
  }

  lemma {:induction false} FinishedOk(s: System, p: nat, pc: Pc)
    requires !Writes(pc) && !pc.BackupCompare?
    ensures PcOk(s, p, pc)
  {
  }

  /** A commit by the holder of the lock. */
  lemma {:induction false} CommitKeeps(s: System, p: nat, db: Db, pc: Pc)
    requires Inv(s) && p in s.procs && s.writer == Some(p) && OneRunning(db) && !Writes(pc) && !pc.BackupCompare?
    ensures Inv(Commit(s, p, db, pc))
  {
    hide WriterOk, OneRunning, Writes, NoneRunning;
    var t := Commit(s, p, db, pc);
    forall d | Quiescent(s.commits, d) ensures Quiescent(t.commits, d) { }
    forall q | q in t.procs ensures PcOk(t, q, t.procs[q]) {
      if q != p { assert PcOk(s, q, s.procs[q]); }
    }
  }

  lemma {:induction false} ReleaseKeeps(s: System, p: nat, pc: Pc)
    requires Inv(s) && p in s.procs && !Writes(pc) && !pc.BackupCompare?
    ensures Inv(Goto(Release(s, p), p, pc))
  {
    hide Inv, Writes;
    var writer := Release(s, p).writer;
    assert Release(s, p) == s.(writer := writer);
    FinishedOk(s.(writer := writer), p, pc);
    MoveKeeps(s, p, writer, pc);
  }

  lemma {:induction false} LockKeeps(s: System, p: nat, pc: Pc)
    requires Inv(s) && p in s.procs && Writes(pc) && WriterOk(s.db, pc)
    ensures Inv(Lock(s, p, pc))
  {
    hide Inv, WriterOk;
    if s.writer.Some? {
      FinishedOk(s, p, Finished);
      MoveKeeps(s, p, s.writer, Finished);
    } else {
      MoveKeeps(s, p, Some(p), pc);
    }
  }

  lemma {:induction false} PcOf(s: System, p: nat)
    requires Inv(s) && p in s.procs
    ensures PcOk(s, p, s.procs[p]) && OneRunning(s.db) && Quiescent(s.commits, s.db) == NoneRunning(s.db)
  {
    hide OneRunning, WriterOk;
    assert s.commits[|s.commits| - 1] in s.commits;
  }

  lemma {:induction false} RunsOf(db: Db, run: nat)
    requires OneRunning(db)
    ensures NoneRunning(db) ==> OneRunning(db.(runs := db.runs[run := true]))
    ensures OneRunning(db.(runs := db.runs[run := false]))
  {
  }

  lemma {:induction false} RunningIsAboutRuns(db: Db, db': Db)
    requires db'.runs == db.runs
    ensures OneRunning(db') == OneRunning(db)
  {
  }

  lemma {:induction false} ClaimKeeps(s: System, p: nat)
    requires Inv(s) && p in s.procs && (s.procs[p].ClaimBegin? || s.procs[p].ClaimCount? || s.procs[p].ClaimInsert?
                                        || s.procs[p].ClaimCommit?)
    ensures Inv(Next(s, p, Proceed))
  {
    hide Inv, NoneRunning, OneRunning;
    PcOf(s, p);
    ReleaseKeeps(s, p, Finished);
    match s.procs[p]
    case ClaimBegin(run) => LockKeeps(s, p, ClaimCount(run));
    case ClaimCount(run) => if NoneRunning(s.db) { MoveKeeps(s, p, s.writer, ClaimInsert(run)); }
    case ClaimInsert(run) => if run !in s.db.runs { MoveKeeps(s, p, s.writer, ClaimCommit(run)); }
    case ClaimCommit(run) =>
      RunsOf(s.db, run);
      CommitKeeps(s, p, s.db.(runs := s.db.runs[run := true]), Collecting(run));
  }

  lemma {:induction false} WriteKeeps(s: System, p: nat)
    requires Inv(s) && p in s.procs && (s.procs[p].EndBegin? || s.procs[p].EndCommit? || s.procs[p].OtherBegin?
                                        || s.procs[p].OtherCommit?)
    ensures Inv(Next(s, p, Proceed))
  {
    hide Inv, NoneRunning, OneRunning;
    PcOf(s, p);
    match s.procs[p]
    case EndBegin(run, data) => LockKeeps(s, p, EndCommit(run, data));
    case EndCommit(run, data) =>
      RunsOf(s.db, run);
      RunningIsAboutRuns(s.db.(runs := s.db.runs[run := false]), Db(s.db.runs[run := false], data));
      CommitKeeps(s, p, Db(s.db.runs[run := false], data), Finished);
    case OtherBegin(data) => LockKeeps(s, p, OtherCommit(data));
    case OtherCommit(data) =>
      RunningIsAboutRuns(s.db, s.db.(data := data));
      CommitKeeps(s, p, s.db.(data := data), Finished);
  }

  lemma {:induction false} FinishKeeps(s: System, p: nat, source: Db)
    requires Inv(s) && p in s.procs && Quiescent(s.commits, source)
    ensures Inv(Goto(s.(backups := s.backups + [source]), p, Finished))
  {
    hide WriterOk, OneRunning, NoneRunning, Quiescent;
    var t := Goto(s.(backups := s.backups + [source]), p, Finished);
    forall q | q in t.procs ensures PcOk(t, q, t.procs[q]) {
      if q != p { assert PcOk(s, q, s.procs[q]); }
    }
  }

  lemma {:induction false} BackupKeeps(s: System, p: nat)
    requires Inv(s) && p in s.procs
    requires var pc := s.procs[p];
             pc.BackupBegin? || pc.BackupCount? || pc.BackupValidate? || pc.BackupRuns? || pc.BackupData?
             || pc.BackupUnlock? || pc.BackupCompare?
    ensures Inv(Next(s, p, Proceed))
  {
    hide Inv, NoneRunning, OneRunning, Quiescent;
    PcOf(s, p);
    ReleaseKeeps(s, p, Finished);
    match s.procs[p]
    case BackupBegin => LockKeeps(s, p, BackupCount);
    case BackupCount => if NoneRunning(s.db) { MoveKeeps(s, p, s.writer, BackupValidate); }
    case BackupValidate => MoveKeeps(s, p, s.writer, BackupRuns(s.db, Copy(None, None)));
    case BackupRuns(source, copy) => MoveKeeps(s, p, s.writer, BackupData(source, copy.(runs := Some(s.db.runs))));
    case BackupData(source, copy) => MoveKeeps(s, p, s.writer, BackupUnlock(source, copy.(data := Some(s.db.data))));
    case BackupUnlock(source, copy) => MoveKeeps(s, p, None, BackupCompare(source, copy));
    case BackupCompare(source, copy) =>
      if StatesMatch(source, copy) { FinishKeeps(s, p, source); }
      else { FinishedOk(s, p, Finished); MoveKeeps(s, p, s.writer, Finished); }
  }

  lemma {:induction false} NextKeeps(s: System, p: nat, c: Choice)
    requires Inv(s) && p in s.procs
    ensures Inv(Next(s, p, c))
  {
    hide Inv, Proceeds, Writes;
    var pc := s.procs[p];
    match c
    case Proceed =>
      if pc.ClaimBegin? || pc.ClaimCount? || pc.ClaimInsert? || pc.ClaimCommit? { ClaimKeeps(s, p); }
      else if pc.EndBegin? || pc.EndCommit? || pc.OtherBegin? || pc.OtherCommit? { WriteKeeps(s, p); }
      else if pc.Idle? || pc.Collecting? || pc.Finished? || pc.Crashed? { NothingProceeds(s, p); }
      else { BackupKeeps(s, p); }
    case Fail => ReleaseKeeps(s, p, Finished) by { NotWriting(); }
    case Crash => ReleaseKeeps(s, p, Crashed) by { NotWriting(); }
    case Begin(task) =>
      var begun := Begins(task);
      FinishedOk(s, p, begun) by { NotWriting(); }
      MoveKeeps(s, p, s.writer, begun);
    case EndRun(data) =>
      if pc.Collecting? {
        FinishedOk(s, p, EndBegin(pc.run, data)) by { NotWriting(); }
        MoveKeeps(s, p, s.writer, EndBegin(pc.run, data));
      }
  }

  lemma {:induction false} NothingProceeds(s: System, p: nat)
    requires p in s.procs && (s.procs[p].Idle? || s.procs[p].Collecting? || s.procs[p].Finished? || s.procs[p].Crashed?)
    ensures Next(s, p, Proceed) == s
  {
  }

  lemma {:induction false} NotWriting()
    ensures !Writes(Finished) && !Writes(Crashed) && !Writes(BackupBegin)
    ensures forall run :: !Writes(ClaimBegin(run))
    ensures forall data :: !Writes(OtherBegin(data))
    ensures forall run, data :: !Writes(EndBegin(run, data))
  {
  }

  // ---------- Whole runs ----------

  function Act(s: System, step: (nat, Choice)): System { if step.0 in s.procs then Next(s, step.0, step.1) else s }

  function Execute(s: System, steps: seq<(nat, Choice)>): System
    decreases |steps|
  {
    if steps == [] then s else Act(Execute(s, steps[..|steps| - 1]), steps[|steps| - 1])
  }

  /** Idle processes beside a database in which at most one native run was left running. */
  predicate Boot(s: System) {
    && OneRunning(s.db) && s.commits == [s.db] && s.writer.None? && s.backups == []
    && forall p :: p in s.procs ==> s.procs[p] == Idle
  }

  lemma {:induction false} BootOk(s: System)
    requires Boot(s)
    ensures Inv(s)
  {
  }

  lemma {:induction false} RunKeeps(s: System, steps: seq<(nat, Choice)>)
    requires Boot(s)
    ensures Inv(Execute(s, steps))
    decreases |steps|
  {
    hide Inv, Next;
    if steps == [] {
      BootOk(s);
    } else {
      var prefix := steps[..|steps| - 1];
      RunKeeps(s, prefix);
      var (p, c) := steps[|steps| - 1];
      if p in Execute(s, prefix).procs { NextKeeps(Execute(s, prefix), p, c); }
    }
  }

  /** Over every interleaving, with failures and crashes anywhere, at most one native run is running in every
      state that was ever committed. */
  lemma {:induction false} AtMostOneRunIsRunning(s: System, steps: seq<(nat, Choice)>, i: nat)
    requires Boot(s) && i < |Execute(s, steps).commits|
    ensures OneRunning(Execute(s, steps).db) && OneRunning(Execute(s, steps).commits[i])
  {
    hide PcOk, Boot, OneRunning, Quiescent;
    RunKeeps(s, steps);
  }

  /** The comparison of the code does not by itself make a backup a copy: a file with another item matches as well. */
  lemma {:induction false} MatchingCopiesDiffer(source: Db, item: nat)
    requires |source.data.items| > 0 && item != source.data.items[0]
    ensures var data := source.data.(items := source.data.items[0 := item]);
            StatesMatch(source, Copy(Some(source.runs), Some(data))) && Db(source.runs, data) != source
  {
    assert source.data.items[0 := item][0] == item;
  }

  /** Every finished backup is a copy of one committed state, in which no native run was running. It is the lock
      that makes it one, whatever the comparison afterwards can tell apart. */
  lemma {:induction false} BackupsAreQuiescent(s: System, steps: seq<(nat, Choice)>, i: nat)
    requires Boot(s) && i < |Execute(s, steps).backups|
    ensures var t := Execute(s, steps); t.backups[i] in t.commits && NoneRunning(t.backups[i])
  {
    hide PcOk, Boot, OneRunning;
    RunKeeps(s, steps);
  }

  /** A claim goes through exactly when, at its commit, nothing else is running; its run is then the one that is. */
  lemma {:induction false} ClaimCommitsAlone(s: System, p: nat)
    requires Inv(s) && p in s.procs && s.procs[p].ClaimCommit?
    ensures NoneRunning(s.db)
    ensures var t := Next(s, p, Proceed); var run := s.procs[p].run;
            && run in t.db.runs && t.db.runs[run] && (forall r :: r in t.db.runs && t.db.runs[r] ==> r == run)
            && t.procs[p] == Collecting(run) && t.db.data == s.db.data
  {
    assert PcOk(s, p, s.procs[p]);
  }

  /** `n` steps of one process with no other at work. */
  function Alone(s: System, p: nat, n: nat): System
    decreases n
  {
    if n == 0 then s else Act(Alone(s, p, n - 1), (p, Proceed))
  }

  lemma {:induction false} AloneIsExecute(s: System, p: nat, n: nat)
    ensures Alone(s, p, n) == Execute(s, seq(n, _ => (p, Proceed)))
  {
    hide Act;
    if n > 0 {
      AloneIsExecute(s, p, n - 1);
      assert seq(n, _ => (p, Proceed))[..n - 1] == seq(n - 1, _ => (p, Proceed));
    }
  }

  lemma {:induction false} BackupReads(s: System, p: nat)
    requires p in s.procs && s.procs[p] == BackupBegin && s.writer.None? && NoneRunning(s.db)
    ensures Alone(s, p, 3) == Goto(s.(writer := Some(p)), p, BackupRuns(s.db, Copy(None, None)))
  {
    hide NoneRunning, Alone;
    AloneStep(s, p, 0);
    AloneStep(s, p, 1);
    AloneStep(s, p, 2);
    assert Alone(s, p, 0) == s by { AloneNone(s, p); }
    assert Alone(s, p, 1) == Goto(s.(writer := Some(p)), p, BackupCount);
    assert Alone(s, p, 2) == Goto(s.(writer := Some(p)), p, BackupValidate);
  }

  lemma {:induction false} BackupWrites(s: System, p: nat)
    requires p in s.procs && s.writer.None?
             && Alone(s, p, 3) == Goto(s.(writer := Some(p)), p, BackupRuns(s.db, Copy(None, None)))
    ensures Alone(s, p, 6) == Goto(s, p, BackupCompare(s.db, Copy(Some(s.db.runs), Some(s.db.data))))
  {
    hide NoneRunning, Alone;
    AloneStep(s, p, 3);
    AloneStep(s, p, 4);
    AloneStep(s, p, 5);
    assert Alone(s, p, 4) == Goto(s.(writer := Some(p)), p, BackupData(s.db, Copy(Some(s.db.runs), None)));
    assert Alone(s, p, 5) == Goto(s.(writer := Some(p)), p, BackupUnlock(s.db, Copy(Some(s.db.runs), Some(s.db.data))));
  }

  /** Undisturbed, a backup of a quiet database ends with a copy of it under its final name. */
  lemma {:induction false} UndisturbedBackupCopies(s: System, p: nat)
    requires p in s.procs && s.procs[p] == BackupBegin && s.writer.None? && NoneRunning(s.db)
    ensures var t := Execute(s, seq(7, _ => (p, Proceed)));
            t.backups == s.backups + [s.db] && t.db == s.db && t.writer.None? && p in t.procs && t.procs[p] == Finished
  {
    hide NoneRunning, Execute, Alone;
    AloneIsExecute(s, p, 7);
    BackupReads(s, p);
    BackupWrites(s, p);
    AloneStep(s, p, 6);
  }

  lemma {:induction false} AloneStep(s: System, p: nat, n: nat)
    ensures Alone(s, p, n + 1) == Act(Alone(s, p, n), (p, Proceed))
  {
    hide Act;
  }

  lemma {:induction false} AloneNone(s: System, p: nat)
    ensures Alone(s, p, 0) == s
  {
  }

  /** Undisturbed, a claim of a fresh run on a quiet database makes it the running one. */
  lemma {:induction false} UndisturbedClaimRuns(s: System, p: nat, run: nat)
    requires p in s.procs && s.procs[p] == ClaimBegin(run) && s.writer.None? && NoneRunning(s.db) && run !in s.db.runs
    ensures var t := Execute(s, seq(4, _ => (p, Proceed)));
            t.db == s.db.(runs := s.db.runs[run := true]) && t.writer.None? && p in t.procs
            && t.procs[p] == Collecting(run)
  {
    hide NoneRunning, Execute, Alone;
    AloneIsExecute(s, p, 4);
    AloneStep(s, p, 0);
    AloneStep(s, p, 1);
    AloneStep(s, p, 2);
    AloneStep(s, p, 3);
    assert Alone(s, p, 0) == s by { AloneNone(s, p); }
    assert Alone(s, p, 1) == Goto(s.(writer := Some(p)), p, ClaimCount(run));
    assert Alone(s, p, 2) == Goto(s.(writer := Some(p)), p, ClaimInsert(run));
    assert Alone(s, p, 3) == Goto(s.(writer := Some(p)), p, ClaimCommit(run));
  }
}
