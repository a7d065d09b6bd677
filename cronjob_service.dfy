/** The agent's cron-job service: the object whose methods run a job and
    change the repositories, the storage accounts and the disk one step at a
    time. Every method is proved to leave the state its specification in
    `CronjobHelper` or `CronjobBackup` describes; `HandleJob` ties a whole
    run to its run record. */
module Service {
  import opened GoStd
  import opened Entities
  import opened Retention
  import opened CronjobHelper
  import opened CronjobBackup

  // ---------------------------------------------------------------------------
  // HandleJob, as a function of the state before the run

  /** What the job bodies outside the backup code (the shell and curl
      commands, the NTP sync, the log cut, the system clean) report: their
      error text, the message they collected, the file list of a log cut,
      the path `mkdirAndWriteFile` writes a message to, and whether
      OpenResty is installed (a log cut without it returns at once, with
      no error, no message, no file and no sweep). */
  datatype External = External(err: Option<string>, message: string, file: string, messagePath: string, openresty: bool)

  /** The run record `StartRecords` opens. */
  function Opened(w: World, job: Cronjob, startTime: string): JobRecord
  {
    JobRecord(w.nextRunId, job.id, startTime, Executing, "", "", "")
  }

  function Started(w: World, job: Cronjob, startTime: string): World
  {
    w.(runs := w.runs + [Opened(w, job, startTime)], nextRunId := w.nextRunId + 1)
  }

  /** `UpdateRecords(id, records)`: the rows with that id get the new log
      path; nothing else changes. */
  function SetRecords(runs: seq<JobRecord>, id: nat, path: string): (rs: seq<JobRecord>)
    ensures |rs| == |runs|
    ensures forall i :: 0 <= i < |rs| ==> rs[i].id == runs[i].id
    ensures forall i :: 0 <= i < |rs| && runs[i].id != id ==> rs[i] == runs[i]
    ensures forall i :: 0 <= i < |rs| && runs[i].id == id ==> rs[i].records == path
  {
    seq(|runs|, i requires 0 <= i < |runs| => if runs[i].id == id then runs[i].(records := path) else runs[i])
  }

  /** `EndRecords(record, ...)`: the row with the record's id takes the
      record's final status, message, log path and file list. A row the
      log sweep already deleted stays deleted. */
  function EndRun(runs: seq<JobRecord>, r: JobRecord): (rs: seq<JobRecord>)
    ensures |rs| == |runs|
    ensures forall i :: 0 <= i < |rs| ==> rs[i].id == runs[i].id
    ensures forall i :: 0 <= i < |rs| && runs[i].id != r.id ==> rs[i] == runs[i]
  {
    seq(|runs|, i requires 0 <= i < |runs| =>
      if runs[i].id == r.id then runs[i].(status := r.status, message := r.message, records := r.records, file := r.file)
      else runs[i])
  }

  /** A row whose id matches is exactly the ended record, and it is there
      exactly when a row with that id was. */
  lemma EndRunRow(runs: seq<JobRecord>, r: JobRecord)
    requires forall x :: x in runs && x.id == r.id ==> x.cronjobId == r.cronjobId && x.startTime == r.startTime
    ensures forall x :: x in EndRun(runs, r) && x.id == r.id ==> x == r
    ensures r in EndRun(runs, r) <==> exists x :: x in runs && x.id == r.id
  {
    var rs := EndRun(runs, r);
    forall x | x in rs && x.id == r.id ensures x == r {
      var i :| 0 <= i < |rs| && rs[i] == x;
      assert runs[i] in runs;
    }
    if exists x :: x in runs && x.id == r.id {
      var x :| x in runs && x.id == r.id;
      var i :| 0 <= i < |runs| && runs[i] == x;
      assert rs[i] == r;
    }
    if r in rs {
      var i :| 0 <= i < |rs| && rs[i] == r;
      assert runs[i] in runs;
    }
  }

  /** `generateLogsPath` creates the job's log directory when it is
      missing; a failure is ignored. */
  function WithLogsDir(w: World, env: Env, dataDir: string, job: Cronjob): World
  {
    var dir := LogsDir(dataDir, job);
    if dir !in w.dirs && env.mkdirOk(dir) then w.(dirs := w.dirs + {dir}) else w
  }

  /** The state after a job body, the record as the body left it, the
      error and the message. */
  datatype Body = Body(w: World, record: JobRecord, err: Option<string>, message: string)

  function ErrText(err: Option<Error>): (t: Option<string>)
    ensures t.Some? <==> err.Some?
    ensures err.Some? ==> t.value == Message(err.value)
  {
    match err
    case None => None
    case Some(e) => Some(Message(e))
  }

  /** Job types whose body returns before the run record is ended. */
  predicate LeftOpen(job: Cronjob)
  {
    (job.jobType == "shell" && |job.script| == 0) ||
    (job.jobType == "curl" && |job.url| == 0) ||
    (job.jobType == "directory" && |job.sourceDir| == 0)
  }

  /** The body of a run, by job type. Shell and curl runs log to their own
      file, and they, NTP syncs, cleans and log cuts (when OpenResty is
      installed) sweep the run records;
      the backup types run their handler; any other type does nothing. */
  function RunBody(w: World, env: Env, repos: Repos, job: Cronjob, record: JobRecord, dataDir: string,
                   token: string, tokens: nat -> string, ext: External): Body
    requires env.clients.Ok? ==> Covers(env.clients.value, AccountIds(job))
  {
    match job.jobType
    case "shell" | "curl" =>
      var path := LogsPath(dataDir, job, record.startTime);
      var w1 := WithLogsDir(w, env, dataDir, job);
      Body(LogSweepSpec(w1.(runs := SetRecords(w1.runs, record.id, path)), job), record.(records := path), ext.err, "")
    case "ntp" => Body(LogSweepSpec(w, job), record, ext.err, "")
    case "cutWebsiteLog" =>
      if ext.openresty then Body(LogSweepSpec(w, job), record.(file := ext.file), ext.err, ext.message)
      else Body(w, record.(file := ""), None, "")
    case "clean" => Body(LogSweepSpec(w, job), record, ext.err, ext.message)
    case "website" =>
      var o := HandleWebsiteSpec(w, env, repos, job, tokens);
      Body(o.w, record, ErrText(o.err), "")
    case "app" =>
      var o := HandleAppSpec(w, env, repos, job, tokens);
      Body(o.w, record, ErrText(o.err), "")
    case "database" =>
      var o := HandleDatabaseSpec(w, env, repos, job, tokens);
      Body(o.w, record, ErrText(o.err), "")
    case "directory" =>
      var o := HandleDirectorySpec(w, env, job, token);
      Body(o.w, record, ErrText(o.err), "")
    case "log" =>
      var o := HandleSystemLogSpec(w, env, repos, job, token);
      Body(o.w, record, ErrText(o.err), "")
    case "snapshot" =>
      var o := HandleSnapshotSpec(w.(runs := SetRecords(w.runs, record.id, record.records)), env, repos, job, token);
      Body(o.w, record, ErrText(o.err), "")
    case _ => Body(w, record, None, "")
  }

  /** The record a finished body is ended with: failed with the error's
      text, or successful with no message; a collected message replaces the
      log path with the file it was written to. */
  function Ended(b: Body, ext: External): (r: JobRecord)
    ensures r.id == b.record.id && r.cronjobId == b.record.cronjobId && r.startTime == b.record.startTime
    ensures r.status == (if b.err.Some? then Failed else Success)
    ensures b.err.Some? ==> r.message == b.err.value
    ensures b.err.None? ==> r.message == ""
    ensures r.records == (if |b.message| != 0 then ext.messagePath else b.record.records)
  {
    var records := if |b.message| != 0 then ext.messagePath else b.record.records;
    if b.err.Some? then b.record.(status := Failed, message := b.err.value, records := records)
    else b.record.(status := Success, message := "", records := records)
  }

  /** `HandleJob`: open the run record, run the body, end the record. */
  function HandleJobSpec(w: World, env: Env, repos: Repos, job: Cronjob, startTime: string, dataDir: string,
                         token: string, tokens: nat -> string, ext: External): World
    requires env.clients.Ok? ==> Covers(env.clients.value, AccountIds(job))
  {
    var w1 := Started(w, job, startTime);
    if LeftOpen(job) then w1
    else
      var b := RunBody(w1, env, repos, job, Opened(w, job, startTime), dataDir, token, tokens, ext);
      b.w.(runs := EndRun(b.w.runs, Ended(b, ext)))
  }

  // ---------------------------------------------------------------------------
  // Properties of HandleJob

  /** Two rows record the same run. */
  predicate SameRun(x: JobRecord, y: JobRecord)
  {
    x.id == y.id && x.cronjobId == y.cronjobId && x.startTime == y.startTime
  }

  /** Every row of `after` records a run some row of `before` did. */
  predicate RowsFrom(after: seq<JobRecord>, before: seq<JobRecord>)
  {
    forall x :: x in after ==> exists y :: y in before && SameRun(x, y)
  }

  /** Every id of `before` is still in `after`. */
  predicate KeepsIds(before: seq<JobRecord>, after: seq<JobRecord>)
  {
    forall y :: y in before ==> exists x :: x in after && x.id == y.id
  }

  lemma SubsetRowsFrom(after: seq<JobRecord>, before: seq<JobRecord>)
    requires forall x :: x in after ==> x in before
    ensures RowsFrom(after, before)
  {
    forall x | x in after ensures exists y :: y in before && SameRun(x, y) {
      assert SameRun(x, x);
    }
  }

  lemma RowsFromSubset(c: seq<JobRecord>, a: seq<JobRecord>, b: seq<JobRecord>)
    requires forall x :: x in c ==> x in a
    requires RowsFrom(a, b)
    ensures RowsFrom(c, b)
  {
  }

  lemma SetRecordsRows(runs: seq<JobRecord>, id: nat, path: string)
    ensures RowsFrom(SetRecords(runs, id, path), runs)
    ensures KeepsIds(runs, SetRecords(runs, id, path))
  {
    var rs := SetRecords(runs, id, path);
    forall x | x in rs ensures exists y :: y in runs && SameRun(x, y) {
      var i :| 0 <= i < |rs| && rs[i] == x;
      assert runs[i] in runs;
    }
    forall y | y in runs ensures exists x :: x in rs && x.id == y.id {
      var i :| 0 <= i < |runs| && runs[i] == y;
      assert rs[i] in rs;
    }
  }

  /** Shell and curl bodies set the log path of the run's rows and sweep;
      the other logging bodies only sweep, or leave the rows alone. */
  lemma LoggedBodyRows(w: World, env: Env, repos: Repos, job: Cronjob, record: JobRecord, dataDir: string,
                       token: string, tokens: nat -> string, ext: External)
    requires env.clients.Ok? ==> Covers(env.clients.value, AccountIds(job))
    requires job.jobType in {"shell", "curl", "ntp", "cutWebsiteLog", "clean"}
    ensures var b := RunBody(w, env, repos, job, record, dataDir, token, tokens, ext);
      SameRun(b.record, record) && RowsFrom(b.w.runs, w.runs) && b.w.nextRunId == w.nextRunId
  {
    if job.jobType == "shell" || job.jobType == "curl" {
      ShellBodyRows(w, env, repos, job, record, dataDir, token, tokens, ext);
    } else {
      SweepingBodyRows(w, env, repos, job, record, dataDir, token, tokens, ext);
    }
  }

  lemma ShellBodyRows(w: World, env: Env, repos: Repos, job: Cronjob, record: JobRecord, dataDir: string,
                      token: string, tokens: nat -> string, ext: External)
    requires env.clients.Ok? ==> Covers(env.clients.value, AccountIds(job))
    requires job.jobType == "shell" || job.jobType == "curl"
    ensures var b := RunBody(w, env, repos, job, record, dataDir, token, tokens, ext);
      SameRun(b.record, record) && RowsFrom(b.w.runs, w.runs) && b.w.nextRunId == w.nextRunId
  {
    var w1 := WithLogsDir(w, env, dataDir, job);
    var path := LogsPath(dataDir, job, record.startTime);
    var rs := SetRecords(w1.runs, record.id, path);
    var w3 := LogSweepSpec(w1.(runs := rs), job);
    assert w1.runs == w.runs && w1.nextRunId == w.nextRunId;
    SetRecordsRows(w.runs, record.id, path);
    RowsFromSubset(w3.runs, rs, w.runs);
    assert RunBody(w, env, repos, job, record, dataDir, token, tokens, ext) == Body(w3, record.(records := path), ext.err, "");
  }

  lemma SweepingBodyRows(w: World, env: Env, repos: Repos, job: Cronjob, record: JobRecord, dataDir: string,
                         token: string, tokens: nat -> string, ext: External)
    requires env.clients.Ok? ==> Covers(env.clients.value, AccountIds(job))
    requires job.jobType in {"ntp", "cutWebsiteLog", "clean"}
    ensures var b := RunBody(w, env, repos, job, record, dataDir, token, tokens, ext);
      SameRun(b.record, record) && RowsFrom(b.w.runs, w.runs) && b.w.nextRunId == w.nextRunId
  {
    var b := RunBody(w, env, repos, job, record, dataDir, token, tokens, ext);
    if job.jobType == "cutWebsiteLog" && !ext.openresty {
      assert b.w == w;
      SubsetRowsFrom(w.runs, w.runs);
    } else {
      assert b.w == LogSweepSpec(w, job);
      SubsetRowsFrom(b.w.runs, w.runs);
    }
  }

  /** A backup body leaves the run table as it was, except that a snapshot
      body sets the run's log path first. */
  lemma BackupBodyRows(w: World, env: Env, repos: Repos, job: Cronjob, record: JobRecord, dataDir: string,
                       token: string, tokens: nat -> string, ext: External)
    requires env.clients.Ok? ==> Covers(env.clients.value, AccountIds(job))
    requires HasBackup(job.jobType)
    ensures var b := RunBody(w, env, repos, job, record, dataDir, token, tokens, ext);
      b.record == record && b.w.nextRunId == w.nextRunId &&
      b.w.runs == if job.jobType == "snapshot" then SetRecords(w.runs, record.id, record.records) else w.runs
  {
  }

  /** The body never touches the run record's identity; every row it
      leaves records a run that was there before; a backup body removes no
      row. */
  lemma BodyKeepsRecord(w: World, env: Env, repos: Repos, job: Cronjob, record: JobRecord, dataDir: string,
                        token: string, tokens: nat -> string, ext: External)
    requires env.clients.Ok? ==> Covers(env.clients.value, AccountIds(job))
    ensures var b := RunBody(w, env, repos, job, record, dataDir, token, tokens, ext);
      SameRun(b.record, record) && RowsFrom(b.w.runs, w.runs) && b.w.nextRunId == w.nextRunId &&
      (HasBackup(job.jobType) ==> KeepsIds(w.runs, b.w.runs))
  {
    if job.jobType in {"shell", "curl", "ntp", "cutWebsiteLog", "clean"} {
      LoggedBodyRows(w, env, repos, job, record, dataDir, token, tokens, ext);
    } else if HasBackup(job.jobType) {
      BackupBodyKeepsIds(w, env, repos, job, record, dataDir, token, tokens, ext);
    } else {
      assert RunBody(w, env, repos, job, record, dataDir, token, tokens, ext) == Body(w, record, None, "");
      SubsetRowsFrom(w.runs, w.runs);
    }
  }

  lemma BackupBodyKeepsIds(w: World, env: Env, repos: Repos, job: Cronjob, record: JobRecord, dataDir: string,
                           token: string, tokens: nat -> string, ext: External)
    requires env.clients.Ok? ==> Covers(env.clients.value, AccountIds(job))
    requires HasBackup(job.jobType)
    ensures var b := RunBody(w, env, repos, job, record, dataDir, token, tokens, ext);
      SameRun(b.record, record) && RowsFrom(b.w.runs, w.runs) && b.w.nextRunId == w.nextRunId &&
      KeepsIds(w.runs, b.w.runs)
  {
    var b := RunBody(w, env, repos, job, record, dataDir, token, tokens, ext);
    BackupBodyRows(w, env, repos, job, record, dataDir, token, tokens, ext);
    KeptRows(w.runs, b.w.runs, record.id, record.records, job.jobType == "snapshot");
    assert SameRun(record, record);
  }

  /** A table left as it was, or with one run's log path set, keeps every
      row's run and every id. */
  lemma KeptRows(before: seq<JobRecord>, after: seq<JobRecord>, id: nat, path: string, setsPath: bool)
    requires after == if setsPath then SetRecords(before, id, path) else before
    ensures RowsFrom(after, before) && KeepsIds(before, after)
  {
    if setsPath {
      SetRecordsRows(before, id, path);
    } else {
      SubsetRowsFrom(after, before);
      forall y | y in before ensures exists x :: x in after && x.id == y.id {
        assert y in after;
      }
    }
  }

  /** While a run goes on, every row with its id is its own row: the ids
      of the rows before the run are all smaller. */
  lemma OpenedRowIsOwn(w: World, job: Cronjob, startTime: string, after: seq<JobRecord>)
    requires WorldValid(w)
    requires RowsFrom(after, Started(w, job, startTime).runs)
    ensures forall x :: x in after && x.id == w.nextRunId ==> x.cronjobId == job.id && x.startTime == startTime
  {
    var rec := Opened(w, job, startTime);
    forall x | x in after && x.id == w.nextRunId ensures x.cronjobId == job.id && x.startTime == startTime {
      var y :| y in w.runs + [rec] && SameRun(x, y);
      assert y !in w.runs;
    }
  }

  /** The lifecycle of a run record: `HandleJob` opens exactly one record,
      Executing, with the next id. A shell or curl job without a command
      and a directory job without a source leave it open and change
      nothing else. Every other run ends it: Failed with the error's text
      when the body failed, Success with no message otherwise. */
  lemma HandleJobLifecycle(w: World, env: Env, repos: Repos, job: Cronjob, startTime: string, dataDir: string,
                           token: string, tokens: nat -> string, ext: External)
    requires env.clients.Ok? ==> Covers(env.clients.value, AccountIds(job))
    requires WorldValid(w)
    ensures var w' := HandleJobSpec(w, env, repos, job, startTime, dataDir, token, tokens, ext);
      w'.nextRunId == w.nextRunId + 1 &&
      (LeftOpen(job) ==> w' == Started(w, job, startTime)) &&
      (!LeftOpen(job) ==>
        var b := RunBody(Started(w, job, startTime), env, repos, job, Opened(w, job, startTime), dataDir, token, tokens, ext);
        forall x :: x in w'.runs && x.id == w.nextRunId ==>
          x.cronjobId == job.id && x.startTime == startTime &&
          x.status == (if b.err.Some? then Failed else Success) &&
          (b.err.Some? ==> x.message == b.err.value))
  {
    var w1 := Started(w, job, startTime);
    var rec := Opened(w, job, startTime);
    if !LeftOpen(job) {
      var b := RunBody(w1, env, repos, job, rec, dataDir, token, tokens, ext);
      BodyKeepsRecord(w1, env, repos, job, rec, dataDir, token, tokens, ext);
      OpenedRowIsOwn(w, job, startTime, b.w.runs);
      EndRunRow(b.w.runs, Ended(b, ext));
    }
  }

  /** A backup run's record is never swept while the run goes on, so it is
      always there to be ended. */
  lemma BackupRunIsEnded(w: World, env: Env, repos: Repos, job: Cronjob, startTime: string, dataDir: string,
                         token: string, tokens: nat -> string, ext: External)
    requires env.clients.Ok? ==> Covers(env.clients.value, AccountIds(job))
    requires WorldValid(w)
    requires HasBackup(job.jobType) && !LeftOpen(job)
    ensures var b := RunBody(Started(w, job, startTime), env, repos, job, Opened(w, job, startTime), dataDir, token, tokens, ext);
      Ended(b, ext) in HandleJobSpec(w, env, repos, job, startTime, dataDir, token, tokens, ext).runs
  {
    var w1 := Started(w, job, startTime);
    var rec := Opened(w, job, startTime);
    var b := RunBody(w1, env, repos, job, rec, dataDir, token, tokens, ext);
    BackupBodyRows(w1, env, repos, job, rec, dataDir, token, tokens, ext);
    var last := |w1.runs| - 1;
    assert w1.runs[last] == rec;
    assert b.w.runs[last].id == rec.id by {
      if job.jobType == "snapshot" {
        assert b.w.runs == SetRecords(w1.runs, rec.id, rec.records);
      }
    }
    assert b.w.runs[last] in b.w.runs;
    BodyKeepsRecord(w1, env, repos, job, rec, dataDir, token, tokens, ext);
    EndedRowPresent(w, job, startTime, b, ext);
  }

  /** The ended record is in the table after `EndRecords` exactly when a
      row of the run was still there. */
  lemma EndedRowPresent(w: World, job: Cronjob, startTime: string, b: Body, ext: External)
    requires WorldValid(w)
    requires b.record == Opened(w, job, startTime)
    requires RowsFrom(b.w.runs, Started(w, job, startTime).runs)
    ensures Ended(b, ext) in EndRun(b.w.runs, Ended(b, ext)) <==> exists x :: x in b.w.runs && x.id == w.nextRunId
  {
    OpenedRowIsOwn(w, job, startTime, b.w.runs);
    EndRunRow(b.w.runs, Ended(b, ext));
  }

  /** A run record's id is fresh: no row of the table before the run has
      it. */
  lemma OpenedIsFresh(w: World, job: Cronjob, startTime: string)
    requires WorldValid(w)
    ensures forall x :: x in w.runs ==> x.id != Opened(w, job, startTime).id
    ensures WorldValid(Started(w, job, startTime))
  {
    AppendIncreasing(w.runs, Opened(w, job, startTime), RunId);
  }

  /** A body of a type without backups changes at most the run table, the
      removed files and the directories. */
  lemma NonBackupBodyKeepsBackups(w: World, env: Env, repos: Repos, job: Cronjob, record: JobRecord, dataDir: string,
                                  token: string, tokens: nat -> string, ext: External)
    requires env.clients.Ok? ==> Covers(env.clients.value, AccountIds(job))
    requires !HasBackup(job.jobType)
    ensures var b := RunBody(w, env, repos, job, record, dataDir, token, tokens, ext);
      b.w == w.(runs := b.w.runs, removed := b.w.removed, dirs := b.w.dirs)
  {
    if job.jobType == "shell" || job.jobType == "curl" {
      var w1 := WithLogsDir(w, env, dataDir, job);
      var w2 := w1.(runs := SetRecords(w1.runs, record.id, LogsPath(dataDir, job, record.startTime)));
      assert w2 == w.(runs := w2.runs, dirs := w2.dirs);
      var w3 := LogSweepSpec(w2, job);
      assert w3 == w2.(runs := w3.runs, removed := w3.removed);
    } else if job.jobType in {"ntp", "clean"} || (job.jobType == "cutWebsiteLog" && ext.openresty) {
      var w3 := LogSweepSpec(w, job);
      assert w3 == w.(runs := w3.runs, removed := w3.removed);
    }
  }

  /** `hasBackup` names exactly the job types whose runs can touch the
      backup ledger, the storage accounts or the snapshot table. */
  lemma OnlyBackupJobsTouchBackups(w: World, env: Env, repos: Repos, job: Cronjob, startTime: string, dataDir: string,
                                   token: string, tokens: nat -> string, ext: External)
    requires env.clients.Ok? ==> Covers(env.clients.value, AccountIds(job))
    requires !HasBackup(job.jobType)
    ensures var w' := HandleJobSpec(w, env, repos, job, startTime, dataDir, token, tokens, ext);
      w'.ledger == w.ledger && w'.nextId == w.nextId && w'.calls == w.calls &&
      w'.snapshots == w.snapshots && w'.local == w.local && w'.produced == w.produced
  {
    var w1 := Started(w, job, startTime);
    if !LeftOpen(job) {
      NonBackupBodyKeepsBackups(w1, env, repos, job, Opened(w, job, startTime), dataDir, token, tokens, ext);
    }
  }

  /** A log cut on a host without OpenResty sweeps nothing: every row of
      the table stays as it was and the run's own record is ended Success,
      with no message, log or file. */
  lemma CutWithoutOpenrestyKeepsRuns(w: World, env: Env, repos: Repos, job: Cronjob, startTime: string, dataDir: string,
                                     token: string, tokens: nat -> string, ext: External)
    requires env.clients.Ok? ==> Covers(env.clients.value, AccountIds(job))
    requires WorldValid(w)
    requires job.jobType == "cutWebsiteLog" && !ext.openresty
    ensures HandleJobSpec(w, env, repos, job, startTime, dataDir, token, tokens, ext) ==
      Started(w, job, startTime).(runs := w.runs + [Opened(w, job, startTime).(status := Success)])
  {
    var rec := Opened(w, job, startTime);
    OpenedIsFresh(w, job, startTime);
    var rs := EndRun(w.runs + [rec], rec.(status := Success));
    assert rs == w.runs + [rec.(status := Success)] by {
      forall i | 0 <= i < |w.runs| ensures rs[i] == w.runs[i] {
        assert w.runs[i] in w.runs;
      }
    }
  }

  /** The log sweep keeps the newest run of the job exactly when
      `RetainCopies` is at least 1: a shell, curl, NTP, cut or clean job
      with `RetainCopies` 0 deletes the record of the very run that is
      sweeping, before that run is ended. */
  lemma NewestRunSurvivesLogSweep(w: World, job: Cronjob)
    requires IdsIncreasing(w.runs, RunId)
    requires |w.runs| > 0 && w.runs[|w.runs| - 1].cronjobId == job.id
    ensures w.runs[|w.runs| - 1] in LogSweepSpec(w, job).runs <==> job.retainCopies >= 1
  {
    var last := w.runs[|w.runs| - 1];
    assert OfJob(last, job.id);
    assert w.runs == w.runs[..|w.runs| - 1] + [last];
    var f := Filter(w.runs, job.id, OfJob);
    assert f == Filter(w.runs[..|w.runs| - 1], job.id, OfJob) + [last];
    var list := Reverse(f);
    assert list[0] == last;
    PruneKeepsNewest(w.runs, job.id, OfJob, RunId, job.retainCopies);
    var after := LogSweepSpec(w, job).runs;
    FilterMembers(after, job.id, OfJob);
    ReverseMembers(Filter(after, job.id, OfJob));
    if job.retainCopies >= 1 {
      assert Newest(after, job.id, OfJob)[0] == last;
    } else {
      assert |Newest(after, job.id, OfJob)| == 0;
    }
  }

  /** A shell or curl run with a command logs to its own file below the
      job's log directory; its record, when kept, says so, and with
      `RetainCopies` 0 it is gone before it could be ended. */
  lemma ShellRunRecordsItsLog(w: World, env: Env, repos: Repos, job: Cronjob, startTime: string, dataDir: string,
                              token: string, tokens: nat -> string, ext: External)
    requires env.clients.Ok? ==> Covers(env.clients.value, AccountIds(job))
    requires WorldValid(w)
    requires (job.jobType == "shell" && |job.script| != 0) || (job.jobType == "curl" && |job.url| != 0)
    ensures var w' := HandleJobSpec(w, env, repos, job, startTime, dataDir, token, tokens, ext);
      (exists x :: x in w'.runs && x.id == w.nextRunId) <==> job.retainCopies >= 1
    ensures var w' := HandleJobSpec(w, env, repos, job, startTime, dataDir, token, tokens, ext);
      forall x :: x in w'.runs && x.id == w.nextRunId ==> x.records == LogsPath(dataDir, job, startTime)
  {
    var w1 := Started(w, job, startTime);
    var rec := Opened(w, job, startTime);
    OpenedIsFresh(w, job, startTime);
    var path := LogsPath(dataDir, job, startTime);
    var w2 := WithLogsDir(w1, env, dataDir, job);
    var rs := SetRecords(w2.runs, rec.id, path);
    var w3 := w2.(runs := rs);
    assert IdsIncreasing(rs, RunId);
    assert rs[|rs| - 1] == rec.(records := path);
    NewestRunSurvivesLogSweep(w3, job);
    var b := RunBody(w1, env, repos, job, rec, dataDir, token, tokens, ext);
    assert b.w == LogSweepSpec(w3, job);
    var e := Ended(b, ext);
    assert e.records == path;
    forall x | x in b.w.runs && x.id == e.id ensures x == rec.(records := path) {
      assert x in rs && rs[|rs| - 1] in rs;
      IdsUnique(rs, RunId, x, rs[|rs| - 1]);
    }
    EndRunRow(b.w.runs, e);
  }

  /** Every run keeps the tables' id invariant. */
  lemma HandleJobKeepsValid(w: World, env: Env, repos: Repos, job: Cronjob, startTime: string, dataDir: string,
                            token: string, tokens: nat -> string, ext: External)
    requires env.clients.Ok? ==> Covers(env.clients.value, AccountIds(job))
    requires WorldValid(w)
    ensures WorldValid(HandleJobSpec(w, env, repos, job, startTime, dataDir, token, tokens, ext))
  {
    var w1 := Started(w, job, startTime);
    var rec := Opened(w, job, startTime);
    OpenedIsFresh(w, job, startTime);
    if !LeftOpen(job) {
      var b := RunBody(w1, env, repos, job, rec, dataDir, token, tokens, ext);
      BodyValid(w1, env, repos, job, rec, dataDir, token, tokens, ext);
      var rs := EndRun(b.w.runs, Ended(b, ext));
      forall x | x in rs ensures x.id < b.w.nextRunId {
        var i :| 0 <= i < |rs| && rs[i] == x;
        assert b.w.runs[i] in b.w.runs;
      }
    }
  }

  lemma BodyValid(w: World, env: Env, repos: Repos, job: Cronjob, record: JobRecord, dataDir: string,
                  token: string, tokens: nat -> string, ext: External)
    requires env.clients.Ok? ==> Covers(env.clients.value, AccountIds(job))
    requires WorldValid(w)
    ensures WorldValid(RunBody(w, env, repos, job, record, dataDir, token, tokens, ext).w)
  {
    match job.jobType
    case "shell" | "curl" =>
      var w1 := WithLogsDir(w, env, dataDir, job);
      var w2 := w1.(runs := SetRecords(w1.runs, record.id, LogsPath(dataDir, job, record.startTime)));
      assert WorldValid(w2) by { SetRecordsValid(w1, record.id, LogsPath(dataDir, job, record.startTime)); }
      LogSweepValid(w2, job);
    case "ntp" => LogSweepValid(w, job);
    case "cutWebsiteLog" => if ext.openresty { LogSweepValid(w, job); }
    case "clean" => LogSweepValid(w, job);
    case "website" => SelectingHandlersKeepValid(w, env, repos, job, tokens);
    case "app" => SelectingHandlersKeepValid(w, env, repos, job, tokens);
    case "database" => SelectingHandlersKeepValid(w, env, repos, job, tokens);
    case "directory" => SingleHandlersKeepValid(w, env, repos, job, token);
    case "log" => SingleHandlersKeepValid(w, env, repos, job, token);
    case "snapshot" =>
      SetRecordsValid(w, record.id, record.records);
      SingleHandlersKeepValid(w.(runs := SetRecords(w.runs, record.id, record.records)), env, repos, job, token);
    case _ =>
  }

  lemma SetRecordsValid(w: World, id: nat, path: string)
    requires WorldValid(w)
    ensures WorldValid(w.(runs := SetRecords(w.runs, id, path)))
  {
    var rs := SetRecords(w.runs, id, path);
    forall x | x in rs ensures x.id < w.nextRunId {
      var i :| 0 <= i < |rs| && rs[i] == x;
      assert w.runs[i] in w.runs;
    }
  }

  lemma LogSweepValid(w: World, job: Cronjob)
    requires WorldValid(w)
    ensures WorldValid(LogSweepSpec(w, job))
  {
    DropIdsIncreasing(w.runs, RunId, IdSet(LogSweepExpired(w, job), RunId));
  }

  // ---------------------------------------------------------------------------
  // The service

  class CronjobService {
    var ledger: seq<BackupRecord>
    var nextId: nat
    var calls: seq<Call>
    var local: set<string>
    var produced: seq<Artifact>
    var snapshots: seq<string>
    var runs: seq<JobRecord>
    var nextRunId: nat
    var removed: seq<string>
    var dirs: set<string>
    var copied: seq<(string, string)>

    /** The state the service acts on. */
    function State(): World
      reads this
    {
      World(ledger, nextId, calls, local, produced, snapshots, runs, nextRunId, removed, dirs, copied)
    }

    constructor (w: World)
      ensures State() == w
    {
      ledger, nextId, calls, local, produced := w.ledger, w.nextId, w.calls, w.local, w.produced;
      snapshots, runs, nextRunId, removed := w.snapshots, w.runs, w.nextRunId, w.removed;
      dirs, copied := w.dirs, w.copied;
    }

    // -------------------------------------------------------------------------
    // uploadCronjobBackFile

    /** The fan-out of `uploadCronjobBackFile` over the job's accounts, in
        list order, skipping empty ids and stopping at the first failed
        upload, whose position it returns. */
    method UploadToAccounts(env: Env, job: Cronjob, clients: AccountMap, file: string) returns (failed: Option<nat>)
      requires Covers(clients, AccountIds(job))
      modifies this`calls
      ensures var ids := AccountIds(job);
        var key := CloudKey(env.tmpDir, file);
        failed.None? ==>
          calls == old(calls) + UploadPlan(ids, clients, file, key) &&
          forall c :: c in UploadPlan(ids, clients, file, key) ==> env.uploadOk(c)
      ensures var ids := AccountIds(job);
        var key := CloudKey(env.tmpDir, file);
        failed.Some? ==>
          var j := failed.value;
          j < |ids| && ids[j] != "" && Covers(clients, ids[..j]) && ids[j] in clients &&
          (forall c :: c in UploadPlan(ids[..j], clients, file, key) ==> env.uploadOk(c)) &&
          var call := Upload(ids[j], file, PathJoin([clients[ids[j]].backupPath, key]));
          !env.uploadOk(call) && calls == old(calls) + UploadPlan(ids[..j], clients, file, key) + [call]
    {
      var ids := AccountIds(job);
      var key := CloudKey(env.tmpDir, file);
      CoversPrefix(clients, ids, 0);
      for i := 0 to |ids|
        invariant Covers(clients, ids[..i])
        invariant calls == old(calls) + UploadPlan(ids[..i], clients, file, key)
        invariant forall c :: c in UploadPlan(ids[..i], clients, file, key) ==> env.uploadOk(c)
      {
        UploadPlanSnoc(ids, clients, file, key, i);
        if ids[i] != "" {
          var call := Upload(ids[i], file, PathJoin([clients[ids[i]].backupPath, key]));
          calls := calls + [call];
          if !env.uploadOk(call) {
            return Some(i);
          }
        }
      }
      assert ids[..|ids|] == ids;
      return None;
    }

    /** `uploadCronjobBackFile`: one upload per non-empty account, stopping
        at the first failure; the local file is removed on every path. */
    method UploadBackFile(env: Env, job: Cronjob, clients: AccountMap, file: string) returns (r: Result<string, Error>)
      requires Covers(clients, AccountIds(job))
      modifies this`calls, this`local
      ensures (State(), r) == UploadSpec(old(State()), env, job, clients, file)
    {
      ghost var w0 := State();
      var failed := UploadToAccounts(env, job, clients, file);
      local := local - {file};
      if failed.Some? {
        UploadSpecFailsAt(w0, env, job, clients, file, failed.value);
        return Err(UploadFailed(AccountIds(job)[failed.value]));
      }
      UploadSpecSucceeds(w0, env, job, clients, file);
      return Ok(CloudKey(env.tmpDir, file));
    }

    // -------------------------------------------------------------------------
    // removeExpiredBackup

    /** The deletes of one pruned record, one per non-empty account; their
        errors are ignored. */
    method DeleteFromAccounts(job: Cronjob, clients: AccountMap, r: BackupRecord)
      requires Covers(clients, AccountIds(job))
      modifies this`calls
      ensures calls == old(calls) + DeletePlan(AccountIds(job), clients, job, r)
    {
      var ids := AccountIds(job);
      CoversPrefix(clients, ids, 0);
      for j := 0 to |ids|
        invariant Covers(clients, ids[..j])
        invariant calls == old(calls) + DeletePlan(ids[..j], clients, job, r)
      {
        DeletePlanSnoc(ids, clients, job, r, j);
        if ids[j] != "" {
          calls := calls + [Delete(ids[j], DeleteKey(job, clients[ids[j]], r))];
        }
      }
      assert ids[..|ids|] == ids;
    }

    /** One expired backup: its copy in every account, its snapshot row for
        a snapshot job, and its ledger row. */
    method DeleteExpired(job: Cronjob, clients: AccountMap, r: BackupRecord)
      requires Covers(clients, AccountIds(job))
      modifies this`calls, this`snapshots, this`ledger
      ensures calls == old(calls) + DeletePlan(AccountIds(job), clients, job, r)
      ensures snapshots == if job.jobType == "snapshot" then Filter(old(snapshots), {TrimSuffix(r.fileName, ".tar.gz")}, NotNamed) else old(snapshots)
      ensures ledger == DropIds(old(ledger), BackupId, {r.id})
    {
      DeleteFromAccounts(job, clients, r);
      if job.jobType == "snapshot" {
        snapshots := Filter(snapshots, {TrimSuffix(r.fileName, ".tar.gz")}, NotNamed);
      }
      ledger := DropIds(ledger, BackupId, {r.id});
    }

    /** One round of the loop of `removeExpiredBackup`. */
    method SweepOne(job: Cronjob, clients: AccountMap, expired: seq<BackupRecord>, i: nat,
                    ghost calls0: seq<Call>, ghost snapshots0: seq<string>, ghost ledger0: seq<BackupRecord>)
      requires Covers(clients, AccountIds(job)) && i < |expired|
      requires SweptUpTo(job, clients, expired, i, calls0, snapshots0, ledger0, calls, snapshots, ledger)
      modifies this`calls, this`snapshots, this`ledger
      ensures SweptUpTo(job, clients, expired, i + 1, calls0, snapshots0, ledger0, calls, snapshots, ledger)
    {
      SweepAdvance(job, clients, expired, i, calls0, snapshots0, ledger0, calls, snapshots, ledger);
      DeleteExpired(job, clients, expired[i]);
    }

    /** The loop of `removeExpiredBackup` over the rows beyond the newest
        `RetainCopies`. */
    method DeleteAllExpired(job: Cronjob, clients: AccountMap, expired: seq<BackupRecord>)
      requires Covers(clients, AccountIds(job))
      modifies this`calls, this`snapshots, this`ledger
      ensures calls == old(calls) + SweepCalls(expired, AccountIds(job), clients, job)
      ensures snapshots == if job.jobType == "snapshot" then Filter(old(snapshots), SnapshotNames(expired), NotNamed) else old(snapshots)
      ensures ledger == DropIds(old(ledger), BackupId, IdSet(expired, BackupId))
    {
      ghost var calls0, snapshots0, ledger0 := calls, snapshots, ledger;
      SweepStart(ledger, snapshots);
      var i := 0;
      while i < |expired|
        invariant i <= |expired|
        invariant SweptUpTo(job, clients, expired, i, calls0, snapshots0, ledger0, calls, snapshots, ledger)
      {
        SweepOne(job, clients, expired, i, calls0, snapshots0, ledger0);
        i := i + 1;
      }
      assert expired[..i] == expired;
    }

    /** `removeExpiredBackup`. */
    method RemoveExpiredBackup(job: Cronjob, clients: AccountMap, rec: BackupRecord)
      requires Covers(clients, AccountIds(job))
      modifies this`calls, this`snapshots, this`ledger
      ensures State() == SweepSpec(old(State()), job, clients, rec)
    {
      ghost var w0 := State();
      var list := Newest(ledger, SweepScope(job, rec), InScope);
      if |list| <= job.retainCopies {
        SweepWithinRetain(w0, job, clients, rec);
        return;
      }
      DeleteAllExpired(job, clients, list[job.retainCopies..]);
    }

    // -------------------------------------------------------------------------
    // removeExpiredLog

    /** The files and the log of one expired run, then its row. */
    method DeleteExpiredRun(r: JobRecord)
      modifies this`runs, this`removed
      ensures removed == old(removed) + RunFiles(r)
      ensures runs == DropIds(old(runs), RunId, {r.id})
    {
      if |r.file| != 0 {
        var files := Split(r.file, ',');
        for j := 0 to |files|
          invariant removed == old(removed) + files[..j]
          invariant runs == old(runs)
        {
          assert files[..j + 1] == files[..j] + [files[j]];
          removed := removed + [files[j]];
        }
        assert files[..|files|] == files;
      }
      runs := DropIds(runs, RunId, {r.id});
      removed := removed + [r.records];
    }

    /** What the loop of `removeExpiredLog` has done after the first `i`
        expired runs. */
    /** One round of the loop of `removeExpiredLog`. */
    method SweepOneRun(expired: seq<JobRecord>, i: nat, ghost runs0: seq<JobRecord>, ghost removed0: seq<string>)
      requires i < |expired|
      requires LogSweptUpTo(expired, i, runs0, removed0, runs, removed)
      modifies this`runs, this`removed
      ensures LogSweptUpTo(expired, i + 1, runs0, removed0, runs, removed)
    {
      LogSweepAdvance(expired, i, runs0, removed0, runs, removed);
      DeleteExpiredRun(expired[i]);
    }

    /** The loop of `removeExpiredLog` over the runs beyond the newest
        `RetainCopies`. */
    method DeleteAllExpiredRuns(expired: seq<JobRecord>)
      modifies this`runs, this`removed
      ensures runs == DropIds(old(runs), RunId, IdSet(expired, RunId))
      ensures removed == old(removed) + RemovedFiles(expired)
    {
      ghost var runs0, removed0 := runs, removed;
      LogSweepStart(runs);
      var i := 0;
      while i < |expired|
        invariant i <= |expired|
        invariant LogSweptUpTo(expired, i, runs0, removed0, runs, removed)
      {
        SweepOneRun(expired, i, runs0, removed0);
        i := i + 1;
      }
      assert expired[..i] == expired;
    }

    /** `removeExpiredLog`. */
    method RemoveExpiredLog(job: Cronjob)
      modifies this`runs, this`removed
      ensures State() == LogSweepSpec(old(State()), job)
    {
      var list := Newest(runs, job.id, OfJob);
      if |list| <= job.retainCopies {
        LogSweepStart(runs);
        return;
      }
      DeleteAllExpiredRuns(list[job.retainCopies..]);
    }

    // -------------------------------------------------------------------------
    // The item loop

    /** The producer of an item writes its archive. */
    method Produce(env: Env, item: Item) returns (err: Option<Error>)
      modifies this`produced, this`local
      ensures Outcome(State(), err) == ProduceSpec(old(State()), env, item)
    {
      if !env.produceOk(item.producer, item.archive) {
        return Some(ProduceFailed(item.producer));
      }
      produced := produced + [Artifact(item.producer, item.archive)];
      local := local + {item.archive};
      return None;
    }

    /** `CreateRecord`, then the sweep of the stored record's scope. */
    method Store(env: Env, job: Cronjob, clients: AccountMap, rec: BackupRecord) returns (err: Option<Error>)
      requires Covers(clients, AccountIds(job))
      modifies this`ledger, this`nextId, this`calls, this`snapshots
      ensures Outcome(State(), err) == StoreSpec(old(State()), env, job, clients, rec)
    {
      if !env.createOk(rec) {
        return Some(SaveRecordFailed);
      }
      var stored := rec.(id := nextId);
      ledger := ledger + [stored];
      nextId := nextId + 1;
      RemoveExpiredBackup(job, clients, stored);
      return None;
    }

    /** Upload an item's archive and store its record. */
    method Ship(env: Env, job: Cronjob, clients: AccountMap, item: Item) returns (err: Option<Error>)
      requires Covers(clients, AccountIds(job))
      modifies this`ledger, this`nextId, this`calls, this`snapshots, this`local
      ensures Outcome(State(), err) == ShipSpec(old(State()), env, job, clients, item)
    {
      var key := UploadBackFile(env, job, clients, item.archive);
      if key.Err? {
        return Some(key.error);
      }
      err := Store(env, job, clients, Filed(item, key.value));
    }

    /** The handlers' loop over their items, returning at the first error. */
    method BackupItems(env: Env, job: Cronjob, clients: AccountMap, items: seq<Item>) returns (err: Option<Error>)
      requires Covers(clients, AccountIds(job))
      modifies this`ledger, this`nextId, this`calls, this`snapshots, this`local, this`produced
      ensures Outcome(State(), err) == ItemsSpec(old(State()), env, job, clients, items)
    {
      ghost var w0 := State();
      for i := 0 to |items|
        invariant Outcome(State(), None) == ItemsSpec(w0, env, job, clients, items[..i])
      {
        assert items[..i + 1][..i] == items[..i];
        err := Produce(env, items[i]);
        if err.None? {
          err := Ship(env, job, clients, items[i]);
        }
        if err.Some? {
          ItemsStopAtFailure(w0, env, job, clients, items, i);
          return;
        }
      }
      assert items[..|items|] == items;
      return None;
    }

    // -------------------------------------------------------------------------
    // Handlers

    /** `handleApp`. */
    method HandleApp(env: Env, repos: Repos, job: Cronjob, tokens: nat -> string) returns (err: Option<Error>)
      requires env.clients.Ok? ==> Covers(env.clients.value, AccountIds(job))
      modifies this`ledger, this`nextId, this`calls, this`snapshots, this`local, this`produced
      ensures Outcome(State(), err) == HandleAppSpec(old(State()), env, repos, job, tokens)
    {
      var apps: seq<AppInstall>;
      if job.appId == "all" {
        apps := repos.installs;
      } else {
        var found := Lookup(repos.installs, InstallId, SelectedId(job.appId));
        if found.None? {
          return Some(RecordNotFound);
        }
        apps := [found.value];
      }
      if |apps| == 0 {
        return Some(NoSuchApp);
      }
      if env.clients.Err? {
        return Some(ClientMapFailed(env.clients.error));
      }
      err := BackupItems(env, job, env.clients.value, AppItems(env.tmpDir, job, apps, tokens));
    }

    /** `handleWebsite`. */
    method HandleWebsite(env: Env, repos: Repos, job: Cronjob, tokens: nat -> string) returns (err: Option<Error>)
      requires env.clients.Ok? ==> Covers(env.clients.value, AccountIds(job))
      modifies this`ledger, this`nextId, this`calls, this`snapshots, this`local, this`produced
      ensures Outcome(State(), err) == HandleWebsiteSpec(old(State()), env, repos, job, tokens)
    {
      var webs := WebsForJob(job, repos);
      if |webs| == 0 {
        return Some(NoSuchWebsite);
      }
      if env.clients.Err? {
        return Some(ClientMapFailed(env.clients.error));
      }
      err := BackupItems(env, job, env.clients.value, WebsiteItems(env.tmpDir, job, webs, tokens));
    }

    /** `handleDatabase`. */
    method HandleDatabase(env: Env, repos: Repos, job: Cronjob, tokens: nat -> string) returns (err: Option<Error>)
      requires env.clients.Ok? ==> Covers(env.clients.value, AccountIds(job))
      modifies this`ledger, this`nextId, this`calls, this`snapshots, this`local, this`produced
      ensures Outcome(State(), err) == HandleDatabaseSpec(old(State()), env, repos, job, tokens)
    {
      var dbs := LoadDbsForJob(job, repos);
      if |dbs| == 0 {
        return Some(NoSuchDb);
      }
      if env.clients.Err? {
        return Some(ClientMapFailed(env.clients.error));
      }
      err := BackupItems(env, job, env.clients.value, DbItems(env.tmpDir, job, dbs, tokens));
    }

    /** `handleDirectory`. */
    method HandleDirectory(env: Env, job: Cronjob, token: string) returns (err: Option<Error>)
      requires env.clients.Ok? ==> Covers(env.clients.value, AccountIds(job))
      modifies this`ledger, this`nextId, this`calls, this`snapshots, this`local, this`produced
      ensures Outcome(State(), err) == HandleDirectorySpec(old(State()), env, job, token)
    {
      if env.clients.Err? {
        return Some(ClientMapFailed(env.clients.error));
      }
      var item := DirectoryItem(env.tmpDir, job, token);
      err := Produce(env, item);
      if err.Some? {
        return;
      }
      err := Ship(env, job, env.clients.value, item);
    }

    /** `handleSystemLog`. */
    method HandleSystemLog(env: Env, repos: Repos, job: Cronjob, token: string) returns (err: Option<Error>)
      requires env.clients.Ok? ==> Covers(env.clients.value, AccountIds(job))
      modifies this`ledger, this`nextId, this`calls, this`snapshots, this`local, this`produced, this`dirs, this`copied
      ensures Outcome(State(), err) == HandleSystemLogSpec(old(State()), env, repos, job, token)
    {
      if env.clients.Err? {
        return Some(ClientMapFailed(env.clients.error));
      }
      err := BackupLogs(env, repos, LogTarget(env.tmpDir, token), SystemLogFileName(token));
      if err.Some? {
        return;
      }
      err := Ship(env, job, env.clients.value, LogItem(env.tmpDir, job, token));
    }

    /** `handleSnapshot`. */
    method HandleSnapshot(env: Env, repos: Repos, job: Cronjob, token: string) returns (err: Option<Error>)
      requires env.clients.Ok? ==> Covers(env.clients.value, AccountIds(job))
      modifies this`ledger, this`nextId, this`calls, this`snapshots, this`local, this`produced
      ensures Outcome(State(), err) == HandleSnapshotSpec(old(State()), env, repos, job, token)
    {
      if env.clients.Err? {
        return Some(ClientMapFailed(env.clients.error));
      }
      if !env.snapshotDataOk {
        return Some(SnapshotDataFailed);
      }
      var name := SnapshotName(repos.isMaster, repos.version, repos.osName, token);
      if !env.snapshotOk(name) {
        return Some(SnapshotFailed);
      }
      snapshots := snapshots + [name];
      err := Store(env, job, env.clients.value, SnapshotRecord(job, name));
    }

    // -------------------------------------------------------------------------
    // handleBackupLogs

    /** One file-system step of the bundle. */
    method Exec(env: Env, step: Step) returns (err: Option<Error>)
      modifies this`dirs, this`copied, this`produced, this`local
      ensures Outcome(State(), err) == StepSpec(old(State()), env, step)
    {
      match step
      case Mkdir(dir) =>
        if dir in dirs {
          return None;
        }
        if !env.mkdirOk(dir) {
          return Some(MkdirFailed(dir));
        }
        dirs := dirs + {dir};
        return None;
      case Copy(src, dst) =>
        copied := copied + [(src, dst)];
        return None;
      case Compress(target, archive) =>
        if !env.produceOk(LogBundle, archive) {
          return Some(ProduceFailed(LogBundle));
        }
        produced := produced + [Artifact(LogBundle, archive)];
        local := local + {archive};
        return None;
      case RemoveTree(target) =>
        dirs := set d | d in dirs && !Below(d, target);
        return None;
    }

    /** Copy the entries of a listing the filter picks into `dst`; a failed
        copy is ignored. */
    method CopyFiles(env: Env, dir: string, entries: seq<DirEntry>, dst: string, pick: DirEntry -> bool)
      modifies this`copied
      ensures Outcome(State(), None) == RunSteps(old(State()), env, CopySteps(dir, entries, dst, pick))
    {
      ghost var w0 := State();
      for j := 0 to |entries|
        invariant Outcome(State(), None) == RunSteps(w0, env, CopySteps(dir, entries[..j], dst, pick))
      {
        CopyStepsSnoc(w0, env, dir, entries, dst, pick, j);
        var e := entries[j];
        if pick(e) {
          copied := copied + [(PathJoin([dir, e.name]), dst)];
        }
      }
      assert entries[..|entries|] == entries;
    }

    /** A directory of the staging tree, then copies into it. */
    method StageDir(env: Env, dst: string, src: string, entries: seq<DirEntry>, pick: DirEntry -> bool) returns (err: Option<Error>)
      modifies this`dirs, this`copied, this`produced, this`local
      ensures Outcome(State(), err) == RunSteps(old(State()), env, [Mkdir(dst)] + CopySteps(src, entries, dst, pick))
    {
      ghost var w0 := State();
      assert [Mkdir(dst)][..0] == [];
      RunStepsAppend(w0, env, [Mkdir(dst)], CopySteps(src, entries, dst, pick));
      err := Exec(env, Mkdir(dst));
      if err.Some? {
        return;
      }
      CopyFiles(env, src, entries, dst, pick);
    }

    /** The staging steps of one website's logs: its directory, then its
        access logs and its rotated logs. */
    method StageWebsiteLogs(env: Env, repos: Repos, target: string, nginx: string, web: Website) returns (err: Option<Error>)
      modifies this`dirs, this`copied, this`produced, this`local
      ensures Outcome(State(), err) == RunSteps(old(State()), env, WebsiteSteps(repos, target, nginx, web))
    {
      ghost var w0 := State();
      var dirItem := PathJoin([target, "website", web.alias]);
      var itemDir := PathJoin([PathJoin([nginx, "www/sites"]), web.alias, "log"]);
      var itemDir2 := PathJoin([repos.backupRoot, "log/website", web.alias]);
      ghost var first := [Mkdir(dirItem)] + CopySteps(itemDir, repos.listing(itemDir), dirItem, NotDir);
      ghost var second := CopySteps(itemDir2, repos.listing(itemDir2), dirItem, NotDir);
      RunStepsAppend(w0, env, first, second);
      err := StageDir(env, dirItem, itemDir, repos.listing(itemDir), NotDir);
      if err.Some? {
        return;
      }
      CopyFiles(env, itemDir2, repos.listing(itemDir2), dirItem, NotDir);
    }

    /** The website part of the bundle, site after site. */
    method StageWebsites(env: Env, repos: Repos, target: string, nginx: string, webs: seq<Website>) returns (err: Option<Error>)
      modifies this`dirs, this`copied, this`produced, this`local
      ensures Outcome(State(), err) == RunSteps(old(State()), env, WebsitesSteps(repos, target, nginx, webs))
    {
      ghost var w0 := State();
      err := None;
      var i := 0;
      while i < |webs| && err.None?
        invariant i <= |webs|
        invariant Outcome(State(), err) == RunSteps(w0, env, WebsitesSteps(repos, target, nginx, webs[..i]))
      {
        WebsitesStepsSnoc(w0, env, repos, target, nginx, webs, i);
        err := StageWebsiteLogs(env, repos, target, nginx, webs[i]);
        i := i + 1;
      }
      if err.Some? {
        WebsitesStopAtFailure(w0, env, repos, target, nginx, webs, i);
      } else {
        assert webs[..i] == webs;
      }
    }

    /** The staging tree, then the bundle, then the tree is removed. */
    method StageAndCompress(env: Env, repos: Repos, target: string, nginx: string, fileName: string) returns (err: Option<Error>)
      modifies this`dirs, this`copied, this`produced, this`local
      ensures Outcome(State(), err) == RunSteps(old(State()), env, StagingSteps(repos, target, nginx) + FinishSteps(target, fileName))
    {
      ghost var w0 := State();
      ghost var webSteps := WebsitesSteps(repos, target, nginx, repos.websites);
      ghost var system := SystemSteps(repos, target);
      ghost var login := LoginSteps(repos, target);
      ghost var compress := [Compress(target, BundleArchive(target, fileName))];
      ghost var remove := [RemoveTree(target)];
      assert StagingSteps(repos, target, nginx) + FinishSteps(target, fileName) ==
        (((webSteps + system) + login) + compress) + remove;
      RunStepsAppend(w0, env, (((webSteps + system) + login) + compress), remove);
      RunStepsAppend(w0, env, ((webSteps + system) + login), compress);
      RunStepsAppend(w0, env, webSteps + system, login);
      RunStepsAppend(w0, env, webSteps, system);
      err := StageWebsites(env, repos, target, nginx, repos.websites);
      if err.Some? {
        return;
      }
      var src := PathJoin([repos.baseDir, SystemLogSource]);
      err := StageDir(env, PathJoin([target, "system"]), src, repos.listing(src), NotDir);
      if err.Some? {
        return;
      }
      err := StageDir(env, PathJoin([target, "login"]), LoginLogSource, repos.listing(LoginLogSource), LoginLogSelected);
      if err.Some? {
        return;
      }
      ghost var w3 := State();
      assert compress[..0] == [] && remove[..0] == [];
      assert RunSteps(w3, env, compress) == StepSpec(w3, env, compress[0]);
      err := Exec(env, Compress(target, BundleArchive(target, fileName)));
      if err.Some? {
        return;
      }
      ghost var w4 := State();
      assert RunSteps(w4, env, remove) == StepSpec(w4, env, remove[0]);
      err := Exec(env, RemoveTree(target));
    }

    /** `handleBackupLogs`: listing the websites and, when there are any,
        finding OpenResty come first. */
    method BackupLogs(env: Env, repos: Repos, target: string, fileName: string) returns (err: Option<Error>)
      modifies this`dirs, this`copied, this`produced, this`local
      ensures Outcome(State(), err) == BundleSpec(old(State()), env, repos, target, fileName)
    {
      if !repos.websitesListOk {
        return Some(ListWebsitesFailed);
      }
      var nginx := "";
      if |repos.websites| != 0 {
        if repos.openresty.None? {
          return Some(OpenrestyMissing);
        }
        nginx := repos.openresty.value;
      }
      err := StageAndCompress(env, repos, target, nginx, fileName);
    }

    // -------------------------------------------------------------------------
    // HandleJob

    /** `generateLogsPath`. */
    method GenerateLogsPath(env: Env, dataDir: string, job: Cronjob, startTime: string) returns (path: string)
      modifies this`dirs
      ensures path == LogsPath(dataDir, job, startTime)
      ensures State() == WithLogsDir(old(State()), env, dataDir, job)
    {
      var dir := LogsDir(dataDir, job);
      if dir !in dirs && env.mkdirOk(dir) {
        dirs := dirs + {dir};
      }
      path := dir + "/" + startTime + ".log";
    }

    /** The bodies of the job types that sweep the run records. */
    method LoggedBody(env: Env, repos: Repos, job: Cronjob, record: JobRecord, dataDir: string,
                      token: string, tokens: nat -> string, ext: External)
      returns (rec: JobRecord, err: Option<string>, message: string)
      requires env.clients.Ok? ==> Covers(env.clients.value, AccountIds(job))
      requires job.jobType in {"shell", "curl", "ntp", "cutWebsiteLog", "clean"}
      modifies this`dirs, this`runs, this`removed
      ensures Body(State(), rec, err, message) == RunBody(old(State()), env, repos, job, record, dataDir, token, tokens, ext)
    {
      rec, err, message := record, ext.err, "";
      if job.jobType == "shell" || job.jobType == "curl" {
        var path := GenerateLogsPath(env, dataDir, job, record.startTime);
        rec := record.(records := path);
        runs := SetRecords(runs, record.id, path);
      } else if job.jobType == "cutWebsiteLog" {
        if !ext.openresty {
          rec, err := record.(file := ""), None;
          return;
        }
        rec := record.(file := ext.file);
        message := ext.message;
      } else if job.jobType == "clean" {
        message := ext.message;
      }
      RemoveExpiredLog(job);
    }

    /** The bodies of the backup job types that select several items. */
    method SelectingBody(env: Env, repos: Repos, job: Cronjob, record: JobRecord, dataDir: string,
                         token: string, tokens: nat -> string, ext: External)
      returns (err: Option<string>)
      requires env.clients.Ok? ==> Covers(env.clients.value, AccountIds(job))
      requires job.jobType in {"website", "app", "database"}
      modifies this`ledger, this`nextId, this`calls, this`snapshots, this`local, this`produced
      ensures Body(State(), record, err, "") == RunBody(old(State()), env, repos, job, record, dataDir, token, tokens, ext)
    {
      var e: Option<Error>;
      if job.jobType == "website" {
        e := HandleWebsite(env, repos, job, tokens);
      } else if job.jobType == "app" {
        e := HandleApp(env, repos, job, tokens);
      } else {
        e := HandleDatabase(env, repos, job, tokens);
      }
      err := ErrText(e);
    }

    /** The bodies of the backup job types with a single archive. */
    method SingleBody(env: Env, repos: Repos, job: Cronjob, record: JobRecord, dataDir: string,
                      token: string, tokens: nat -> string, ext: External)
      returns (err: Option<string>)
      requires env.clients.Ok? ==> Covers(env.clients.value, AccountIds(job))
      requires job.jobType in {"directory", "log", "snapshot"}
      modifies this`ledger, this`nextId, this`calls, this`snapshots, this`local, this`produced, this`dirs, this`copied, this`runs
      ensures Body(State(), record, err, "") == RunBody(old(State()), env, repos, job, record, dataDir, token, tokens, ext)
    {
      var e: Option<Error>;
      if job.jobType == "directory" {
        e := HandleDirectory(env, job, token);
      } else if job.jobType == "log" {
        e := HandleSystemLog(env, repos, job, token);
      } else {
        runs := SetRecords(runs, record.id, record.records);
        e := HandleSnapshot(env, repos, job, token);
      }
      err := ErrText(e);
    }

    /** The body for the job's type. */
    method RunJobBody(env: Env, repos: Repos, job: Cronjob, record: JobRecord, dataDir: string,
                      token: string, tokens: nat -> string, ext: External)
      returns (rec: JobRecord, err: Option<string>, message: string)
      requires env.clients.Ok? ==> Covers(env.clients.value, AccountIds(job))
      modifies this`ledger, this`nextId, this`calls, this`snapshots, this`local, this`produced, this`dirs, this`copied, this`runs, this`removed
      ensures Body(State(), rec, err, message) == RunBody(old(State()), env, repos, job, record, dataDir, token, tokens, ext)
    {
      rec, err, message := record, None, "";
      if job.jobType in {"shell", "curl", "ntp", "cutWebsiteLog", "clean"} {
        rec, err, message := LoggedBody(env, repos, job, record, dataDir, token, tokens, ext);
      } else if job.jobType in {"website", "app", "database"} {
        err := SelectingBody(env, repos, job, record, dataDir, token, tokens, ext);
      } else if job.jobType in {"directory", "log", "snapshot"} {
        err := SingleBody(env, repos, job, record, dataDir, token, tokens, ext);
      }
    }

    /** `StartRecords`: the run record, Executing, with the next id. */
    method OpenRun(job: Cronjob, startTime: string) returns (record: JobRecord)
      modifies this`runs, this`nextRunId
      ensures record == Opened(old(State()), job, startTime)
      ensures State() == Started(old(State()), job, startTime)
    {
      record := JobRecord(nextRunId, job.id, startTime, Executing, "", "", "");
      runs := runs + [record];
      nextRunId := nextRunId + 1;
    }

    /** `EndRecords` with the body's outcome: failed with the error's text
        or successful, and the message's file as the log when the body
        collected one. */
    method EndJob(rec: JobRecord, err: Option<string>, message: string, ext: External)
      modifies this`runs
      ensures runs == EndRun(old(runs), Ended(Body(old(State()), rec, err, message), ext))
    {
      var r := rec;
      if |message| != 0 {
        r := r.(records := ext.messagePath);
      }
      if err.Some? {
        r := r.(status := Failed, message := err.value);
      } else {
        r := r.(status := Success, message := "");
      }
      runs := EndRun(runs, r);
    }

    /** `HandleJob`: the run record is opened, the body for the job's type
        runs, and the record is ended with the outcome. */
    method HandleJob(env: Env, repos: Repos, job: Cronjob, startTime: string, dataDir: string,
                     token: string, tokens: nat -> string, ext: External)
      requires env.clients.Ok? ==> Covers(env.clients.value, AccountIds(job))
      modifies this
      ensures State() == HandleJobSpec(old(State()), env, repos, job, startTime, dataDir, token, tokens, ext)
    {
      var record := OpenRun(job, startTime);
      if LeftOpen(job) {
        return;
      }
      var rec, err, message := RunJobBody(env, repos, job, record, dataDir, token, tokens, ext);
      EndJob(rec, err, message, ext);
    }
  }
}
