/** The records and rows the scheduled-backup code of the agent reads and
    writes, and the names it builds for backup artifacts and run logs. */
module Entities {
  import opened GoStd

  /** A scheduled job, reduced to the fields the backup and run-record code
      reads. `retainCopies` is how many backups (or run records) to keep. */
  datatype Cronjob = Cronjob(
    id: nat,
    name: string,
    jobType: string,
    script: string,
    url: string,
    appId: string,
    website: string,
    dbType: string,
    dbName: string,
    sourceDir: string,
    isDir: bool,
    exclusionRules: string,
    secret: string,
    sourceAccountIds: string,
    downloadAccountId: nat,
    retainCopies: nat)

  /** A row of the backup ledger. `id` 0 means "not stored yet". */
  datatype BackupRecord = BackupRecord(
    id: nat,
    from: string,
    cronjobId: nat,
    sourceAccountIds: string,
    downloadAccountId: nat,
    recordType: string,
    name: string,
    detailName: string,
    fileDir: string,
    fileName: string)

  /** An installed app: its row id, the catalogue key of the app, and the
      name of the install. */
  datatype AppInstall = AppInstall(id: nat, appKey: string, name: string)

  datatype Website = Website(id: nat, primaryDomain: string, alias: string)

  /** A database row of the MySQL or the PostgreSQL repository: its id, the
      name of the database server it lives on, and its own name. */
  datatype DbRow = DbRow(id: nat, server: string, name: string)

  /** One database to dump. */
  datatype DatabaseHelper = DatabaseHelper(id: nat, dbType: string, database: string, name: string)

  /** What a repository lookup that matched nothing leaves in the result
      variable: the zero value. */
  const ZeroWebsite := Website(0, "", "")
  const ZeroDbRow := DbRow(0, "", "")

  /** The archive producers; each is an external tool or service. */
  datatype Producer =
    | AppBackup
    | WebsiteBackup
    | MysqlDump
    | PostgresqlDump
    | DirectoryTarGz
    | FilesCompress(files: seq<string>)
    | LogBundle

  datatype Artifact = Artifact(producer: Producer, path: string)

  /** Errors a backup run can end with. */
  datatype Error =
    | NoSuchApp
    | NoSuchWebsite
    | NoSuchDb
    | RecordNotFound
    | ClientMapFailed(reason: string)
    | ProduceFailed(producer: Producer)
    | UploadFailed(account: string)
    | SaveRecordFailed
    | SnapshotDataFailed
    | SnapshotFailed
    | ListWebsitesFailed
    | OpenrestyMissing
    | MkdirFailed(dir: string)

  /** The text stored in a failed run record. */
  function Message(e: Error): (m: string)
    ensures |m| > 0
  {
    match e
    case NoSuchApp => "no such app in database!"
    case NoSuchWebsite => "no such website in database!"
    case NoSuchDb => "no such db in database!"
    case RecordNotFound => "record not found"
    case ClientMapFailed(reason) => "backup account: " + reason
    case ProduceFailed(_) => "archive failed"
    case UploadFailed(account) => "upload failed: " + account
    case SaveRecordFailed => "save backup record failed"
    case SnapshotDataFailed => "load snapshot data failed"
    case SnapshotFailed => "create snapshot failed"
    case ListWebsitesFailed => "list websites failed"
    case OpenrestyMissing => "openresty not installed"
    case MkdirFailed(dir) => "mkdir failed: " + dir
  }

  /** Run state of a run record. */
  datatype Status = Waiting | Executing | Success | Failed

  /** A run record of a job: `startTime` is the start time already written
      in the compact layout, `records` the path of its output log and `file`
      a comma-separated list of files the run produced. */
  datatype JobRecord = JobRecord(
    id: nat,
    cronjobId: nat,
    startTime: string,
    status: Status,
    message: string,
    records: string,
    file: string)

  // ---------------------------------------------------------------------------
  // Names. `token` is the start time in the compact layout followed by five
  // random characters; it is an opaque input here.

  function AppFileName(install: string, token: string): string
  {
    "app_" + install + "_" + token + ".tar.gz"
  }

  function WebsiteFileName(domain: string, token: string): string
  {
    "website_" + domain + "_" + token + ".tar.gz"
  }

  function DbFileName(instance: string, token: string): string
  {
    "db_" + instance + "_" + token + ".sql.gz"
  }

  /** The directory backup flattens the source path: every '/' becomes '_'. */
  function DirectoryFileName(sourceDir: string, token: string): string
  {
    "directory" + ReplaceAll(sourceDir, "/", "_") + "_" + token + ".tar.gz"
  }

  function SystemLogFileName(token: string): string
  {
    "system_log_" + token + ".tar.gz"
  }

  /** The snapshot name; the agent of a cluster member says "agent", the
      master "core". */
  function SnapshotName(isMaster: bool, version: string, osName: string, token: string): string
  {
    "snapshot-1panel-" + (if isMaster then "core" else "agent") + "-" + version + "-linux-" + osName + "-" + token
  }

  function SnapshotFileName(snapshot: string): string
  {
    snapshot + ".tar.gz"
  }

  /** A name `head + token + tail` determines its token. */
  lemma TokenCancels(head: string, tail: string, t1: string, t2: string)
    requires head + t1 + tail == head + t2 + tail
    ensures t1 == t2
  {
    var n1 := head + t1 + tail;
    assert t1 == n1[|head|..|n1| - |tail|];
    assert t2 == n1[|head|..|n1| - |tail|];
  }

  /** Two runs of the same job on the same item use different tokens, so
      their artifacts never share a file name. */
  lemma FileNamesSeparateRuns(item: string, t1: string, t2: string)
    requires t1 != t2
    ensures AppFileName(item, t1) != AppFileName(item, t2)
    ensures WebsiteFileName(item, t1) != WebsiteFileName(item, t2)
    ensures DbFileName(item, t1) != DbFileName(item, t2)
    ensures DirectoryFileName(item, t1) != DirectoryFileName(item, t2)
    ensures SystemLogFileName(t1) != SystemLogFileName(t2)
  {
    if AppFileName(item, t1) == AppFileName(item, t2) {
      TokenCancels("app_" + item + "_", ".tar.gz", t1, t2);
    }
    if WebsiteFileName(item, t1) == WebsiteFileName(item, t2) {
      TokenCancels("website_" + item + "_", ".tar.gz", t1, t2);
    }
    if DbFileName(item, t1) == DbFileName(item, t2) {
      TokenCancels("db_" + item + "_", ".sql.gz", t1, t2);
    }
    var flat := ReplaceAll(item, "/", "_");
    if DirectoryFileName(item, t1) == DirectoryFileName(item, t2) {
      TokenCancels("directory" + flat + "_", ".tar.gz", t1, t2);
    }
    if SystemLogFileName(t1) == SystemLogFileName(t2) {
      TokenCancels("system_log_", ".tar.gz", t1, t2);
    }
  }

  /** Stripping the archive suffix from a snapshot's file name gives back
      the snapshot's name. */
  lemma SnapshotFileNameRoundTrip(snapshot: string)
    ensures HasSuffix(SnapshotFileName(snapshot), ".tar.gz")
    ensures TrimSuffix(SnapshotFileName(snapshot), ".tar.gz") == snapshot
  {
    TrimSuffixOfAppended(snapshot, ".tar.gz");
  }

  /** Job types whose run produces backup records. */
  predicate HasBackup(jobType: string)
  {
    jobType == "app" || jobType == "database" || jobType == "website" ||
    jobType == "directory" || jobType == "snapshot" || jobType == "log"
  }

  /** Where a shell or curl run writes its output:
      `<dataDir>/task/<type>/<name>/<start>.log`. */
  function LogsPath(dataDir: string, job: Cronjob, startTime: string): string
  {
    LogsDir(dataDir, job) + "/" + startTime + ".log"
  }

  function LogsDir(dataDir: string, job: Cronjob): string
  {
    dataDir + "/task/" + job.jobType + "/" + job.name
  }

  /** Runs of one job that start at different times (in the compact layout)
      log to different files, all in the job's own directory. */
  lemma LogsPathSeparateRuns(dataDir: string, job: Cronjob, s1: string, s2: string)
    requires '/' !in s1
    ensures PathDir(LogsPath(dataDir, job, s1)) == LogsDir(dataDir, job)
    ensures s1 != s2 ==> LogsPath(dataDir, job, s1) != LogsPath(dataDir, job, s2)
  {
    var dir := LogsDir(dataDir, job);
    assert dir == dataDir + "/task/" + job.jobType + "/" + job.name;
    assert dir != "" by { assert |dir| >= |"/task/"|; }
    assert '/' !in s1 + ".log";
    assert LogsPath(dataDir, job, s1) == dir + "/" + (s1 + ".log");
    DirOfChild(dir, s1 + ".log");
    if LogsPath(dataDir, job, s1) == LogsPath(dataDir, job, s2) {
      TokenCancels(dir + "/", ".log", s1, s2);
    }
  }
}
