/** The per-type backup handlers of scheduled jobs: which items a job
    selects, the record, archive path, file name and producer of each item,
    the fail-fast produce, upload, store and sweep loop over the items, and
    the staging plan of the system-log bundle. Each handler is specified
    here as a function from the state before the run to the state after it
    and the error it returns; `CronjobService` runs them step by step. */
module CronjobBackup {
  import opened GoStd
  import opened Entities
  import opened Retention
  import opened CronjobHelper

  /** An entry of a directory listing. */
  datatype DirEntry = DirEntry(name: string, isDir: bool)

  /** What the handlers read from the repositories and the settings.
      `websitesListOk` says whether listing the websites succeeds (the log
      bundle fails on that error, website selection drops it and selects
      none); `openresty` is the install path of
      OpenResty when it is installed; `listing` is what reading a directory
      gives, nothing when the read fails. */
  datatype Repos = Repos(
    installs: seq<AppInstall>,
    websites: seq<Website>,
    websitesListOk: bool,
    mysql: seq<DbRow>,
    postgres: seq<DbRow>,
    openresty: Option<string>,
    baseDir: string,
    backupRoot: string,
    listing: string -> seq<DirEntry>,
    version: string,
    osName: string,
    isMaster: bool)

  /** The state after a step and the error it returned, if any. */
  datatype Outcome = Outcome(w: World, err: Option<Error>)

  // ---------------------------------------------------------------------------
  // Selection

  /** The id a selector other than "all" names: `uint(strconv.Atoi(s))`. */
  function SelectedId(selector: string): nat
  {
    ToUint(Atoi(selector))
  }

  /** A lookup by id in a table: the first row with that id. */
  function Lookup<T(!new)>(rows: seq<T>, id: T -> nat, k: nat): (r: Option<T>)
    ensures r.Some? ==> r.value in rows && id(r.value) == k
    ensures r.None? ==> forall x :: x in rows ==> id(x) != k
  {
    if |rows| == 0 then None
    else if id(rows[0]) == k then Some(rows[0])
    else Lookup(rows[1..], id, k)
  }

  function InstallId(a: AppInstall): nat { a.id }

  function WebsiteId(site: Website): nat { site.id }

  function DbRowId(row: DbRow): nat { row.id }

  /** The installs an app job backs up: all of them for "all", else the one
      with the selected id, or the lookup's not-found error. */
  function AppsForJob(job: Cronjob, repos: Repos): (r: Result<seq<AppInstall>, Error>)
    ensures job.appId == "all" ==> r == Ok(repos.installs)
    ensures job.appId != "all" ==>
      (r.Ok? ==> |r.value| == 1 && r.value[0] in repos.installs && r.value[0].id == SelectedId(job.appId)) &&
      (r.Err? <==> forall x :: x in repos.installs ==> x.id != SelectedId(job.appId)) &&
      (r.Err? ==> r.error == RecordNotFound)
  {
    if job.appId == "all" then Ok(repos.installs)
    else
      match Lookup(repos.installs, InstallId, SelectedId(job.appId))
      case Some(app) => Ok([app])
      case None => Err(RecordNotFound)
  }

  /** `loadWebsForJob`: every website for "all", or none when listing them
      fails (the error is dropped); else the website with the selected id
      when one exists and the id is not 0, else none. */
  function WebsForJob(job: Cronjob, repos: Repos): (webs: seq<Website>)
    ensures job.website == "all" ==> webs == (if repos.websitesListOk then repos.websites else [])
    ensures job.website != "all" ==>
      var k := SelectedId(job.website);
      |webs| <= 1 &&
      (forall x :: x in webs ==> x in repos.websites && x.id == k) &&
      (|webs| == 1 <==> k != 0 && exists x :: x in repos.websites && x.id == k)
  {
    if job.website == "all" then (if repos.websitesListOk then repos.websites else [])
    else
      var web := match Lookup(repos.websites, WebsiteId, SelectedId(job.website))
        case Some(x) => x
        case None => ZeroWebsite;
      if web.id != 0 then [web] else []
  }

  /** MySQL and MariaDB share the MySQL repository and dump; every other
      engine goes to PostgreSQL. */
  predicate IsMysql(dbType: string) { dbType == "mysql" || dbType == "mariadb" }

  function DbRows(job: Cronjob, repos: Repos): seq<DbRow>
  {
    if IsMysql(job.dbType) then repos.mysql else repos.postgres
  }

  function AsHelper(job: Cronjob, row: DbRow): DatabaseHelper
  {
    DatabaseHelper(row.id, job.dbType, row.server, row.name)
  }

  /** A `Get` by id whose error is ignored: the row, or the zero row. */
  function FindDb(rows: seq<DbRow>, k: nat): (r: DbRow)
    ensures (r in rows && r.id == k) || (r == ZeroDbRow && forall x :: x in rows ==> x.id != k)
  {
    match Lookup(rows, DbRowId, k)
    case Some(row) => row
    case None => ZeroDbRow
  }

  /** `loadDbsForJob`: for "all", one entry per row of the engine's table
      in table order; for an id, exactly one entry, the zero row's when no
      row has that id. Every entry carries the job's DBType. */
  function DbsForJob(job: Cronjob, repos: Repos): (dbs: seq<DatabaseHelper>)
    ensures forall i :: 0 <= i < |dbs| ==> dbs[i].dbType == job.dbType
    ensures job.dbName == "all" ==>
      |dbs| == |DbRows(job, repos)| &&
      forall i :: 0 <= i < |dbs| ==> dbs[i] == AsHelper(job, DbRows(job, repos)[i])
    ensures job.dbName != "all" ==>
      var k := SelectedId(job.dbName);
      |dbs| == 1 &&
      ((exists x :: x in DbRows(job, repos) && x.id == k && dbs[0] == AsHelper(job, x)) ||
       (dbs[0] == AsHelper(job, ZeroDbRow) && forall x :: x in DbRows(job, repos) ==> x.id != k))
  {
    var rows := DbRows(job, repos);
    if job.dbName == "all" then seq(|rows|, i requires 0 <= i < |rows| => AsHelper(job, rows[i]))
    else [AsHelper(job, FindDb(rows, SelectedId(job.dbName)))]
  }

  /** `loadDbsForJob`, appending one entry per row. */
  method LoadDbsForJob(job: Cronjob, repos: Repos) returns (dbs: seq<DatabaseHelper>)
    ensures dbs == DbsForJob(job, repos)
  {
    var rows := DbRows(job, repos);
    if job.dbName == "all" {
      dbs := [];
      for i := 0 to |rows|
        invariant dbs == seq(i, j requires 0 <= j < i => AsHelper(job, rows[j]))
      {
        dbs := dbs + [AsHelper(job, rows[i])];
      }
      return;
    }
    var row := FindDb(rows, SelectedId(job.dbName));
    dbs := [AsHelper(job, row)];
  }

  // ---------------------------------------------------------------------------
  // Items

  /** One artifact of a run: the record it will store (id, directory and
      file name still unset), the local path the producer writes, the file
      name and the producer. */
  datatype Item = Item(record: BackupRecord, archive: string, fileName: string, producer: Producer)

  /** The record every handler starts from. */
  function NewRecord(job: Cronjob, recordType: string, name: string, detailName: string): BackupRecord
  {
    BackupRecord(0, "cronjob", job.id, job.sourceAccountIds, job.downloadAccountId, recordType, name, detailName, "", "")
  }

  /** The archive path of a file written to the staging directory `sub`
      below the temporary directory. */
  function Staged(tmp: string, sub: string, fileName: string): string
  {
    PathJoin([PathJoin([tmp, sub]), fileName])
  }

  function AppItem(tmp: string, job: Cronjob, app: AppInstall, token: string): Item
  {
    var fileName := AppFileName(app.name, token);
    Item(NewRecord(job, "app", app.appKey, app.name),
         Staged(tmp, "app/" + app.appKey + "/" + app.name, fileName), fileName, AppBackup)
  }

  function WebsiteItem(tmp: string, job: Cronjob, web: Website, token: string): Item
  {
    var fileName := WebsiteFileName(web.primaryDomain, token);
    Item(NewRecord(job, "website", web.primaryDomain, web.alias),
         Staged(tmp, "website/" + web.primaryDomain, fileName), fileName, WebsiteBackup)
  }

  /** The dump tool is chosen by the job's DBType, the record type is the
      entry's. */
  function DbItem(tmp: string, job: Cronjob, db: DatabaseHelper, token: string): Item
  {
    var fileName := DbFileName(db.name, token);
    Item(NewRecord(job, db.dbType, db.database, db.name),
         Staged(tmp, "database/" + db.dbType + "/" + db.database + "/" + db.name, fileName), fileName,
         if IsMysql(job.dbType) then MysqlDump else PostgresqlDump)
  }

  /** A directory job archives the whole tree, a file-list job exactly the
      listed files. */
  function DirectoryItem(tmp: string, job: Cronjob, token: string): Item
  {
    var fileName := DirectoryFileName(job.sourceDir, token);
    Item(NewRecord(job, "directory", job.name, ""),
         Staged(tmp, job.jobType + "/" + job.name, fileName), fileName,
         if job.isDir then DirectoryTarGz else FilesCompress(Split(job.sourceDir, ',')))
  }

  /** The staging tree of the log bundle, `tmp/log/<token>`. */
  function LogTarget(tmp: string, token: string): string
  {
    PathJoin([tmp, "log", token])
  }

  /** The log bundle is written next to its staging tree. */
  function LogItem(tmp: string, job: Cronjob, token: string): Item
  {
    var fileName := SystemLogFileName(token);
    Item(NewRecord(job, "log", job.name, ""), PathJoin([PathDir(LogTarget(tmp, token)), fileName]), fileName, LogBundle)
  }

  function AppItems(tmp: string, job: Cronjob, apps: seq<AppInstall>, tokens: nat -> string): seq<Item>
  {
    seq(|apps|, i requires 0 <= i < |apps| => AppItem(tmp, job, apps[i], tokens(i)))
  }

  function WebsiteItems(tmp: string, job: Cronjob, webs: seq<Website>, tokens: nat -> string): seq<Item>
  {
    seq(|webs|, i requires 0 <= i < |webs| => WebsiteItem(tmp, job, webs[i], tokens(i)))
  }

  function DbItems(tmp: string, job: Cronjob, dbs: seq<DatabaseHelper>, tokens: nat -> string): seq<Item>
  {
    seq(|dbs|, i requires 0 <= i < |dbs| => DbItem(tmp, job, dbs[i], tokens(i)))
  }

  // ---------------------------------------------------------------------------
  // The item loop

  /** The producer writes the archive, or fails and nothing changes. */
  function ProduceSpec(w: World, env: Env, item: Item): (o: Outcome)
    ensures o.err.Some? <==> !env.produceOk(item.producer, item.archive)
    ensures o.err.Some? ==> o == Outcome(w, Some(ProduceFailed(item.producer)))
    ensures o.err.None? ==> item.archive in o.w.local && o.w.ledger == w.ledger
  {
    if env.produceOk(item.producer, item.archive) then
      Outcome(w.(produced := w.produced + [Artifact(item.producer, item.archive)], local := w.local + {item.archive}), None)
    else Outcome(w, Some(ProduceFailed(item.producer)))
  }

  /** `CreateRecord` and then the sweep: the stored record gets the next
      id; a failed create fails the run and stores nothing. */
  function StoreSpec(w: World, env: Env, job: Cronjob, clients: AccountMap, rec: BackupRecord): (o: Outcome)
    requires Covers(clients, AccountIds(job))
    ensures o.err.Some? <==> !env.createOk(rec)
    ensures o.err.Some? ==> o == Outcome(w, Some(SaveRecordFailed))
    ensures o.w.runs == w.runs && o.w.nextRunId == w.nextRunId
  {
    if !env.createOk(rec) then Outcome(w, Some(SaveRecordFailed))
    else
      var stored := rec.(id := w.nextId);
      Outcome(SweepSpec(w.(ledger := w.ledger + [stored], nextId := w.nextId + 1), job, clients, stored), None)
  }

  /** The record of an item whose upload returned `key`: the key's
      directory and the item's file name. */
  function Filed(item: Item, key: string): BackupRecord
  {
    item.record.(fileDir := PathDir(key), fileName := item.fileName)
  }

  /** Upload, then store the record with the directory of the returned key
      and the item's file name, then sweep. Nothing is stored when the
      upload fails. */
  function ShipSpec(w: World, env: Env, job: Cronjob, clients: AccountMap, item: Item): (o: Outcome)
    requires Covers(clients, AccountIds(job))
    ensures o.err.Some? ==> o.w.ledger == w.ledger && o.w.nextId == w.nextId
    ensures item.archive !in o.w.local
    ensures o.w.runs == w.runs && o.w.nextRunId == w.nextRunId
  {
    var (w1, up) := UploadSpec(w, env, job, clients, item.archive);
    match up
    case Err(e) => Outcome(w1, Some(e))
    case Ok(key) => StoreSpec(w1, env, job, clients, Filed(item, key))
  }

  function ItemSpec(w: World, env: Env, job: Cronjob, clients: AccountMap, item: Item): (o: Outcome)
    requires Covers(clients, AccountIds(job))
    ensures o.err.Some? ==> o.w.ledger == w.ledger && o.w.nextId == w.nextId
    ensures o.w.runs == w.runs && o.w.nextRunId == w.nextRunId
  {
    var p := ProduceSpec(w, env, item);
    if p.err.Some? then p else ShipSpec(p.w, env, job, clients, item)
  }

  /** The handlers' loop: the items in list order, stopping at the first
      error. */
  function ItemsSpec(w: World, env: Env, job: Cronjob, clients: AccountMap, items: seq<Item>): (o: Outcome)
    requires Covers(clients, AccountIds(job))
    ensures o.w.runs == w.runs && o.w.nextRunId == w.nextRunId
  {
    if |items| == 0 then Outcome(w, None)
    else
      var o := ItemsSpec(w, env, job, clients, items[..|items| - 1]);
      if o.err.Some? then o else ItemSpec(o.w, env, job, clients, items[|items| - 1])
  }

  // ---------------------------------------------------------------------------
  // handleBackupLogs

  /** The staging steps of the log bundle. */
  datatype Step =
    | Mkdir(dir: string)
    | Copy(src: string, dstDir: string)
    | Compress(target: string, archive: string)
    | RemoveTree(target: string)

  /** `d` is `target` itself or a path beneath it: what removing the tree
      at `target` takes away. A sibling that only shares the name as a
      prefix (`target` + "-old") is not below it. */
  predicate Below(d: string, target: string)
  {
    d == target || HasPrefix(d, target + "/")
  }

  /** A directory is created only when it is missing, and that can fail; a
      copy never fails (its error is discarded); compressing is the bundle
      producer; removing the tree drops every directory below it. */
  function StepSpec(w: World, env: Env, step: Step): (o: Outcome)
    ensures o.err.Some? ==> o.w == w
    ensures step.Copy? ==> o.err.None?
  {
    match step
    case Mkdir(dir) =>
      if dir in w.dirs then Outcome(w, None)
      else if env.mkdirOk(dir) then Outcome(w.(dirs := w.dirs + {dir}), None)
      else Outcome(w, Some(MkdirFailed(dir)))
    case Copy(src, dst) => Outcome(w.(copied := w.copied + [(src, dst)]), None)
    case Compress(target, archive) =>
      if env.produceOk(LogBundle, archive) then
        Outcome(w.(produced := w.produced + [Artifact(LogBundle, archive)], local := w.local + {archive}), None)
      else Outcome(w, Some(ProduceFailed(LogBundle)))
    case RemoveTree(target) => Outcome(w.(dirs := set d | d in w.dirs && !Below(d, target)), None)
  }

  /** The steps in order, stopping at the first error. */
  function RunSteps(w: World, env: Env, steps: seq<Step>): (o: Outcome)
    ensures o.w.runs == w.runs && o.w.nextRunId == w.nextRunId
  {
    if |steps| == 0 then Outcome(w, None)
    else
      var o := RunSteps(w, env, steps[..|steps| - 1]);
      if o.err.Some? then o else StepSpec(o.w, env, steps[|steps| - 1])
  }

  predicate NotDir(e: DirEntry) { !e.isDir }

  /** The login logs collected from `/var/log`: plain files whose name
      starts with "secure" or "auth.log". */
  predicate LoginLogSelected(e: DirEntry)
  {
    !e.isDir && (HasPrefix(e.name, "secure") || HasPrefix(e.name, "auth.log"))
  }

  /** One copy into `dst` per listed entry the filter picks, in listing
      order. */
  function CopySteps(dir: string, entries: seq<DirEntry>, dst: string, pick: DirEntry -> bool): (steps: seq<Step>)
    ensures forall s :: s in steps ==> s.Copy? && s.dstDir == dst
  {
    if |entries| == 0 then []
    else
      var e := entries[|entries| - 1];
      CopySteps(dir, entries[..|entries| - 1], dst, pick) + (if pick(e) then [Copy(PathJoin([dir, e.name]), dst)] else [])
  }

  /** Each website's log directory in the staging tree, then copies of its
      access logs and of its rotated logs. */
  function WebsiteSteps(repos: Repos, target: string, nginx: string, web: Website): (steps: seq<Step>)
    ensures forall s :: s in steps ==> s.Mkdir? || s.Copy?
  {
    var dirItem := PathJoin([target, "website", web.alias]);
    var itemDir := PathJoin([PathJoin([nginx, "www/sites"]), web.alias, "log"]);
    var itemDir2 := PathJoin([repos.backupRoot, "log/website", web.alias]);
    [Mkdir(dirItem)] + CopySteps(itemDir, repos.listing(itemDir), dirItem, NotDir) +
    CopySteps(itemDir2, repos.listing(itemDir2), dirItem, NotDir)
  }

  function WebsitesSteps(repos: Repos, target: string, nginx: string, webs: seq<Website>): (steps: seq<Step>)
    ensures forall s :: s in steps ==> s.Mkdir? || s.Copy?
  {
    if |webs| == 0 then []
    else WebsitesSteps(repos, target, nginx, webs[..|webs| - 1]) + WebsiteSteps(repos, target, nginx, webs[|webs| - 1])
  }

  const SystemLogSource := "1panel/log"
  const LoginLogSource := "/var/log"

  function SystemSteps(repos: Repos, target: string): (steps: seq<Step>)
    ensures forall s :: s in steps ==> s.Mkdir? || s.Copy?
  {
    var src := PathJoin([repos.baseDir, SystemLogSource]);
    var dst := PathJoin([target, "system"]);
    [Mkdir(dst)] + CopySteps(src, repos.listing(src), dst, NotDir)
  }

  function LoginSteps(repos: Repos, target: string): (steps: seq<Step>)
    ensures forall s :: s in steps ==> s.Mkdir? || s.Copy?
  {
    var dst := PathJoin([target, "login"]);
    [Mkdir(dst)] + CopySteps(LoginLogSource, repos.listing(LoginLogSource), dst, LoginLogSelected)
  }

  /** Where the bundle is written: beside the staging tree. */
  function BundleArchive(target: string, fileName: string): string
  {
    PathJoin([PathDir(target), fileName])
  }

  /** The finishing steps: compress the tree, then remove it. */
  function FinishSteps(target: string, fileName: string): seq<Step>
  {
    [Compress(target, BundleArchive(target, fileName)), RemoveTree(target)]
  }

  function StagingSteps(repos: Repos, target: string, nginx: string): (steps: seq<Step>)
    ensures forall s :: s in steps ==> s.Mkdir? || s.Copy?
  {
    WebsitesSteps(repos, target, nginx, repos.websites) + SystemSteps(repos, target) + LoginSteps(repos, target)
  }

  /** `handleBackupLogs`: listing the websites and, when there are any,
      finding OpenResty must succeed before any step; then the staging
      steps and the finishing steps run in order. */
  function BundleSpec(w: World, env: Env, repos: Repos, target: string, fileName: string): Outcome
  {
    if !repos.websitesListOk then Outcome(w, Some(ListWebsitesFailed))
    else if |repos.websites| != 0 && repos.openresty.None? then Outcome(w, Some(OpenrestyMissing))
    else
      var nginx := if |repos.websites| != 0 then repos.openresty.value else "";
      RunSteps(w, env, StagingSteps(repos, target, nginx) + FinishSteps(target, fileName))
  }

  // ---------------------------------------------------------------------------
  // Handlers

  /** `handleApp`: the selection error, then the empty-selection error, both
      before the client map is built; then the item loop. */
  function HandleAppSpec(w: World, env: Env, repos: Repos, job: Cronjob, tokens: nat -> string): (o: Outcome)
    requires env.clients.Ok? ==> Covers(env.clients.value, AccountIds(job))
    ensures o.w.runs == w.runs && o.w.nextRunId == w.nextRunId
  {
    match AppsForJob(job, repos)
    case Err(e) => Outcome(w, Some(e))
    case Ok(apps) =>
      if |apps| == 0 then Outcome(w, Some(NoSuchApp))
      else
        match env.clients
        case Err(reason) => Outcome(w, Some(ClientMapFailed(reason)))
        case Ok(clients) => ItemsSpec(w, env, job, clients, AppItems(env.tmpDir, job, apps, tokens))
  }

  function HandleWebsiteSpec(w: World, env: Env, repos: Repos, job: Cronjob, tokens: nat -> string): (o: Outcome)
    requires env.clients.Ok? ==> Covers(env.clients.value, AccountIds(job))
    ensures o.w.runs == w.runs && o.w.nextRunId == w.nextRunId
  {
    var webs := WebsForJob(job, repos);
    if |webs| == 0 then Outcome(w, Some(NoSuchWebsite))
    else
      match env.clients
      case Err(reason) => Outcome(w, Some(ClientMapFailed(reason)))
      case Ok(clients) => ItemsSpec(w, env, job, clients, WebsiteItems(env.tmpDir, job, webs, tokens))
  }

  function HandleDatabaseSpec(w: World, env: Env, repos: Repos, job: Cronjob, tokens: nat -> string): (o: Outcome)
    requires env.clients.Ok? ==> Covers(env.clients.value, AccountIds(job))
    ensures o.w.runs == w.runs && o.w.nextRunId == w.nextRunId
  {
    var dbs := DbsForJob(job, repos);
    if |dbs| == 0 then Outcome(w, Some(NoSuchDb))
    else
      match env.clients
      case Err(reason) => Outcome(w, Some(ClientMapFailed(reason)))
      case Ok(clients) => ItemsSpec(w, env, job, clients, DbItems(env.tmpDir, job, dbs, tokens))
  }

  /** `handleDirectory`: the client map first, then one item. */
  function HandleDirectorySpec(w: World, env: Env, job: Cronjob, token: string): (o: Outcome)
    requires env.clients.Ok? ==> Covers(env.clients.value, AccountIds(job))
    ensures o.w.runs == w.runs && o.w.nextRunId == w.nextRunId
  {
    match env.clients
    case Err(reason) => Outcome(w, Some(ClientMapFailed(reason)))
    case Ok(clients) => ItemSpec(w, env, job, clients, DirectoryItem(env.tmpDir, job, token))
  }

  /** `handleSystemLog`: the client map first, then the bundle, then the
      upload of the bundle and its record. */
  function HandleSystemLogSpec(w: World, env: Env, repos: Repos, job: Cronjob, token: string): (o: Outcome)
    requires env.clients.Ok? ==> Covers(env.clients.value, AccountIds(job))
    ensures o.w.runs == w.runs && o.w.nextRunId == w.nextRunId
  {
    match env.clients
    case Err(reason) => Outcome(w, Some(ClientMapFailed(reason)))
    case Ok(clients) =>
      var b := BundleSpec(w, env, repos, LogTarget(env.tmpDir, token), SystemLogFileName(token));
      if b.err.Some? then b else ShipSpec(b.w, env, job, clients, LogItem(env.tmpDir, job, token))
  }

  /** The record of a snapshot run: kept under `system_snapshot`, never
      uploaded by the handler itself. */
  function SnapshotRecord(job: Cronjob, name: string): BackupRecord
  {
    NewRecord(job, "snapshot", job.name, "").(fileDir := "system_snapshot", fileName := SnapshotFileName(name))
  }

  /** `handleSnapshot`: the client map, the snapshot data, the snapshot
      itself (which adds its row), then the record and the sweep. */
  function HandleSnapshotSpec(w: World, env: Env, repos: Repos, job: Cronjob, token: string): (o: Outcome)
    requires env.clients.Ok? ==> Covers(env.clients.value, AccountIds(job))
    ensures o.w.runs == w.runs && o.w.nextRunId == w.nextRunId
  {
    match env.clients
    case Err(reason) => Outcome(w, Some(ClientMapFailed(reason)))
    case Ok(clients) =>
      if !env.snapshotDataOk then Outcome(w, Some(SnapshotDataFailed))
      else
        var name := SnapshotName(repos.isMaster, repos.version, repos.osName, token);
        if !env.snapshotOk(name) then Outcome(w, Some(SnapshotFailed))
        else StoreSpec(w.(snapshots := w.snapshots + [name]), env, job, clients, SnapshotRecord(job, name))
  }

  // ---------------------------------------------------------------------------
  // Properties of the item loop

  /** Fail-fast: when item `k` fails after the items before it succeeded,
      the run ends with item `k`'s outcome and no later item is attempted;
      the ledger is the one the earlier items left. */
  lemma {:induction false} ItemsStopAtFailure(w: World, env: Env, job: Cronjob, clients: AccountMap, items: seq<Item>, k: nat)
    requires Covers(clients, AccountIds(job))
    requires k < |items|
    requires ItemsSpec(w, env, job, clients, items[..k]).err.None?
    requires ItemSpec(ItemsSpec(w, env, job, clients, items[..k]).w, env, job, clients, items[k]).err.Some?
    ensures var before := ItemsSpec(w, env, job, clients, items[..k]);
      ItemsSpec(w, env, job, clients, items) == ItemSpec(before.w, env, job, clients, items[k]) &&
      ItemsSpec(w, env, job, clients, items).w.ledger == before.w.ledger
  {
    var init := items[..|items| - 1];
    if |items| == k + 1 {
      assert init == items[..k];
    } else {
      assert init[..k] == items[..k];
      assert init[k] == items[k];
      ItemsStopAtFailure(w, env, job, clients, init, k);
    }
  }

  /** A run that succeeds ran every item, each successfully. */
  lemma {:induction false} ItemsAllSucceeded(w: World, env: Env, job: Cronjob, clients: AccountMap, items: seq<Item>, k: nat)
    requires Covers(clients, AccountIds(job))
    requires k < |items|
    requires ItemsSpec(w, env, job, clients, items).err.None?
    ensures ItemsSpec(w, env, job, clients, items[..k]).err.None?
    ensures ItemSpec(ItemsSpec(w, env, job, clients, items[..k]).w, env, job, clients, items[k]).err.None?
  {
    var init := items[..|items| - 1];
    if |items| != k + 1 {
      assert init[..k] == items[..k];
      assert init[k] == items[k];
      ItemsAllSucceeded(w, env, job, clients, init, k);
    } else {
      assert init == items[..k];
    }
  }

  /** Storing keeps the ledger's ids increasing and below the next id. */
  lemma StoreKeepsValid(w: World, env: Env, job: Cronjob, clients: AccountMap, rec: BackupRecord)
    requires Covers(clients, AccountIds(job))
    requires WorldValid(w)
    ensures WorldValid(StoreSpec(w, env, job, clients, rec).w)
  {
    if env.createOk(rec) {
      var stored := rec.(id := w.nextId);
      var w1 := w.(ledger := w.ledger + [stored], nextId := w.nextId + 1);
      AppendIncreasing(w.ledger, stored, BackupId);
      DropIdsIncreasing(w1.ledger, BackupId, IdSet(SweepExpired(w1, job, stored), BackupId));
    }
  }

  lemma ItemKeepsValid(w: World, env: Env, job: Cronjob, clients: AccountMap, item: Item)
    requires Covers(clients, AccountIds(job))
    requires WorldValid(w)
    ensures WorldValid(ItemSpec(w, env, job, clients, item).w)
  {
    var p := ProduceSpec(w, env, item);
    if p.err.None? {
      ShipKeepsValid(p.w, env, job, clients, item);
    }
  }

  lemma ShipKeepsValid(w: World, env: Env, job: Cronjob, clients: AccountMap, item: Item)
    requires Covers(clients, AccountIds(job))
    requires WorldValid(w)
    ensures WorldValid(ShipSpec(w, env, job, clients, item).w)
  {
    var (w1, up) := UploadSpec(w, env, job, clients, item.archive);
    if up.Ok? {
      StoreKeepsValid(w1, env, job, clients, Filed(item, up.value));
    }
  }

  lemma {:induction false} ItemsKeepValid(w: World, env: Env, job: Cronjob, clients: AccountMap, items: seq<Item>)
    requires Covers(clients, AccountIds(job))
    requires WorldValid(w)
    ensures WorldValid(ItemsSpec(w, env, job, clients, items).w)
  {
    if |items| > 0 {
      var init := items[..|items| - 1];
      ItemsKeepValid(w, env, job, clients, init);
      var o := ItemsSpec(w, env, job, clients, init);
      if o.err.None? {
        ItemKeepsValid(o.w, env, job, clients, items[|items| - 1]);
      }
    }
  }

  /** The record just stored is the newest of its own scope, so its sweep
      keeps it exactly when `RetainCopies` is at least 1; with 0 the sweep
      deletes the record it was called for. */
  lemma StoredSurvivesSweep(w: World, env: Env, job: Cronjob, clients: AccountMap, rec: BackupRecord)
    requires Covers(clients, AccountIds(job))
    requires WorldValid(w) && env.createOk(rec)
    requires rec.from == "cronjob" && rec.cronjobId == job.id
    ensures rec.(id := w.nextId) in StoreSpec(w, env, job, clients, rec).w.ledger <==> job.retainCopies >= 1
  {
    var stored := rec.(id := w.nextId);
    var w1 := w.(ledger := w.ledger + [stored], nextId := w.nextId + 1);
    var sc := SweepScope(job, stored);
    assert InScope(stored, sc);
    AppendIncreasing(w.ledger, stored, BackupId);
    assert w1.ledger[..|w1.ledger| - 1] == w.ledger;
    var f := Filter(w1.ledger, sc, InScope);
    assert f == Filter(w.ledger, sc, InScope) + [stored];
    var list := Reverse(f);
    assert list[0] == stored;
    PruneKeepsNewest(w1.ledger, sc, InScope, BackupId, job.retainCopies);
    var after := SweepSpec(w1, job, clients, stored).ledger;
    FilterMembers(after, sc, InScope);
    ReverseMembers(Filter(after, sc, InScope));
    if job.retainCopies >= 1 {
      assert Newest(after, sc, InScope)[0] == stored;
    } else {
      assert |Newest(after, sc, InScope)| == 0;
    }
  }

  // ---------------------------------------------------------------------------
  // Keys

  /** An artifact staged at `tmp/sub/<file>` is uploaded under the key
      `sub/<file>`, and the record stored for it is deleted by the sweep at
      the very key each account received it under. */
  lemma StagedKeyAgrees(tmp: string, sub: string, item: Item, job: Cronjob, client: Client)
    requires tmp != "" && sub != "" && item.fileName != "" && '/' !in item.fileName
    requires job.jobType != "snapshot"
    requires item.archive == Staged(tmp, sub, item.fileName)
    ensures CloudKey(tmp, item.archive) == sub + "/" + item.fileName
    ensures var key := CloudKey(tmp, item.archive);
      DeleteKey(job, client, Filed(item, key)) == PathJoin([client.backupPath, key])
  {
    CloudKeyOfArchive(tmp, sub, item.fileName);
    UploadKeyIsDeleteKey(job, client, Filed(item, sub + "/" + item.fileName), sub);
  }

  /** The bundle written beside `tmp/log/<token>` is `tmp/log/<file>`. */
  lemma LogArchiveStaged(tmp: string, job: Cronjob, token: string)
    requires tmp != "" && token != "" && '/' !in token
    ensures LogItem(tmp, job, token).archive == Staged(tmp, "log", SystemLogFileName(token))
  {
    var dir := PathJoin([tmp, "log"]);
    PathJoinPair(tmp, "log");
    PathJoinTriple(tmp, "log", token);
    PathJoinPair(tmp, "log" + "/" + token);
    assert LogTarget(tmp, token) == dir + "/" + token;
    DirOfChild(dir, token);
    assert PathDir(LogTarget(tmp, token)) == dir;
  }

  /** For the handlers that back up selected items (apps, websites and
      databases), the sweep's delete key of the stored record is the key the
      upload used, provided the names that go into the file name contain no
      '/'. */
  lemma ItemKeysAgree(tmp: string, job: Cronjob, client: Client, token: string, app: AppInstall, web: Website, db: DatabaseHelper)
    requires tmp != "" && job.jobType != "snapshot" && token != ""
    requires '/' !in token && '/' !in app.name && '/' !in web.primaryDomain && '/' !in db.name
    ensures var it := AppItem(tmp, job, app, token); var key := CloudKey(tmp, it.archive);
      DeleteKey(job, client, Filed(it, key)) == PathJoin([client.backupPath, key])
    ensures var it := WebsiteItem(tmp, job, web, token); var key := CloudKey(tmp, it.archive);
      DeleteKey(job, client, Filed(it, key)) == PathJoin([client.backupPath, key])
    ensures var it := DbItem(tmp, job, db, token); var key := CloudKey(tmp, it.archive);
      DeleteKey(job, client, Filed(it, key)) == PathJoin([client.backupPath, key])
  {
    var a := AppItem(tmp, job, app, token);
    StagedKeyAgrees(tmp, "app/" + app.appKey + "/" + app.name, a, job, client);
    var ws := WebsiteItem(tmp, job, web, token);
    StagedKeyAgrees(tmp, "website/" + web.primaryDomain, ws, job, client);
    var d := DbItem(tmp, job, db, token);
    StagedKeyAgrees(tmp, "database/" + db.dbType + "/" + db.database + "/" + db.name, d, job, client);
  }

  /** The same agreement for directory and system-log jobs, whose file names
      are built from the job alone. */
  lemma SingleItemKeysAgree(tmp: string, job: Cronjob, client: Client, token: string)
    requires tmp != "" && job.jobType != "snapshot" && token != "" && '/' !in token
    ensures var it := DirectoryItem(tmp, job, token); var key := CloudKey(tmp, it.archive);
      DeleteKey(job, client, Filed(it, key)) == PathJoin([client.backupPath, key])
    ensures var it := LogItem(tmp, job, token); var key := CloudKey(tmp, it.archive);
      DeleteKey(job, client, Filed(it, key)) == PathJoin([client.backupPath, key])
  {
    ReplaceAllClearsChar(job.sourceDir, '/', "_");
    var dir := DirectoryItem(tmp, job, token);
    StagedKeyAgrees(tmp, job.jobType + "/" + job.name, dir, job, client);
    LogArchiveStaged(tmp, job, token);
    StagedKeyAgrees(tmp, "log", LogItem(tmp, job, token), job, client);
  }

  /** The snapshot row a sweep deletes for a snapshot record is the one the
      run created. */
  lemma SnapshotRecordNamesSnapshot(job: Cronjob, name: string)
    ensures TrimSuffix(SnapshotRecord(job, name).fileName, ".tar.gz") == name
    ensures SnapshotRecord(job, name).fileDir == "system_snapshot"
  {
    SnapshotFileNameRoundTrip(name);
  }

  // ---------------------------------------------------------------------------
  // Properties of the log bundle

  lemma {:induction false} RunStepsAppend(w: World, env: Env, a: seq<Step>, b: seq<Step>)
    ensures RunSteps(w, env, a + b) ==
      (var o := RunSteps(w, env, a); if o.err.Some? then o else RunSteps(o.w, env, b))
  {
    if |b| == 0 {
      assert a + b == a;
    } else {
      assert (a + b)[..|a + b| - 1] == a + b[..|b| - 1];
      RunStepsAppend(w, env, a, b[..|b| - 1]);
    }
  }

  lemma {:induction false} WebsitesStepsAppend(repos: Repos, target: string, nginx: string, a: seq<Website>, b: seq<Website>)
    ensures WebsitesSteps(repos, target, nginx, a + b) ==
      WebsitesSteps(repos, target, nginx, a) + WebsitesSteps(repos, target, nginx, b)
  {
    if |b| == 0 {
      assert a + b == a;
    } else {
      var init := b[..|b| - 1];
      assert (a + b)[..|a + b| - 1] == a + init;
      assert (a + b)[|a + b| - 1] == b[|b| - 1];
      WebsitesStepsAppend(repos, target, nginx, a, init);
    }
  }

  /** One more website runs its steps after those of the sites before it,
      unless an earlier step failed. */
  lemma WebsitesStepsSnoc(w: World, env: Env, repos: Repos, target: string, nginx: string, webs: seq<Website>, i: nat)
    requires i < |webs|
    ensures RunSteps(w, env, WebsitesSteps(repos, target, nginx, webs[..i + 1])) ==
      (var o := RunSteps(w, env, WebsitesSteps(repos, target, nginx, webs[..i]));
       if o.err.Some? then o else RunSteps(o.w, env, WebsiteSteps(repos, target, nginx, webs[i])))
  {
    assert webs[..i + 1][..i] == webs[..i];
    RunStepsAppend(w, env, WebsitesSteps(repos, target, nginx, webs[..i]), WebsiteSteps(repos, target, nginx, webs[i]));
  }

  /** A failure while staging the first `i` websites is the outcome of
      staging all of them. */
  lemma WebsitesStopAtFailure(w: World, env: Env, repos: Repos, target: string, nginx: string, webs: seq<Website>, i: nat)
    requires i <= |webs|
    requires RunSteps(w, env, WebsitesSteps(repos, target, nginx, webs[..i])).err.Some?
    ensures RunSteps(w, env, WebsitesSteps(repos, target, nginx, webs)) ==
      RunSteps(w, env, WebsitesSteps(repos, target, nginx, webs[..i]))
  {
    assert webs[..i] + webs[i..] == webs;
    WebsitesStepsAppend(repos, target, nginx, webs[..i], webs[i..]);
    RunStepsAppend(w, env, WebsitesSteps(repos, target, nginx, webs[..i]), WebsitesSteps(repos, target, nginx, webs[i..]));
  }

  /** Copies never fail, so a run of copies never does. */
  lemma {:induction false} CopiesNeverFail(w: World, env: Env, steps: seq<Step>)
    requires forall s :: s in steps ==> s.Copy?
    ensures RunSteps(w, env, steps).err.None?
  {
    if |steps| > 0 {
      assert steps[|steps| - 1] in steps;
      CopiesNeverFail(w, env, steps[..|steps| - 1]);
    }
  }

  /** One more listed entry adds its copy, when the filter picks it. */
  lemma CopyStepsSnoc(w: World, env: Env, dir: string, entries: seq<DirEntry>, dst: string, pick: DirEntry -> bool, j: nat)
    requires j < |entries|
    ensures var o := RunSteps(w, env, CopySteps(dir, entries[..j], dst, pick));
      var e := entries[j];
      o.err.None? &&
      RunSteps(w, env, CopySteps(dir, entries[..j + 1], dst, pick)) ==
        if pick(e) then Outcome(o.w.(copied := o.w.copied + [(PathJoin([dir, e.name]), dst)]), None) else o
  {
    var prev := CopySteps(dir, entries[..j], dst, pick);
    CopiesNeverFail(w, env, prev);
    assert entries[..j + 1][..j] == entries[..j];
    var e := entries[j];
    if pick(e) {
      var c := Copy(PathJoin([dir, e.name]), dst);
      assert (prev + [c])[..|prev|] == prev;
    } else {
      assert prev + [] == prev;
    }
  }

  /** A copy into `dst` is planned exactly for the listed entries the
      filter picks. */
  lemma {:induction false} CopyStepsMembers(dir: string, entries: seq<DirEntry>, dst: string, pick: DirEntry -> bool, src: string)
    ensures Copy(src, dst) in CopySteps(dir, entries, dst, pick) <==>
      exists e :: e in entries && pick(e) && src == PathJoin([dir, e.name])
  {
    if |entries| > 0 {
      var init := entries[..|entries| - 1];
      var e := entries[|entries| - 1];
      CopyStepsMembers(dir, init, dst, pick, src);
      assert entries == init + [e];
      if exists x :: x in entries && pick(x) && src == PathJoin([dir, x.name]) {
        var x :| x in entries && pick(x) && src == PathJoin([dir, x.name]);
        if x != e {
          assert x in init;
        }
      }
    }
  }

  /** The login logs collected are exactly the plain files of `/var/log`
      whose name starts with "secure" or "auth.log". */
  lemma LoginLogsCopied(repos: Repos, target: string, src: string)
    ensures Copy(src, PathJoin([target, "login"])) in LoginSteps(repos, target) <==>
      exists e :: e in repos.listing(LoginLogSource) && !e.isDir &&
        (HasPrefix(e.name, "secure") || HasPrefix(e.name, "auth.log")) && src == PathJoin([LoginLogSource, e.name])
  {
    CopyStepsMembers(LoginLogSource, repos.listing(LoginLogSource), PathJoin([target, "login"]), LoginLogSelected, src);
  }

  /** Steps that remove nothing only add directories, and no step touches
      the tables or the storage. */
  lemma {:induction false} StepsKeepDirs(w: World, env: Env, steps: seq<Step>)
    requires forall s :: s in steps ==> s.Mkdir? || s.Copy?
    ensures w.dirs <= RunSteps(w, env, steps).w.dirs
  {
    if |steps| > 0 {
      StepsKeepDirs(w, env, steps[..|steps| - 1]);
      assert steps[|steps| - 1] in steps;
    }
  }

  lemma {:induction false} StepsKeepTables(w: World, env: Env, steps: seq<Step>)
    ensures var w' := RunSteps(w, env, steps).w;
      w'.ledger == w.ledger && w'.nextId == w.nextId && w'.calls == w.calls &&
      w'.snapshots == w.snapshots && w'.runs == w.runs && w'.nextRunId == w.nextRunId && w'.removed == w.removed
  {
    if |steps| > 0 {
      StepsKeepTables(w, env, steps[..|steps| - 1]);
    }
  }

  /** The staging tree is removed only after the bundle was written: on
      success no directory below it is left, every other directory is, and
      the bundle is present; on any failure no directory was removed. Copy failures never fail the
      bundle. */
  lemma BundleRemovesStagingOnlyOnSuccess(w: World, env: Env, repos: Repos, target: string, fileName: string)
    ensures var o := BundleSpec(w, env, repos, target, fileName);
      (o.err.None? ==> BundleArchive(target, fileName) in o.w.local && forall d :: d in o.w.dirs ==> d != target && !HasPrefix(d, target + "/")) &&
      (o.err.None? ==> forall d :: d in w.dirs && d != target && !HasPrefix(d, target + "/") ==> d in o.w.dirs) &&
      (o.err.Some? ==> w.dirs <= o.w.dirs)
  {
    if repos.websitesListOk && !(|repos.websites| != 0 && repos.openresty.None?) {
      var nginx := if |repos.websites| != 0 then repos.openresty.value else "";
      FinishAfterStaging(w, env, StagingSteps(repos, target, nginx), target, fileName);
    }
  }

  /** Staging steps that only create directories and copy, then the
      compression and the removal of the staging tree. */
  lemma FinishAfterStaging(w: World, env: Env, staging: seq<Step>, target: string, fileName: string)
    requires forall s :: s in staging ==> s.Mkdir? || s.Copy?
    ensures var o := RunSteps(w, env, staging + FinishSteps(target, fileName));
      (o.err.None? ==> BundleArchive(target, fileName) in o.w.local && forall d :: d in o.w.dirs ==> d != target && !HasPrefix(d, target + "/")) &&
      (o.err.None? ==> forall d :: d in w.dirs && d != target && !HasPrefix(d, target + "/") ==> d in o.w.dirs) &&
      (o.err.Some? ==> w.dirs <= o.w.dirs)
  {
    var compress := Compress(target, BundleArchive(target, fileName));
    var plan := staging + FinishSteps(target, fileName);
    assert plan[..|plan| - 1] == staging + [compress];
    assert plan[|plan| - 1] == RemoveTree(target);
    assert (staging + [compress])[..|staging|] == staging;
    var o0 := RunSteps(w, env, staging);
    var o1 := RunSteps(w, env, staging + [compress]);
    assert o1 == if o0.err.Some? then o0 else StepSpec(o0.w, env, compress);
    StepsKeepDirs(w, env, staging);
    assert o1.err.Some? ==> w.dirs <= o1.w.dirs;
    assert o1.err.None? ==> BundleArchive(target, fileName) in o1.w.local;
  }

  lemma BundleKeepsTables(w: World, env: Env, repos: Repos, target: string, fileName: string)
    ensures var w' := BundleSpec(w, env, repos, target, fileName).w;
      w'.ledger == w.ledger && w'.nextId == w.nextId && w'.calls == w.calls &&
      w'.snapshots == w.snapshots && w'.runs == w.runs && w'.nextRunId == w.nextRunId && w'.removed == w.removed
  {
    if repos.websitesListOk && !(|repos.websites| != 0 && repos.openresty.None?) {
      var nginx := if |repos.websites| != 0 then repos.openresty.value else "";
      StepsKeepTables(w, env, StagingSteps(repos, target, nginx) + FinishSteps(target, fileName));
    }
  }

  // ---------------------------------------------------------------------------
  // Handlers: order of the early errors, and the id invariant

  /** App, website and database jobs report an empty selection before the
      client map is even consulted, and change nothing. */
  lemma SelectionBeforeClients(w: World, env: Env, repos: Repos, job: Cronjob, tokens: nat -> string)
    requires env.clients.Ok? ==> Covers(env.clients.value, AccountIds(job))
    ensures AppsForJob(job, repos) == Ok([]) ==> HandleAppSpec(w, env, repos, job, tokens) == Outcome(w, Some(NoSuchApp))
    ensures WebsForJob(job, repos) == [] ==> HandleWebsiteSpec(w, env, repos, job, tokens) == Outcome(w, Some(NoSuchWebsite))
    ensures DbsForJob(job, repos) == [] ==> HandleDatabaseSpec(w, env, repos, job, tokens) == Outcome(w, Some(NoSuchDb))
  {
  }

  /** A website job naming an id no website has fails with "no such
      website" and changes nothing. */
  lemma UnknownWebsiteFails(w: World, env: Env, repos: Repos, job: Cronjob, tokens: nat -> string)
    requires env.clients.Ok? ==> Covers(env.clients.value, AccountIds(job))
    requires job.website != "all"
    requires forall x :: x in repos.websites ==> x.id != SelectedId(job.website)
    ensures HandleWebsiteSpec(w, env, repos, job, tokens) == Outcome(w, Some(NoSuchWebsite))
  {
    assert |WebsForJob(job, repos)| != 1;
  }

  /** A website job for "all" whose listing fails reports "no such
      website", not the listing's error, and changes nothing. */
  lemma FailedListingSelectsNoWebsite(w: World, env: Env, repos: Repos, job: Cronjob, tokens: nat -> string)
    requires env.clients.Ok? ==> Covers(env.clients.value, AccountIds(job))
    requires job.website == "all" && !repos.websitesListOk
    ensures HandleWebsiteSpec(w, env, repos, job, tokens) == Outcome(w, Some(NoSuchWebsite))
  {
    assert WebsForJob(job, repos) == [];
  }

  /** Directory, log and snapshot jobs build the client map first: when
      that fails nothing is produced, staged or stored. */
  lemma ClientsBeforeWork(w: World, env: Env, repos: Repos, job: Cronjob, token: string)
    requires env.clients.Err?
    ensures HandleDirectorySpec(w, env, job, token) == Outcome(w, Some(ClientMapFailed(env.clients.error)))
    ensures HandleSystemLogSpec(w, env, repos, job, token) == Outcome(w, Some(ClientMapFailed(env.clients.error)))
    ensures HandleSnapshotSpec(w, env, repos, job, token) == Outcome(w, Some(ClientMapFailed(env.clients.error)))
  {
  }

  /** Every handler keeps the ledger's id invariant. */
  lemma SelectingHandlersKeepValid(w: World, env: Env, repos: Repos, job: Cronjob, tokens: nat -> string)
    requires env.clients.Ok? ==> Covers(env.clients.value, AccountIds(job))
    requires WorldValid(w)
    ensures WorldValid(HandleAppSpec(w, env, repos, job, tokens).w)
    ensures WorldValid(HandleWebsiteSpec(w, env, repos, job, tokens).w)
    ensures WorldValid(HandleDatabaseSpec(w, env, repos, job, tokens).w)
  {
    if env.clients.Ok? {
      var clients := env.clients.value;
      var apps := AppsForJob(job, repos);
      if apps.Ok? {
        ItemsKeepValid(w, env, job, clients, AppItems(env.tmpDir, job, apps.value, tokens));
      }
      ItemsKeepValid(w, env, job, clients, WebsiteItems(env.tmpDir, job, WebsForJob(job, repos), tokens));
      ItemsKeepValid(w, env, job, clients, DbItems(env.tmpDir, job, DbsForJob(job, repos), tokens));
    }
  }

  lemma SingleHandlersKeepValid(w: World, env: Env, repos: Repos, job: Cronjob, token: string)
    requires env.clients.Ok? ==> Covers(env.clients.value, AccountIds(job))
    requires WorldValid(w)
    ensures WorldValid(HandleDirectorySpec(w, env, job, token).w)
    ensures WorldValid(HandleSystemLogSpec(w, env, repos, job, token).w)
    ensures WorldValid(HandleSnapshotSpec(w, env, repos, job, token).w)
  {
    if env.clients.Ok? {
      var clients := env.clients.value;
      ItemKeepsValid(w, env, job, clients, DirectoryItem(env.tmpDir, job, token));
      var target := LogTarget(env.tmpDir, token);
      var b := BundleSpec(w, env, repos, target, SystemLogFileName(token));
      BundleKeepsTables(w, env, repos, target, SystemLogFileName(token));
      assert WorldValid(b.w);
      ShipKeepsValid(b.w, env, job, clients, LogItem(env.tmpDir, job, token));
      if env.snapshotDataOk {
        var name := SnapshotName(repos.isMaster, repos.version, repos.osName, token);
        StoreKeepsValid(w.(snapshots := w.snapshots + [name]), env, job, clients, SnapshotRecord(job, name));
      }
    }
  }
}
