# Scheduled backups, run records and the master address of 1Panel

This project models three pieces of the 1Panel server-management panel in Dafny.

**The agent's backup jobs.** `handleApp`, `handleWebsite` and `handleDatabase` pick the items a job covers. `handleDirectory`, `handleSystemLog` and `handleSnapshot` handle a single item. For every item, a handler does four things in order:
- writes an archive under the temporary directory;
- uploads it to each storage account of the job;
- stores a backup record;
- runs the retention sweep, which deletes the copies beyond `RetainCopies` in every account and drops their records.

The system-log job first stages the website, panel and login logs into a tree, compresses it, and removes the tree.

**The run record of a job.** `HandleJob` opens a run record, runs the job body for the job's type, and ends the record with its status, error text and log path. Shell, curl, NTP and clean runs then sweep the job's older run records and the files they name. A log cut sweeps inside its own body, and only when OpenResty is installed: without it the body returns at once, with no error and no sweep.

**The `MasterAddr` setting of the core service.** `loadPort` reads the trailing port of an address with a regular expression. `UpdatePort` and `UpdateSSL` rewrite the stored master address when the panel port or HTTPS changes.

The model has seven modules:

| module | file | what it holds |
|---|---|---|
| `GoStd` | go_std.dfy | `strings` and `path` functions the code calls, with their laws |
| `Entities` | entities.dfy | jobs, backup records and run records, artifact names, log paths |
| `Retention` | retention.dfy | keep the newest N, over any sequence with increasing ids |
| `CronjobHelper` | cronjob_helper.dfy | the state (`World`), and the upload and sweep specifications |
| `CronjobBackup` | cronjob_backup.dfy | item selection, the handlers and the log bundle, as functions |
| `Service` | cronjob_service.dfy | the class `CronjobService`, whose methods change the state step by step, and `HandleJob` |
| `SettingPort` | setting_port.dfy | `loadPort` as a leftmost-first regex matcher, and the rewrites |

**The state.** `CronjobService` holds the repositories and the effects as fields:
- the backup ledger and its next id;
- the log of storage calls;
- the files under the temporary directory;
- the archives the producers wrote;
- the snapshot table;
- the run-record table and its next id;
- the files removed;
- the directories created and the files copied.

Every method is proved to leave exactly the state that a specification function of the state before it gives. The properties the code promises are proved as lemmas about those functions.

**What is a parameter.** The outside world is a parameter `Env`:
- the temporary directory;
- the result of building the client map;
- whether each upload, producer run, record insert, directory creation or snapshot succeeds.

The repositories' listings are a parameter `Repos`. The random file-name tokens are parameters too. So are the outcomes of the job bodies that are not backups: shell, curl, NTP, log cut and clean (`Service.External`).

## Model

| member | source | states |
|---|---|---|
| CronjobBackup.AppsForJob | agent/app/service/cronjob_backup.go:21-31 | "all" selects every install. Otherwise the result is the install with the selected id, or the not-found error exactly when no install has it. |
| CronjobBackup.WebsForJob | agent/app/service/cronjob_backup.go:322-333 | "all" selects every website, or none when listing them fails, since that error is dropped. Otherwise there is at most one website, with the selected id. It is there exactly when the id is non-zero and a website has it. |
| CronjobBackup.DbsForJob | agent/app/service/cronjob_backup.go:275-319 | Every helper carries the job's database type. "all" maps every row of the job's engine in order. Otherwise there is exactly one helper: the row with the id, or the zero row when none has it. |
| CronjobBackup.LoadDbsForJob | agent/app/service/cronjob_backup.go:275-319 | The loop over the rows builds exactly `DbsForJob`. |
| CronjobBackup.Lookup | agent/app/service/cronjob_backup.go:26-29 | A found row is in the table and has the id. Not found means no row has it. |
| CronjobBackup.FindDb | agent/app/service/cronjob_backup.go:306-317 | Returns the row with the id, or the zero row when there is none. |
| CronjobBackup.ProduceSpec | agent/app/service/cronjob_backup.go:49-51 | The producer fails exactly when the oracle says so, and then nothing changes. On success the archive is present and the ledger is untouched. |
| CronjobBackup.StoreSpec | agent/app/service/cronjob_backup.go:57-62 | Storing fails exactly when the insert fails, and then nothing changes. Run records are never touched. |
| CronjobBackup.ShipSpec | agent/app/service/cronjob_backup.go:53-62 | After upload, store and sweep, the local archive is gone. On failure the ledger and its next id are unchanged. |
| CronjobBackup.ItemsStopAtFailure | agent/app/service/cronjob_backup.go:39-62 | The first failing item ends the loop. Its failure is the result, and the ledger is as that item left it. |
| CronjobBackup.ItemsAllSucceeded | agent/app/service/cronjob_backup.go:39-63 | A successful loop means every item before k and item k itself succeeded. |
| CronjobBackup.StoreKeepsValid | agent/app/service/cronjob_backup.go:57-62 | Storing a record and sweeping keep ids increasing and below the next id. |
| CronjobBackup.ItemKeepsValid | agent/app/service/cronjob_backup.go:39-62 | One item keeps the id invariant. |
| CronjobBackup.ShipKeepsValid | agent/app/service/cronjob_backup.go:53-62 | Upload, store and sweep keep the id invariant. |
| CronjobBackup.ItemsKeepValid | agent/app/service/cronjob_backup.go:39-63 | The whole item loop keeps the id invariant. |
| CronjobBackup.StoredSurvivesSweep | agent/app/service/cronjob_backup.go:57-62 | The record just stored survives its own sweep exactly when `RetainCopies` is at least 1. |
| CronjobBackup.StagedKeyAgrees | agent/app/service/cronjob_backup.go:47-57 | For an archive staged at `tmp/sub/name`, the cloud key is `sub/name`. The sweep later deletes exactly `backupPath/sub/name`. |
| CronjobBackup.ItemKeysAgree | agent/app/service/cronjob_backup.go:47-57 | For app, website and database items, the key the sweep deletes is the key the upload wrote. |
| CronjobBackup.SingleItemKeysAgree | agent/app/service/cronjob_backup.go:150-176 | The same holds for directory and system-log items. |
| CronjobBackup.LogArchiveStaged | agent/app/service/cronjob_backup.go:189-197 | The system-log archive lies at `tmp/log/<name>`, the directory above the staging tree. |
| CronjobBackup.SnapshotRecordNamesSnapshot | agent/app/service/cronjob_backup.go:231-258 | Trimming ".tar.gz" from a snapshot record's file name gives the snapshot's name. Its directory is "system_snapshot". |
| CronjobBackup.StepSpec | agent/app/service/cronjob_backup.go:336-416 | A failed step changes nothing. A copy never fails, because copy errors are ignored. |
| CronjobBackup.RunSteps | agent/app/service/cronjob_backup.go:336-416 | Staging never touches the run records. |
| CronjobBackup.RunStepsAppend | agent/app/service/cronjob_backup.go:336-416 | Running a + b is running a, then b unless a failed. |
| CronjobBackup.WebsitesStepsAppend | agent/app/service/cronjob_backup.go:348-373 | The steps for a list of websites are the steps for each website, concatenated. |
| CronjobBackup.WebsitesStepsSnoc | agent/app/service/cronjob_backup.go:348-373 | One more website runs its own steps after the earlier ones, unless those failed. |
| CronjobBackup.WebsitesStopAtFailure | agent/app/service/cronjob_backup.go:350-354 | A failed directory creation ends the website loop with that failure. |
| CronjobBackup.CopiesNeverFail | agent/app/service/cronjob_backup.go:358-362 | A run of copies never fails. |
| CronjobBackup.CopyStepsSnoc | agent/app/service/cronjob_backup.go:358-362 | One more entry appends a copy exactly when the entry is picked. |
| CronjobBackup.CopyStepsMembers | agent/app/service/cronjob_backup.go:358-370 | A copy into the destination is planned exactly for the picked entries of the listing. |
| CronjobBackup.LoginLogsCopied | agent/app/service/cronjob_backup.go:393-406 | From /var/log, exactly the plain files whose names start with "secure" or "auth.log" are copied into `login`. |
| CronjobBackup.StepsKeepDirs | agent/app/service/cronjob_backup.go:349-399 | Staging only adds directories. |
| CronjobBackup.StepsKeepTables | agent/app/service/cronjob_backup.go:336-416 | The bundle leaves the ledger, the calls, the snapshots and the run records alone. |
| CronjobBackup.BundleRemovesStagingOnlyOnSuccess | agent/app/service/cronjob_backup.go:409-415 | On success the bundle exists, neither the staging directory nor any path beneath it (`target + "/"` prefix) is left, and every other directory is still there, including siblings that only share the name as a prefix. On failure no directory was removed. |
| CronjobBackup.FinishAfterStaging | agent/app/service/cronjob_backup.go:409-415 | The same holds after any staging made only of directory creations and copies. |
| CronjobBackup.BundleKeepsTables | agent/app/service/cronjob_backup.go:336-416 | `handleBackupLogs` changes no table. |
| CronjobBackup.SelectionBeforeClients | agent/app/service/cronjob_backup.go:32-34 | An empty selection fails with the job's "no such ..." error before the client map is built, and changes nothing. This holds for apps, websites and databases. |
| CronjobBackup.FailedListingSelectsNoWebsite | agent/app/service/cronjob_backup.go:322-326 | A website job for "all" whose listing fails ends with "no such website", not the listing error, and changes nothing. |
| CronjobBackup.UnknownWebsiteFails | agent/app/service/cronjob_backup.go:67-70 | A website id that matches no website fails with "no such website" and changes nothing. |
| CronjobBackup.ClientsBeforeWork | agent/app/service/cronjob_backup.go:146-149 | A client-map error is the result of the directory, system-log and snapshot handlers, before anything changes. |
| CronjobBackup.SelectingHandlersKeepValid | agent/app/service/cronjob_backup.go:20-142 | handleApp, handleWebsite and handleDatabase keep the id invariant. |
| CronjobBackup.SingleHandlersKeepValid | agent/app/service/cronjob_backup.go:145-265 | handleDirectory, handleSystemLog and handleSnapshot keep the id invariant. |
| CronjobBackup.HandleAppSpec | agent/app/service/cronjob_backup.go:20-63 | handleApp never touches the run records. Its errors and effects are stated by the selection, validity and key lemmas. |
| CronjobBackup.HandleWebsiteSpec | agent/app/service/cronjob_backup.go:66-99 | handleWebsite never touches the run records. |
| CronjobBackup.HandleDatabaseSpec | agent/app/service/cronjob_backup.go:102-142 | handleDatabase never touches the run records. |
| CronjobBackup.HandleDirectorySpec | agent/app/service/cronjob_backup.go:145-181 | handleDirectory never touches the run records. |
| CronjobBackup.HandleSystemLogSpec | agent/app/service/cronjob_backup.go:184-212 | handleSystemLog never touches the run records. |
| CronjobBackup.HandleSnapshotSpec | agent/app/service/cronjob_backup.go:215-265 | handleSnapshot never touches the run records. |
| CronjobBackup.ItemSpec | agent/app/service/cronjob_backup.go:39-62 | One item: a failure leaves the ledger and its next id unchanged. |
| CronjobBackup.ItemsSpec | agent/app/service/cronjob_backup.go:39-63 | The item loop never touches the run records. |
| CronjobHelper.UploadPlanCalls | agent/app/service/cronjob_helper.go:212-222 | One upload per non-empty account id, in order, of the file to `backupPath/<key>` of that account. |
| CronjobHelper.UploadPlanAppend | agent/app/service/cronjob_helper.go:214-222 | The plan for a + b is the plan for a followed by the plan for b. |
| CronjobHelper.UploadPlanSnoc | agent/app/service/cronjob_helper.go:214-222 | Account j adds its upload exactly when its id is non-empty. |
| CronjobHelper.FirstFail | agent/app/service/cronjob_helper.go:214-219 | Every call before the index succeeded, and the call at it failed. |
| CronjobHelper.FirstFailAt | agent/app/service/cronjob_helper.go:214-219 | After successes, the first failure is at its own position. |
| CronjobHelper.UploadSpec | agent/app/service/cronjob_helper.go:208-224 | The local file is removed in every outcome. Only the calls change. The result is the file's key below the temporary directory. |
| CronjobHelper.UploadOutcome | agent/app/service/cronjob_helper.go:208-224 | The upload succeeds iff every upload call succeeds, and then every call was made. On failure the calls stop at the first failing account, which the error names. |
| CronjobHelper.UploadSpecFailsAt | agent/app/service/cronjob_helper.go:214-219 | The outcome when account j is the first to fail. |
| CronjobHelper.UploadSpecSucceeds | agent/app/service/cronjob_helper.go:214-223 | The outcome when every upload succeeds. |
| CronjobHelper.CloudKeyOfArchive | agent/app/service/cronjob_helper.go:213 | The key of `tmp/sub/name` is `sub/name`. |
| CronjobHelper.DeletePlanCalls | agent/app/service/cronjob_helper.go:241-255 | One delete per non-empty account id, of the record's key in that account. |
| CronjobHelper.DeletePlanSnoc | agent/app/service/cronjob_helper.go:243-254 | Account j adds its delete exactly when its id is non-empty. |
| CronjobHelper.SweepCallsCount | agent/app/service/cronjob_helper.go:240-257 | The sweep makes (expired records) × (non-empty accounts) delete calls. |
| CronjobHelper.SweepSpec | agent/app/service/cronjob_helper.go:226-258 | The sweep changes only the ledger, the calls and the snapshot table, and it only removes records. |
| CronjobHelper.FilterNamedTwice | agent/app/service/cronjob_helper.go:248 | Deleting snapshot names a then b deletes a ∪ b. |
| CronjobHelper.SweepStep | agent/app/service/cronjob_helper.go:240-257 | Record i of the loop extends the dropped ids, the calls and the deleted snapshot names by its own. |
| CronjobHelper.SweepCallsAdvance | agent/app/service/cronjob_helper.go:240-257 | The deletes for expired record i extend the call log from "first i swept" to "first i + 1 swept". |
| CronjobHelper.LogSweepAdvance | agent/app/service/cronjob_helper.go:265-274 | Deleting expired run i takes the run table and the removed files from "first i swept" to "first i + 1 swept". |
| CronjobHelper.SweepAdvance | agent/app/service/cronjob_helper.go:240-257 | Handling expired record i takes the ledger, the calls and the snapshot table from "first i swept" to "first i + 1 swept". |
| CronjobHelper.SweepStart | agent/app/service/cronjob_helper.go:237-240 | Sweeping no record changes nothing. |
| CronjobHelper.SweepKeepsNewest | agent/app/service/cronjob_helper.go:226-258 | After the sweep, the job's records in scope are exactly the newest `min(RetainCopies, n)` of them, in order. Records outside the scope all survive. |
| CronjobHelper.SweepWithinRetain | agent/app/service/cronjob_helper.go:237-239 | With at most `RetainCopies` records in scope, the sweep does nothing. |
| CronjobHelper.SweepDeletesEveryCopy | agent/app/service/cronjob_helper.go:240-255 | Every expired record is deleted from every non-empty account of the job. |
| CronjobHelper.UploadKeyIsDeleteKey | agent/app/service/cronjob_helper.go:250-253 | For a record whose directory is `Dir(sub/name)`, the delete key is the upload key `backupPath/sub/name`. |
| CronjobHelper.RunFiles | agent/app/service/cronjob_helper.go:266-273 | An expired run releases every entry of its comma-separated file list, then its log. |
| CronjobHelper.LogSweepSpec | agent/app/service/cronjob_helper.go:260-275 | The run-record sweep changes only the run records and the removed files, and it only removes records. |
| CronjobHelper.LogSweepStep | agent/app/service/cronjob_helper.go:265-274 | Run i of the loop extends the dropped ids and the removed files by its own. |
| CronjobHelper.LogSweepStart | agent/app/service/cronjob_helper.go:262-265 | Sweeping no run changes nothing. |
| CronjobHelper.LogSweepKeepsNewest | agent/app/service/cronjob_helper.go:260-275 | The job keeps exactly its newest `min(RetainCopies, n)` runs. Other jobs' runs survive. Every expired run's log is removed. |
| CronjobHelper.RunLogRemoved | agent/app/service/cronjob_helper.go:266-273 | An expired run's log and each of its listed files are removed. |
| Entities.FileNamesSeparateRuns | agent/app/service/cronjob_backup.go:48-190 | Different tokens give different artifact names, for every handler. |
| Entities.SnapshotFileNameRoundTrip | agent/app/service/cronjob_backup.go:258 | The snapshot file name ends in ".tar.gz", and trimming that suffix gives the name back. |
| Entities.LogsPathSeparateRuns | agent/app/service/cronjob_helper.go:277-285 | A run's log lies in the job's log directory. Different start times give different logs. |
| Retention.PruneKeepsNewest | agent/app/service/cronjob_helper.go:237-257 | Dropping the records beyond the first N of a newest-first scope leaves exactly those N in scope. Everything out of scope survives. |
| Retention.PruneScope | agent/app/service/cronjob_helper.go:237-257 | The scope keeps exactly its newest `min(N, n)`. |
| Retention.PruneOthers | agent/app/service/cronjob_helper.go:237-257 | Records out of scope survive the prune. |
| Retention.Expired | agent/app/service/cronjob_helper.go:237-240 | Nothing expires within N. Otherwise everything from index N on expires. |
| Retention.DropOldest | agent/app/service/cronjob_helper.go:256 | With increasing ids, dropping the ids of the first m rows leaves the rest. |
| Retention.FilterDropCommute | agent/app/service/cronjob_helper.go:227-236 | Selecting the scope and dropping ids commute. |
| Retention.DropIdsTwice | agent/app/service/cronjob_helper.go:256 | Dropping ids a then b drops a ∪ b. |
| GoStd.SplitJoin | agent/app/service/cronjob_helper.go:212 | Joining the split parts gives the text back, and no part contains the separator. |
| GoStd.NonEmptyMembers | agent/app/service/cronjob_helper.go:215 | The accounts visited are exactly the non-empty ids. |
| GoStd.TrimPrefix | agent/app/service/cronjob_helper.go:213 | With the prefix, prefix + result is the input. Without it, the input comes back unchanged. |
| GoStd.TrimSuffix | agent/app/service/cronjob_helper.go:248 | With the suffix, result + suffix is the input. Without it, the input comes back unchanged. |
| GoStd.DirOfChild | agent/app/service/cronjob_backup.go:56 | `path.Dir` of `dir/name` is `dir` when the name has no '/'. |
| GoStd.ReplaceAllClearsChar | agent/app/service/cronjob_backup.go:150 | Replacing every '/' by "_" leaves no '/'. |
| GoStd.ReplaceAllAround | core/app/service/setting.go:220 | `ReplaceAll` splits at a character the pattern lacks. |
| GoStd.ReplaceAllAbsent | core/app/service/setting.go:306-311 | `ReplaceAll` leaves a text without the pattern unchanged. |
| SettingPort.HostRunEnd | core/app/service/setting.go:522 | The greedy run of `[^:/\s]` ends at the first character outside the class. |
| SettingPort.DigitsStart | core/app/service/setting.go:522 | Finds the start of the longest all-digit suffix. |
| SettingPort.MatchAtShape | core/app/service/setting.go:522-530 | A match at any position that captures a non-empty group 3 captures exactly the trailing port. |
| SettingPort.LeftmostFindsPort | core/app/service/setting.go:523 | When the address ends in a port, the leftmost match captures it. |
| SettingPort.LeftmostWithoutPort | core/app/service/setting.go:523-532 | Otherwise every match leaves group 3 empty. |
| SettingPort.LoadPortIsTrailingPort | core/app/service/setting.go:521-533 | `loadPort` returns exactly the digits after the last ':', when they are non-empty and follow a host character or ']', and "" otherwise. |
| SettingPort.LoadPortShape | core/app/service/setting.go:521-533 | A port found is all digits and ends the address after a ':'. No match gives "". |
| SettingPort.LoadPortOfHttpAddress | core/app/service/setting.go:521-533 | `loadPort("http://1.2.3.4:9999")` is "9999". |
| SettingPort.LoadPortOfBracketedAddress | core/app/service/setting.go:521-533 | `loadPort("[::1]:8080")` is "8080". |
| SettingPort.LoadPortWithoutPort | core/app/service/setting.go:521-533 | `loadPort("http://host")` is "". |
| SettingPort.LoadPortOfLetters | core/app/service/setting.go:521-533 | `loadPort("host:abc")` is "". |
| SettingPort.LoadPortAfterSlash | core/app/service/setting.go:521-533 | `loadPort("a/:80")` is "". |
| SettingPort.RewriteMasterPortReadsBack | core/app/service/setting.go:217-221 | The rewrite happens iff the address has a port, and `loadPort` then reads the new port. |
| SettingPort.RewriteMasterPortCorruptsHost | core/app/service/setting.go:218-220 | On `scheme:net.P:P` the rewrite as written also changes the host label P. |
| SettingPort.RewriteMasterPortTrailingKeepsHost | core/app/service/setting.go:217-221 | The intended rewrite happens iff the address has a port. It keeps everything before the port and reads back the new port. |
| SettingPort.ReplaceHostAndPort | core/app/service/setting.go:220 | `ReplaceAll` of P in `scheme:net.P:P` replaces both copies. |
| SettingPort.RewriteMasterSchemeRoundTrip | core/app/service/setting.go:307-311 | Enabling HTTPS upgrades "http://", disabling downgrades "https://", and the two undo each other. |
| SettingPort.SslWrites | core/app/service/setting.go:234-292 | Disabling sets SSL "Disable" and SSLType "self". Enabling sets SSLType and SSL from the request. Other rows are kept. |
| SettingPort.WithMasterScheme | core/app/service/setting.go:301-312 | Only MasterAddr is rewritten, and only when it exists. |
| SettingPort.UpdateSslNeverRewritesMaster | core/app/service/setting.go:290-300 | As written, the read-back always equals the request, so MasterAddr is never rewritten. |
| SettingPort.UpdateSslIntendedFollowsScheme | core/app/service/setting.go:299-312 | Reading SSL before writing it, enabling upgrades MasterAddr and disabling restores it. |
| Service.SetRecords | agent/app/service/cronjob_helper.go:35 | `UpdateRecords` sets the log path of the rows with the id and keeps every other row. |
| Service.EndRun | agent/app/service/cronjob_helper.go:80-89 | `EndRecords` changes only the row with the record's id. |
| Service.EndRunRow | agent/app/service/cronjob_helper.go:80-89 | The row with the id becomes the ended record. It is present iff the row was. |
| Service.Ended | agent/app/service/cronjob_helper.go:76-89 | Failed with the error text, or successful with "". A collected message's file replaces the log path. |
| Service.ErrText | agent/app/service/cronjob_helper.go:80 | Gives the error text exactly when there is an error. |
| Service.LoggedBodyRows | agent/app/service/cronjob_helper.go:30-58 | Shell, curl, NTP, log-cut and clean bodies keep the run's identity. Every row afterwards comes from a row before. |
| Service.ShellBodyRows | agent/app/service/cronjob_helper.go:30-45 | The same for shell and curl bodies, which set the run's log path before sweeping. |
| Service.SweepingBodyRows | agent/app/service/cronjob_helper.go:46-58 | The same for NTP, clean and log-cut bodies, including a log cut that returns before sweeping. |
| Service.BackupBodyRows | agent/app/service/cronjob_helper.go:59-74 | Backup bodies leave the record unchanged. Only a snapshot run updates its row's log path. |
| Service.BackupBodyKeepsIds | agent/app/service/cronjob_helper.go:59-74 | A backup body keeps the run's identity, invents no row and keeps every row id. |
| Service.BodyKeepsRecord | agent/app/service/cronjob_helper.go:29-75 | No body changes the run's id, job or start time, or invents a row. Backup bodies keep every row id. |
| Service.OpenedRowIsOwn | agent/app/service/cronjob_helper.go:27 | The row with the new id belongs to this job and this start time. |
| Service.HandleJobLifecycle | agent/app/service/cronjob_helper.go:22-91 | Every run takes one run id. An empty shell, curl or directory job leaves its row Executing. Otherwise its row ends Failed with the error text, or Success. |
| Service.BackupRunIsEnded | agent/app/service/cronjob_helper.go:59-89 | A backup run's row is always present at the end, holding the ended record. |
| Service.OpenedIsFresh | agent/app/service/cronjob_helper.go:27 | The new run id is unused, and opening keeps the id invariant. |
| Service.NonBackupBodyKeepsBackups | agent/app/service/cronjob_helper.go:30-58 | A body that is not a backup changes only the run records, the removed files and the directories. |
| Service.CutWithoutOpenrestyKeepsRuns | agent/app/service/cronjob_helper.go:142-152 | A log cut on a host without OpenResty sweeps no run: every row stays, and the run's own row ends Success with no message, log or file. |
| Service.OnlyBackupJobsTouchBackups | agent/app/service/cronjob_helper.go:22-91 | A job without backups leaves the ledger, the storage calls, the snapshots and the local files alone. |
| Service.NewestRunSurvivesLogSweep | agent/app/service/cronjob_helper.go:260-275 | The newest run of the job survives the log sweep iff `RetainCopies` is at least 1. |
| Service.ShellRunRecordsItsLog | agent/app/service/cronjob_helper.go:30-46 | A shell or curl run's row survives iff `RetainCopies` is at least 1. It then names the run's own log file. |
| Service.HandleJobKeepsValid | agent/app/service/cronjob_helper.go:22-91 | A whole run keeps both tables' ids increasing and below their next ids. |
| Service.BodyValid | agent/app/service/cronjob_helper.go:29-75 | Every body keeps the id invariant. |
| Service.SetRecordsValid | agent/app/service/cronjob_helper.go:35 | `UpdateRecords` keeps the id invariant. |
| Service.LogSweepValid | agent/app/service/cronjob_helper.go:260-275 | The log sweep keeps the id invariant. |
| Service.CronjobService.constructor | agent/app/service/cronjob_helper.go:22 | The service starts in the given state. |
| Service.CronjobService.UploadToAccounts | agent/app/service/cronjob_helper.go:214-222 | The loop returns the first failing account, with exactly the calls up to it. With no failure it has made every upload, and all succeeded. |
| Service.CronjobService.UploadBackFile | agent/app/service/cronjob_helper.go:208-224 | Leaves the state and result `UploadSpec` gives. |
| Service.CronjobService.DeleteFromAccounts | agent/app/service/cronjob_helper.go:243-254 | Appends exactly the record's delete plan to the calls. |
| Service.CronjobService.DeleteExpired | agent/app/service/cronjob_helper.go:241-256 | Deletes the copies, then the snapshot row (for snapshot jobs), then the record. |
| Service.CronjobService.SweepOne | agent/app/service/cronjob_helper.go:240-257 | One loop round keeps the "first i swept" invariant. |
| Service.CronjobService.DeleteAllExpired | agent/app/service/cronjob_helper.go:240-257 | The loop leaves the calls, the snapshot table and the ledger swept of all expired records. |
| Service.CronjobService.RemoveExpiredBackup | agent/app/service/cronjob_helper.go:226-258 | Leaves the state `SweepSpec` gives. |
| Service.CronjobService.DeleteExpiredRun | agent/app/service/cronjob_helper.go:266-273 | Removes the run's files and drops its row. |
| Service.CronjobService.SweepOneRun | agent/app/service/cronjob_helper.go:265-274 | One loop round keeps the "first i swept" invariant. |
| Service.CronjobService.DeleteAllExpiredRuns | agent/app/service/cronjob_helper.go:265-274 | The loop drops every expired row and removes all their files in order. |
| Service.CronjobService.RemoveExpiredLog | agent/app/service/cronjob_helper.go:260-275 | Leaves the state `LogSweepSpec` gives. |
| Service.CronjobService.Produce | agent/app/service/cronjob_backup.go:49-51 | Leaves the state and error `ProduceSpec` gives. |
| Service.CronjobService.Store | agent/app/service/cronjob_backup.go:57-62 | Leaves the state and error `StoreSpec` gives. |
| Service.CronjobService.Ship | agent/app/service/cronjob_backup.go:53-62 | Leaves the state and error `ShipSpec` gives. |
| Service.CronjobService.BackupItems | agent/app/service/cronjob_backup.go:39-63 | The item loop leaves the state and error `ItemsSpec` gives. |
| Service.CronjobService.HandleApp | agent/app/service/cronjob_backup.go:20-63 | Leaves the state and error `HandleAppSpec` gives. |
| Service.CronjobService.HandleWebsite | agent/app/service/cronjob_backup.go:66-99 | Leaves the state and error `HandleWebsiteSpec` gives. |
| Service.CronjobService.HandleDatabase | agent/app/service/cronjob_backup.go:102-142 | Leaves the state and error `HandleDatabaseSpec` gives. |
| Service.CronjobService.HandleDirectory | agent/app/service/cronjob_backup.go:145-181 | Leaves the state and error `HandleDirectorySpec` gives. |
| Service.CronjobService.HandleSystemLog | agent/app/service/cronjob_backup.go:184-212 | Leaves the state and error `HandleSystemLogSpec` gives. |
| Service.CronjobService.HandleSnapshot | agent/app/service/cronjob_backup.go:215-265 | Leaves the state and error `HandleSnapshotSpec` gives. |
| Service.CronjobService.Exec | agent/app/service/cronjob_backup.go:349-411 | One staging step leaves the state `StepSpec` gives. |
| Service.CronjobService.CopyFiles | agent/app/service/cronjob_backup.go:358-362 | The copy loop makes exactly the planned copies and never fails. |
| Service.CronjobService.StageDir | agent/app/service/cronjob_backup.go:378-390 | Create the directory, then copy the picked files. |
| Service.CronjobService.StageWebsiteLogs | agent/app/service/cronjob_backup.go:349-372 | One website's directory and its two log copies. |
| Service.CronjobService.StageWebsites | agent/app/service/cronjob_backup.go:348-373 | The website loop stops at the first failed directory creation. |
| Service.CronjobService.StageAndCompress | agent/app/service/cronjob_backup.go:342-415 | Staging, compression and removal, in the source's order. |
| Service.CronjobService.BackupLogs | agent/app/service/cronjob_backup.go:336-416 | Leaves the state and error `BundleSpec` gives, including the early listing and openresty errors. |
| Service.CronjobService.GenerateLogsPath | agent/app/service/cronjob_helper.go:277-285 | Returns `<data>/task/<type>/<name>/<start>.log` and creates the directory when it is missing. |
| Service.CronjobService.LoggedBody | agent/app/service/cronjob_helper.go:30-58 | Runs a shell, curl, NTP, log-cut or clean body as `RunBody` says. A log cut without OpenResty returns before the sweep. |
| Service.CronjobService.SelectingBody | agent/app/service/cronjob_helper.go:59-64 | Runs a website, app or database body as `RunBody` says. |
| Service.CronjobService.SingleBody | agent/app/service/cronjob_helper.go:65-74 | Runs a directory, log or snapshot body as `RunBody` says. |
| Service.CronjobService.RunJobBody | agent/app/service/cronjob_helper.go:29-75 | Dispatches on the job type as `RunBody` says. |
| Service.CronjobService.OpenRun | agent/app/service/cronjob_helper.go:27 | Appends the new Executing row and takes the next run id. |
| Service.CronjobService.EndJob | agent/app/service/cronjob_helper.go:76-89 | Ends the row as `Ended` says. |
| Service.CronjobService.HandleJob | agent/app/service/cronjob_helper.go:22-91 | Leaves the state `HandleJobSpec` gives. |

## Left out

- The goroutines of `HandleJob`, `UpdatePort` and `UpdateSSL` are not modelled. Each is taken as a run-to-completion step after its caller.
- The repositories' locks, the logger and the `systemctl` restart are not modelled.
- The job bodies outside the backup code are the parameter `Service.External`. This covers `handleShell`, the curl command, `handleNtpSync`, `handleCutWebsiteLog` and `handleSystemClean`. The model keeps what `HandleJob` does with their outcome, and the log cut's early return when OpenResty is missing (the `openresty` field). The log cut's own archiving of the website logs is not modelled.
- `mkdirAndWriteFile` is reduced to the path it returns.
- The archive producers are an oracle, with no model of what they write. These are `handleAppBackup`, `handleMysqlBackup`, `handlePostgresqlBackup`, `TarGzCompressPro`, `Compress`, `LoadSnapshotData` and `SnapshotCreate`. The argument order of the `TarGzCompressPro` call in `handleBackupLogs` is not checked.
- The storage clients and `NewBackupClientMap` are oracles. A client map that lacks a listed account is excluded by `Covers`: the Go code would call a method on a nil client.
- `ListRecord` and `DeleteRecord` errors are ignored, as the code ignores them. A listing is taken to succeed.
- Rows created in the same instant are not modelled. "created_at desc" is taken as the reverse of insertion order.
- `StartRecords` is not part of this model. Its row is taken to open with status Executing, an empty message and an empty log path.
- `taskID` and the task log are not modelled.
- The error texts are not modelled: an error is a constructor, and `Message` only guarantees a non-empty text.
- `path.Join` is modelled without `path.Clean`: components are joined with '/' and empty ones are skipped. Addresses with "..", "." or doubled slashes are outside the model.
- `strconv.Atoi` is modelled on digit strings without its overflow error. Any other text gives 0, as the ignored error does.
- Of `UpdateSSL`, the certificate import, the temporary files and `UpdateSystemSSL` are left out. The model keeps the settings rows it writes and the MasterAddr step.
- Of `UpdatePort`, the port scan, the firewall and the `ServerPort` write are left out. The model keeps the MasterAddr step.
- `xpack.UpdateMasterAddr` is not part of this model.
- `UpdatePort` stores the port as a `uint`. The model uses a `nat`.

## Findings

| source | as written | input that shows it | evidently intended | confidence | as-written member | corrected member |
|---|---|---|---|---|---|---|
| core/app/service/setting.go:218-220 | `strings.ReplaceAll(masterAddr, oldPort, newPort)` replaces every occurrence of the old port's digits, including those in the host | MasterAddr "http://10.0.0.80:80" with new port 9999 gives "http://10.0.0.9999:9999" | replace only the trailing port: "http://10.0.0.80:9999" | high; not executed | SettingPort.RewriteMasterPortCorruptsHost | SettingPort.RewriteMasterPortTrailingKeepsHost |
| core/app/service/setting.go:290,299-311 | the background step reads SSL back after line 290 has written the new value, so the comparison never differs. The "Disable" path returns at line 243 before the step. | SSL "Disable" → "Enable" with MasterAddr "http://h:9999": MasterAddr stays "http://h:9999" | MasterAddr follows the scheme: "https://h:9999", and back on disable | high; not executed | SettingPort.UpdateSslNeverRewritesMaster | SettingPort.UpdateSslIntendedFollowsScheme |
