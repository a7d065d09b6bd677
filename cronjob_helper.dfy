/** The bookkeeping shared by every scheduled backup: the fan-out of one
    artifact to the job's storage accounts, the keep-newest sweep of the
    backup ledger and of the job's run records, and the state all of them
    act on. The storage clients are an oracle with a call log; the
    repositories are sequences in a `World`. */
module CronjobHelper {
  import opened GoStd
  import opened Entities
  import opened Retention

  /** A storage account as the client map holds it: its display name and
      the directory inside the account where this agent's backups live. */
  datatype Client = Client(name: string, backupPath: string)

  /** The result of building the client map: account id to client. */
  type AccountMap = map<string, Client>

  /** A call on a storage client, as the call log records it. */
  datatype Call =
    | Upload(account: string, local: string, remote: string)
    | Delete(account: string, remote: string)

  /** Everything the backup code changes. `ledger` is the backup-record
      table in insertion order (ids strictly increasing); `calls` the log of
      storage calls; `local` the files present under the temporary
      directory; `produced` the archives the producers wrote; `snapshots`
      the names in the snapshot table; `runs` the run-record table;
      `removed` the paths handed to `os.Remove` by the run-record sweep;
      `dirs` and `copied` the directories and file copies of the log bundle. */
  datatype World = World(
    ledger: seq<BackupRecord>,
    nextId: nat,
    calls: seq<Call>,
    local: set<string>,
    produced: seq<Artifact>,
    snapshots: seq<string>,
    runs: seq<JobRecord>,
    nextRunId: nat,
    removed: seq<string>,
    dirs: set<string>,
    copied: seq<(string, string)>)

  /** The outside world's answers. `clients` is what building the client map
      from the job's account ids gives (an error text when it fails); the
      other fields say whether an external step succeeds. */
  datatype Env = Env(
    tmpDir: string,
    clients: Result<AccountMap, string>,
    produceOk: (Producer, string) -> bool,
    uploadOk: Call -> bool,
    createOk: BackupRecord -> bool,
    mkdirOk: string -> bool,
    snapshotDataOk: bool,
    snapshotOk: string -> bool)

  /** The tables' id invariant: ids are handed out in increasing order and
      are all below the next one. */
  predicate WorldValid(w: World)
  {
    w.nextId >= 1 && w.nextRunId >= 1 &&
    IdsIncreasing(w.ledger, BackupId) && (forall r :: r in w.ledger ==> r.id < w.nextId) &&
    IdsIncreasing(w.runs, RunId) && (forall r :: r in w.runs ==> r.id < w.nextRunId)
  }

  function BackupId(r: BackupRecord): nat { r.id }

  function RunId(r: JobRecord): nat { r.id }

  /** The job's source accounts, as `strings.Split(ids, ",")` gives them. */
  function AccountIds(job: Cronjob): seq<string>
  {
    Split(job.sourceAccountIds, ',')
  }

  /** The client map has a client for every non-empty account id; the
      account loops index the map without checking. */
  predicate Covers(clients: AccountMap, ids: seq<string>)
  {
    forall id :: id in ids && id != "" ==> id in clients
  }

  // ---------------------------------------------------------------------------
  // uploadCronjobBackFile

  /** The object key of a local artifact: its path below the temporary
      directory. */
  function CloudKey(tmpDir: string, file: string): string
  {
    TrimPrefix(file, tmpDir + "/")
  }

  /** The uploads the fan-out issues when every one of them succeeds. */
  function UploadPlan(ids: seq<string>, clients: AccountMap, file: string, key: string): (plan: seq<Call>)
    requires Covers(clients, ids)
  {
    if |ids| == 0 then []
    else
      var last := ids[|ids| - 1];
      UploadPlan(ids[..|ids| - 1], clients, file, key) +
      (if last != "" then [Upload(last, file, PathJoin([clients[last].backupPath, key]))] else [])
  }

  /** The plan uploads `file` once to every non-empty account, in list
      order, at `backupPath/key` of that account. */
  lemma {:induction false} UploadPlanCalls(ids: seq<string>, clients: AccountMap, file: string, key: string)
    requires Covers(clients, ids)
    ensures var plan := UploadPlan(ids, clients, file, key);
      |plan| == |NonEmpty(ids)| &&
      forall i :: 0 <= i < |plan| ==>
        NonEmpty(ids)[i] in clients &&
        plan[i] == Upload(NonEmpty(ids)[i], file, PathJoin([clients[NonEmpty(ids)[i]].backupPath, key]))
  {
    if |ids| > 0 {
      UploadPlanCalls(ids[..|ids| - 1], clients, file, key);
    }
  }

  lemma {:induction false} UploadPlanAppend(a: seq<string>, b: seq<string>, clients: AccountMap, file: string, key: string)
    requires Covers(clients, a + b)
    ensures Covers(clients, a) && Covers(clients, b)
    ensures UploadPlan(a + b, clients, file, key) == UploadPlan(a, clients, file, key) + UploadPlan(b, clients, file, key)
  {
    if |b| == 0 {
      assert a + b == a;
    } else {
      var init := b[..|b| - 1];
      assert (a + b)[..|a + b| - 1] == a + init;
      assert b == init + [b[|b| - 1]];
      UploadPlanAppend(a, init, clients, file, key);
    }
  }

  lemma CoversPrefix(clients: AccountMap, ids: seq<string>, j: nat)
    requires Covers(clients, ids) && j <= |ids|
    ensures Covers(clients, ids[..j])
  {
    forall id | id in ids[..j] && id != "" ensures id in clients {
      var k :| 0 <= k < j && ids[..j][k] == id;
      assert ids[k] in ids;
    }
  }

  /** The plan for one more account is the plan so far and that account's
      upload, if its id is not empty. */
  lemma UploadPlanSnoc(ids: seq<string>, clients: AccountMap, file: string, key: string, j: nat)
    requires Covers(clients, ids) && j < |ids|
    ensures Covers(clients, ids[..j]) && Covers(clients, ids[..j + 1])
    ensures ids[j] != "" ==> ids[j] in clients
    ensures UploadPlan(ids[..j + 1], clients, file, key) == UploadPlan(ids[..j], clients, file, key) +
      (if ids[j] != "" then [Upload(ids[j], file, PathJoin([clients[ids[j]].backupPath, key]))] else [])
  {
    CoversPrefix(clients, ids, j);
    CoversPrefix(clients, ids, j + 1);
    assert ids[j] in ids;
    assert ids[..j + 1][..j] == ids[..j];
  }

  /** Index of the first call that fails, `|plan|` when none does. */
  function FirstFail(plan: seq<Call>, ok: Call -> bool): (k: nat)
    ensures k <= |plan|
    ensures forall j :: 0 <= j < k ==> ok(plan[j])
    ensures k < |plan| ==> !ok(plan[k])
  {
    if |plan| == 0 then 0
    else if !ok(plan[0]) then 0
    else 1 + FirstFail(plan[1..], ok)
  }

  /** The first failure of `p + [c] + q`, when all of `p` succeed and `c`
      fails, is `c`. */
  lemma {:induction false} FirstFailAt(p: seq<Call>, c: Call, q: seq<Call>, ok: Call -> bool)
    requires forall x :: x in p ==> ok(x)
    requires !ok(c)
    ensures FirstFail(p + [c] + q, ok) == |p|
  {
    if |p| > 0 {
      assert (p + [c] + q)[1..] == p[1..] + [c] + q;
      FirstFailAt(p[1..], c, q, ok);
    }
  }

  /** `uploadCronjobBackFile`: the uploads of the plan up to and including
      the first that fails, or all of them; the local file is removed on
      every path. The error names the account whose upload failed; on
      success the key is returned. */
  function UploadSpec(w: World, env: Env, job: Cronjob, clients: AccountMap, file: string): (r: (World, Result<string, Error>))
    requires Covers(clients, AccountIds(job))
    ensures r.0 == w.(calls := r.0.calls, local := r.0.local)
    ensures r.0.local == w.local - {file}
    ensures r.1.Ok? ==> r.1.value == CloudKey(env.tmpDir, file)
  {
    var key := CloudKey(env.tmpDir, file);
    var plan := UploadPlan(AccountIds(job), clients, file, key);
    var k := FirstFail(plan, env.uploadOk);
    var w' := w.(calls := w.calls + plan[..Min(k + 1, |plan|)], local := w.local - {file});
    if k < |plan| then (w', Err(UploadFailed(plan[k].account))) else (w', Ok(key))
  }

  /** The fan-out succeeds exactly when every upload of the plan does, and
      then it issued all of them; otherwise it issued the plan up to the
      first failing upload, whose account the error names, and no later
      one. */
  lemma UploadOutcome(w: World, env: Env, job: Cronjob, clients: AccountMap, file: string)
    requires Covers(clients, AccountIds(job))
    ensures var plan := UploadPlan(AccountIds(job), clients, file, CloudKey(env.tmpDir, file));
      var r := UploadSpec(w, env, job, clients, file);
      (r.1.Ok? <==> forall c :: c in plan ==> env.uploadOk(c)) &&
      (r.1.Ok? ==> r.0.calls == w.calls + plan) &&
      (r.1.Err? ==>
        exists k :: 0 <= k < |plan| && r.0.calls == w.calls + plan[..k + 1] &&
          (forall j :: 0 <= j < k ==> env.uploadOk(plan[j])) && !env.uploadOk(plan[k]) &&
          r.1.error == UploadFailed(plan[k].account))
  {
    var plan := UploadPlan(AccountIds(job), clients, file, CloudKey(env.tmpDir, file));
    var k := FirstFail(plan, env.uploadOk);
    if k == |plan| {
      assert plan[..Min(k + 1, |plan|)] == plan;
    } else {
      assert plan[k] in plan;
    }
  }

  /** When the uploads to the accounts before `j` succeed and the one to
      account `j` fails, the fan-out ends there with that account's error. */
  lemma UploadSpecFailsAt(w: World, env: Env, job: Cronjob, clients: AccountMap, file: string, j: nat)
    requires Covers(clients, AccountIds(job))
    requires j < |AccountIds(job)| && AccountIds(job)[j] != ""
    requires var ids := AccountIds(job);
      Covers(clients, ids[..j]) && ids[j] in clients &&
      (forall c :: c in UploadPlan(ids[..j], clients, file, CloudKey(env.tmpDir, file)) ==> env.uploadOk(c)) &&
      !env.uploadOk(Upload(ids[j], file, PathJoin([clients[ids[j]].backupPath, CloudKey(env.tmpDir, file)])))
    ensures var ids := AccountIds(job);
      var key := CloudKey(env.tmpDir, file);
      var call := Upload(ids[j], file, PathJoin([clients[ids[j]].backupPath, key]));
      UploadSpec(w, env, job, clients, file) ==
        (w.(calls := w.calls + UploadPlan(ids[..j], clients, file, key) + [call], local := w.local - {file}), Err(UploadFailed(ids[j])))
  {
    var ids := AccountIds(job);
    var key := CloudKey(env.tmpDir, file);
    var call := Upload(ids[j], file, PathJoin([clients[ids[j]].backupPath, key]));
    var done := UploadPlan(ids[..j], clients, file, key);
    UploadPlanSnoc(ids, clients, file, key, j);
    assert ids[..j + 1] + ids[j + 1..] == ids;
    UploadPlanAppend(ids[..j + 1], ids[j + 1..], clients, file, key);
    var rest := UploadPlan(ids[j + 1..], clients, file, key);
    var plan := UploadPlan(ids, clients, file, key);
    assert plan == done + [call] + rest;
    FirstFailAt(done, call, rest, env.uploadOk);
    assert plan[|done|] == call;
    assert Min(|done| + 1, |plan|) == |done| + 1;
    assert plan[..|done| + 1] == done + [call];
    assert w.calls + plan[..|done| + 1] == w.calls + done + [call];
  }

  /** When every upload succeeds the fan-out issues the whole plan and
      returns the key. */
  lemma UploadSpecSucceeds(w: World, env: Env, job: Cronjob, clients: AccountMap, file: string)
    requires Covers(clients, AccountIds(job))
    requires forall c :: c in UploadPlan(AccountIds(job), clients, file, CloudKey(env.tmpDir, file)) ==> env.uploadOk(c)
    ensures var plan := UploadPlan(AccountIds(job), clients, file, CloudKey(env.tmpDir, file));
      UploadSpec(w, env, job, clients, file) ==
        (w.(calls := w.calls + plan, local := w.local - {file}), Ok(CloudKey(env.tmpDir, file)))
  {
    var plan := UploadPlan(AccountIds(job), clients, file, CloudKey(env.tmpDir, file));
    assert plan[..|plan|] == plan;
  }

  /** An archive written to `tmp/sub/name` is uploaded under `sub/name`. */
  lemma CloudKeyOfArchive(tmp: string, sub: string, name: string)
    requires tmp != "" && sub != "" && name != ""
    ensures PathJoin([PathJoin([tmp, sub]), name]) == tmp + "/" + sub + "/" + name
    ensures CloudKey(tmp, PathJoin([PathJoin([tmp, sub]), name])) == sub + "/" + name
  {
    PathJoinPair(tmp, sub);
    PathJoinPair(tmp + "/" + sub, name);
    var file := tmp + "/" + sub + "/" + name;
    assert file == (tmp + "/") + (sub + "/" + name);
    assert file[..|tmp + "/"|] == tmp + "/";
  }

  // ---------------------------------------------------------------------------
  // removeExpiredBackup

  /** The filter of the sweep: rows made by scheduled jobs of this job and,
      when the record passed in has been stored, of the same type, name and
      detail name. */
  datatype Scope = Scope(cronjobId: nat, narrowed: bool, recordType: string, name: string, detailName: string)

  function SweepScope(job: Cronjob, rec: BackupRecord): Scope
  {
    Scope(job.id, rec.id != 0, rec.recordType, rec.name, rec.detailName)
  }

  predicate InScope(r: BackupRecord, sc: Scope)
  {
    r.from == "cronjob" && r.cronjobId == sc.cronjobId &&
    (sc.narrowed ==> r.recordType == sc.recordType && r.name == sc.name && r.detailName == sc.detailName)
  }

  /** Where a pruned record's object lives in an account: snapshots under
      `system_snapshot`, everything else under the record's own directory. */
  function DeleteKey(job: Cronjob, client: Client, r: BackupRecord): string
  {
    if job.jobType == "snapshot" then PathJoin([client.backupPath, "system_snapshot", r.fileName])
    else PathJoin([client.backupPath, r.fileDir, r.fileName])
  }

  /** The remote deletes for one pruned record: one per non-empty account. */
  function DeletePlan(ids: seq<string>, clients: AccountMap, job: Cronjob, r: BackupRecord): (plan: seq<Call>)
    requires Covers(clients, ids)
  {
    if |ids| == 0 then []
    else
      var last := ids[|ids| - 1];
      DeletePlan(ids[..|ids| - 1], clients, job, r) +
      (if last != "" then [Delete(last, DeleteKey(job, clients[last], r))] else [])
  }

  lemma {:induction false} DeletePlanCalls(ids: seq<string>, clients: AccountMap, job: Cronjob, r: BackupRecord)
    requires Covers(clients, ids)
    ensures var plan := DeletePlan(ids, clients, job, r);
      |plan| == |NonEmpty(ids)| &&
      forall i :: 0 <= i < |plan| ==>
        NonEmpty(ids)[i] in clients &&
        plan[i] == Delete(NonEmpty(ids)[i], DeleteKey(job, clients[NonEmpty(ids)[i]], r))
  {
    if |ids| > 0 {
      DeletePlanCalls(ids[..|ids| - 1], clients, job, r);
    }
  }

  lemma DeletePlanSnoc(ids: seq<string>, clients: AccountMap, job: Cronjob, r: BackupRecord, j: nat)
    requires Covers(clients, ids) && j < |ids|
    ensures Covers(clients, ids[..j]) && Covers(clients, ids[..j + 1])
    ensures ids[j] != "" ==> ids[j] in clients
    ensures DeletePlan(ids[..j + 1], clients, job, r) == DeletePlan(ids[..j], clients, job, r) +
      (if ids[j] != "" then [Delete(ids[j], DeleteKey(job, clients[ids[j]], r))] else [])
  {
    CoversPrefix(clients, ids, j);
    CoversPrefix(clients, ids, j + 1);
    assert ids[j] in ids;
    assert ids[..j + 1][..j] == ids[..j];
  }

  /** The remote deletes of a whole sweep, record after record. */
  function SweepCalls(expired: seq<BackupRecord>, ids: seq<string>, clients: AccountMap, job: Cronjob): (calls: seq<Call>)
    requires Covers(clients, ids)
  {
    if |expired| == 0 then []
    else SweepCalls(expired[..|expired| - 1], ids, clients, job) + DeletePlan(ids, clients, job, expired[|expired| - 1])
  }

  /** `n` rounds of `k` are `n - 1` rounds and one more; kept apart so the
      count below stays linear. */
  lemma MulStep(n: nat, k: nat)
    requires n >= 1
    ensures (n - 1) * k + k == n * k
  {
  }

  /** A sweep issues one delete per pruned record and non-empty account. */
  lemma {:induction false} SweepCallsCount(expired: seq<BackupRecord>, ids: seq<string>, clients: AccountMap, job: Cronjob)
    requires Covers(clients, ids)
    ensures |SweepCalls(expired, ids, clients, job)| == |expired| * |NonEmpty(ids)|
  {
    if |expired| > 0 {
      var n, k := |expired|, |NonEmpty(ids)|;
      var init := SweepCalls(expired[..n - 1], ids, clients, job);
      var plan := DeletePlan(ids, clients, job, expired[n - 1]);
      SweepCallsCount(expired[..n - 1], ids, clients, job);
      DeletePlanCalls(ids, clients, job, expired[n - 1]);
      assert |init + plan| == (n - 1) * k + k by {
        assert |init| == (n - 1) * k && |plan| == k;
      }
      MulStep(n, k);
    }
  }

  /** Names of the snapshot rows a sweep of a snapshot job deletes. */
  function SnapshotNames(expired: seq<BackupRecord>): set<string>
  {
    if |expired| == 0 then {}
    else SnapshotNames(expired[..|expired| - 1]) + {TrimSuffix(expired[|expired| - 1].fileName, ".tar.gz")}
  }

  predicate NotNamed(n: string, names: set<string>) { n !in names }

  /** The rows of the scope, newest first, that the sweep deletes. */
  function SweepExpired(w: World, job: Cronjob, rec: BackupRecord): seq<BackupRecord>
  {
    Expired(Newest(w.ledger, SweepScope(job, rec), InScope), job.retainCopies)
  }

  /** `removeExpiredBackup`: for each row beyond the newest `RetainCopies`
      of the scope, one delete per account, the snapshot row of a snapshot
      job, and the ledger row; delete errors are ignored. */
  function SweepSpec(w: World, job: Cronjob, clients: AccountMap, rec: BackupRecord): (w': World)
    requires Covers(clients, AccountIds(job))
    ensures w' == w.(ledger := w'.ledger, calls := w'.calls, snapshots := w'.snapshots)
    ensures forall x :: x in w'.ledger ==> x in w.ledger
  {
    var expired := SweepExpired(w, job, rec);
    DropIdsMembers(w.ledger, BackupId, IdSet(expired, BackupId));
    w.(ledger := DropIds(w.ledger, BackupId, IdSet(expired, BackupId)),
       calls := w.calls + SweepCalls(expired, AccountIds(job), clients, job),
       snapshots := if job.jobType == "snapshot" then Filter(w.snapshots, SnapshotNames(expired), NotNamed) else w.snapshots)
  }

  lemma {:induction false} FilterNamedTwice(s: seq<string>, a: set<string>, b: set<string>)
    ensures Filter(Filter(s, a, NotNamed), b, NotNamed) == Filter(s, a + b, NotNamed)
  {
    if |s| > 0 {
      var init := s[..|s| - 1];
      var last := s[|s| - 1];
      FilterNamedTwice(init, a, b);
      assert s[..|s| - 1] == init;
      var f := Filter(init, a, NotNamed);
      if NotNamed(last, a) {
        assert Filter(s, a, NotNamed) == f + [last];
        assert (f + [last])[..|f|] == f;
        assert (f + [last])[|f|] == last;
        assert Filter(f + [last], b, NotNamed) == Filter(f, b, NotNamed) + (if NotNamed(last, b) then [last] else []);
      } else {
        assert Filter(s, a, NotNamed) == f + [] == f;
      }
    }
  }

  /** Deleting one more expired record extends each part of the sweep by
      that record's part. */
  lemma SweepStep(ledger: seq<BackupRecord>, snapshots: seq<string>, expired: seq<BackupRecord>, i: nat,
                  ids: seq<string>, clients: AccountMap, job: Cronjob)
    requires Covers(clients, ids) && i < |expired|
    ensures DropIds(DropIds(ledger, BackupId, IdSet(expired[..i], BackupId)), BackupId, {expired[i].id}) ==
      DropIds(ledger, BackupId, IdSet(expired[..i + 1], BackupId))
    ensures SweepCalls(expired[..i + 1], ids, clients, job) ==
      SweepCalls(expired[..i], ids, clients, job) + DeletePlan(ids, clients, job, expired[i])
    ensures Filter(Filter(snapshots, SnapshotNames(expired[..i]), NotNamed), {TrimSuffix(expired[i].fileName, ".tar.gz")}, NotNamed) ==
      Filter(snapshots, SnapshotNames(expired[..i + 1]), NotNamed)
  {
    var done, r := expired[..i], expired[i];
    assert expired[..i + 1] == done + [r];
    assert (done + [r])[..|done|] == done;
    DropIdsTwice(ledger, BackupId, IdSet(done, BackupId), {r.id});
    IdSetAppend(done, r, BackupId);
    FilterNamedTwice(snapshots, SnapshotNames(done), {TrimSuffix(r.fileName, ".tar.gz")});
  }

  /** The ledger, the calls and the snapshot table after the sweep has
      handled the first `i` expired records. */
  predicate SweptUpTo(job: Cronjob, clients: AccountMap, expired: seq<BackupRecord>, i: nat,
                      calls0: seq<Call>, snapshots0: seq<string>, ledger0: seq<BackupRecord>,
                      calls: seq<Call>, snapshots: seq<string>, ledger: seq<BackupRecord>)
    requires Covers(clients, AccountIds(job)) && i <= |expired|
  {
    calls == calls0 + SweepCalls(expired[..i], AccountIds(job), clients, job) &&
    snapshots == (if job.jobType == "snapshot" then Filter(snapshots0, SnapshotNames(expired[..i]), NotNamed) else snapshots0) &&
    ledger == DropIds(ledger0, BackupId, IdSet(expired[..i], BackupId))
  }

  /** Handling expired record `i` moves the sweep one record on. */
  lemma SweepAdvance(job: Cronjob, clients: AccountMap, expired: seq<BackupRecord>, i: nat,
                     calls0: seq<Call>, snapshots0: seq<string>, ledger0: seq<BackupRecord>,
                     calls: seq<Call>, snapshots: seq<string>, ledger: seq<BackupRecord>)
    requires Covers(clients, AccountIds(job)) && i < |expired|
    requires SweptUpTo(job, clients, expired, i, calls0, snapshots0, ledger0, calls, snapshots, ledger)
    ensures var r := expired[i];
      SweptUpTo(job, clients, expired, i + 1, calls0, snapshots0, ledger0,
                calls + DeletePlan(AccountIds(job), clients, job, r),
                if job.jobType == "snapshot" then Filter(snapshots, {TrimSuffix(r.fileName, ".tar.gz")}, NotNamed) else snapshots,
                DropIds(ledger, BackupId, {r.id}))
  {
    SweepStep(ledger0, snapshots0, expired, i, AccountIds(job), clients, job);
    SweepCallsAdvance(AccountIds(job), clients, job, expired, i, calls0, calls);
  }

  lemma SweepCallsAdvance(ids: seq<string>, clients: AccountMap, job: Cronjob, expired: seq<BackupRecord>, i: nat,
                          calls0: seq<Call>, calls: seq<Call>)
    requires Covers(clients, ids) && i < |expired|
    requires calls == calls0 + SweepCalls(expired[..i], ids, clients, job)
    ensures calls + DeletePlan(ids, clients, job, expired[i]) == calls0 + SweepCalls(expired[..i + 1], ids, clients, job)
  {
    SweepStep([], [], expired, i, ids, clients, job);
    AppendAssoc(calls0, SweepCalls(expired[..i], ids, clients, job), DeletePlan(ids, clients, job, expired[i]));
  }

  /** The sweep before its first record changes nothing. */
  lemma SweepStart(ledger: seq<BackupRecord>, snapshots: seq<string>)
    ensures DropIds(ledger, BackupId, IdSet([], BackupId)) == ledger
    ensures Filter(snapshots, SnapshotNames([]), NotNamed) == snapshots
  {
    assert IdSet<BackupRecord>([], BackupId) == {};
    DropNone(ledger, BackupId, {});
    FilterNoneNamed(snapshots);
  }

  /** The keep-newest rule on the ledger: after the sweep the scope holds
      exactly its `RetainCopies` newest rows (all of them when there were no
      more), every row outside the scope is still there, and nothing else
      was added. */
  lemma SweepKeepsNewest(w: World, job: Cronjob, clients: AccountMap, rec: BackupRecord)
    requires Covers(clients, AccountIds(job))
    requires IdsIncreasing(w.ledger, BackupId)
    ensures var sc := SweepScope(job, rec);
      var list := Newest(w.ledger, sc, InScope);
      var after := SweepSpec(w, job, clients, rec).ledger;
      Newest(after, sc, InScope) == list[..Min(job.retainCopies, |list|)] &&
      (forall x :: x in w.ledger && !InScope(x, sc) ==> x in after)
  {
    PruneKeepsNewest(w.ledger, SweepScope(job, rec), InScope, BackupId, job.retainCopies);
  }

  /** With no more rows than `RetainCopies` in the scope the sweep changes
      nothing at all. */
  lemma SweepWithinRetain(w: World, job: Cronjob, clients: AccountMap, rec: BackupRecord)
    requires Covers(clients, AccountIds(job))
    requires |Newest(w.ledger, SweepScope(job, rec), InScope)| <= job.retainCopies
    ensures SweepSpec(w, job, clients, rec) == w
  {
    assert IdSet<BackupRecord>([], BackupId) == {};
    DropNone(w.ledger, BackupId, {});
    if job.jobType == "snapshot" {
      FilterNoneNamed(w.snapshots);
    }
  }

  lemma {:induction false} FilterNoneNamed(s: seq<string>)
    ensures Filter(s, {}, NotNamed) == s
  {
    if |s| > 0 {
      FilterNoneNamed(s[..|s| - 1]);
      assert s == s[..|s| - 1] + [s[|s| - 1]];
    }
  }

  /** Every pruned record gets a delete call at its key on every non-empty
      account. */
  lemma {:induction false} SweepDeletesEveryCopy(expired: seq<BackupRecord>, ids: seq<string>, clients: AccountMap, job: Cronjob, r: BackupRecord, account: string)
    requires Covers(clients, ids)
    requires r in expired && account in ids && account != ""
    ensures account in clients
    ensures Delete(account, DeleteKey(job, clients[account], r)) in SweepCalls(expired, ids, clients, job)
  {
    var init := expired[..|expired| - 1];
    if r == expired[|expired| - 1] {
      var plan := DeletePlan(ids, clients, job, r);
      DeletePlanCalls(ids, clients, job, r);
      NonEmptyMembers(ids, account);
      var i :| 0 <= i < |NonEmpty(ids)| && NonEmpty(ids)[i] == account;
      assert plan[i] == Delete(account, DeleteKey(job, clients[account], r));
    } else {
      assert expired == init + [expired[|expired| - 1]];
      SweepDeletesEveryCopy(init, ids, clients, job, r, account);
    }
  }

  /** A record is stored under `sub/name` and uploaded to `backupPath/sub/name`;
      the sweep deletes it at exactly that key. */
  lemma UploadKeyIsDeleteKey(job: Cronjob, client: Client, r: BackupRecord, sub: string)
    requires job.jobType != "snapshot"
    requires sub != "" && r.fileName != "" && '/' !in r.fileName
    requires r.fileDir == PathDir(sub + "/" + r.fileName)
    ensures DeleteKey(job, client, r) == PathJoin([client.backupPath, sub + "/" + r.fileName])
  {
    DirOfChild(sub, r.fileName);
    PathJoinTriple(client.backupPath, sub, r.fileName);
  }

  // ---------------------------------------------------------------------------
  // removeExpiredLog

  predicate OfJob(r: JobRecord, jobId: nat) { r.cronjobId == jobId }

  /** The paths a pruned run record releases: every entry of its
      comma-separated file list (when there is one), then its output log. */
  function RunFiles(r: JobRecord): (files: seq<string>)
    ensures |files| >= 1 && files[|files| - 1] == r.records
    ensures r.file != "" ==> files[..|files| - 1] == Split(r.file, ',')
    ensures r.file == "" ==> |files| == 1
  {
    (if |r.file| != 0 then Split(r.file, ',') else []) + [r.records]
  }

  function RemovedFiles(expired: seq<JobRecord>): seq<string>
  {
    if |expired| == 0 then []
    else RemovedFiles(expired[..|expired| - 1]) + RunFiles(expired[|expired| - 1])
  }

  function LogSweepExpired(w: World, job: Cronjob): seq<JobRecord>
  {
    Expired(Newest(w.runs, job.id, OfJob), job.retainCopies)
  }

  /** `removeExpiredLog`: the run records of the job beyond the newest
      `RetainCopies` lose their files, their log and their row. */
  function LogSweepSpec(w: World, job: Cronjob): (w': World)
    ensures w' == w.(runs := w'.runs, removed := w'.removed)
    ensures forall x :: x in w'.runs ==> x in w.runs
  {
    var expired := LogSweepExpired(w, job);
    DropIdsMembers(w.runs, RunId, IdSet(expired, RunId));
    w.(runs := DropIds(w.runs, RunId, IdSet(expired, RunId)),
       removed := w.removed + RemovedFiles(expired))
  }

  lemma LogSweepStep(runs: seq<JobRecord>, expired: seq<JobRecord>, i: nat)
    requires i < |expired|
    ensures DropIds(DropIds(runs, RunId, IdSet(expired[..i], RunId)), RunId, {expired[i].id}) ==
      DropIds(runs, RunId, IdSet(expired[..i + 1], RunId))
    ensures RemovedFiles(expired[..i + 1]) == RemovedFiles(expired[..i]) + RunFiles(expired[i])
  {
    var done, r := expired[..i], expired[i];
    assert expired[..i + 1] == done + [r];
    assert (done + [r])[..|done|] == done;
    DropIdsTwice(runs, RunId, IdSet(done, RunId), {r.id});
    IdSetAppend(done, r, RunId);
  }

  /** The run table and the removed files once the first `i` expired runs
      are deleted. */
  predicate LogSweptUpTo(expired: seq<JobRecord>, i: nat, runs0: seq<JobRecord>, removed0: seq<string>,
                         runs: seq<JobRecord>, removed: seq<string>)
    requires i <= |expired|
  {
    runs == DropIds(runs0, RunId, IdSet(expired[..i], RunId)) &&
    removed == removed0 + RemovedFiles(expired[..i])
  }

  /** Deleting the next expired run advances the sweep by one. */
  lemma LogSweepAdvance(expired: seq<JobRecord>, i: nat, runs0: seq<JobRecord>, removed0: seq<string>,
                        runs: seq<JobRecord>, removed: seq<string>)
    requires i < |expired|
    requires LogSweptUpTo(expired, i, runs0, removed0, runs, removed)
    ensures LogSweptUpTo(expired, i + 1, runs0, removed0,
                         DropIds(runs, RunId, {expired[i].id}), removed + RunFiles(expired[i]))
  {
    LogSweepStep(runs0, expired, i);
    AppendAssoc(removed0, RemovedFiles(expired[..i]), RunFiles(expired[i]));
  }

  lemma LogSweepStart(runs: seq<JobRecord>)
    ensures DropIds(runs, RunId, IdSet([], RunId)) == runs
  {
    assert IdSet<JobRecord>([], RunId) == {};
    DropNone(runs, RunId, {});
  }

  /** The keep-newest rule on run records: the job keeps exactly its
      `RetainCopies` newest runs, other jobs' runs are untouched, and the log
      of every pruned run is removed. */
  lemma LogSweepKeepsNewest(w: World, job: Cronjob)
    requires IdsIncreasing(w.runs, RunId)
    ensures var list := Newest(w.runs, job.id, OfJob);
      var w' := LogSweepSpec(w, job);
      Newest(w'.runs, job.id, OfJob) == list[..Min(job.retainCopies, |list|)] &&
      (forall x :: x in w.runs && !OfJob(x, job.id) ==> x in w'.runs) &&
      (forall x :: x in LogSweepExpired(w, job) ==> x.records in w'.removed)
  {
    PruneKeepsNewest(w.runs, job.id, OfJob, RunId, job.retainCopies);
    var expired := LogSweepExpired(w, job);
    forall x | x in expired ensures x.records in RemovedFiles(expired) {
      RunLogRemoved(expired, x);
    }
  }

  lemma {:induction false} RunLogRemoved(expired: seq<JobRecord>, x: JobRecord)
    requires x in expired
    ensures x.records in RemovedFiles(expired)
    ensures x.file != "" ==> forall f :: f in Split(x.file, ',') ==> f in RemovedFiles(expired)
  {
    var init := expired[..|expired| - 1];
    var files := RunFiles(expired[|expired| - 1]);
    if x == expired[|expired| - 1] {
      assert files == files[..|files| - 1] + [x.records];
    } else {
      assert expired == init + [expired[|expired| - 1]];
      RunLogRemoved(init, x);
    }
  }
}
