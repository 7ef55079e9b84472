/**
 The Postgres tables the job protocol lives in, and its transactions.

 Every function below is one committed transaction of the API or of a worker.  An UPDATE whose
 WHERE clause finds no row changes nothing, as in SQL.  `index` is the unique index
 jobs (asset_id, type): only process_asset jobs exist, so it is keyed by the asset alone.
 */
module Postgres {
  datatype Option<+T> = None | Some(value: T)

  type AssetId = nat
  type JobId = nat

  datatype AssetStatus = Uploading | Uploaded | Processing | Ready | Failed

  /** `Accepted` is the status 'processing' that the API inserts; no worker ever writes it. */
  datatype JobStatus = Accepted | Pending | InProgress | Done | Failed

  datatype Job = Job(asset: AssetId, status: JobStatus, attempts: nat, updated: real)

  datatype Db = Db(assets: map<AssetId, AssetStatus>, jobs: map<JobId, Job>,
                   index: map<AssetId, JobId>, nextJob: JobId)

  datatype ClaimResult = NotFound | AlreadyDone | Claimed(asset: AssetId, ordinal: nat)

  datatype EnsureResult = NoAsset | Skipped | Ensured(job: JobId)

  const STALE_AFTER: real := 120.0

  // ---------- single statements ----------

  function SetAsset(db: Db, a: AssetId, status: AssetStatus): Db {
    if a in db.assets then db.(assets := db.assets[a := status]) else db
  }

  function SetJob(db: Db, j: JobId, status: JobStatus, now: real): Db {
    if j in db.jobs
    then db.(jobs := db.jobs[j := db.jobs[j].(status := status, updated := now)])
    else db
  }

  function InsertJob(db: Db, a: AssetId, status: JobStatus, now: real): Db {
    db.(jobs := db.jobs[db.nextJob := Job(a, status, 0, now)],
        index := db.index[a := db.nextJob],
        nextJob := db.nextJob + 1)
  }

  // ---------- transactions ----------

  function CreateAsset(db: Db, a: AssetId): Db {
    db.(assets := db.assets[a := Uploading])
  }

  /** The API's guarded update plus job upsert; None when the guard finds no 'uploading' row. */
  function MarkUploadedTx(db: Db, a: AssetId, now: real): (Db, Option<JobId>) {
    if a in db.assets && db.assets[a].Uploading? then
      var uploaded := SetAsset(db, a, Uploaded);
      if a in uploaded.index then
        var j := uploaded.index[a];
        if j in uploaded.jobs
        then (uploaded.(jobs := uploaded.jobs[j := uploaded.jobs[j].(updated := now)]), Some(j))
        else (uploaded, Some(j))
      else (InsertJob(uploaded, a, Accepted, now), Some(uploaded.nextJob))
    else (db, None)
  }

  /** The asset-message path: insert a pending job unless the unique index already has one. */
  function EnsureJobTx(db: Db, a: AssetId, now: real): (Db, EnsureResult) {
    if a !in db.assets then (db, NoAsset)
    else if !db.assets[a].Uploaded? && !db.assets[a].Processing? then (db, Skipped)
    else if a in db.index then (db, Ensured(db.index[a]))
    else (InsertJob(db, a, Pending, now), Ensured(db.nextJob))
  }

  /** SELECT ... FOR UPDATE, refuse only 'done', else take the job and count the attempt. */
  function ClaimTx(db: Db, j: JobId, now: real): (Db, ClaimResult) {
    if j !in db.jobs then (db, NotFound)
    else if db.jobs[j].status.Done? then (db, AlreadyDone)
    else
      var job := db.jobs[j];
      (db.(jobs := db.jobs[j := job.(status := InProgress, attempts := job.attempts + 1, updated := now)]),
       Claimed(job.asset, job.attempts + 1))
  }

  function AttemptsOf(db: Db, j: JobId): nat {
    if j in db.jobs then db.jobs[j].attempts else 0
  }

  /** A failure goes back to 'pending' only when it is retryable and below the cap. */
  predicate GoesBack(maxRetries: int, attemptsNow: nat, retryable: bool) {
    retryable && attemptsNow < maxRetries
  }

  function FailTx(maxRetries: int, db: Db, j: JobId, a: AssetId, attemptsNow: nat, retryable: bool, now: real): Db {
    if GoesBack(maxRetries, attemptsNow, retryable)
    then SetJob(db, j, Pending, now)
    else SetAsset(SetJob(db, j, JobStatus.Failed, now), a, AssetStatus.Failed)
  }

  function DoneTx(db: Db, j: JobId, a: AssetId, now: real): Db {
    SetAsset(SetJob(db, j, Done, now), a, Ready)
  }

  /** What the recovery sweep selects. */
  predicate IsStale(job: Job, now: real) {
    (job.status.Pending? || job.status.InProgress?) && job.updated < now - STALE_AFTER
  }

  function StaleJobs(db: Db, now: real): set<JobId> {
    set j | j in db.jobs && IsStale(db.jobs[j], now)
  }

  // ---------- what every transaction keeps ----------

  /** The unique index agrees with the table, and rows only reference rows that exist. */
  ghost predicate IndexAgrees(db: Db) {
    && (forall j :: j in db.jobs ==>
          j < db.nextJob && db.jobs[j].asset in db.index && db.index[db.jobs[j].asset] == j)
    && (forall a :: a in db.index ==>
          db.index[a] in db.jobs && db.jobs[db.index[a]].asset == a && a in db.assets)
  }

  /** An asset is 'uploading' exactly while it has no job. */
  ghost predicate UploadAgrees(db: Db) {
    forall a :: a in db.assets ==> (db.assets[a].Uploading? <==> a !in db.index)
  }

  /** A job has been claimed exactly when it has left the status the API gave it, and only claimed
      jobs have assets that a worker wrote to. */
  ghost predicate ClaimsAgree(db: Db) {
    && (forall j :: j in db.jobs ==> (db.jobs[j].attempts == 0 <==> db.jobs[j].status.Accepted?))
    && (forall j :: j in db.jobs && db.jobs[j].attempts == 0 && db.jobs[j].asset in db.assets ==>
          db.assets[db.jobs[j].asset].Uploaded?)
  }

  ghost predicate DbInv(db: Db) {
    IndexAgrees(db) && UploadAgrees(db) && ClaimsAgree(db)
  }

  /** Rows are never deleted, never change their asset, and attempts never fall. */
  ghost predicate DbGrows(db: Db, db': Db) {
    && db.assets.Keys <= db'.assets.Keys
    && (forall j :: j in db.jobs ==>
          j in db'.jobs && db'.jobs[j].asset == db.jobs[j].asset && db.jobs[j].attempts <= db'.jobs[j].attempts)
  }

  lemma MarkUploadedKeeps(db: Db, a: AssetId, now: real)
    requires DbInv(db)
    ensures var (db', made) := MarkUploadedTx(db, a, now);
            && DbInv(db') && DbGrows(db, db')
            && (made.Some? <==> a in db.assets && db.assets[a].Uploading?)
            && (made.Some? ==> made.value !in db.jobs && made.value in db'.jobs && db'.jobs[made.value].asset == a)
            && (made.None? ==> db' == db)
            && (forall j :: j in db.jobs ==> db'.jobs[j] == db.jobs[j])
  {
  }

  lemma EnsureJobKeeps(db: Db, a: AssetId, now: real)
    requires DbInv(db)
    ensures var (db', result) := EnsureJobTx(db, a, now);
            && db' == db
            && (result.Ensured? ==> result.job in db.jobs && db.jobs[result.job].asset == a)
  {
  }

  lemma ClaimKeeps(db: Db, j: JobId, now: real)
    requires DbInv(db)
    ensures var (db', _) := ClaimTx(db, j, now); DbInv(db') && DbGrows(db, db')
  {
  }

  lemma SetAssetKeeps(db: Db, a: AssetId, status: AssetStatus)
    requires DbInv(db) && a in db.index && db.jobs[db.index[a]].attempts > 0 && !status.Uploading?
    ensures DbInv(SetAsset(db, a, status)) && DbGrows(db, SetAsset(db, a, status))
  {
  }

  lemma SetJobKeeps(db: Db, j: JobId, status: JobStatus, now: real)
    requires DbInv(db) && j in db.jobs && db.jobs[j].attempts > 0 && !status.Accepted?
    ensures DbInv(SetJob(db, j, status, now)) && DbGrows(db, SetJob(db, j, status, now))
  {
  }
}
