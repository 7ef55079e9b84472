/**
 The producer side: the queue client's bounded retry of XADD, and the service call that commits
 "uploaded + job row" and only then publishes.

 Faults are chosen from outside: a reply per XADD call, and where the transaction fails.
 */
module Publishing {
  import opened Postgres
  import opened Streams
  import opened ConsumerObject

  /** What one XADD call comes to; a call that reports an error may still have written. */
  datatype Reply = Added | Failed(wrote: bool) | Cancelled(wrote: bool)

  type Replies = nat -> Reply

  datatype PublishError = ContextError | Exhausted(last: nat)    // the number of the last failed call

  datatype Options = Options(queueName: string, maxRetries: int, retryInterval: real, connectionTimeout: real,
                             readTimeout: real, writeTimeout: real, poolSize: int, maxStreamLength: int)

  /** Options out of range are replaced by defaults; a retry count of 0 is kept. */
  function Normalised(o: Options): (r: Options)
    ensures r.maxRetries >= 0 && r.poolSize > 0 && r.maxStreamLength > 0 && r.queueName != ""
    ensures r.retryInterval > 0.0 && r.connectionTimeout > 0.0 && r.readTimeout > 0.0 && r.writeTimeout > 0.0
  {
    Options(if o.queueName == "" then "media:jobs" else o.queueName,
            if o.maxRetries < 0 then 3 else o.maxRetries,
            if o.retryInterval <= 0.0 then 2.0 else o.retryInterval,
            if o.connectionTimeout <= 0.0 then 2.0 else o.connectionTimeout,
            if o.readTimeout <= 0.0 then 5.0 else o.readTimeout,
            if o.writeTimeout <= 0.0 then 5.0 else o.writeTimeout,
            if o.poolSize <= 0 then 10 else o.poolSize,
            if o.maxStreamLength <= 0 then 10000 else o.maxStreamLength)
  }

  /** The defaults, each used exactly where the given value is out of range. */
  lemma DefaultsAre(o: Options)
    ensures var d := Options("media:jobs", 3, 2.0, 2.0, 5.0, 5.0, 10, 10000);
            var r := Normalised(o);
            && r.queueName == (if o.queueName == "" then d.queueName else o.queueName)
            && r.maxRetries == (if o.maxRetries >= 0 then o.maxRetries else d.maxRetries)
            && r.retryInterval == (if o.retryInterval > 0.0 then o.retryInterval else d.retryInterval)
            && r.connectionTimeout == (if o.connectionTimeout > 0.0 then o.connectionTimeout else d.connectionTimeout)
            && r.readTimeout == (if o.readTimeout > 0.0 then o.readTimeout else d.readTimeout)
            && r.writeTimeout == (if o.writeTimeout > 0.0 then o.writeTimeout else d.writeTimeout)
            && r.poolSize == (if o.poolSize > 0 then o.poolSize else d.poolSize)
            && r.maxStreamLength == (if o.maxStreamLength > 0 then o.maxStreamLength else d.maxStreamLength)
  {
  }

  /** Options in range are exactly those that normalising keeps. */
  lemma NormalisedKeepsIff(o: Options)
    ensures Normalised(o) == o <==>
              o.queueName != "" && o.maxRetries >= 0 && o.poolSize > 0 && o.maxStreamLength > 0
              && o.retryInterval > 0.0 && o.connectionTimeout > 0.0 && o.readTimeout > 0.0 && o.writeTimeout > 0.0
  {
  }

  predicate Writes(reply: Reply) { reply.Added? || reply.wrote }

  predicate Final(reply: Reply) { reply.Added? || reply.Cancelled? }

  /** The first n calls are all the calls of one publish with up to max retries. */
  ghost predicate AreCalls(replies: Replies, max: nat, n: nat) {
    && 1 <= n <= max + 1
    && (forall k :: 0 <= k < n - 1 ==> !Final(replies(k)))
    && (Final(replies(n - 1)) || n == max + 1)
  }

  /** How many XADD calls one publish makes; calls 0..i-1 were not final. */
  function CallsFrom(replies: Replies, i: nat, max: nat): (n: nat)
    requires i <= max && forall k :: 0 <= k < i ==> !Final(replies(k))
    ensures AreCalls(replies, max, n)
    decreases max - i
  {
    if Final(replies(i)) || i == max then i + 1 else CallsFrom(replies, i + 1, max)
  }

  function Calls(replies: Replies, max: nat): (n: nat)
    ensures AreCalls(replies, max, n)
  {
    CallsFrom(replies, 0, max)
  }

  lemma CallsUnique(replies: Replies, max: nat, n: nat)
    requires AreCalls(replies, max, n)
    ensures n == Calls(replies, max)
  {
  }

  /** Copies that the calls lo..hi-1 left in the stream. */
  function Copies(replies: Replies, lo: nat, hi: nat): (n: nat)
    requires lo <= hi
    ensures n <= hi - lo
    decreases hi - lo
  {
    if lo == hi then 0 else Copies(replies, lo, hi - 1) + if Writes(replies(hi - 1)) then 1 else 0
  }

  /** The calls lo..hi-1 that wrote, whether or not they reported success. */
  function Writers(replies: Replies, lo: nat, hi: nat): set<nat> {
    set k: nat | k < hi && WritesFrom(replies, lo, k)
  }

  predicate WritesFrom(replies: Replies, lo: nat, k: nat) {
    lo <= k && (replies(k).Added? || replies(k).wrote)
  }

  /** Every call that wrote left one copy, also one that reported an error. */
  lemma {:induction false} CopiesCount(replies: Replies, lo: nat, hi: nat)
    requires lo <= hi
    ensures Copies(replies, lo, hi) == |Writers(replies, lo, hi)|
    decreases hi - lo
  {
    if lo == hi {
      assert Writers(replies, lo, hi) == {};
    } else {
      CopiesCount(replies, lo, hi - 1);
      WritersGrow(replies, lo, hi - 1);
    }
  }

  lemma WritersGrow(replies: Replies, lo: nat, k: nat)
    requires lo <= k
    ensures |Writers(replies, lo, k + 1)| == |Writers(replies, lo, k)| + if replies(k).Added? || replies(k).wrote then 1 else 0
  {
    assert Writers(replies, lo, k + 1) == Writers(replies, lo, k) + if WritesFrom(replies, lo, k) then {k} else {};
  }

  /** The waits before the calls 1..n, in retry intervals: attempt i is followed by i + 1 of them. */
  function Waits(n: nat): nat {
    if n == 0 then 0 else Waits(n - 1) + n
  }

  /** The waits add up to n (n + 1) / 2 intervals. */
  lemma {:induction false} WaitsAddUp(n: nat)
    ensures 2 * Waits(n) == n * (n + 1)
  {
    if n > 0 {
      WaitsAddUp(n - 1);
    }
  }

  function AppendCopies(st: Stream, p: Payload, n: nat): Stream {
    if n == 0 then st else Append(AppendCopies(st, p, n - 1), p, Api)
  }

  class RedisQueue {
    const redis: RedisStream
    var options: Options

    constructor (redis: RedisStream, given: Options)
      ensures this.redis == redis && options == Normalised(given)
    {
      this.redis := redis;
      options := given;
      new;
      if options.queueName == "" { options := options.(queueName := "media:jobs"); }
      if options.maxRetries < 0 { options := options.(maxRetries := 3); }
      if options.retryInterval <= 0.0 { options := options.(retryInterval := 2.0); }
      if options.connectionTimeout <= 0.0 { options := options.(connectionTimeout := 2.0); }
      if options.readTimeout <= 0.0 { options := options.(readTimeout := 5.0); }
      if options.writeTimeout <= 0.0 { options := options.(writeTimeout := 5.0); }
      if options.poolSize <= 0 { options := options.(poolSize := 10); }
      if options.maxStreamLength <= 0 { options := options.(maxStreamLength := 10000); }
    }

    /** Call number k of a publish that began with the stream `before`. */
    method XAdd(p: Payload, replies: Replies, k: nat, ghost before: Stream) returns (reply: Reply)
      requires redis.View() == AppendCopies(before, p, Copies(replies, 0, k))
      modifies redis`log
      ensures reply == replies(k) && redis.View() == AppendCopies(before, p, Copies(replies, 0, k + 1))
    {
      reply := replies(k);
      if Writes(reply) {
        redis.XAdd(p, Api);
      }
    }

    /** One publish: stop at the first success or cancelled context, else retry after a growing wait.
        `calls` counts the XADDs and `waited` the retry intervals slept; the error, if any, is never empty. */
    method DoXAddWithRetry(p: Payload, replies: Replies) returns (error: Option<PublishError>, calls: nat, waited: nat)
      requires options.maxRetries >= 0
      modifies redis`log
      ensures calls == Calls(replies, options.maxRetries) && AreCalls(replies, options.maxRetries, calls)
      ensures forall k :: 0 <= k < calls - 1 ==> replies(k).Failed?
      ensures replies(calls - 1).Failed? ==> calls == options.maxRetries + 1
      ensures waited == Waits(calls - 1)
      ensures redis.View() == AppendCopies(old(redis.View()), p, Copies(replies, 0, calls))
      ensures error.None? <==> replies(calls - 1).Added?
      ensures error == Some(ContextError) <==> replies(calls - 1).Cancelled?
      ensures error.Some? && error != Some(ContextError) ==>
                calls == options.maxRetries + 1 && error == Some(Exhausted(calls - 1))
    {
      ghost var before := redis.View();
      ghost var all := Calls(replies, options.maxRetries);
      var lastErr: Option<nat> := None;
      var attempt := 0;
      calls, waited := 0, 0;
      while attempt <= options.maxRetries
        invariant 0 <= attempt == calls <= options.maxRetries + 1
        invariant attempt > 0 ==> !Final(replies(attempt - 1))
        invariant attempt < all || (attempt == all && attempt == options.maxRetries + 1)
        invariant attempt <= options.maxRetries ==> waited == Waits(attempt)
        invariant attempt > options.maxRetries ==> waited == Waits(attempt - 1)
        invariant redis.View() == AppendCopies(before, p, Copies(replies, 0, attempt))
        invariant attempt > 0 ==> lastErr == Some(attempt - 1)
        decreases options.maxRetries + 1 - attempt
      {
        var reply := XAdd(p, replies, attempt, before);
        calls := calls + 1;
        if reply.Added? {
          return None, calls, waited;
        }
        if reply.Cancelled? {
          return Some(ContextError), calls, waited;
        }
        lastErr := Some(attempt);
        if attempt < options.maxRetries {
          waited := waited + (attempt + 1);
        }
        attempt := attempt + 1;
      }
      return Some(Exhausted(lastErr.value)), calls, waited;
    }
  }

  /** A success leaves between one and R + 1 copies, one per call that wrote; an exhausted publish
      has made all R + 1 calls and waited R (R + 1) / 2 retry intervals in all. */
  lemma PublishBounds(replies: Replies, max: nat)
    ensures var n := Calls(replies, max);
            && (replies(n - 1).Added? ==> 1 <= Copies(replies, 0, n) <= max + 1)
            && (!Final(replies(n - 1)) ==> n == max + 1 && 2 * Waits(n - 1) == max * (max + 1))
            && (forall k :: 0 <= k < n - 1 ==> !replies(k).Added?)
  {
    var n := Calls(replies, max);
    WaitsAddUp(n - 1);
  }

  // ---------- the service call ----------

  /** Where MarkAssetUploaded fails, if it does. */
  datatype Fault = NoFault | NoObject | BeginFails | UpdateFails | InsertFails | CommitFails

  class AssetService {
    const pg: Database
    const queue: RedisQueue

    constructor (pg: Database, queue: RedisQueue)
      ensures this.pg == pg && this.queue == queue
    {
      this.pg, this.queue := pg, queue;
    }

    /** The tables change only by the whole transaction, and a message is published only after it
        committed; a second call for the same asset changes nothing and publishes nothing. */
    method MarkAssetUploaded(a: AssetId, now: real, fault: Fault, replies: Replies) returns (ok: bool)
      requires queue.options.maxRetries >= 0
      requires a in pg.index ==> pg.index[a] in pg.jobs
      modifies pg, queue.redis`log
      ensures var (db, made) := MarkUploadedTx(old(pg.Rows()), a, now);
              var committed := made.Some? && fault.NoFault?;
              var calls := Calls(replies, queue.options.maxRetries);
              && pg.Rows() == (if committed then db else old(pg.Rows()))
              && queue.redis.View() ==
                 (if committed then AppendCopies(old(queue.redis.View()), JobPayload(made.value, a), Copies(replies, 0, calls))
                  else old(queue.redis.View()))
              && (ok <==> if committed then replies(calls - 1).Added? else made.None? && !(fault.NoObject? || fault.BeginFails? || fault.UpdateFails?))
    {
      if fault.NoObject? {
        return false;
      }
      var tx: Option<Db> := if fault.BeginFails? then None else Some(pg.Rows());
      if tx.None? {
        return false;
      }
      if fault.UpdateFails? {
        return false;                       // the deferred rollback drops tx
      }
      if !(a in tx.value.assets && tx.value.assets[a].Uploading?) {
        return true;                        // already marked as uploaded
      }
      tx := Some(SetAsset(tx.value, a, Uploaded));
      if fault.InsertFails? {
        return false;
      }
      var jobId: JobId;
      if a in tx.value.index {
        jobId := tx.value.index[a];
        tx := Some(tx.value.(jobs := tx.value.jobs[jobId := tx.value.jobs[jobId].(updated := now)]));
      } else {
        jobId := tx.value.nextJob;
        tx := Some(InsertJob(tx.value, a, Accepted, now));
      }
      if fault.CommitFails? {
        return false;
      }
      pg.assets, pg.jobs, pg.index, pg.nextJob := tx.value.assets, tx.value.jobs, tx.value.index, tx.value.nextJob;
      tx := None;                           // nothing left to roll back
      var error, _, _ := queue.DoXAddWithRetry(JobPayload(jobId, a), replies);
      return error.None?;
    }
  }
}

/**
 A service call is a run of the protocol: one commit, then one publish step per copy.
 */
module ProducerRefinement {
  import opened Postgres
  import opened Streams
  import opened Protocol
  import opened Refinement
  import opened Publishing

  ghost function WithStream(s: State, st: Stream): State {
    s.(world := s.world.(stream := st))
  }

  lemma {:induction false} CopiesRun(m: int, s: State, r: RequestId, st: Stream, i: nat, n: nat)
    requires r in s.api && s.api[r].enqueuing && i <= n && s.world.stream == AppendCopies(st, s.api[r].payload, i)
    ensures RunsTo(m, s, WithStream(s, AppendCopies(st, s.api[r].payload, n)).(api := s.api - {r}))
    decreases n - i
  {
    var end := WithStream(s, AppendCopies(st, s.api[r].payload, n)).(api := s.api - {r});
    if i == n {
      assert WithStream(s, s.world.stream) == s;
      RunsToItself(m, end);
      assert Next(m, s, EndRequest(r)) == end;
      RunBefore(m, s, EndRequest(r), end);
    } else {
      var s1 := WithStream(s, AppendCopies(st, s.api[r].payload, i + 1));
      assert Next(m, s, Publish(r, 0)) == s1;
      CopiesRun(m, s1, r, st, i + 1, n);
      RunBefore(m, s, Publish(r, 0), end);
    }
  }

  /** What MarkAssetUploaded leaves behind after a commit is what the protocol reaches with a fresh
      request: the job committed first, then one Enqueue of as many copies as XADD calls wrote. */
  lemma ServiceIsARun(m: int, s: State, r: RequestId, a: AssetId, copies: nat)
    requires r !in s.api && MarkUploadedTx(s.world.db, a, s.world.clock).1.Some?
    ensures var (db, made) := MarkUploadedTx(s.world.db, a, s.world.clock);
            RunsTo(m, s, s.(world := s.world.(db := db, stream := AppendCopies(s.world.stream, JobPayload(made.value, a), copies))))
  {
    var (db, made) := MarkUploadedTx(s.world.db, a, s.world.clock);
    var s1 := Next(m, s, MarkUploaded(r, a));
    var s2 := Next(m, s1, StartEnqueue(r));
    CopiesRun(m, s2, r, s.world.stream, 0, copies);
    var end := s.(world := s.world.(db := db, stream := AppendCopies(s.world.stream, JobPayload(made.value, a), copies)));
    assert WithStream(s2, AppendCopies(s.world.stream, s2.api[r].payload, copies)).(api := s2.api - {r}) == end;
    RunBefore(m, s1, StartEnqueue(r), end);
    RunBefore(m, s, MarkUploaded(r, a), end);
  }
}
