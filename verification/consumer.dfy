/**
 The worker's Consumer object over a database and a stream that it updates in place.  Each method
 is proved to leave exactly the state that the sequential specification computes.  A method runs
 at one moment `now`; `outcome` is what processing the asset comes to.
 */
module ConsumerObject {
  import opened Postgres
  import opened Streams
  import opened Protocol
  import opened Sequential
  import opened Effects

  class Database {
    var assets: map<AssetId, AssetStatus>
    var jobs: map<JobId, Job>
    var index: map<AssetId, JobId>
    var nextJob: JobId

    function Rows(): Db
      reads this
    {
      Db(assets, jobs, index, nextJob)
    }

    method SetAssetStatus(a: AssetId, status: AssetStatus)
      modifies this`assets
      ensures Rows() == SetAsset(old(Rows()), a, status)
    {
      if a in assets {
        assets := assets[a := status];
      }
    }

    method SetJobStatus(j: JobId, status: JobStatus, now: real)
      modifies this`jobs
      ensures Rows() == SetJob(old(Rows()), j, status, now)
    {
      if j in jobs {
        jobs := jobs[j := jobs[j].(status := status, updated := now)];
      }
    }

    method InsertPending(a: AssetId, now: real) returns (j: JobId)
      modifies this`jobs, this`index, this`nextJob
      ensures j == old(nextJob) && Rows() == InsertJob(old(Rows()), a, Pending, now)
    {
      j := nextJob;
      jobs := jobs[j := Job(a, Pending, 0, now)];
      index := index[a := j];
      nextJob := j + 1;
    }

    /** The sweep's query: every stale job once, in an order of the database's choosing. */
    method SelectStale(now: real) returns (order: seq<JobId>)
      ensures Enumerates(order, StaleJobs(Rows(), now))
    {
      order := [];
      var rest := StaleJobs(Rows(), now);
      ghost var seen: set<JobId> := {};
      while rest != {}
        invariant rest !! seen && rest + seen == StaleJobs(Rows(), now)
        invariant Enumerates(order, seen)
        decreases rest
      {
        var j :| j in rest;
        rest := rest - {j};
        seen := seen + {j};
        order := order + [j];
      }
    }
  }

  class RedisStream {
    var log: seq<Entry>
    var grouped: bool
    var cursor: nat
    var dropped: set<MsgId>
    var pending: set<MsgId>
    var acked: set<MsgId>

    function View(): Stream
      reads this
    {
      Stream(log, grouped, cursor, dropped, pending, acked)
    }

    method XAdd(p: Payload, origin: Origin)
      modifies this`log
      ensures View() == Append(old(View()), p, origin)
    {
      log := log + [Entry(p, origin)];
    }

    method XReadGroup() returns (msg: Option<MsgId>)
      modifies this`cursor, this`pending
      ensures msg == if HasNext(old(View())) then Some(old(cursor)) else None
      ensures View() == if msg.Some? then Deliver(old(View())) else old(View())
    {
      if grouped && cursor < |log| {
        msg := Some(cursor);
        pending := pending + {cursor};
        cursor := cursor + 1;
      } else {
        msg := None;
      }
    }

    method XAck(msg: MsgId)
      modifies this`pending, this`acked
      ensures View() == Ack(old(View()), msg)
    {
      if msg in pending {
        pending := pending - {msg};
        acked := acked + {msg};
      }
    }

    method XGroupCreate()
      modifies this`grouped, this`cursor, this`dropped
      ensures View() == CreateGroup(old(View()))
    {
      if !grouped {
        if cursor < |log| {
          dropped := dropped + Range(cursor, |log|);
          cursor := |log|;
        }
        grouped := true;
      }
    }
  }

  class Consumer {
    const pg: Database
    const redis: RedisStream
    const maxRetries: int
    var lastRecovery: real

    constructor (pg: Database, redis: RedisStream, maxRetries: int)
      modifies redis`grouped, redis`cursor, redis`dropped
      ensures this.pg == pg && this.redis == redis && this.maxRetries == maxRetries && lastRecovery == 0.0
      ensures redis.View() == CreateGroup(old(redis.View()))
      ensures old(redis.grouped) ==> redis.View() == old(redis.View())
      ensures !old(redis.grouped) && old(redis.cursor) <= |old(redis.log)| ==>
                redis.View() == Stream(old(redis.log), true, |old(redis.log)|,
                                       old(redis.dropped) + Range(old(redis.cursor), |old(redis.log)|),
                                       old(redis.pending), old(redis.acked))
    {
      this.pg, this.redis, this.maxRetries := pg, redis, maxRetries;
      lastRecovery := 0.0;
      new;
      redis.XGroupCreate();
    }

    function Shared(now: real): World
      reads pg, redis
    {
      World(pg.Rows(), redis.View(), now)
    }

    method ProcessAssetDispatch(a: AssetId, outcome: Outcome) returns (result: Outcome)
      modifies pg`assets
      ensures (pg.Rows(), result) == ProcessSpec(old(pg.Rows()), a, outcome)
    {
      if a !in pg.assets {
        return Raises(false);
      }
      if pg.assets[a].Ready? {
        return Returns;
      }
      pg.SetAssetStatus(a, Processing);
      if outcome.Returns? {
        pg.SetAssetStatus(a, Ready);
      }
      if outcome.VideoFails? {
        pg.SetAssetStatus(a, AssetStatus.Failed);
        return Raises(false);
      }
      return outcome;
    }

    method HandleJob(j: JobId, msg: MsgId, now: real, outcome: Outcome)
      modifies pg, redis
      ensures Shared(now) == HandleJobSpec(maxRetries, old(Shared(now)), j, msg, outcome)
    {
      if j !in pg.jobs {
        redis.XAck(msg);
        return;
      }
      var job := pg.jobs[j];
      if job.status.Done? {
        redis.XAck(msg);
        return;
      }
      pg.jobs := pg.jobs[j := job.(status := InProgress, attempts := job.attempts + 1, updated := now)];
      var result := ProcessAssetDispatch(job.asset, outcome);
      if result.Raises? {
        var attemptsNow := if j in pg.jobs then pg.jobs[j].attempts else 0;
        if !result.retryable || attemptsNow >= maxRetries {
          pg.SetJobStatus(j, JobStatus.Failed, now);
          pg.SetAssetStatus(job.asset, AssetStatus.Failed);
        } else {
          pg.SetJobStatus(j, Pending, now);
        }
        return;
      }
      pg.SetJobStatus(j, Done, now);
      pg.SetAssetStatus(job.asset, Ready);
      redis.XAck(msg);
    }

    method HandleAssetMessage(a: AssetId, msg: MsgId, now: real, outcome: Outcome)
      modifies pg, redis
      ensures Shared(now) == HandleAssetSpec(maxRetries, old(Shared(now)), a, msg, outcome)
    {
      if a !in pg.assets || (!pg.assets[a].Uploaded? && !pg.assets[a].Processing?) {
        redis.XAck(msg);
        return;
      }
      var j: JobId;
      if a in pg.index {
        j := pg.index[a];
      } else {
        j := pg.InsertPending(a, now);
      }
      HandleJob(j, msg, now, outcome);
    }

    method RecoverStuckPending(now: real) returns (ghost order: seq<JobId>)
      modifies redis`log
      ensures Enumerates(order, StaleJobs(pg.Rows(), now))
      ensures Shared(now) == SweepSpec(old(Shared(now)), order)
      ensures SweptLog(pg.Rows(), now, old(redis.log), redis.log)
    {
      var rows := pg.SelectStale(now);
      order := rows;
      ghost var todo := SweepPayloads(pg.Rows(), order);
      ghost var before := redis.View();
      for i := 0 to |rows|
        invariant AppendAll(redis.View(), todo[i..]) == AppendAll(before, todo)
      {
        assert rows[i] in rows;
        redis.XAdd(JobPayload(rows[i], pg.jobs[rows[i]].asset), Sweep);
        assert todo[i..][1..] == todo[i + 1..];
      }
      SweepSpecEffect(old(Shared(now)), order);
    }

    method MaybeRecover(now: real) returns (ghost order: seq<JobId>)
      modifies redis`log, this`lastRecovery
      ensures OrderOk(old(Shared(now)), old(lastRecovery), order)
      ensures (Shared(now), lastRecovery) == RecoverSpec(old(Shared(now)), old(lastRecovery), order)
      ensures if now - old(lastRecovery) >= 120.0
              then lastRecovery == now && SweptLog(pg.Rows(), now, old(redis.log), redis.log)
              else lastRecovery == old(lastRecovery) && redis.log == old(redis.log)
    {
      order := [];
      if now - lastRecovery >= RECOVERY_INTERVAL {
        lastRecovery := now;
        order := RecoverStuckPending(now);
      }
    }

    /** One consume call: recover if due, read one message, handle it. */
    method Consume(now: real, oracle: Oracle) returns (worked: bool, ghost order: seq<JobId>)
      modifies pg, redis, this`lastRecovery
      ensures OrderOk(old(Shared(now)), old(lastRecovery), order)
      ensures (Shared(now), lastRecovery) == ConsumeSpec(maxRetries, old(Shared(now)), old(lastRecovery), order, oracle)
      ensures worked <==> HasNext(RecoverSpec(old(Shared(now)), old(lastRecovery), order).0.stream)
    {
      order := MaybeRecover(now);
      var read := redis.XReadGroup();
      if read.None? {
        return false, order;
      }
      var msg := read.value;
      match redis.log[msg].payload {
        case JobPayload(j, _) => HandleJob(j, msg, now, oracle(msg));
        case AssetPayload(a) => HandleAssetMessage(a, msg, now, oracle(msg));
        case Malformed => redis.XAck(msg);
        case Undecodable =>
      }
      worked := true;
    }
  }
}
