/**
 Convergence of the recovery: with one worker, no further crashes and no further publishing,
 repeated rounds of "let more than two minutes pass, sweep, drain the stream" bring exactly the
 jobs that were ever claimed, or are named by an undelivered message, to 'done' or 'failed'.
 */
module Convergence {
  import opened Postgres
  import opened Streams
  import opened Protocol
  import opened Invariants
  import opened Sequential
  import opened Refinement
  import opened Effects

  /** Consume until the stream has nothing left; no time passes, so no second sweep is due. */
  function Drain(m: int, world: World, oracle: Oracle): World
    decreases |world.stream.log| - world.stream.cursor
  {
    if HasNext(world.stream) then Drain(m, ReadSpec(m, world, oracle), oracle) else world
  }

  ghost predicate RoundOrder(world: World, dt: real, order: seq<JobId>) {
    Enumerates(order, StaleJobs(world.db, world.clock + dt))
  }

  ghost function Round(m: int, world: World, dt: real, order: seq<JobId>, oracle: Oracle): World
    requires RoundOrder(world, dt, order)
  {
    Drain(m, SweepSpec(world.(clock := world.clock + dt), order), oracle)
  }

  ghost predicate IsRound(m: int, world: World, world': World) {
    exists dt: real, order, oracle :: dt > STALE_AFTER && RoundOrder(world, dt, order) && world' == Round(m, world, dt, order, oracle)
  }

  ghost predicate AreRounds(m: int, worlds: seq<World>) {
    forall i :: 0 <= i < |worlds| - 1 ==> IsRound(m, worlds[i], worlds[i + 1])
  }

  // ---------- what one delivery does to one job ----------

  ghost predicate NotFromFuture(world: World) {
    forall j :: j in world.db.jobs ==> world.db.jobs[j].updated <= world.clock
  }

  /** Worlds in which rounds run: reachable data, a consumer group, no row from the future. */
  ghost predicate Ready(world: World) {
    WorldInv(world) && world.stream.grouped && NotFromFuture(world)
  }

  predicate Terminal(job: Job) { job.status.Done? || job.status == JobStatus.Failed }

  /** The job was claimed again, and the claim got its verdict. */
  predicate Moved(m: int, job: Job, job': Job) {
    && job'.asset == job.asset && job.attempts < job'.attempts
    && (Terminal(job') || (job'.status.Pending? && job'.attempts < m))
  }

  predicate MovedOrSame(m: int, job: Job, job': Job) {
    job' == job || (!job.status.Done? && Moved(m, job, job'))
  }

  /** A delivery of this payload is sure to claim j unless j is 'done'. */
  predicate Calls(db: Db, p: Payload, j: JobId) {
    match p
    case JobPayload(k, _) => k == j
    case AssetPayload(a) => j in db.jobs && db.jobs[j].asset == a && db.jobs[j].status.Accepted?
    case _ => false
  }

  ghost predicate SameJobs(world: World, world': World) {
    world.db.jobs.Keys == world'.db.jobs.Keys
  }

  ghost predicate Effect(m: int, world: World, world': World, j: JobId) {
    && SameJobs(world, world')
    && (j in world.db.jobs ==> MovedOrSame(m, world.db.jobs[j], world'.db.jobs[j]))
  }

  lemma HandleJobEffect(m: int, world: World, k: JobId, msg: MsgId, outcome: Outcome, j: JobId)
    requires DbInv(world.db) && k in world.db.jobs && j in world.db.jobs
    ensures var world' := HandleJobSpec(m, world, k, msg, outcome);
            && Effect(m, world, world', j)
            && (j == k && !world.db.jobs[j].status.Done? ==> Moved(m, world.db.jobs[j], world'.db.jobs[j]))
            && (j != k ==> world'.db.jobs[j] == world.db.jobs[j])
            && (world'.db.jobs[j] == world.db.jobs[j] || world'.db.jobs[j].updated == world.clock)
  {
  }

  /** The empty case: a job id without a row. */
  lemma HandleJobMissing(m: int, world: World, k: JobId, msg: MsgId, outcome: Outcome)
    requires k !in world.db.jobs
    ensures HandleJobSpec(m, world, k, msg, outcome).db == world.db
  {
  }

  lemma HandleEffect(m: int, world: World, msg: MsgId, outcome: Outcome, j: JobId)
    requires DbInv(world.db) && j in world.db.jobs
    ensures var world' := HandleSpec(m, world, msg, outcome);
            && Effect(m, world, world', j)
            && (Calls(world.db, PayloadOf(world, msg), j) && !world.db.jobs[j].status.Done? ==>
                  Moved(m, world.db.jobs[j], world'.db.jobs[j]))
            && (!Names(world.db, PayloadOf(world, msg), j) ==> world'.db.jobs[j] == world.db.jobs[j])
            && (world'.db.jobs[j] == world.db.jobs[j] || world'.db.jobs[j].updated == world.clock)
  {
    match PayloadOf(world, msg) {
      case JobPayload(k, _) =>
        if k in world.db.jobs {
          HandleJobEffect(m, world, k, msg, outcome, j);
        } else {
          HandleJobMissing(m, world, k, msg, outcome);
        }
      case AssetPayload(a) =>
        EnsureJobKeeps(world.db, a, world.clock);
        var (_, result) := EnsureJobTx(world.db, a, world.clock);
        if result.Ensured? {
          HandleJobEffect(m, world, result.job, msg, outcome, j);
        }
      case _ =>
    }
  }

  /** A path of one worker keeps the world in order. */
  lemma {:induction false} PathKeeps(m: int, world: World, pc: Pc, acts: seq<Action>, world': World, pc': Pc)
    requires WorldInv(world) && PcOk(world, pc) && Path(m, world, pc, acts, world', pc')
    ensures WorldInv(world') && PcOk(world', pc')
    decreases |acts|
  {
    if acts != [] {
      StepKeeps(m, world, pc, acts[0]);
      var (world1, pc1) := Step(m, world, pc, acts[0]);
      PathKeeps(m, world1, pc1, acts[1..], world', pc');
    }
  }

  lemma LeadsKeeps(m: int, world: World, pc: Pc, world': World, pc': Pc)
    requires WorldInv(world) && PcOk(world, pc) && Leads(m, world, pc, world', pc')
    ensures WorldInv(world')
  {
    var acts :| Path(m, world, pc, acts, world', pc');
    PathKeeps(m, world, pc, acts, world', pc');
  }

  lemma ReadEffect(m: int, world: World, oracle: Oracle, j: JobId)
    requires Ready(world) && HasNext(world.stream) && j in world.db.jobs
    ensures var world' := ReadSpec(m, world, oracle);
            var p := world.stream.log[world.stream.cursor].payload;
            && Effect(m, world, world', j)
            && (Calls(world.db, p, j) && !world.db.jobs[j].status.Done? ==> Moved(m, world.db.jobs[j], world'.db.jobs[j]))
            && (!Names(world.db, p, j) ==> world'.db.jobs[j] == world.db.jobs[j])
            && world'.db.jobs[j].updated <= world'.clock
  {
    var read := world.(stream := Deliver(world.stream));
    HandleEffect(m, read, world.stream.cursor, oracle(world.stream.cursor), j);
  }

  lemma NoNewJobs(m: int, world: World, oracle: Oracle)
    requires Ready(world) && HasNext(world.stream)
    ensures SameJobs(world, ReadSpec(m, world, oracle))
  {
    var read := world.(stream := Deliver(world.stream));
    match PayloadOf(read, world.stream.cursor) {
      case AssetPayload(a) => EnsureJobKeeps(world.db, a, world.clock);
      case _ =>
    }
  }

  lemma ReadKeeps(m: int, world: World, oracle: Oracle)
    requires Ready(world) && HasNext(world.stream)
    ensures Ready(ReadSpec(m, world, oracle)) && SameJobs(world, ReadSpec(m, world, oracle))
  {
    var world' := ReadSpec(m, world, oracle);
    ReadLeads(m, world, oracle);
    LeadsKeeps(m, world, Polling, world', Idle);
    NoNewJobs(m, world, oracle);
    forall j | j in world'.db.jobs ensures world'.db.jobs[j].updated <= world'.clock {
      ReadEffect(m, world, oracle, j);
    }
  }

  // ---------- what a drain does to one job ----------

  /** Some undelivered entry is sure to claim j. */
  ghost predicate Due(world: World, j: JobId) {
    exists i :: world.stream.cursor <= i < |world.stream.log| && Calls(world.db, world.stream.log[i].payload, j)
  }

  /** Some undelivered entry names j. */
  ghost predicate Named(world: World, j: JobId) {
    exists i :: world.stream.cursor <= i < |world.stream.log| && Names(world.db, world.stream.log[i].payload, j)
  }

  lemma DueCarriesOver(m: int, world: World, oracle: Oracle, j: JobId)
    requires Ready(world) && HasNext(world.stream) && j in world.db.jobs
    ensures var world' := ReadSpec(m, world, oracle);
            && j in world'.db.jobs
            && (Due(world, j) && world'.db.jobs[j] == world.db.jobs[j] ==> Due(world', j) || world.db.jobs[j].status.Done?)
            && (!Named(world, j) ==> world'.db.jobs[j] == world.db.jobs[j] && !Named(world', j))
  {
    var world' := ReadSpec(m, world, oracle);
    ReadEffect(m, world, oracle, j);
    if Due(world, j) {
      var i :| world.stream.cursor <= i < |world.stream.log| && Calls(world.db, world.stream.log[i].payload, j);
      if i > world.stream.cursor && world'.db.jobs[j] == world.db.jobs[j] {
        assert Calls(world'.db, world'.stream.log[i].payload, j);
      }
    }
    if !Named(world, j) {
      assert !Names(world.db, world.stream.log[world.stream.cursor].payload, j);
      forall i | world'.stream.cursor <= i < |world'.stream.log| ensures !Names(world'.db, world'.stream.log[i].payload, j) {
        assert !Names(world.db, world.stream.log[i].payload, j);
      }
    }
  }

  lemma {:induction false} DrainKeeps(m: int, world: World, oracle: Oracle)
    requires Ready(world)
    ensures var world' := Drain(m, world, oracle);
            && Ready(world') && SameJobs(world, world') && world'.clock == world.clock
            && world'.stream.cursor == |world'.stream.log|
    decreases |world.stream.log| - world.stream.cursor
  {
    if HasNext(world.stream) {
      ReadKeeps(m, world, oracle);
      DrainKeeps(m, ReadSpec(m, world, oracle), oracle);
    }
  }

  /** A drain moves every job that is due and leaves alone every job that is not named. */
  ghost predicate DrainMoves(m: int, world: World, world': World, j: JobId) {
    && j in world.db.jobs && Effect(m, world, world', j)
    && (Due(world, j) && !world.db.jobs[j].status.Done? ==> Moved(m, world.db.jobs[j], world'.db.jobs[j]))
    && (!Named(world, j) ==> world'.db.jobs[j] == world.db.jobs[j])
  }

  lemma {:induction false} DrainEffect(m: int, world: World, oracle: Oracle, j: JobId)
    requires Ready(world) && j in world.db.jobs
    ensures DrainMoves(m, world, Drain(m, world, oracle), j)
    decreases |world.stream.log| - world.stream.cursor
  {
    if HasNext(world.stream) {
      var next := ReadSpec(m, world, oracle);
      ReadEffect(m, world, oracle, j);
      ReadKeeps(m, world, oracle);
      DueCarriesOver(m, world, oracle, j);
      DrainEffect(m, next, oracle, j);
    }
  }

  // ---------- what a sweep does ----------

  /** The sweep changes no row, makes every stale job due, and names no other job. */
  lemma SweepEffect(world: World, order: seq<JobId>, j: JobId)
    requires Ready(world) && Enumerates(order, StaleJobs(world.db, world.clock)) && j in world.db.jobs
    ensures var world' := SweepSpec(world, order);
            && world'.db == world.db && world'.clock == world.clock
            && (Due(world, j) || IsStale(world.db.jobs[j], world.clock) ==> Due(world', j))
            && (Named(world', j) ==> Named(world, j) || IsStale(world.db.jobs[j], world.clock))
  {
    var world' := SweepSpec(world, order);
    var todo := SweepPayloads(world.db, order);
    var n := |world.stream.log|;
    AppendAllLog(world.stream, todo);
    if Due(world, j) {
      var i :| world.stream.cursor <= i < n && Calls(world.db, world.stream.log[i].payload, j);
      assert world'.stream.log[i] == world.stream.log[i];
    }
    if IsStale(world.db.jobs[j], world.clock) {
      assert j in StaleJobs(world.db, world.clock);
      var i :| 0 <= i < |order| && order[i] == j;
      assert world'.stream.log[n + i].payload == todo[i];
      assert Calls(world'.db, world'.stream.log[n + i].payload, j);
    }
    if Named(world', j) {
      var i :| world'.stream.cursor <= i < |world'.stream.log| && Names(world'.db, world'.stream.log[i].payload, j);
      if i < n {
        assert world.stream.log[i] == world'.stream.log[i];
      } else {
        assert world'.stream.log[n + (i - n)].payload == todo[i - n];
        assert order[i - n] in order;
      }
    }
  }

  lemma SweepReady(m: int, world: World, order: seq<JobId>)
    requires Ready(world) && Enumerates(order, StaleJobs(world.db, world.clock))
    ensures Ready(SweepSpec(world, order))
  {
    var todo := SweepPayloads(world.db, order);
    SweepLeads(m, world, todo);
    GroupedStays(world.stream, todo);
    if todo != [] {
      SelectGood(m, world, Selecting, order);
    }
    LeadsKeeps(m, world, if todo == [] then Polling else Sweeping(todo), SweepSpec(world, order), Polling);
  }

  // ---------- rounds ----------

  lemma RoundKeeps(m: int, world: World, world': World)
    requires Ready(world) && IsRound(m, world, world')
    ensures Ready(world') && SameJobs(world, world') && world'.stream.cursor == |world'.stream.log|
  {
    var dt: real, order, oracle :| dt > STALE_AFTER && RoundOrder(world, dt, order) && world' == Round(m, world, dt, order, oracle);
    var later := world.(clock := world.clock + dt);
    SweepReady(m, later, order);
    DrainKeeps(m, SweepSpec(later, order), oracle);
  }

  lemma TimePasses(world: World, dt: real, j: JobId)
    requires Ready(world) && dt >= 0.0
    ensures var later := world.(clock := world.clock + dt);
            Ready(later) && (Due(world, j) <==> Due(later, j)) && (Named(world, j) <==> Named(later, j))
  {
    var later := world.(clock := world.clock + dt);
    assert later.db == world.db && later.stream == world.stream;
  }

  ghost predicate RoundMoves(m: int, world: World, world': World, j: JobId) {
    && j in world.db.jobs && j in world'.db.jobs
    && var job, job' := world.db.jobs[j], world'.db.jobs[j];
       && MovedOrSame(m, job, job')
       && (job.status.Pending? || job.status.InProgress? ==> Moved(m, job, job'))
       && (Due(world, j) && !job.status.Done? ==> Moved(m, job, job'))
       && (!Named(world, j) && !job.status.Pending? && !job.status.InProgress? ==> job' == job)
  }

  /** What the drain of a round starts from: same rows, and the stale and due jobs are due. */
  ghost predicate SweptFor(world: World, swept: World, j: JobId) {
    && j in world.db.jobs && Ready(swept) && swept.db == world.db
    && var busy := world.db.jobs[j].status.Pending? || world.db.jobs[j].status.InProgress?;
       (Due(world, j) || busy ==> Due(swept, j)) && (Named(swept, j) ==> Named(world, j) || busy)
  }

  lemma SweepsFor(m: int, world: World, dt: real, order: seq<JobId>, j: JobId)
    requires Ready(world) && j in world.db.jobs && dt > STALE_AFTER && RoundOrder(world, dt, order)
    ensures SweptFor(world, SweepSpec(world.(clock := world.clock + dt), order), j)
  {
    var later := world.(clock := world.clock + dt);
    TimePasses(world, dt, j);
    SweepEffect(later, order, j);
    SweepReady(m, later, order);
  }

  lemma RoundComposes(m: int, world: World, swept: World, world': World, j: JobId)
    requires SweptFor(world, swept, j) && DrainMoves(m, swept, world', j)
    ensures RoundMoves(m, world, world', j)
  {
  }

  lemma RoundMovesJob(m: int, world: World, dt: real, order: seq<JobId>, oracle: Oracle, j: JobId)
    requires Ready(world) && j in world.db.jobs && dt > STALE_AFTER && RoundOrder(world, dt, order)
    ensures RoundMoves(m, world, Round(m, world, dt, order, oracle), j)
  {
    var swept := SweepSpec(world.(clock := world.clock + dt), order);
    SweepsFor(m, world, dt, order, j);
    DrainEffect(m, swept, oracle, j);
    RoundComposes(m, world, swept, Drain(m, swept, oracle), j);
  }

  /** One round moves every pending, orphaned or named job, and leaves the others alone. */
  lemma RoundEffect(m: int, world: World, world': World, j: JobId)
    requires Ready(world) && IsRound(m, world, world') && j in world.db.jobs
    ensures RoundMoves(m, world, world', j)
  {
    var dt: real, order, oracle :| dt > STALE_AFTER && RoundOrder(world, dt, order) && world' == Round(m, world, dt, order, oracle);
    RoundMovesJob(m, world, dt, order, oracle, j);
  }

  /** The job was ever claimed, or an undelivered message will claim it. */
  ghost predicate InReach(world: World, j: JobId) {
    j in world.db.jobs && (world.db.jobs[j].attempts > 0 || Named(world, j))
  }

  /** For a never-claimed job every undelivered entry that names it is sure to claim it. */
  lemma NamedIsDue(world: World, j: JobId)
    requires Ready(world) && j in world.db.jobs && world.db.jobs[j].attempts == 0
    ensures Named(world, j) <==> Due(world, j)
  {
    if Named(world, j) {
      var i :| world.stream.cursor <= i < |world.stream.log| && Names(world.db, world.stream.log[i].payload, j);
      assert Calls(world.db, world.stream.log[i].payload, j);
    }
    if Due(world, j) {
      var i :| world.stream.cursor <= i < |world.stream.log| && Calls(world.db, world.stream.log[i].payload, j);
      assert Names(world.db, world.stream.log[i].payload, j);
    }
  }

  /** After k rounds a job in reach has its verdict, or is pending with at least k attempts made. */
  ghost predicate After(m: int, k: nat, job: Job) {
    Terminal(job) || (job.status.Pending? && k <= job.attempts < m)
  }

  lemma {:induction false} RoundsAlong(m: int, worlds: seq<World>, k: nat, j: JobId)
    requires AreRounds(m, worlds) && 1 <= k < |worlds| && Ready(worlds[0]) && j in worlds[0].db.jobs
    ensures Ready(worlds[k]) && j in worlds[k].db.jobs && worlds[k].stream.cursor == |worlds[k].stream.log|
    ensures InReach(worlds[0], j) ==> After(m, k, worlds[k].db.jobs[j])
    ensures !InReach(worlds[0], j) ==> worlds[k].db.jobs[j] == worlds[0].db.jobs[j]
  {
    assert IsRound(m, worlds[k - 1], worlds[k - 1 + 1]);
    if k > 1 {
      RoundsAlong(m, worlds, k - 1, j);
      assert !Named(worlds[k - 1], j);
    } else if worlds[0].db.jobs[j].attempts == 0 {
      NamedIsDue(worlds[0], j);
    }
    RoundKeeps(m, worlds[k - 1], worlds[k]);
    RoundEffect(m, worlds[k - 1], worlds[k], j);
  }

  /** How many rounds settle everything: max_retries, and one where that is not positive. */
  function RoundsNeeded(m: int): (n: nat)
    ensures n >= 1 && n >= m
  {
    if m >= 1 then m else 1
  }

  /** The recovery guarantee, exactly.  After max_retries rounds or more, whatever the processing
      outcomes, a job is 'done' or 'failed' if and only if it was ever claimed or was named by an
      undelivered message at the start; such a job keeps its row from then on, and any other job keeps
      the row it started with. */
  lemma Convergence(m: int, worlds: seq<World>, k: nat, j: JobId)
    requires AreRounds(m, worlds) && RoundsNeeded(m) <= k < |worlds| && Ready(worlds[0]) && j in worlds[0].db.jobs
    ensures j in worlds[k].db.jobs && j in worlds[RoundsNeeded(m)].db.jobs
    ensures Terminal(worlds[k].db.jobs[j]) <==> InReach(worlds[0], j)
    ensures worlds[k].db.jobs[j] == worlds[RoundsNeeded(m)].db.jobs[j]
    ensures !InReach(worlds[0], j) ==> worlds[k].db.jobs[j] == worlds[0].db.jobs[j]
    decreases k
  {
    RoundsAlong(m, worlds, k, j);
    if k > RoundsNeeded(m) {
      Convergence(m, worlds, k - 1, j);
      RoundsAlong(m, worlds, k - 1, j);
      assert IsRound(m, worlds[k - 1], worlds[k - 1 + 1]);
      RoundEffect(m, worlds[k - 1], worlds[k], j);
      assert !Named(worlds[k - 1], j);
    }
  }

  // ---------- what the outcomes decide ----------

  /** Whatever happens to other jobs, processing for j comes to o whenever a message names j. */
  ghost predicate AlwaysFor(world: World, oracle: Oracle, j: JobId, o: Outcome) {
    forall i :: 0 <= i < |world.stream.log| && Names(world.db, world.stream.log[i].payload, j) ==> oracle(i) == o
  }

  /** The outcome counts: a 'ready' asset returns without being processed. */
  ghost predicate Counts(world: World, j: JobId, o: Outcome) {
    j in world.db.jobs && (o.Returns? || (world.db.jobs[j].asset in world.db.assets && !world.db.assets[world.db.jobs[j].asset].Ready?))
  }

  /** The row did not move, or its latest attempt got the verdict of o. */
  predicate Judged(m: int, o: Outcome, job: Job, job': Job) {
    job' == job || (job.attempts < job'.attempts && job'.status == VerdictOf(m, o, job'.attempts))
  }

  lemma HandleJobJudges(m: int, world: World, k: JobId, msg: MsgId, outcome: Outcome, j: JobId, o: Outcome)
    requires DbInv(world.db) && msg in world.stream.pending && Counts(world, j, o) && (k == j ==> outcome == o)
    ensures var world' := HandleJobSpec(m, world, k, msg, outcome);
            Counts(world', j, o) && Judged(m, o, world.db.jobs[j], world'.db.jobs[j])
            && world'.db.jobs[j].asset == world.db.jobs[j].asset
  {
    JobEffect(m, world, k, msg, outcome);
  }

  lemma ReadJudges(m: int, world: World, oracle: Oracle, j: JobId, o: Outcome)
    requires Ready(world) && HasNext(world.stream) && Counts(world, j, o) && AlwaysFor(world, oracle, j, o)
    ensures var world' := ReadSpec(m, world, oracle);
            Counts(world', j, o) && Judged(m, o, world.db.jobs[j], world'.db.jobs[j]) && AlwaysFor(world', oracle, j, o)
  {
    var msg := world.stream.cursor;
    var read := world.(stream := Deliver(world.stream));
    match PayloadOf(read, msg) {
      case JobPayload(k, _) => HandleJobJudges(m, read, k, msg, oracle(msg), j, o);
      case AssetPayload(a) =>
        EnsureEffect(world.db, a, world.clock);
        if EnsureJobTx(world.db, a, world.clock).1.Ensured? {
          HandleJobJudges(m, read, world.db.index[a], msg, oracle(msg), j, o);
        }
      case _ =>
    }
  }

  lemma {:induction false} DrainJudges(m: int, world: World, oracle: Oracle, j: JobId, o: Outcome)
    requires Ready(world) && Counts(world, j, o) && AlwaysFor(world, oracle, j, o)
    ensures var world' := Drain(m, world, oracle); Counts(world', j, o) && Judged(m, o, world.db.jobs[j], world'.db.jobs[j])
    decreases |world.stream.log| - world.stream.cursor
  {
    if HasNext(world.stream) {
      ReadJudges(m, world, oracle, j, o);
      ReadKeeps(m, world, oracle);
      DrainJudges(m, ReadSpec(m, world, oracle), oracle, j, o);
    }
  }

  ghost predicate RoundWith(m: int, world: World, world': World, dt: real, order: seq<JobId>, oracle: Oracle, j: JobId, o: Outcome) {
    && dt > STALE_AFTER && RoundOrder(world, dt, order)
    && AlwaysFor(SweepSpec(world.(clock := world.clock + dt), order), oracle, j, o)
    && world' == Round(m, world, dt, order, oracle)
  }

  /** A round in which processing for j comes to o. */
  ghost predicate IsRoundFor(m: int, world: World, world': World, j: JobId, o: Outcome) {
    exists dt: real, order, oracle :: RoundWith(m, world, world', dt, order, oracle, j, o)
  }

  ghost predicate AreRoundsFor(m: int, worlds: seq<World>, j: JobId, o: Outcome) {
    forall i :: 0 <= i < |worlds| - 1 ==> IsRoundFor(m, worlds[i], worlds[i + 1], j, o)
  }

  lemma RoundJudgesWith(m: int, world: World, world': World, dt: real, order: seq<JobId>, oracle: Oracle, j: JobId, o: Outcome)
    requires Ready(world) && Counts(world, j, o) && RoundWith(m, world, world', dt, order, oracle, j, o)
    ensures Counts(world', j, o) && Judged(m, o, world.db.jobs[j], world'.db.jobs[j])
  {
    var later := world.(clock := world.clock + dt);
    SweepReady(m, later, order);
    DrainJudges(m, SweepSpec(later, order), oracle, j, o);
  }

  lemma RoundForIsRound(m: int, world: World, world': World, j: JobId, o: Outcome)
    requires IsRoundFor(m, world, world', j, o)
    ensures IsRound(m, world, world')
  {
    var dt: real, order, oracle :| RoundWith(m, world, world', dt, order, oracle, j, o);
  }

  lemma RoundJudges(m: int, world: World, world': World, j: JobId, o: Outcome)
    requires Ready(world) && IsRoundFor(m, world, world', j, o) && Counts(world, j, o)
    ensures Counts(world', j, o) && Judged(m, o, world.db.jobs[j], world'.db.jobs[j])
  {
    var dt: real, order, oracle :| RoundWith(m, world, world', dt, order, oracle, j, o);
    RoundJudgesWith(m, world, world', dt, order, oracle, j, o);
  }

  /** What processing comes to decides the job.  If it is in reach and not settled at the start, then
      after any number of rounds it is 'done' if processing returns, 'failed' at once if it fails for
      good, and if its failures are retryable, 'pending' as long as fewer than max_retries attempts
      were made and 'failed' from then on; every round in which it is pending makes an attempt. */
  lemma {:induction false} OutcomeDecides(m: int, worlds: seq<World>, k: nat, j: JobId, o: Outcome)
    requires AreRoundsFor(m, worlds, j, o) && 1 <= k < |worlds| && Ready(worlds[0]) && InReach(worlds[0], j)
    requires !Terminal(worlds[0].db.jobs[j]) && Counts(worlds[0], j, o)
    ensures Ready(worlds[k]) && Counts(worlds[k], j, o)
    ensures var first, job := worlds[0].db.jobs[j], worlds[k].db.jobs[j];
            && job.status == (match o
                              case Returns => Done
                              case VideoFails => JobStatus.Failed
                              case Raises(false) => JobStatus.Failed
                              case Raises(true) => if job.attempts < m then Pending else JobStatus.Failed)
            && first.attempts < job.attempts
            && (job.status.Pending? ==> first.attempts + k <= job.attempts)
  {
    assert IsRoundFor(m, worlds[k - 1], worlds[k - 1 + 1], j, o);
    if k > 1 {
      OutcomeDecides(m, worlds, k - 1, j, o);
    } else if worlds[0].db.jobs[j].attempts == 0 {
      NamedIsDue(worlds[0], j);
    }
    RoundForIsRound(m, worlds[k - 1], worlds[k], j, o);
    RoundJudges(m, worlds[k - 1], worlds[k], j, o);
    RoundKeeps(m, worlds[k - 1], worlds[k]);
    RoundEffect(m, worlds[k - 1], worlds[k], j);
  }

  // ---------- rounds are consume calls ----------

  /** n consume calls in a row at one moment; only the first can find the recovery due. */
  ghost function ConsumeMany(m: int, world: World, last: real, order: seq<JobId>, oracle: Oracle, n: nat): (World, real)
    requires OrderOk(world, last, order)
    decreases n
  {
    if n == 0 then (world, last)
    else
      var (world', last') := ConsumeSpec(m, world, last, order, oracle);
      ConsumeMany(m, world', last', order, oracle, n - 1)
  }

  lemma {:induction false} IdleCallsDrain(m: int, world: World, last: real, order: seq<JobId>, oracle: Oracle, n: nat)
    requires !RecoveryDue(world.clock, last) && world.stream.grouped
    requires n >= |world.stream.log| - world.stream.cursor
    ensures ConsumeMany(m, world, last, order, oracle, n) == (Drain(m, world, oracle), last)
    decreases n
  {
    if n > 0 {
      IdleCallsDrain(m, ReadSpec(m, world, oracle), last, order, oracle, n - 1);
    }
  }

  /** A round is a row of consume calls: the first sweeps, and once the stream is read to its end
      further calls change nothing. */
  lemma RoundIsConsumeCalls(m: int, world: World, last: real, dt: real, order: seq<JobId>, oracle: Oracle, n: nat)
    requires world.stream.grouped && last <= world.clock && dt > STALE_AFTER && RoundOrder(world, dt, order)
    requires n >= 1 && n >= |world.stream.log| + |order| - world.stream.cursor
    ensures ConsumeMany(m, world.(clock := world.clock + dt), last, order, oracle, n) ==
              (Round(m, world, dt, order, oracle), world.clock + dt)
  {
    var later := world.(clock := world.clock + dt);
    var swept := SweepSpec(later, order);
    AppendAllLog(world.stream, SweepPayloads(world.db, order));
    GroupedStays(world.stream, SweepPayloads(world.db, order));
    IdleCallsDrain(m, ReadSpec(m, swept, oracle), later.clock, order, oracle, n - 1);
  }

  // ---------- rounds are runs of the protocol ----------

  lemma {:induction false} RunThen(m: int, r: Run, n: nat, s': State)
    requires IsRunFrom(m, r) && n < |r.states| && RunsTo(m, r.states[n], s')
    ensures RunsTo(m, r.states[0], s')
  {
    if n > 0 {
      RunBefore(m, r.states[n - 1], r.labels[n - 1], s');
      RunThen(m, r, n - 1, s');
    }
  }

  lemma RunsTrans(m: int, s: State, s1: State, s2: State)
    requires RunsTo(m, s, s1) && RunsTo(m, s1, s2)
    ensures RunsTo(m, s, s2)
  {
    var r :| IsRunFrom(m, r) && r.states[0] == s && r.states[|r.labels|] == s1;
    RunThen(m, r, |r.labels|, s2);
  }

  lemma ConsumeKeepsGroup(m: int, world: World, last: real, order: seq<JobId>, oracle: Oracle)
    requires OrderOk(world, last, order)
    ensures ConsumeSpec(m, world, last, order, oracle).0.stream.grouped == world.stream.grouped
  {
    if RecoveryDue(world.clock, last) {
      GroupedStays(world.stream, SweepPayloads(world.db, order));
    }
  }

  lemma {:induction false} ConsumeManyRuns(m: int, s: State, w: WorkerId, order: seq<JobId>, oracle: Oracle, n: nat)
    requires w in s.workers && s.workers[w].pc.Idle? && s.world.stream.grouped
    requires OrderOk(s.world, s.workers[w].lastRecovery, order)
    ensures var (world', last') := ConsumeMany(m, s.world, s.workers[w].lastRecovery, order, oracle, n);
            RunsTo(m, s, With(s, world', w, Worker(Idle, last')))
    decreases n
  {
    if n == 0 {
      assert With(s, s.world, w, Worker(Idle, s.workers[w].lastRecovery)) == s;
      RunsToItself(m, s);
    } else {
      var (world1, last1) := ConsumeSpec(m, s.world, s.workers[w].lastRecovery, order, oracle);
      var s1 := With(s, world1, w, Worker(Idle, last1));
      ConsumeIsARun(m, s, w, order, oracle);
      ConsumeKeepsGroup(m, s.world, s.workers[w].lastRecovery, order, oracle);
      ConsumeManyRuns(m, s1, w, order, oracle, n - 1);
      var (world', last') := ConsumeMany(m, world1, last1, order, oracle, n - 1);
      assert With(s1, world', w, Worker(Idle, last')) == With(s, world', w, Worker(Idle, last'));
      RunsTrans(m, s, s1, With(s, world', w, Worker(Idle, last')));
    }
  }

  /** A round is a run of the protocol, whatever else the state holds: the clock ticks, and one idle
      worker makes its consume calls. */
  lemma RoundIsARun(m: int, s: State, w: WorkerId, dt: real, order: seq<JobId>, oracle: Oracle)
    requires w in s.workers && s.workers[w].pc.Idle? && s.world.stream.grouped
    requires s.workers[w].lastRecovery <= s.world.clock && dt > STALE_AFTER && RoundOrder(s.world, dt, order)
    requires s.world.stream.cursor <= |s.world.stream.log|
    ensures RunsTo(m, s, With(s, Round(m, s.world, dt, order, oracle), w, Worker(Idle, s.world.clock + dt)))
  {
    var end := With(s, Round(m, s.world, dt, order, oracle), w, Worker(Idle, s.world.clock + dt));
    var s1 := Next(m, s, Tick(dt));
    var n := 1 + |s.world.stream.log| + |order| - s.world.stream.cursor;
    RoundIsConsumeCalls(m, s.world, s.workers[w].lastRecovery, dt, order, oracle, n);
    ConsumeManyRuns(m, s1, w, order, oracle, n);
    assert With(s1, end.world, w, Worker(Idle, s.world.clock + dt)) == end;
    RunBefore(m, s, Tick(dt), end);
  }

  /** The protocol gets from s to this world with worker w idle again and nothing else changed. */
  ghost predicate Reaches(m: int, s: State, w: WorkerId, world: World) {
    exists last: real :: last <= world.clock && RunsTo(m, s, With(s, world, w, Worker(Idle, last)))
  }

  lemma RoundClock(m: int, world: World, dt: real, order: seq<JobId>, oracle: Oracle)
    requires Ready(world) && dt > STALE_AFTER && RoundOrder(world, dt, order)
    ensures Round(m, world, dt, order, oracle).clock == world.clock + dt
  {
    var later := world.(clock := world.clock + dt);
    SweepReady(m, later, order);
    DrainKeeps(m, SweepSpec(later, order), oracle);
  }

  lemma RoundFollows(m: int, s: State, w: WorkerId, world: World, last: real, dt: real, order: seq<JobId>, oracle: Oracle)
    requires RunsTo(m, s, With(s, world, w, Worker(Idle, last))) && last <= world.clock && Ready(world)
    requires dt > STALE_AFTER && RoundOrder(world, dt, order)
    ensures RunsTo(m, s, With(s, Round(m, world, dt, order, oracle), w, Worker(Idle, world.clock + dt)))
  {
    var s1 := With(s, world, w, Worker(Idle, last));
    var end := With(s, Round(m, world, dt, order, oracle), w, Worker(Idle, world.clock + dt));
    RoundIsARun(m, s1, w, dt, order, oracle);
    assert With(s1, end.world, w, Worker(Idle, world.clock + dt)) == end;
    RunsTrans(m, s, s1, end);
  }

  lemma RoundReaches(m: int, s: State, w: WorkerId, world: World, world': World)
    requires Reaches(m, s, w, world) && Ready(world) && IsRound(m, world, world')
    ensures Reaches(m, s, w, world')
  {
    var last: real :| last <= world.clock && RunsTo(m, s, With(s, world, w, Worker(Idle, last)));
    var dt: real, order, oracle :| dt > STALE_AFTER && RoundOrder(world, dt, order) && world' == Round(m, world, dt, order, oracle);
    RoundClock(m, world, dt, order, oracle);
    RoundFollows(m, s, w, world, last, dt, order, oracle);
  }

  /** All the worlds of the recovery guarantee are worlds of the protocol's runs: from any state with
      an idle worker, each is reached by steps of that worker and the clock alone. */
  lemma {:induction false} RoundsAreRuns(m: int, s: State, w: WorkerId, worlds: seq<World>, k: nat)
    requires w in s.workers && s.workers[w].pc.Idle? && s.workers[w].lastRecovery <= s.world.clock
    requires AreRounds(m, worlds) && k < |worlds| && worlds[0] == s.world && Ready(s.world)
    ensures Ready(worlds[k]) && Reaches(m, s, w, worlds[k])
  {
    if k == 0 {
      assert With(s, s.world, w, Worker(Idle, s.workers[w].lastRecovery)) == s;
      RunsToItself(m, s);
    } else {
      RoundsAreRuns(m, s, w, worlds, k - 1);
      assert IsRound(m, worlds[k - 1], worlds[k - 1 + 1]);
      RoundKeeps(m, worlds[k - 1], worlds[k]);
      RoundReaches(m, s, w, worlds[k - 1], worlds[k]);
    }
  }

  /** The worlds the guarantee starts from are the reachable ones with a consumer group. */
  lemma ReachableIsReady(m: int, r: Run, k: nat)
    requires IsRun(m, r) && k < |r.states| && r.states[k].world.stream.grouped
    ensures Ready(r.states[k].world)
  {
    Reachable(m, r, k);
    UpdatedAlong(m, r, k);
  }

  lemma UpdatedStep(m: int, s: State, l: Label)
    requires Enabled(s, l) && NotFromFuture(s.world)
    ensures NotFromFuture(Next(m, s, l).world)
  {
  }

  lemma {:induction false} UpdatedAlong(m: int, r: Run, k: nat)
    requires IsRun(m, r) && k < |r.states|
    ensures NotFromFuture(r.states[k].world)
  {
    if k > 0 {
      UpdatedAlong(m, r, k - 1);
      UpdatedStep(m, r.states[k - 1], r.labels[k - 1]);
    }
  }
}
