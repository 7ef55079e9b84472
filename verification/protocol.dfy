/**
 The job protocol as a transition system: the API, any number of workers, a clock.

 Each step is one Postgres transaction, one Redis command or one local decision, so any
 interleaving and any crash between two steps is a run.  A failing attempt reads `attempts` and
 writes its verdict in two separate steps, because that read takes no row lock.
 */
module Protocol {
  import opened Postgres
  import opened Streams

  type WorkerId = nat
  type RequestId = nat

  const RECOVERY_INTERVAL: real := 120.0

  datatype World = World(db: Db, stream: Stream, clock: real)

  /** A committed claim: `ordinal` is the value `attempts` took when it was committed. */
  datatype Claim = Claim(job: JobId, asset: AssetId, ordinal: nat)

  /** How far the holder of a claim has come. */
  datatype Stage =
    | Fresh                                          // claim committed, asset row not read yet
    | Loaded                                         // asset read, not in a final state
    | Working                                        // asset marked 'processing'
    | Cached                                         // asset marked 'ready', processing not returned
    | Raised(retryable: bool)                        // processing raised
    | Settling(retryable: bool, attemptsNow: nat)    // attempts read, verdict not written
    | Finishing                                      // processing returned

  /** Where a worker is inside Consumer.consume. */
  datatype Pc =
    | Idle
    | Selecting                                      // recovery is due, nothing selected yet
    | Sweeping(todo: seq<Payload>)                   // entries the sweep still has to append
    | Polling
    | Received(msg: MsgId)
    | Resolved(msg: MsgId, job: JobId)               // asset message turned into a job id
    | Holding(msg: MsgId, claim: Claim, stage: Stage)
    | Acking(msg: MsgId)

  datatype Worker = Worker(pc: Pc, lastRecovery: real)

  datatype Action =
    | Begin
    | Select(order: seq<JobId>)
    | Requeue
    | GiveUp
    | Poll
    | Route
    | Ensure
    | Take
    | Load
    | MarkProcessing
    | WriteReady
    | Return
    | WriteFailed
    | Raise(retryable: bool)
    | ReadAttempts
    | Settle
    | Finish
    | SendAck
    | Abandon

  datatype Label =
    | NewAsset(asset: AssetId)
    | MarkUploaded(request: RequestId, asset: AssetId)
    | StartEnqueue(request: RequestId)
    | Publish(request: RequestId, trim: nat)
    | EndRequest(request: RequestId)                 // the call returns, or the API dies
    | ForeignAdd(payload: Payload)
    | Tick(dt: real)
    | Start(worker: WorkerId)
    | Crash(worker: WorkerId)
    | Act(worker: WorkerId, action: Action)

  /** A request that committed: the message to publish, and whether Enqueue was called yet. */
  datatype Request = Request(payload: Payload, enqueuing: bool)

  datatype State = State(world: World, workers: map<WorkerId, Worker>, api: map<RequestId, Request>)

  // ---------- one worker ----------

  ghost predicate Enumerates<T(!new)>(order: seq<T>, s: set<T>) {
    && (forall x :: x in order <==> x in s)
    && |order| == |s|
  }

  function SweepPayloads(db: Db, order: seq<JobId>): (r: seq<Payload>)
    requires forall j :: j in order ==> j in db.jobs
    ensures |r| == |order|
    ensures forall i :: 0 <= i < |r| ==> r[i] == JobPayload(order[i], db.jobs[order[i]].asset)
  {
    seq(|order|, i requires 0 <= i < |order| => JobPayload(order[i], db.jobs[order[i]].asset))
  }

  predicate RecoveryDue(now: real, lastRecovery: real) {
    now - lastRecovery >= RECOVERY_INTERVAL
  }

  /** The entry in a worker's hand. */
  function HandOf(pc: Pc): Option<MsgId> {
    match pc
    case Received(msg) => Some(msg)
    case Resolved(msg, _) => Some(msg)
    case Holding(msg, _, _) => Some(msg)
    case Acking(msg) => Some(msg)
    case _ => None
  }

  function PayloadOf(world: World, msg: MsgId): Payload {
    if msg < |world.stream.log| then world.stream.log[msg].payload else Undecodable
  }

  /** The job a worker is about to claim. */
  function Wanted(world: World, pc: Pc): Option<JobId> {
    match pc
    case Received(msg) =>
      (match PayloadOf(world, msg)
       case JobPayload(j, _) => Some(j)
       case _ => None)
    case Resolved(_, j) => Some(j)
    case _ => None
  }

  ghost predicate Can(world: World, pc: Pc, act: Action) {
    match act
    case Begin => pc.Idle?
    case Select(order) => pc.Selecting? && Enumerates(order, StaleJobs(world.db, world.clock))
    case Requeue => pc.Sweeping? && pc.todo != []
    case GiveUp => pc.Selecting? || pc.Sweeping? || pc.Polling?
    case Poll => pc.Polling? && world.stream.grouped
    case Route => pc.Received? && (PayloadOf(world, pc.msg).Malformed? || PayloadOf(world, pc.msg).Undecodable?)
    case Ensure => pc.Received? && PayloadOf(world, pc.msg).AssetPayload?
    case Take => Wanted(world, pc).Some?
    case Load => pc.Holding? && pc.stage.Fresh?
    case MarkProcessing => pc.Holding? && pc.stage.Loaded?
    case WriteReady => pc.Holding? && pc.stage.Working?
    case Return => pc.Holding? && pc.stage.Cached?
    case WriteFailed => pc.Holding? && pc.stage.Working?
    case Raise(_) => pc.Holding? && (pc.stage.Fresh? || pc.stage.Loaded? || pc.stage.Working? || pc.stage.Cached?)
    case ReadAttempts => pc.Holding? && pc.stage.Raised?
    case Settle => pc.Holding? && pc.stage.Settling?
    case Finish => pc.Holding? && pc.stage.Finishing?
    case SendAck => pc.Acking?
    case Abandon => HandOf(pc).Some?
  }

  /** What a claim transaction leaves behind. */
  function TakeStep(world: World, msg: MsgId, j: JobId): (World, Pc) {
    var (db, result) := ClaimTx(world.db, j, world.clock);
    (world.(db := db),
     match result
     case NotFound => Acking(msg)
     case AlreadyDone => Acking(msg)
     case Claimed(a, n) => Holding(msg, Claim(j, a, n), Fresh))
  }

  function EnsureStep(world: World, msg: MsgId, a: AssetId): (World, Pc) {
    var (db, result) := EnsureJobTx(world.db, a, world.clock);
    (world.(db := db),
     match result
     case NoAsset => Acking(msg)
     case Skipped => Acking(msg)
     case Ensured(j) => Resolved(msg, j))
  }

  /** process_asset_dispatch returns at once for an asset that is already 'ready'. */
  function LoadStep(world: World, c: Claim): Stage {
    if c.asset !in world.db.assets then Raised(false)
    else if world.db.assets[c.asset].Ready? then Finishing
    else Loaded
  }

  function SettleTx(m: int, world: World, c: Claim, retryable: bool, attemptsNow: nat): World {
    world.(db := FailTx(m, world.db, c.job, c.asset, attemptsNow, retryable, world.clock))
  }

  function FinishTx(world: World, c: Claim): World {
    world.(db := DoneTx(world.db, c.job, c.asset, world.clock))
  }

  function WriteAsset(world: World, c: Claim, status: AssetStatus): World {
    world.(db := SetAsset(world.db, c.asset, status))
  }

  /** One action of a worker: the shared world and where the worker goes. */
  ghost function Step(m: int, world: World, pc: Pc, act: Action): (World, Pc)
    requires Can(world, pc, act)
  {
    match act
    case Begin => (world, Polling)                    // a due recovery is chosen in ActStep
    case Select(order) =>
      var todo := SweepPayloads(world.db, order);
      (world, if todo == [] then Polling else Sweeping(todo))
    case Requeue =>
      (world.(stream := Append(world.stream, pc.todo[0], Sweep)),
       if |pc.todo| == 1 then Polling else Sweeping(pc.todo[1..]))
    case GiveUp => (world, Idle)
    case Poll =>
      if HasNext(world.stream)
      then (world.(stream := Deliver(world.stream)), Received(world.stream.cursor))
      else (world, Idle)
    case Route => (world, if PayloadOf(world, pc.msg).Malformed? then Acking(pc.msg) else Idle)
    case Ensure => EnsureStep(world, pc.msg, PayloadOf(world, pc.msg).asset)
    case Take => TakeStep(world, pc.msg, Wanted(world, pc).value)
    case Load => (world, pc.(stage := LoadStep(world, pc.claim)))
    case MarkProcessing => (WriteAsset(world, pc.claim, Processing), pc.(stage := Working))
    case WriteReady => (WriteAsset(world, pc.claim, Ready), pc.(stage := Cached))
    case Return => (world, pc.(stage := Finishing))
    case WriteFailed => (WriteAsset(world, pc.claim, AssetStatus.Failed), pc.(stage := Raised(false)))
    case Raise(retryable) => (world, pc.(stage := Raised(retryable)))
    case ReadAttempts =>
      (world, pc.(stage := Settling(pc.stage.retryable, AttemptsOf(world.db, pc.claim.job))))
    case Settle => (SettleTx(m, world, pc.claim, pc.stage.retryable, pc.stage.attemptsNow), Idle)
    case Finish => (FinishTx(world, pc.claim), Acking(pc.msg))
    case SendAck => (world.(stream := Ack(world.stream, pc.msg)), Idle)
    case Abandon => (world, Idle)
  }

  function BeginWorker(world: World, wk: Worker): Worker {
    if RecoveryDue(world.clock, wk.lastRecovery) then Worker(Selecting, world.clock) else wk.(pc := Polling)
  }

  ghost function ActStep(m: int, world: World, wk: Worker, act: Action): (World, Worker)
    requires Can(world, wk.pc, act)
  {
    if act.Begin? then (world, BeginWorker(world, wk))
    else
      var (world', pc') := Step(m, world, wk.pc, act);
      (world', wk.(pc := pc'))
  }

  // ---------- the whole system ----------

  ghost predicate Enabled(s: State, l: Label) {
    match l
    case NewAsset(a) => a !in s.world.db.assets
    case MarkUploaded(r, _) => r !in s.api
    case StartEnqueue(r) => r in s.api && !s.api[r].enqueuing
    case Publish(r, _) => r in s.api && s.api[r].enqueuing
    case EndRequest(r) => r in s.api
    case ForeignAdd(_) => true
    case Tick(dt) => dt >= 0.0
    case Start(w) => w !in s.workers
    case Crash(w) => w in s.workers
    case Act(w, act) => w in s.workers && Can(s.world, s.workers[w].pc, act)
  }

  function MarkUploadedStep(s: State, r: RequestId, a: AssetId): State {
    var (db, made) := MarkUploadedTx(s.world.db, a, s.world.clock);
    s.(world := s.world.(db := db),
       api := if made.Some? then s.api[r := Request(JobPayload(made.value, a), false)] else s.api)
  }

  ghost function Next(m: int, s: State, l: Label): State
    requires Enabled(s, l)
  {
    match l
    case NewAsset(a) => s.(world := s.world.(db := CreateAsset(s.world.db, a)))
    case MarkUploaded(r, a) => MarkUploadedStep(s, r, a)
    case StartEnqueue(r) => s.(api := s.api[r := s.api[r].(enqueuing := true)])
    case Publish(r, trim) => s.(world := s.world.(stream := Trim(Append(s.world.stream, s.api[r].payload, Api), trim)))
    case EndRequest(r) => s.(api := s.api - {r})
    case ForeignAdd(p) => s.(world := s.world.(stream := Append(s.world.stream, p, Foreign)))
    case Tick(dt) => s.(world := s.world.(clock := s.world.clock + dt))
    case Start(w) =>
      s.(world := s.world.(stream := CreateGroup(s.world.stream)), workers := s.workers[w := Worker(Idle, 0.0)])
    case Crash(w) => s.(workers := s.workers - {w})
    case Act(w, act) =>
      var (world', wk') := ActStep(m, s.world, s.workers[w], act);
      s.(world := world', workers := s.workers[w := wk'])
  }

  /** Empty tables and stream; the clock reads Unix time, far past the first recovery. */
  predicate Initial(s: State) {
    && s.world.db == Db(map[], map[], map[], 1)
    && s.world.stream == Stream([], false, 0, {}, {}, {})
    && s.world.clock >= RECOVERY_INTERVAL
    && s.workers == map[] && s.api == map[]
  }

  /** A run: a state sequence and the labels between its states. */
  datatype Run = Run(states: seq<State>, labels: seq<Label>)

  ghost predicate IsRunFrom(m: int, r: Run) {
    && |r.states| == |r.labels| + 1
    && forall k :: 0 <= k < |r.labels| ==>
         Enabled(r.states[k], r.labels[k]) && r.states[k + 1] == Next(m, r.states[k], r.labels[k])
  }

  ghost predicate IsRun(m: int, r: Run) {
    IsRunFrom(m, r) && Initial(r.states[0])
  }

  /** Put one step before a run. */
  lemma Prepend(m: int, s: State, l: Label, r: Run) returns (longer: Run)
    requires Enabled(s, l) && IsRunFrom(m, r) && r.states[0] == Next(m, s, l)
    ensures IsRunFrom(m, longer) && longer.states[0] == s
    ensures longer.states[|longer.labels|] == r.states[|r.labels|]
  {
    longer := Run([s] + r.states, [l] + r.labels);
    forall k | 0 <= k < |longer.labels|
      ensures Enabled(longer.states[k], longer.labels[k])
      ensures longer.states[k + 1] == Next(m, longer.states[k], longer.labels[k])
    {
      if k > 0 {
        assert longer.states[k] == r.states[k - 1] && longer.labels[k] == r.labels[k - 1];
        assert longer.states[k + 1] == r.states[k];
      }
    }
  }
}
