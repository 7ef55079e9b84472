/**
 What every step of the protocol keeps, for any number of workers, requests and crashes.
 */
module Invariants {
  import opened Postgres
  import opened Streams
  import opened Protocol

  /** The payload names this committed row. */
  ghost predicate NamesRow(db: Db, p: Payload) {
    p.JobPayload? && p.job in db.jobs && db.jobs[p.job].asset == p.asset
  }

  /** Delivering this payload can lead to a claim of job j. */
  predicate Names(db: Db, p: Payload, j: JobId) {
    match p
    case JobPayload(k, _) => k == j
    case AssetPayload(a) => j in db.jobs && db.jobs[j].asset == a
    case _ => false
  }

  /** Entries of the API and the sweep name committed rows. */
  ghost predicate EntriesInv(world: World) {
    forall i :: 0 <= i < |world.stream.log| && !world.stream.log[i].origin.Foreign? ==>
      NamesRow(world.db, world.stream.log[i].payload)
  }

  ghost predicate WorldInv(world: World) {
    DbInv(world.db) && StreamInv(world.stream) && EntriesInv(world)
  }

  ghost predicate ClaimOk(db: Db, c: Claim) {
    c.job in db.jobs && db.jobs[c.job].asset == c.asset && 1 <= c.ordinal <= db.jobs[c.job].attempts
  }

  /** What a worker knows stays true whatever the others do. */
  ghost predicate PcOk(world: World, pc: Pc) {
    && (HandOf(pc).Some? ==> HandOf(pc).value in world.stream.pending && HandOf(pc).value < |world.stream.log|)
    && (pc.Sweeping? ==> pc.todo != [] && forall p :: p in pc.todo ==> NamesRow(world.db, p))
    && (pc.Resolved? ==> pc.job in world.db.jobs && PayloadOf(world, pc.msg) == AssetPayload(world.db.jobs[pc.job].asset))
    && (pc.Holding? ==>
          && ClaimOk(world.db, pc.claim)
          && Names(world.db, PayloadOf(world, pc.msg), pc.claim.job)
          && (pc.stage.Settling? ==> pc.claim.ordinal <= pc.stage.attemptsNow))
  }

  /** No entry is in two hands, and two claims of one job have different ordinals. */
  ghost predicate Apart(pc: Pc, pc': Pc) {
    && (HandOf(pc).Some? && HandOf(pc').Some? ==> HandOf(pc) != HandOf(pc'))
    && (pc.Holding? && pc'.Holding? && pc.claim.job == pc'.claim.job ==> pc.claim.ordinal != pc'.claim.ordinal)
  }

  ghost predicate WorkersInv(s: State) {
    && (forall w :: w in s.workers ==> PcOk(s.world, s.workers[w].pc))
    && (forall w, w' :: w in s.workers && w' in s.workers && w != w' ==> Apart(s.workers[w].pc, s.workers[w'].pc))
  }

  ghost predicate ApiInv(s: State) {
    forall r :: r in s.api ==> NamesRow(s.world.db, s.api[r].payload)
  }

  ghost predicate Inv(s: State) {
    WorldInv(s.world) && WorkersInv(s) && ApiInv(s)
  }

  /** Everything other parties rely on only grows; `mine` may leave the pending list. */
  ghost predicate Grows(world: World, world': World, mine: Option<MsgId>) {
    && DbGrows(world.db, world'.db)
    && StreamGrows(world.stream, world'.stream)
    && (forall i :: i in world.stream.pending && mine != Some(i) ==> i in world'.stream.pending)
  }

  lemma PcStays(world: World, world': World, mine: Option<MsgId>, pc: Pc)
    requires PcOk(world, pc) && Grows(world, world', mine)
    requires HandOf(pc).Some? ==> HandOf(pc) != mine
    ensures PcOk(world', pc)
  {
    if HandOf(pc).Some? {
      assert PayloadOf(world', HandOf(pc).value) == PayloadOf(world, HandOf(pc).value);
    }
  }

  // ---------- one worker ----------

  /** A step of one worker keeps the world in order and leaves the worker with true knowledge. */
  ghost predicate StepGood(world: World, pc: Pc, world': World, pc': Pc) {
    && WorldInv(world') && PcOk(world', pc')
    && Grows(world, world', HandOf(pc))
    && (HandOf(pc').Some? ==> HandOf(pc') == HandOf(pc) || HandOf(pc').value !in world.stream.pending)
    && (pc'.Holding? ==>
          || (pc.Holding? && pc.claim == pc'.claim)
          || (forall j :: j in world.db.jobs && j == pc'.claim.job ==> world.db.jobs[j].attempts < pc'.claim.ordinal))
  }

  lemma EntriesStay(world: World, world': World)
    requires EntriesInv(world) && DbGrows(world.db, world'.db) && world'.stream.log == world.stream.log
    ensures EntriesInv(world')
  {
  }

  lemma SelectGood(m: int, world: World, pc: Pc, order: seq<JobId>)
    requires WorldInv(world) && PcOk(world, pc) && Can(world, pc, Select(order))
    ensures var (world', pc') := Step(m, world, pc, Select(order)); StepGood(world, pc, world', pc')
  {
    var todo := SweepPayloads(world.db, order);
    forall p | p in todo ensures NamesRow(world.db, p) {
      var i :| 0 <= i < |todo| && todo[i] == p;
      assert order[i] in order;
    }
  }

  lemma RequeueGood(m: int, world: World, pc: Pc)
    requires WorldInv(world) && PcOk(world, pc) && Can(world, pc, Requeue)
    ensures var (world', pc') := Step(m, world, pc, Requeue); StepGood(world, pc, world', pc')
  {
    AppendKeeps(world.stream, pc.todo[0], Sweep);
    assert pc.todo[0] in pc.todo;
  }

  lemma PollGood(m: int, world: World, pc: Pc)
    requires WorldInv(world) && PcOk(world, pc) && Can(world, pc, Poll)
    ensures var (world', pc') := Step(m, world, pc, Poll); StepGood(world, pc, world', pc')
  {
    if HasNext(world.stream) {
      DeliverKeeps(world.stream);
    }
  }

  lemma EnsureGood(m: int, world: World, pc: Pc)
    requires WorldInv(world) && PcOk(world, pc) && Can(world, pc, Ensure)
    ensures var (world', pc') := Step(m, world, pc, Ensure); StepGood(world, pc, world', pc') && world' == world
  {
    EnsureJobKeeps(world.db, PayloadOf(world, pc.msg).asset, world.clock);
  }

  lemma TakeGood(m: int, world: World, pc: Pc)
    requires WorldInv(world) && PcOk(world, pc) && Can(world, pc, Take)
    ensures var (world', pc') := Step(m, world, pc, Take); StepGood(world, pc, world', pc')
  {
    var (world', _) := Step(m, world, pc, Take);
    ClaimKeeps(world.db, Wanted(world, pc).value, world.clock);
    EntriesStay(world, world');
  }

  lemma AssetWriteGood(world: World, c: Claim, status: AssetStatus)
    requires WorldInv(world) && ClaimOk(world.db, c) && !status.Uploading?
    ensures WorldInv(WriteAsset(world, c, status)) && Grows(world, WriteAsset(world, c, status), None)
  {
    SetAssetKeeps(world.db, c.asset, status);
    EntriesStay(world, WriteAsset(world, c, status));
  }

  lemma SettleGood(m: int, world: World, c: Claim, retryable: bool, attemptsNow: nat)
    requires WorldInv(world) && ClaimOk(world.db, c)
    ensures var world' := SettleTx(m, world, c, retryable, attemptsNow); WorldInv(world') && Grows(world, world', None)
  {
    var status: JobStatus := if GoesBack(m, attemptsNow, retryable) then Pending else JobStatus.Failed;
    var db := SetJob(world.db, c.job, status, world.clock);
    SetJobKeeps(world.db, c.job, status, world.clock);
    SetAssetKeeps(db, c.asset, AssetStatus.Failed);
    EntriesStay(world, SettleTx(m, world, c, retryable, attemptsNow));
  }

  lemma FinishGood(world: World, c: Claim)
    requires WorldInv(world) && ClaimOk(world.db, c)
    ensures WorldInv(FinishTx(world, c)) && Grows(world, FinishTx(world, c), None)
  {
    var db := SetJob(world.db, c.job, Done, world.clock);
    SetJobKeeps(world.db, c.job, Done, world.clock);
    SetAssetKeeps(db, c.asset, Ready);
    EntriesStay(world, FinishTx(world, c));
  }

  lemma AckGood(m: int, world: World, pc: Pc)
    requires WorldInv(world) && PcOk(world, pc) && Can(world, pc, SendAck)
    ensures var (world', pc') := Step(m, world, pc, SendAck); StepGood(world, pc, world', pc')
  {
    AckKeeps(world.stream, pc.msg);
  }

  /** The steps of a claim's holder that write the asset. */
  lemma WriterGood(m: int, world: World, pc: Pc, act: Action)
    requires WorldInv(world) && PcOk(world, pc) && Can(world, pc, act) && pc.Holding?
    requires act.MarkProcessing? || act.WriteReady? || act.WriteFailed?
    ensures var (world', pc') := Step(m, world, pc, act); StepGood(world, pc, world', pc')
  {
    var (world', pc') := Step(m, world, pc, act);
    AssetWriteGood(world, pc.claim,
                   if act.MarkProcessing? then Processing else if act.WriteReady? then Ready else AssetStatus.Failed);
    PcStays(world, world', None, pc'.(stage := Fresh));
  }

  /** The steps of a claim's holder that write the verdict. */
  lemma VerdictGood(m: int, world: World, pc: Pc, act: Action)
    requires WorldInv(world) && PcOk(world, pc) && Can(world, pc, act) && (act.Settle? || act.Finish?)
    ensures var (world', pc') := Step(m, world, pc, act); StepGood(world, pc, world', pc')
  {
    if act.Settle? {
      SettleGood(m, world, pc.claim, pc.stage.retryable, pc.stage.attemptsNow);
    } else {
      FinishGood(world, pc.claim);
    }
  }

  lemma StepKeeps(m: int, world: World, pc: Pc, act: Action)
    requires WorldInv(world) && PcOk(world, pc) && Can(world, pc, act)
    ensures var (world', pc') := Step(m, world, pc, act); StepGood(world, pc, world', pc')
  {
    match act {
      case Select(order) => SelectGood(m, world, pc, order);
      case Requeue => RequeueGood(m, world, pc);
      case Poll => PollGood(m, world, pc);
      case Ensure => EnsureGood(m, world, pc);
      case Take => TakeGood(m, world, pc);
      case SendAck => AckGood(m, world, pc);
      case MarkProcessing => WriterGood(m, world, pc, act);
      case WriteReady => WriterGood(m, world, pc, act);
      case WriteFailed => WriterGood(m, world, pc, act);
      case Settle => VerdictGood(m, world, pc, act);
      case Finish => VerdictGood(m, world, pc, act);
      case _ =>
    }
  }

  // ---------- the whole system ----------

  lemma ActKeeps(m: int, s: State, w: WorkerId, act: Action)
    requires Inv(s) && Enabled(s, Act(w, act))
    ensures Inv(Next(m, s, Act(w, act)))
  {
    var pc := s.workers[w].pc;
    var s' := Next(m, s, Act(w, act));
    var pc' := s'.workers[w].pc;
    if act.Begin? {
      assert s'.world == s.world;
    } else {
      StepKeeps(m, s.world, pc, act);
    }
    assert StepGood(s.world, pc, s'.world, pc');
    forall v | v in s'.workers && v != w
      ensures PcOk(s'.world, s'.workers[v].pc) && Apart(s'.workers[v].pc, pc') && Apart(pc', s'.workers[v].pc)
    {
      assert Apart(s.workers[v].pc, pc);
      PcStays(s.world, s'.world, HandOf(pc), s.workers[v].pc);
    }
  }

  /** Steps that change the world but no worker. */
  lemma OthersStay(s: State, s': State)
    requires WorkersInv(s) && Grows(s.world, s'.world, None)
    requires forall w :: w in s'.workers ==> w in s.workers && s'.workers[w] == s.workers[w]
    ensures WorkersInv(s')
  {
    forall w | w in s'.workers ensures PcOk(s'.world, s'.workers[w].pc) {
      PcStays(s.world, s'.world, None, s.workers[w].pc);
    }
  }

  lemma UploadedKeeps(m: int, s: State, r: RequestId, a: AssetId)
    requires Inv(s) && Enabled(s, MarkUploaded(r, a))
    ensures Inv(Next(m, s, MarkUploaded(r, a)))
  {
    var s' := Next(m, s, MarkUploaded(r, a));
    MarkUploadedKeeps(s.world.db, a, s.world.clock);
    EntriesStay(s.world, s'.world);
    OthersStay(s, s');
  }

  lemma PublishKeeps(m: int, s: State, r: RequestId, trim: nat)
    requires Inv(s) && Enabled(s, Publish(r, trim))
    ensures Inv(Next(m, s, Publish(r, trim)))
  {
    AppendKeeps(s.world.stream, s.api[r].payload, Api);
    TrimKeeps(Append(s.world.stream, s.api[r].payload, Api), trim);
    OthersStay(s, Next(m, s, Publish(r, trim)));
  }

  lemma NewAssetKeeps(m: int, s: State, a: AssetId)
    requires Inv(s) && Enabled(s, NewAsset(a))
    ensures Inv(Next(m, s, NewAsset(a)))
  {
    EntriesStay(s.world, Next(m, s, NewAsset(a)).world);
    OthersStay(s, Next(m, s, NewAsset(a)));
  }

  lemma StartKeeps(m: int, s: State, w: WorkerId)
    requires Inv(s) && Enabled(s, Start(w))
    ensures Inv(Next(m, s, Start(w)))
  {
    var s' := Next(m, s, Start(w));
    CreateGroupKeeps(s.world.stream);
    OthersStay(s, s'.(workers := s.workers));
  }

  lemma NextKeeps(m: int, s: State, l: Label)
    requires Inv(s) && Enabled(s, l)
    ensures Inv(Next(m, s, l))
  {
    match l {
      case NewAsset(a) => NewAssetKeeps(m, s, a);
      case MarkUploaded(r, a) => UploadedKeeps(m, s, r, a);
      case Publish(r, trim) => PublishKeeps(m, s, r, trim);
      case StartEnqueue(_) => OthersStay(s, Next(m, s, l));
      case EndRequest(_) => OthersStay(s, Next(m, s, l));
      case ForeignAdd(p) =>
        AppendKeeps(s.world.stream, p, Foreign);
        OthersStay(s, Next(m, s, l));
      case Tick(_) => OthersStay(s, Next(m, s, l));
      case Start(w) => StartKeeps(m, s, w);
      case Crash(_) => OthersStay(s, Next(m, s, l));
      case Act(w, act) => ActKeeps(m, s, w, act);
    }
  }

  /** The invariant holds in every reachable state. */
  lemma {:induction false} Reachable(m: int, r: Run, k: nat)
    requires IsRun(m, r) && k < |r.states|
    ensures Inv(r.states[k])
  {
    if k > 0 {
      Reachable(m, r, k - 1);
      NextKeeps(m, r.states[k - 1], r.labels[k - 1]);
    }
  }
}
