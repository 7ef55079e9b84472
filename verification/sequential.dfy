/**
 One undisturbed call of Consumer.consume as a function of the shared world.  Module
 Refinement proves that each such call is a run of the protocol; the Consumer class is proved to
 compute exactly these functions.

 The result of process_asset_dispatch is a free choice, made per message by an oracle.
 */
module Sequential {
  import opened Postgres
  import opened Streams
  import opened Protocol

  /** VideoFails: the video pipeline writes 'failed' itself before it raises. */
  datatype Outcome = Returns | Raises(retryable: bool) | VideoFails

  type Oracle = MsgId -> Outcome

  /** process_asset_dispatch: a 'ready' asset returns at once, else the processing decides. */
  function ProcessSpec(db: Db, a: AssetId, outcome: Outcome): (r: (Db, Outcome))
    ensures !r.1.VideoFails?
  {
    if a !in db.assets then (db, Raises(false))
    else if db.assets[a].Ready? then (db, Returns)
    else
      var marked := SetAsset(db, a, Processing);
      match outcome
      case Returns => (SetAsset(marked, a, Ready), Returns)
      case Raises(_) => (marked, outcome)
      case VideoFails => (SetAsset(marked, a, AssetStatus.Failed), Raises(false))
  }

  function HandleJobSpec(m: int, world: World, j: JobId, msg: MsgId, outcome: Outcome): (r: World)
    ensures r.stream.log == world.stream.log && r.stream.cursor == world.stream.cursor
    ensures r.stream.grouped == world.stream.grouped && r.clock == world.clock
  {
    match ClaimTx(world.db, j, world.clock)
    case (_, NotFound) => world.(stream := Ack(world.stream, msg))
    case (_, AlreadyDone) => world.(stream := Ack(world.stream, msg))
    case (claimed, Claimed(a, _)) =>
      var (processed, result) := ProcessSpec(claimed, a, outcome);
      if result.Returns?
      then world.(db := DoneTx(processed, j, a, world.clock), stream := Ack(world.stream, msg))
      else world.(db := FailTx(m, processed, j, a, AttemptsOf(processed, j), result.retryable, world.clock))
  }

  function HandleAssetSpec(m: int, world: World, a: AssetId, msg: MsgId, outcome: Outcome): (r: World)
    ensures r.stream.log == world.stream.log && r.stream.cursor == world.stream.cursor
    ensures r.stream.grouped == world.stream.grouped && r.clock == world.clock
  {
    match EnsureJobTx(world.db, a, world.clock)
    case (db, Ensured(j)) => HandleJobSpec(m, world.(db := db), j, msg, outcome)
    case (db, _) => world.(db := db, stream := Ack(world.stream, msg))
  }

  function HandleSpec(m: int, world: World, msg: MsgId, outcome: Outcome): (r: World)
    ensures r.stream.log == world.stream.log && r.stream.cursor == world.stream.cursor
    ensures r.stream.grouped == world.stream.grouped && r.clock == world.clock
  {
    match PayloadOf(world, msg)
    case JobPayload(j, _) => HandleJobSpec(m, world, j, msg, outcome)
    case AssetPayload(a) => HandleAssetSpec(m, world, a, msg, outcome)
    case Malformed => world.(stream := Ack(world.stream, msg))
    case Undecodable => world
  }

  /** Read one message and handle it; with nothing to read the world stays as it is. */
  function ReadSpec(m: int, world: World, oracle: Oracle): (r: World)
    ensures r.stream.log == world.stream.log && r.clock == world.clock && r.stream.grouped == world.stream.grouped
    ensures r.stream.cursor == if HasNext(world.stream) then world.stream.cursor + 1 else world.stream.cursor
  {
    if HasNext(world.stream) then
      var msg := world.stream.cursor;
      HandleSpec(m, world.(stream := Deliver(world.stream)), msg, oracle(msg))
    else world
  }

  function AppendAll(st: Stream, todo: seq<Payload>): Stream
    decreases |todo|
  {
    if todo == [] then st else AppendAll(Append(st, todo[0], Sweep), todo[1..])
  }

  lemma {:induction false} AppendAllLog(st: Stream, todo: seq<Payload>)
    ensures var st' := AppendAll(st, todo);
            && st'.cursor == st.cursor && |st'.log| == |st.log| + |todo| && st.log <= st'.log
            && (forall i :: 0 <= i < |todo| ==> st'.log[|st.log| + i] == Entry(todo[i], Sweep))
    decreases |todo|
  {
    if todo != [] {
      AppendAllLog(Append(st, todo[0], Sweep), todo[1..]);
      var st' := AppendAll(st, todo);
      forall i | 0 <= i < |todo| ensures st'.log[|st.log| + i] == Entry(todo[i], Sweep) {
        if i > 0 {
          assert todo[1..][i - 1] == todo[i];
        } else {
          assert Append(st, todo[0], Sweep).log[|st.log|] == Entry(todo[0], Sweep);
        }
      }
    }
  }

  /** The sweep: one new entry for each stale job, in the order the query returned them. */
  ghost function SweepSpec(world: World, order: seq<JobId>): World
    requires Enumerates(order, StaleJobs(world.db, world.clock))
  {
    world.(stream := AppendAll(world.stream, SweepPayloads(world.db, order)))
  }

  /** `order` is the sweep's row order, used only when the recovery is due. */
  ghost predicate OrderOk(world: World, last: real, order: seq<JobId>) {
    RecoveryDue(world.clock, last) ==> Enumerates(order, StaleJobs(world.db, world.clock))
  }

  ghost function RecoverSpec(world: World, last: real, order: seq<JobId>): (World, real)
    requires OrderOk(world, last, order)
  {
    if RecoveryDue(world.clock, last) then (SweepSpec(world, order), world.clock) else (world, last)
  }

  /** One consume call: the new world and the new _last_recovery. */
  ghost function ConsumeSpec(m: int, world: World, last: real, order: seq<JobId>, oracle: Oracle): (World, real)
    requires OrderOk(world, last, order)
  {
    var (swept, last') := RecoverSpec(world, last, order);
    (ReadSpec(m, swept, oracle), last')
  }
}

/**
 Every sequential consume call is a run of the protocol in which one worker acts.
 */
module Refinement {
  import opened Postgres
  import opened Streams
  import opened Protocol
  import opened Sequential

  /** One worker gets from (world, pc) to (world', pc') by its own actions. */
  ghost predicate Path(m: int, world: World, pc: Pc, acts: seq<Action>, world': World, pc': Pc)
    decreases |acts|
  {
    if acts == [] then world' == world && pc' == pc
    else
      && !acts[0].Begin? && Can(world, pc, acts[0])
      && var (world1, pc1) := Step(m, world, pc, acts[0]); Path(m, world1, pc1, acts[1..], world', pc')
  }

  ghost predicate Leads(m: int, world: World, pc: Pc, world': World, pc': Pc) {
    exists acts :: Path(m, world, pc, acts, world', pc')
  }

  lemma {:induction false} PathTrans(m: int, world: World, pc: Pc, acts: seq<Action>,
                                     world1: World, pc1: Pc, acts1: seq<Action>, world2: World, pc2: Pc)
    requires Path(m, world, pc, acts, world1, pc1) && Path(m, world1, pc1, acts1, world2, pc2)
    ensures Path(m, world, pc, acts + acts1, world2, pc2)
    decreases |acts|
  {
    if acts == [] {
      assert acts + acts1 == acts1;
    } else {
      var (w, p) := Step(m, world, pc, acts[0]);
      PathTrans(m, w, p, acts[1..], world1, pc1, acts1, world2, pc2);
      assert (acts + acts1)[1..] == acts[1..] + acts1;
    }
  }

  lemma LeadsTrans(m: int, world: World, pc: Pc, world1: World, pc1: Pc, world2: World, pc2: Pc)
    requires Leads(m, world, pc, world1, pc1) && Leads(m, world1, pc1, world2, pc2)
    ensures Leads(m, world, pc, world2, pc2)
  {
    var acts :| Path(m, world, pc, acts, world1, pc1);
    var acts1 :| Path(m, world1, pc1, acts1, world2, pc2);
    PathTrans(m, world, pc, acts, world1, pc1, acts1, world2, pc2);
  }

  /** Put one action before a path. */
  lemma Before(m: int, world: World, pc: Pc, act: Action, world1: World, pc1: Pc, world2: World, pc2: Pc)
    requires Can(world, pc, act) && !act.Begin? && Step(m, world, pc, act) == (world1, pc1)
    requires Leads(m, world1, pc1, world2, pc2)
    ensures Leads(m, world, pc, world2, pc2)
  {
    var acts :| Path(m, world1, pc1, acts, world2, pc2);
    assert ([act] + acts)[1..] == acts;
    assert Path(m, world, pc, [act] + acts, world2, pc2);
  }

  lemma Stay(m: int, world: World, pc: Pc)
    ensures Leads(m, world, pc, world, pc)
  {
    assert Path(m, world, pc, [], world, pc);
  }

  lemma AckLeads(m: int, world: World, msg: MsgId)
    ensures Leads(m, world, Acking(msg), world.(stream := Ack(world.stream, msg)), Idle)
  {
    Stay(m, world.(stream := Ack(world.stream, msg)), Idle);
    Before(m, world, Acking(msg), SendAck, world.(stream := Ack(world.stream, msg)), Idle, world.(stream := Ack(world.stream, msg)), Idle);
  }

  lemma FinishLeads(m: int, world: World, msg: MsgId, c: Claim)
    ensures var done := FinishTx(world, c);
            Leads(m, world, Holding(msg, c, Finishing), done.(stream := Ack(done.stream, msg)), Idle)
  {
    var done := FinishTx(world, c);
    AckLeads(m, done, msg);
    Before(m, world, Holding(msg, c, Finishing), Finish, done, Acking(msg), done.(stream := Ack(done.stream, msg)), Idle);
  }

  lemma FailLeads(m: int, world: World, msg: MsgId, c: Claim, retryable: bool)
    ensures Leads(m, world, Holding(msg, c, Raised(retryable)),
                  SettleTx(m, world, c, retryable, AttemptsOf(world.db, c.job)), Idle)
  {
    var n := AttemptsOf(world.db, c.job);
    var failed := SettleTx(m, world, c, retryable, n);
    Stay(m, failed, Idle);
    Before(m, world, Holding(msg, c, Settling(retryable, n)), Settle, failed, Idle, failed, Idle);
    Before(m, world, Holding(msg, c, Raised(retryable)), ReadAttempts, world, Holding(msg, c, Settling(retryable, n)), failed, Idle);
  }

  /** From a fresh claim to the end of the call. */
  lemma ClaimLeads(m: int, world: World, msg: MsgId, c: Claim, outcome: Outcome)
    ensures var (db, result) := ProcessSpec(world.db, c.asset, outcome);
            var processed := world.(db := db);
            var end := if result.Returns? then FinishTx(processed, c).(stream := Ack(world.stream, msg))
                       else SettleTx(m, processed, c, result.retryable, AttemptsOf(db, c.job));
            Leads(m, world, Holding(msg, c, Fresh), end, Idle)
  {
    var (db, result) := ProcessSpec(world.db, c.asset, outcome);
    var processed := world.(db := db);
    var end := if result.Returns? then FinishTx(processed, c).(stream := Ack(world.stream, msg))
               else SettleTx(m, processed, c, result.retryable, AttemptsOf(db, c.job));
    var loaded := Holding(msg, c, LoadStep(world, c));
    if c.asset !in world.db.assets {
      FailLeads(m, world, msg, c, false);
    } else if world.db.assets[c.asset].Ready? {
      FinishLeads(m, world, msg, c);
    } else {
      var marked := WriteAsset(world, c, Processing);
      var working := Holding(msg, c, Working);
      if outcome.Returns? {
        FinishLeads(m, processed, msg, c);
        Before(m, processed, Holding(msg, c, Cached), Return, processed, Holding(msg, c, Finishing), end, Idle);
        Before(m, marked, working, WriteReady, processed, Holding(msg, c, Cached), end, Idle);
      } else if outcome.VideoFails? {
        FailLeads(m, processed, msg, c, false);
        Before(m, marked, working, WriteFailed, processed, Holding(msg, c, Raised(false)), end, Idle);
      } else {
        FailLeads(m, processed, msg, c, outcome.retryable);
        Before(m, marked, working, Raise(outcome.retryable), marked, Holding(msg, c, Raised(outcome.retryable)), end, Idle);
      }
      Before(m, world, loaded, MarkProcessing, marked, working, end, Idle);
    }
    Before(m, world, Holding(msg, c, Fresh), Load, world, loaded, end, Idle);
  }

  /** From a wanted job to the end of the call. */
  lemma JobLeads(m: int, world: World, pc: Pc, msg: MsgId, j: JobId, outcome: Outcome)
    requires Wanted(world, pc) == Some(j) && HandOf(pc) == Some(msg)
    ensures Leads(m, world, pc, HandleJobSpec(m, world, j, msg, outcome), Idle)
  {
    var end := HandleJobSpec(m, world, j, msg, outcome);
    var (taken, pc') := TakeStep(world, msg, j);
    if pc'.Holding? {
      ClaimLeads(m, taken, msg, pc'.claim, outcome);
    } else {
      AckLeads(m, taken, msg);
    }
    Before(m, world, pc, Take, taken, pc', end, Idle);
  }

  lemma HandleLeads(m: int, world: World, msg: MsgId, outcome: Outcome)
    ensures Leads(m, world, Received(msg), HandleSpec(m, world, msg, outcome), Idle)
  {
    var end := HandleSpec(m, world, msg, outcome);
    match PayloadOf(world, msg) {
      case JobPayload(j, _) => JobLeads(m, world, Received(msg), msg, j, outcome);
      case AssetPayload(a) =>
        var (ensured, pc') := EnsureStep(world, msg, a);
        if pc'.Resolved? {
          JobLeads(m, ensured, pc', msg, pc'.job, outcome);
        } else {
          AckLeads(m, ensured, msg);
        }
        Before(m, world, Received(msg), Ensure, ensured, pc', end, Idle);
      case Malformed =>
        AckLeads(m, world, msg);
        Before(m, world, Received(msg), Route, world, Acking(msg), end, Idle);
      case Undecodable =>
        Stay(m, world, Idle);
        Before(m, world, Received(msg), Route, world, Idle, end, Idle);
    }
  }

  lemma ReadLeads(m: int, world: World, oracle: Oracle)
    requires world.stream.grouped
    ensures Leads(m, world, Polling, ReadSpec(m, world, oracle), Idle)
  {
    var end := ReadSpec(m, world, oracle);
    if HasNext(world.stream) {
      var read := world.(stream := Deliver(world.stream));
      HandleLeads(m, read, world.stream.cursor, oracle(world.stream.cursor));
      Before(m, world, Polling, Poll, read, Received(world.stream.cursor), end, Idle);
    } else {
      Stay(m, world, Idle);
      Before(m, world, Polling, Poll, world, Idle, end, Idle);
    }
  }

  lemma {:induction false} SweepLeads(m: int, world: World, todo: seq<Payload>)
    ensures Leads(m, world, if todo == [] then Polling else Sweeping(todo),
                  world.(stream := AppendAll(world.stream, todo)), Polling)
    decreases |todo|
  {
    var end := world.(stream := AppendAll(world.stream, todo));
    if todo == [] {
      Stay(m, world, Polling);
    } else {
      var one := world.(stream := Append(world.stream, todo[0], Sweep));
      SweepLeads(m, one, todo[1..]);
      Before(m, world, Sweeping(todo), Requeue, one, if |todo| == 1 then Polling else Sweeping(todo[1..]), end, Polling);
    }
  }

  lemma CallLeads(m: int, world: World, last: real, order: seq<JobId>, oracle: Oracle)
    requires world.stream.grouped && OrderOk(world, last, order)
    ensures Leads(m, world, BeginWorker(world, Worker(Idle, last)).pc, ConsumeSpec(m, world, last, order, oracle).0, Idle)
  {
    var (swept, last') := RecoverSpec(world, last, order);
    if RecoveryDue(world.clock, last) {
      var todo := SweepPayloads(world.db, order);
      SweepLeads(m, world, todo);
      Before(m, world, Selecting, Select(order), world, if todo == [] then Polling else Sweeping(todo), swept, Polling);
      GroupedStays(world.stream, todo);
      ReadLeads(m, swept, oracle);
      LeadsTrans(m, world, Selecting, swept, Polling, ReadSpec(m, swept, oracle), Idle);
    } else {
      ReadLeads(m, world, oracle);
    }
  }

  lemma {:induction false} GroupedStays(st: Stream, todo: seq<Payload>)
    ensures AppendAll(st, todo).grouped == st.grouped && AppendAll(st, todo).cursor == st.cursor
    decreases |todo|
  {
    if todo != [] {
      GroupedStays(Append(st, todo[0], Sweep), todo[1..]);
    }
  }

  // ---------- from one worker's path to a run ----------

  ghost predicate RunsTo(m: int, s: State, s': State) {
    exists r :: IsRunFrom(m, r) && r.states[0] == s && r.states[|r.labels|] == s'
  }

  lemma RunsToItself(m: int, s: State)
    ensures RunsTo(m, s, s)
  {
    var r := Run([s], []);
    assert IsRunFrom(m, r) && r.states[0] == s && r.states[|r.labels|] == s;
  }

  lemma RunBefore(m: int, s: State, l: Label, s': State)
    requires Enabled(s, l) && RunsTo(m, Next(m, s, l), s')
    ensures RunsTo(m, s, s')
  {
    var r :| IsRunFrom(m, r) && r.states[0] == Next(m, s, l) && r.states[|r.labels|] == s';
    var longer := Prepend(m, s, l, r);
  }

  ghost function With(s: State, world: World, w: WorkerId, wk: Worker): State {
    s.(world := world, workers := s.workers[w := wk])
  }

  lemma {:induction false} PathRuns(m: int, s: State, w: WorkerId, acts: seq<Action>, world': World, pc': Pc)
    requires w in s.workers && Path(m, s.world, s.workers[w].pc, acts, world', pc')
    ensures RunsTo(m, s, With(s, world', w, s.workers[w].(pc := pc')))
    decreases |acts|
  {
    var end := With(s, world', w, s.workers[w].(pc := pc'));
    if acts == [] {
      assert end == s;
      RunsToItself(m, s);
    } else {
      var l := Act(w, acts[0]);
      var s1 := Next(m, s, l);
      PathRuns(m, s1, w, acts[1..], world', pc');
      assert With(s1, world', w, s1.workers[w].(pc := pc')) == end;
      RunBefore(m, s, l, end);
    }
  }

  /** A sequential consume call of an idle worker is a run of the protocol, whatever else the state
      holds: it ends with that worker idle and the world that ConsumeSpec computes. */
  lemma ConsumeIsARun(m: int, s: State, w: WorkerId, order: seq<JobId>, oracle: Oracle)
    requires w in s.workers && s.workers[w].pc.Idle? && s.world.stream.grouped
    requires OrderOk(s.world, s.workers[w].lastRecovery, order)
    ensures var (world', last') := ConsumeSpec(m, s.world, s.workers[w].lastRecovery, order, oracle);
            RunsTo(m, s, With(s, world', w, Worker(Idle, last')))
  {
    var (world', last') := ConsumeSpec(m, s.world, s.workers[w].lastRecovery, order, oracle);
    var l := Act(w, Begin);
    var s1 := Next(m, s, l);
    CallLeads(m, s.world, s.workers[w].lastRecovery, order, oracle);
    var acts :| Path(m, s.world, s1.workers[w].pc, acts, world', Idle);
    PathRuns(m, s1, w, acts, world', Idle);
    assert With(s1, world', w, s1.workers[w].(pc := Idle)) == With(s, world', w, Worker(Idle, last'));
    RunBefore(m, s, l, With(s, world', w, Worker(Idle, last')));
  }
}
