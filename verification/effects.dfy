/**
 What single operations do, in the tables' and the stream's own values.  The specifications that the
 Consumer object is proved against, and the steps of the protocol, have these effects and no other.
 */
module Effects {
  import opened Postgres
  import opened Streams
  import opened Protocol
  import opened Invariants
  import opened Runs
  import opened Sequential

  // ---------- the API's transaction, and the asset message's ----------

  /** The first call for an asset inserts one fresh job in the API's status; other calls do nothing. */
  lemma UploadEffect(db: Db, a: AssetId, now: real)
    requires DbInv(db)
    ensures MarkUploadedTx(db, a, now) ==
              if a in db.assets && db.assets[a].Uploading?
              then (Db(db.assets[a := Uploaded], db.jobs[db.nextJob := Job(a, Accepted, 0, now)],
                       db.index[a := db.nextJob], db.nextJob + 1), Some(db.nextJob))
              else (db, None)
  {
  }

  /** An asset message is handled exactly for an asset that is 'uploaded' or 'processing', as its job. */
  lemma EnsureEffect(db: Db, a: AssetId, now: real)
    requires DbInv(db)
    ensures EnsureJobTx(db, a, now) ==
              (db, if a !in db.assets then NoAsset
                   else if db.assets[a].Uploaded? || db.assets[a].Processing? then Ensured(db.index[a])
                   else Skipped)
  {
  }

  // ---------- processing and its verdict ----------

  /** What an attempt that was number n leaves in the job row. */
  function VerdictOf(m: int, o: Outcome, n: nat): JobStatus {
    match o
    case Returns => Done
    case VideoFails => JobStatus.Failed
    case Raises(retryable) => if retryable && n < m then Pending else JobStatus.Failed
  }

  function AssetOf(verdict: JobStatus): AssetStatus {
    match verdict
    case Done => Ready
    case Failed => AssetStatus.Failed
    case _ => Processing
  }

  function Acked(st: Stream, msg: MsgId): Stream {
    st.(pending := st.pending - {msg}, acked := st.acked + {msg})
  }

  /** Processing an asset that is not there, is 'ready', or is still to be processed. */
  lemma ProcessEffect(db: Db, a: AssetId, o: Outcome)
    ensures a !in db.assets ==> ProcessSpec(db, a, o) == (db, Raises(false))
    ensures a in db.assets && db.assets[a].Ready? ==> ProcessSpec(db, a, o) == (db, Returns)
    ensures a in db.assets && !db.assets[a].Ready? ==>
              ProcessSpec(db, a, o) ==
                match o
                case Returns => (db.(assets := db.assets[a := Ready]), Returns)
                case Raises(r) => (db.(assets := db.assets[a := Processing]), Raises(r))
                case VideoFails => (db.(assets := db.assets[a := AssetStatus.Failed]), Raises(false))
  {
    if a in db.assets {
      assert db.assets[a := Processing][a := Ready] == db.assets[a := Ready];
      assert db.assets[a := Processing][a := AssetStatus.Failed] == db.assets[a := AssetStatus.Failed];
    }
  }

  /** What a job message comes to once it is delivered: nothing is written for a missing or a 'done'
      job; else the attempt is counted and its verdict written into the job and its asset.  The
      message is acknowledged exactly when there was nothing to do or the job is now 'done'. */
  lemma JobEffect(m: int, world: World, j: JobId, msg: MsgId, o: Outcome)
    requires DbInv(world.db) && msg in world.stream.pending
    ensures var world' := HandleJobSpec(m, world, j, msg, o);
            if j !in world.db.jobs || world.db.jobs[j].status.Done? then
              world' == world.(stream := Acked(world.stream, msg))
            else
              var job := world.db.jobs[j];
              var outcome := if world.db.assets[job.asset].Ready? then Returns else o;
              var verdict := VerdictOf(m, outcome, job.attempts + 1);
              && world'.db.jobs == world.db.jobs[j := Job(job.asset, verdict, job.attempts + 1, world.clock)]
              && world'.db.assets == world.db.assets[job.asset := AssetOf(verdict)]
              && world'.db.index == world.db.index && world'.db.nextJob == world.db.nextJob
              && world'.stream == (if verdict.Done? then Acked(world.stream, msg) else world.stream)
              && world'.clock == world.clock
  {
    if j in world.db.jobs && !world.db.jobs[j].status.Done? {
      var (claimed, _) := ClaimTx(world.db, j, world.clock);
      ProcessEffect(claimed, world.db.jobs[j].asset, o);
    }
  }

  /** Handling any message: it is acknowledged if and only if it is malformed, names no existing job or
      asset, names a job that is 'done' or an asset that is not to be processed, or its job is now 'done'. */
  lemma AckedIff(m: int, world: World, msg: MsgId, o: Outcome)
    requires DbInv(world.db) && StreamInv(world.stream) && msg in world.stream.pending
    ensures var world' := HandleSpec(m, world, msg, o);
            var db := world.db;
            && (world'.stream == Acked(world.stream, msg) || world'.stream == world.stream)
            && (msg in world'.stream.acked <==> msg !in world'.stream.pending)
            && (msg in world'.stream.acked <==>
                  match PayloadOf(world, msg)
                  case Malformed => true
                  case Undecodable => false
                  case JobPayload(j, _) => j !in db.jobs || world'.db.jobs[j].status.Done?
                  case AssetPayload(a) =>
                    || a !in db.assets || (!db.assets[a].Uploaded? && !db.assets[a].Processing?)
                    || world'.db.jobs[db.index[a]].status.Done?)
  {
    match PayloadOf(world, msg) {
      case JobPayload(j, _) => JobEffect(m, world, j, msg, o);
      case AssetPayload(a) =>
        EnsureEffect(world.db, a, world.clock);
        if a in world.db.assets && (world.db.assets[a].Uploaded? || world.db.assets[a].Processing?) {
          JobEffect(m, world, world.db.index[a], msg, o);
        }
      case _ =>
    }
  }

  /** In the protocol, with any number of workers: a failed attempt sends its job back to 'pending' if
      and only if the failure is retryable and the attempts it read are below max_retries; else job
      and asset are 'failed'. */
  lemma SettleEffect(m: int, s: State, w: WorkerId)
    requires Inv(s) && Enabled(s, Act(w, Settle))
    ensures var c, stage := s.workers[w].pc.claim, s.workers[w].pc.stage;
            var db, db' := s.world.db, Next(m, s, Act(w, Settle)).world.db;
            var back := stage.retryable && stage.attemptsNow < m;
            && db'.jobs == db.jobs[c.job := db.jobs[c.job].(status := if back then Pending else JobStatus.Failed,
                                                            updated := s.world.clock)]
            && db'.assets == (if back then db.assets else db.assets[c.asset := AssetStatus.Failed])
            && c.ordinal <= stage.attemptsNow
  {
    assert PcOk(s.world, s.workers[w].pc);
  }

  // ---------- the sweep ----------

  /** Selected by the sweep: pending or in progress, and not written for more than two minutes. */
  predicate Neglected(db: Db, now: real, j: JobId) {
    && j in db.jobs && (db.jobs[j].status == Pending || db.jobs[j].status == InProgress)
    && db.jobs[j].updated < now - 120.0
  }

  /** A job is on this list. */
  ghost predicate Listed(todo: seq<Payload>, j: JobId) {
    exists i :: 0 <= i < |todo| && todo[i].JobPayload? && todo[i].job == j
  }

  /** The list of a sweep has exactly the neglected jobs, each once and with its asset. */
  ghost predicate ExactList(db: Db, now: real, todo: seq<Payload>) {
    && (forall i :: 0 <= i < |todo| ==>
          todo[i].JobPayload? && Neglected(db, now, todo[i].job) && todo[i].asset == db.jobs[todo[i].job].asset)
    && (forall i, k :: 0 <= i < k < |todo| ==> todo[i] != todo[k])
    && (forall j :: Neglected(db, now, j) ==> Listed(todo, j))
  }

  lemma {:induction false} EnumeratesOnce<T(!new)>(order: seq<T>, s: set<T>)
    requires Enumerates(order, s)
    ensures forall i, k :: 0 <= i < k < |order| ==> order[i] != order[k]
  {
    if order != [] {
      var rest, last := order[..|order| - 1], order[|order| - 1];
      if last in rest {
        assert forall x :: x in s ==> x in rest;
        FewerThan(rest, s);
      } else {
        forall x ensures x in rest <==> x in s - {last} {
          assert x in order <==> x in rest || x == last;
        }
        EnumeratesOnce(rest, s - {last});
      }
    }
  }

  /** A sequence with all elements of a set is no shorter. */
  lemma {:induction false} FewerThan<T>(order: seq<T>, s: set<T>)
    requires forall x :: x in s ==> x in order
    ensures |s| <= |order|
  {
    if order != [] {
      FewerThan(order[1..], s - {order[0]});
    }
  }

  lemma ListEffect(db: Db, now: real, order: seq<JobId>)
    requires Enumerates(order, StaleJobs(db, now))
    ensures ExactList(db, now, SweepPayloads(db, order))
  {
    var todo := SweepPayloads(db, order);
    EnumeratesOnce(order, StaleJobs(db, now));
    forall i | 0 <= i < |todo| ensures Neglected(db, now, todo[i].job) {
      assert order[i] in order;
    }
    forall j | Neglected(db, now, j) ensures Listed(todo, j) {
      assert j in StaleJobs(db, now);
      var i :| 0 <= i < |order| && order[i] == j;
      assert todo[i].job == j;
    }
  }

  /** The log grew by exactly one sweep's entries. */
  ghost predicate SweptLog(db: Db, now: real, log: seq<Entry>, log': seq<Entry>) {
    exists todo :: ExactList(db, now, todo) && |log'| == |log| + |todo| && log <= log'
      && forall i :: 0 <= i < |todo| ==> log'[|log| + i] == Entry(todo[i], Sweep)
  }

  /** A whole sweep appends one entry for each neglected job and changes nothing else. */
  lemma SweepSpecEffect(world: World, order: seq<JobId>)
    requires Enumerates(order, StaleJobs(world.db, world.clock))
    ensures SweptLog(world.db, world.clock, world.stream.log, SweepSpec(world, order).stream.log)
    ensures SweepSpec(world, order) == world.(stream := world.stream.(log := SweepSpec(world, order).stream.log))
  {
    ListEffect(world.db, world.clock, order);
    AppendAllLog(world.stream, SweepPayloads(world.db, order));
    AppendAllRest(world.stream, SweepPayloads(world.db, order));
  }

  lemma {:induction false} AppendAllRest(st: Stream, todo: seq<Payload>)
    ensures AppendAll(st, todo) == st.(log := AppendAll(st, todo).log)
    decreases |todo|
  {
    if todo != [] {
      AppendAllRest(Append(st, todo[0], Sweep), todo[1..]);
    }
  }

  /** A worker that selects for its sweep lists exactly the jobs left alone for more than 120 seconds in
      status 'pending' or 'in_progress'; a job written since is left alone, whoever works on it. */
  lemma SelectEffect(m: int, s: State, w: WorkerId, order: seq<JobId>)
    requires Enabled(s, Act(w, Select(order)))
    ensures var s' := Next(m, s, Act(w, Select(order)));
            var pc' := s'.workers[w].pc;
            && s'.world == s.world
            && ExactList(s.world.db, s.world.clock, if pc'.Sweeping? then pc'.todo else [])
            && (pc'.Sweeping? || pc'.Polling?)
  {
    ListEffect(s.world.db, s.world.clock, order);
  }

  // ---------- the stream ----------

  /** Creating the group leaves an existing one as it is; a new one starts behind the present entries,
      which are dropped undelivered. */
  lemma GroupEffect(st: Stream)
    requires StreamInv(st)
    ensures st.grouped ==> CreateGroup(st) == st
    ensures !st.grouped ==>
              var st' := CreateGroup(st);
              && st'.grouped && st'.cursor == |st.log| && st'.log == st.log
              && st'.pending == st.pending && st'.acked == st.acked
              && (forall i :: i in st'.dropped <==> i in st.dropped || st.cursor <= i < |st.log|)
  {
  }

  /** The entry that a step appends. */
  ghost function Appended(s: State, l: Label): seq<Entry>
    requires Enabled(s, l)
  {
    match l
    case Publish(r, _) => [Entry(s.api[r].payload, Api)]
    case ForeignAdd(p) => [Entry(p, Foreign)]
    case Act(w, act) => if act.Requeue? then [Entry(s.workers[w].pc.todo[0], Sweep)] else []
    case _ => []
  }

  /** Entries come from a publish of the API, a sweep's requeue or from outside, one per step. */
  lemma LogEffect(m: int, s: State, l: Label)
    requires Enabled(s, l)
    ensures Next(m, s, l).world.stream.log == s.world.stream.log + Appended(s, l)
  {
  }

  /** Once the group exists, an undelivered entry stays so, through restarts too, until it is the first
      and some worker polls it into its hand, or a publish trims the stream past it. */
  lemma UndeliveredEffect(m: int, s: State, l: Label, i: MsgId)
    requires Inv(s) && Enabled(s, l) && s.world.stream.grouped && s.world.stream.cursor <= i < |s.world.stream.log|
    ensures var st, st' := s.world.stream, Next(m, s, l).world.stream;
            var polled := l.Act? && l.action.Poll? && i == st.cursor;
            var trimmed := l.Publish? && i < l.trim <= |st.log| + 1;
            && st'.grouped
            && (i < st'.cursor <==> polled || trimmed)
            && (polled ==> i in st'.pending && HandOf(Next(m, s, l).workers[l.worker].pc) == Some(i))
            && (trimmed ==> i in st'.dropped)
  {
  }

  // ---------- what can happen at any time ----------

  /** Where a call can fail: before a message is in hand, with one in hand, and during processing, for
      good or retryably, also after the pipeline wrote 'ready'. */
  lemma FailureEffect(world: World, pc: Pc, retryable: bool)
    ensures pc.Selecting? || pc.Sweeping? || pc.Polling? ==> Can(world, pc, GiveUp)
    ensures HandOf(pc).Some? ==> Can(world, pc, Abandon)
    ensures pc.Holding? && (pc.stage.Fresh? || pc.stage.Loaded? || pc.stage.Working? || pc.stage.Cached?) ==>
              Can(world, pc, Raise(retryable))
    ensures pc.Holding? && pc.stage.Working? ==> Can(world, pc, WriteReady) && Can(world, pc, WriteFailed)
  {
  }

  /** Crashes, restarts, time and foreign messages are never excluded, and a crash loses nothing but
      the worker. */
  lemma AnytimeEffect(m: int, s: State, w: WorkerId, p: Payload, dt: real)
    requires dt >= 0.0
    ensures w in s.workers ==> Enabled(s, Crash(w)) && Next(m, s, Crash(w)) == s.(workers := s.workers - {w})
    ensures w !in s.workers ==> Enabled(s, Start(w)) && Next(m, s, Start(w)).workers == s.workers[w := Worker(Idle, 0.0)]
    ensures Enabled(s, ForeignAdd(p)) && Enabled(s, Tick(dt)) && Next(m, s, Tick(dt)).world.clock == s.world.clock + dt
  {
  }
}
