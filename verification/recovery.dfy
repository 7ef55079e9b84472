/**
 No claimed job is lost: the statuses a claimed job can have, and how soon the time-gated sweep
 of one live worker re-publishes a job that nobody moves.
 */
module Recovery {
  import opened Postgres
  import opened Streams
  import opened Protocol
  import opened Invariants
  import opened Runs

  /** In every reachable state a job that was ever claimed is 'done', 'failed' or in a status the
      sweep selects; a job outside these three was never claimed. */
  lemma ClaimedJobIsRecoverable(m: int, r: Run, k: nat, j: JobId)
    requires IsRun(m, r) && k < |r.states| && j in r.states[k].world.db.jobs
    ensures var job := r.states[k].world.db.jobs[j];
            job.attempts > 0 <==>
              job.status.Done? || job.status == JobStatus.Failed || job.status.Pending? || job.status.InProgress?
  {
    Reachable(m, r, k);
  }

  // ---------- clocks ----------

  ghost predicate ClockInv(s: State) {
    s.world.clock >= RECOVERY_INTERVAL && forall w :: w in s.workers ==> s.workers[w].lastRecovery <= s.world.clock
  }

  lemma ClockStep(m: int, s: State, l: Label)
    requires ClockInv(s) && Enabled(s, l)
    ensures ClockInv(Next(m, s, l)) && s.world.clock <= Next(m, s, l).world.clock
  {
  }

  lemma {:induction false} ClockAlong(m: int, r: Run, k: nat)
    requires IsRun(m, r) && k < |r.states|
    ensures ClockInv(r.states[k])
  {
    if k > 0 {
      ClockAlong(m, r, k - 1);
      ClockStep(m, r.states[k - 1], r.labels[k - 1]);
    }
  }

  lemma {:induction false} ClockMonotone(m: int, r: Run, i: nat, k: nat)
    requires IsRun(m, r) && i <= k < |r.states|
    ensures r.states[i].world.clock <= r.states[k].world.clock
    decreases k - i
  {
    if i < k {
      ClockMonotone(m, r, i, k - 1);
      ClockAlong(m, r, k - 1);
      ClockStep(m, r.states[k - 1], r.labels[k - 1]);
    }
  }

  // ---------- when the gate last opened ----------

  /** Worker w starts a consume call at step i and its recovery is due. */
  ghost predicate DueCall(r: Run, w: WorkerId, i: nat) {
    && i < |r.labels| && i < |r.states| && r.labels[i] == Act(w, Begin)
    && w in r.states[i].workers
    && RecoveryDue(r.states[i].world.clock, r.states[i].workers[w].lastRecovery)
  }

  ghost predicate AliveIn(r: Run, w: WorkerId, lo: nat, hi: nat) {
    hi < |r.states| && forall k :: lo <= k <= hi ==> w in r.states[k].workers
  }

  lemma LastRecoveryStep(m: int, s: State, l: Label, w: WorkerId)
    requires Enabled(s, l) && w in s.workers && w in Next(m, s, l).workers
    ensures var last := Next(m, s, l).workers[w].lastRecovery;
            || last == s.workers[w].lastRecovery
            || (l == Act(w, Begin) && RecoveryDue(s.world.clock, s.workers[w].lastRecovery) && last == s.world.clock)
  {
  }

  /** The gate's time stamp is the one it had before, or that of a due call since. */
  lemma {:induction false} LastRecoveryOrigin(m: int, r: Run, w: WorkerId, lo: nat, k: nat)
    requires IsRun(m, r) && lo <= k && AliveIn(r, w, lo, k)
    ensures || r.states[k].workers[w].lastRecovery == r.states[lo].workers[w].lastRecovery
            || exists i :: lo <= i < k && DueCall(r, w, i) && r.states[i].world.clock == r.states[k].workers[w].lastRecovery
    decreases k
  {
    if lo < k {
      LastRecoveryOrigin(m, r, w, lo, k - 1);
      assert w in r.states[k].workers;
      LastRecoveryStep(m, r.states[k - 1], r.labels[k - 1], w);
      if r.states[k].workers[w].lastRecovery != r.states[k - 1].workers[w].lastRecovery {
        assert DueCall(r, w, k - 1);
      }
    }
  }

  /** The gate's time stamp does not fall while the worker lives, and a due call moves it to now. */
  lemma {:induction false} GateMonotone(m: int, r: Run, w: WorkerId, i: nat, k: nat)
    requires IsRun(m, r) && i < k && AliveIn(r, w, i, k) && DueCall(r, w, i)
    ensures r.states[i].world.clock <= r.states[k].workers[w].lastRecovery
    decreases k
  {
    if i + 1 < k {
      GateMonotone(m, r, w, i, k - 1);
      ClockAlong(m, r, k - 1);
      assert w in r.states[k - 1].workers && w in r.states[k].workers;
      LastRecoveryStep(m, r.states[k - 1], r.labels[k - 1], w);
    }
  }

  /** A live worker sweeps at most once in two minutes, however often it is called. */
  lemma SweepsAreSpaced(m: int, r: Run, w: WorkerId, i: nat, k: nat)
    requires IsRun(m, r) && i < k && AliveIn(r, w, i, k) && DueCall(r, w, i) && DueCall(r, w, k)
    ensures r.states[k].world.clock - r.states[i].world.clock >= 120.0
  {
    GateMonotone(m, r, w, i, k);
  }

  // ---------- one sweep ----------

  /** The sweep of the due call i runs to its end at i': the worker stays inside it until it polls. */
  ghost predicate SweepRuns(r: Run, w: WorkerId, i: nat, i': nat) {
    && i < i' < |r.states|
    && (forall k :: i < k <= i' ==> w in r.states[k].workers)
    && (forall k :: i < k < i' ==> r.states[k].workers[w].pc.Selecting? || r.states[k].workers[w].pc.Sweeping?)
    && r.states[i'].workers[w].pc.Polling?
  }

  /** An entry for j that the sweep appended at position `from` or later. */
  ghost predicate HasFresh(world: World, j: JobId, from: nat) {
    exists n :: from <= n < |world.stream.log| && world.stream.log[n].origin.Sweep?
      && world.stream.log[n].payload.JobPayload? && world.stream.log[n].payload.job == j
  }

  /** The job's row in this state is a stale one. */
  ghost predicate StaleAt(s: State, j: JobId) {
    j in s.world.db.jobs && IsStale(s.world.db.jobs[j], s.world.clock)
  }

  ghost predicate ToSweep(pc: Pc, j: JobId) {
    pc.Sweeping? && exists p :: p in pc.todo && p.JobPayload? && p.job == j
  }

  lemma SelectFinds(world: World, order: seq<JobId>, j: JobId)
    requires Enumerates(order, StaleJobs(world.db, world.clock)) && j in world.db.jobs && IsStale(world.db.jobs[j], world.clock)
    ensures exists p :: p in SweepPayloads(world.db, order) && p.JobPayload? && p.job == j
  {
    assert j in StaleJobs(world.db, world.clock);
    var i :| 0 <= i < |order| && order[i] == j;
    assert SweepPayloads(world.db, order)[i] in SweepPayloads(world.db, order);
  }

  lemma SweepAct(m: int, world: World, pc: Pc, act: Action, j: JobId, from: nat)
    requires Can(world, pc, act) && from <= |world.stream.log|
    requires (pc.Selecting? && j in world.db.jobs && IsStale(world.db.jobs[j], world.clock)) || ToSweep(pc, j)
    requires !act.GiveUp?
    ensures var (world', pc') := Step(m, world, pc, act); ToSweep(pc', j) || HasFresh(world', j, from)
  {
    var (world', pc') := Step(m, world, pc, act);
    match act {
      case Select(order) => SelectFinds(world, order, j);
      case Requeue =>
        var n := |world.stream.log|;
        assert world'.stream.log[n] == Entry(pc.todo[0], Sweep);
        var p :| p in pc.todo && p.JobPayload? && p.job == j;
        assert p == pc.todo[0] || p in pc.todo[1..];
    }
  }

  lemma FreshStays(m: int, s: State, l: Label, j: JobId, from: nat)
    requires Inv(s) && Enabled(s, l) && HasFresh(s.world, j, from)
    ensures HasFresh(Next(m, s, l).world, j, from)
  {
    NextGrows(m, s, l);
    var n :| from <= n < |s.world.stream.log| && s.world.stream.log[n].origin.Sweep?
      && s.world.stream.log[n].payload.JobPayload? && s.world.stream.log[n].payload.job == j;
    assert Next(m, s, l).world.stream.log[n] == s.world.stream.log[n];
  }

  /** During a sweep: j is still to be selected, on the sweep's list, or published afresh. */
  ghost predicate SweepProgress(s: State, w: WorkerId, j: JobId, from: nat) {
    w in s.workers && from <= |s.world.stream.log| &&
    (s.workers[w].pc.Selecting? || ToSweep(s.workers[w].pc, j) || HasFresh(s.world, j, from))
  }

  lemma SweepProgressStep(m: int, s: State, l: Label, w: WorkerId, j: JobId, from: nat)
    requires Inv(s) && Enabled(s, l) && SweepProgress(s, w, j, from) && StaleAt(s, j)
    requires s.workers[w].pc.Selecting? || s.workers[w].pc.Sweeping?
    requires w in Next(m, s, l).workers && !Next(m, s, l).workers[w].pc.Idle?
    ensures SweepProgress(Next(m, s, l), w, j, from)
  {
    NextGrows(m, s, l);
    if HasFresh(s.world, j, from) {
      FreshStays(m, s, l, j, from);
    } else if l.Act? && l.worker == w {
      SweepAct(m, s.world, s.workers[w].pc, l.action, j, from);
    }
  }

  lemma DueCallSelects(m: int, s: State, w: WorkerId)
    requires Enabled(s, Act(w, Begin)) && RecoveryDue(s.world.clock, s.workers[w].lastRecovery)
    ensures var s' := Next(m, s, Act(w, Begin)); s'.workers[w].pc.Selecting? && s'.world == s.world
  {
  }

  lemma SweepBase(m: int, r: Run, w: WorkerId, i: nat, j: JobId)
    requires IsRunFrom(m, r) && DueCall(r, w, i)
    ensures SweepProgress(r.states[i + 1], w, j, |r.states[i].world.stream.log|)
  {
    DueCallSelects(m, r.states[i], w);
  }

  lemma SweepNext(m: int, r: Run, w: WorkerId, k: nat, j: JobId, from: nat)
    requires IsRunFrom(m, r) && k < |r.labels| && Inv(r.states[k])
    requires SweepProgress(r.states[k], w, j, from) && StaleAt(r.states[k], j)
    requires r.states[k].workers[w].pc.Selecting? || r.states[k].workers[w].pc.Sweeping?
    requires w in r.states[k + 1].workers && !r.states[k + 1].workers[w].pc.Idle?
    ensures SweepProgress(r.states[k + 1], w, j, from)
  {
    SweepProgressStep(m, r.states[k], r.labels[k], w, j, from);
  }

  lemma {:induction false} SweepAlong(m: int, r: Run, w: WorkerId, i: nat, i': nat, j: JobId, k: nat)
    requires IsRun(m, r) && DueCall(r, w, i) && SweepRuns(r, w, i, i') && i < k <= i'
    requires forall n :: i <= n <= i' ==> StaleAt(r.states[n], j)
    ensures SweepProgress(r.states[k], w, j, |r.states[i].world.stream.log|)
    decreases k
  {
    if k == i + 1 {
      SweepBase(m, r, w, i, j);
    } else {
      SweepAlong(m, r, w, i, i', j, k - 1);
      Reachable(m, r, k - 1);
      SweepNext(m, r, w, k - 1, j, |r.states[i].world.stream.log|);
    }
  }

  // ---------- the recovery bound ----------

  /** Within [lo, hi] worker w starts a consume call in every interval of length d. */
  ghost predicate CallsEvery(r: Run, w: WorkerId, lo: nat, hi: nat, d: real)
    requires lo <= hi < |r.states| && |r.states| == |r.labels| + 1
  {
    forall time: real :: r.states[lo].world.clock <= time <= r.states[hi].world.clock - d ==> CallIn(r, w, lo, hi, time, d)
  }

  ghost predicate CallIn(r: Run, w: WorkerId, lo: nat, hi: nat, time: real, d: real)
    requires lo <= hi < |r.states| && |r.states| == |r.labels| + 1
  {
    exists i :: lo <= i < hi && r.labels[i] == Act(w, Begin) && time <= r.states[i].world.clock <= time + d
  }

  /** Every due sweep in the window runs to its end within e seconds. */
  ghost predicate SweepsSucceed(r: Run, w: WorkerId, lo: nat, hi: nat, e: real)
    requires lo <= hi < |r.states|
  {
    forall i :: lo <= i < hi && DueCall(r, w, i) ==> SweepEnds(r, w, i, hi, e)
  }

  ghost predicate SweepEnds(r: Run, w: WorkerId, i: nat, hi: nat, e: real)
    requires i < hi < |r.states|
  {
    exists i': nat :: i' <= hi && SweepRuns(r, w, i, i') && r.states[i'].world.clock <= r.states[i].world.clock + e
  }

  /** The job's row has not moved since time t and is in a status the sweep selects. */
  ghost predicate LeftAlone(r: Run, lo: nat, hi: nat, j: JobId, t: real)
    requires lo <= hi < |r.states|
  {
    forall k :: lo <= k <= hi ==>
      && j in r.states[k].world.db.jobs
      && (r.states[k].world.db.jobs[j].status.Pending? || r.states[k].world.db.jobs[j].status.InProgress?)
      && r.states[k].world.db.jobs[j].updated <= t
  }

  /** A due call later than t + 120 publishes j afresh within e seconds. */
  lemma LateSweepPublishes(m: int, r: Run, w: WorkerId, lo: nat, hi: nat, j: JobId, t: real, e: real, i: nat) returns (n: nat)
    requires IsRun(m, r) && lo <= i < hi < |r.states| && DueCall(r, w, i)
    requires LeftAlone(r, lo, hi, j, t) && SweepsSucceed(r, w, lo, hi, e)
    requires r.states[i].world.clock > t + STALE_AFTER
    ensures lo <= n <= hi && r.states[n].world.clock <= r.states[i].world.clock + e
    ensures HasFresh(r.states[n].world, j, |r.states[i].world.stream.log|)
  {
    assert SweepEnds(r, w, i, hi, e);
    n :| n <= hi && SweepRuns(r, w, i, n) && r.states[n].world.clock <= r.states[i].world.clock + e;
    forall k | i <= k <= n ensures StaleAt(r.states[k], j) {
      ClockMonotone(m, r, i, k);
    }
    SweepAlong(m, r, w, i, n, j, n);
  }

  /** By the deadline some state of the window holds an entry for j that is new since its start. */
  ghost predicate FreshBy(r: Run, lo: nat, hi: nat, j: JobId, deadline: real)
    requires lo <= hi < |r.states|
  {
    exists n :: lo <= n <= hi && r.states[n].world.clock <= deadline
      && HasFresh(r.states[n].world, j, |r.states[lo].world.stream.log|)
  }

  /** If one live worker starts a consume call at least every d seconds and its due sweeps complete
      within e seconds, a job that nobody moves after time t gets a fresh entry by t + 240 + d + e. */
  lemma NoClaimedJobLost(m: int, r: Run, w: WorkerId, lo: nat, hi: nat, j: JobId, t: real, d: real, e: real)
    requires IsRun(m, r) && lo <= hi < |r.states| && d >= 0.0
    requires AliveIn(r, w, lo, hi) && CallsEvery(r, w, lo, hi, d) && SweepsSucceed(r, w, lo, hi, e)
    requires LeftAlone(r, lo, hi, j, t)
    requires r.states[lo].world.clock <= t + 120.0
    requires r.states[hi].world.clock >= t + 240.0 + d
    ensures FreshBy(r, lo, hi, j, t + 240.0 + d + e)
  {
    var time := t + 240.0;
    assert CallIn(r, w, lo, hi, time, d);
    var i :| lo <= i < hi && r.labels[i] == Act(w, Begin) && time <= r.states[i].world.clock <= time + d;
    assert AliveIn(r, w, lo, i);
    LastRecoveryOrigin(m, r, w, lo, i);
    ClockAlong(m, r, lo);
    var call := i;
    if !DueCall(r, w, i) {
      call :| lo <= call < i && DueCall(r, w, call) && r.states[call].world.clock == r.states[i].workers[w].lastRecovery;
      ClockMonotone(m, r, call, i);
    }
    var n := LateSweepPublishes(m, r, w, lo, hi, j, t, e, call);
    LogGrows(m, r, lo, call);
  }

  lemma {:induction false} LogGrows(m: int, r: Run, i: nat, k: nat)
    requires IsRun(m, r) && i <= k < |r.states|
    ensures |r.states[i].world.stream.log| <= |r.states[k].world.stream.log|
    decreases k - i
  {
    if i < k {
      LogGrows(m, r, i, k - 1);
      LogStep(m, r.states[k - 1], r.labels[k - 1]);
    }
  }

  lemma LogStep(m: int, s: State, l: Label)
    requires Enabled(s, l)
    ensures |s.world.stream.log| <= |Next(m, s, l).world.stream.log|
  {
  }
}
