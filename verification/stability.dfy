/**
 When the verdict on a job is final, and when its asset agrees with it.
 */
module Stability {
  import opened Postgres
  import opened Protocol
  import opened Invariants
  import opened Runs

  ghost predicate Holds(s: State, w: WorkerId, j: JobId) {
    w in s.workers && s.workers[w].pc.Holding? && s.workers[w].pc.claim.job == j
  }

  ghost predicate InFlight(s: State, j: JobId) {
    exists w :: Holds(s, w, j)
  }

  /** Some claim on j is still open: its processing has not returned. */
  ghost predicate OpenClaim(s: State, j: JobId) {
    exists w :: Holds(s, w, j) && !s.workers[w].pc.stage.Finishing?
  }

  // ---------- 'done' is final exactly when no claim is open ----------

  /** While j is 'done' nobody starts to hold it and no finishing claim reopens. */
  lemma HoldersShrink(m: int, s: State, l: Label, j: JobId, w: WorkerId)
    requires Inv(s) && Enabled(s, l) && StatusIs(s, j, Done) && Holds(Next(m, s, l), w, j)
    ensures Holds(s, w, j)
    ensures s.workers[w].pc.stage.Finishing? ==> Next(m, s, l).workers[w].pc.stage.Finishing?
  {
  }

  /** A job that is 'done' with no claim in flight keeps its row for ever, however many duplicate
      entries are delivered. */
  lemma {:induction false} DoneIsFinal(m: int, r: Run, j: JobId, k: nat)
    requires IsRunFrom(m, r) && k < |r.states|
    requires Inv(r.states[0]) && StatusIs(r.states[0], j, Done) && !InFlight(r.states[0], j)
    ensures Inv(r.states[k]) && !InFlight(r.states[k], j)
    ensures j in r.states[k].world.db.jobs && r.states[k].world.db.jobs[j] == r.states[0].world.db.jobs[j]
  {
    if k > 0 {
      DoneIsFinal(m, r, j, k - 1);
      var s, l := r.states[k - 1], r.labels[k - 1];
      NextKeeps(m, s, l);
      RowStep(m, s, l, j);
      assert EventOf(m, s, l).Settles? ==> Holds(s, l.worker, EventOf(m, s, l).job);
      forall w | Holds(r.states[k], w, j) ensures false {
        HoldersShrink(m, s, l, j, w);
      }
    }
  }

  /** A 'done' job gains no claim: attempts stand still until another claim's verdict moves it. */
  lemma DoneGainsNoClaim(m: int, r: Run, j: JobId, k: nat)
    requires IsRun(m, r) && k < |r.labels| && StatusIs(r.states[k], j, Done)
    ensures AttemptsOf(r.states[k + 1].world.db, j) == AttemptsOf(r.states[k].world.db, j)
    ensures ClaimsOf(m, r, k + 1, j) == ClaimsOf(m, r, k, j)
  {
    Reachable(m, r, k);
    AttemptsStep(m, r.states[k], r.labels[k], j);
  }

  ghost predicate Overwritable(m: int, s: State, j: JobId) {
    exists r :: IsRunFrom(m, r) && r.states[0] == s && !StatusIs(r.states[|r.labels|], j, Done)
  }

  lemma StaysDoneStep(m: int, s: State, l: Label, j: JobId)
    requires Inv(s) && Enabled(s, l) && StatusIs(s, j, Done) && !OpenClaim(s, j)
    ensures StatusIs(Next(m, s, l), j, Done)
  {
    RowStep(m, s, l, j);
    if l.Act? && l.action.Settle? {
      assert Holds(s, l.worker, s.workers[l.worker].pc.claim.job);
    }
  }

  lemma NoneReopens(m: int, s: State, l: Label, j: JobId)
    requires Inv(s) && Enabled(s, l) && StatusIs(s, j, Done) && !OpenClaim(s, j)
    ensures !OpenClaim(Next(m, s, l), j)
  {
    forall w | Holds(Next(m, s, l), w, j) ensures Next(m, s, l).workers[w].pc.stage.Finishing? {
      HoldersShrink(m, s, l, j, w);
    }
  }

  lemma {:induction false} StaysDone(m: int, r: Run, j: JobId, k: nat)
    requires IsRunFrom(m, r) && k < |r.states|
    requires Inv(r.states[0]) && StatusIs(r.states[0], j, Done) && !OpenClaim(r.states[0], j)
    ensures Inv(r.states[k]) && StatusIs(r.states[k], j, Done) && !OpenClaim(r.states[k], j)
  {
    if k > 0 {
      StaysDone(m, r, j, k - 1);
      NextKeeps(m, r.states[k - 1], r.labels[k - 1]);
      StaysDoneStep(m, r.states[k - 1], r.labels[k - 1], j);
      NoneReopens(m, r.states[k - 1], r.labels[k - 1], j);
    }
  }

  /** The holder of an open claim can fail it for good: raise, read attempts, settle. */
  lemma {:induction false} FailOpenClaim(m: int, s: State, w: WorkerId, j: JobId) returns (r: Run)
    requires Inv(s) && Holds(s, w, j) && !s.workers[w].pc.stage.Finishing?
    ensures IsRunFrom(m, r) && r.states[0] == s && !StatusIs(r.states[|r.labels|], j, Done)
    decreases match s.workers[w].pc.stage case Settling(_, _) => 0 case Raised(_) => 1 case _ => 2
  {
    var act :=
      match s.workers[w].pc.stage
      case Settling(_, _) => Settle
      case Raised(_) => ReadAttempts
      case _ => Raise(false);
    var l := Act(w, act);
    var s' := Next(m, s, l);
    assert PcOk(s.world, s.workers[w].pc);
    var rest: Run;
    if act.Settle? {
      RowStep(m, s, l, j);
      rest := Run([s'], []);
    } else {
      NextKeeps(m, s, l);
      rest := FailOpenClaim(m, s', w, j);
    }
    r := Prepend(m, s, l, rest);
  }

  /** 'done' can still be overwritten if and only if some claim on the job is open. */
  lemma DoneOverwritableIff(m: int, s: State, j: JobId)
    requires Inv(s) && StatusIs(s, j, Done)
    ensures Overwritable(m, s, j) <==> OpenClaim(s, j)
  {
    if OpenClaim(s, j) {
      var w :| Holds(s, w, j) && !s.workers[w].pc.stage.Finishing?;
      var r := FailOpenClaim(m, s, w, j);
    } else {
      forall r | IsRunFrom(m, r) && r.states[0] == s ensures StatusIs(r.states[|r.labels|], j, Done) {
        StaysDone(m, r, j, |r.labels|);
      }
    }
  }

  // ---------- a job's verdict and its asset ----------

  ghost predicate VerdictAgrees(db: Db, j: JobId) {
    j in db.jobs ==>
      && db.jobs[j].asset in db.assets
      && (db.jobs[j].status.Done? ==> db.assets[db.jobs[j].asset].Ready?)
      && (db.jobs[j].status == JobStatus.Failed ==> db.assets[db.jobs[j].asset] == AssetStatus.Failed)
  }

  /** The holder of a claim on j writes j's asset alone, against a verdict that j has already: it can
      be seen before the step. */
  predicate Spoils(status: JobStatus, act: Action) {
    match act
    case MarkProcessing => status == Done || status == JobStatus.Failed
    case WriteFailed => status == Done
    case WriteReady => status == JobStatus.Failed
    case _ => false
  }

  ghost predicate Clashes(s: State, l: Label, j: JobId) {
    l.Act? && Holds(s, l.worker, j) && j in s.world.db.jobs && Spoils(s.world.db.jobs[j].status, l.action)
  }

  /** All other writes of j's holder leave job and asset in agreement, and these never do. */
  lemma HolderVerdict(m: int, world: World, pc: Pc, act: Action, j: JobId)
    requires DbInv(world.db) && Can(world, pc, act) && VerdictAgrees(world.db, j)
    requires pc.Holding? && pc.claim.job == j && ClaimOk(world.db, pc.claim)
    ensures VerdictAgrees(Step(m, world, pc, act).0.db, j) <==> !Spoils(world.db.jobs[j].status, act)
  {
  }

  /** A worker that does not hold j's claim leaves j's asset alone, and at most claims j. */
  lemma BystanderVerdict(m: int, world: World, pc: Pc, act: Action, j: JobId)
    requires DbInv(world.db) && Can(world, pc, act) && j in world.db.jobs && VerdictAgrees(world.db, j)
    requires pc.Holding? ==> pc.claim.job != j && ClaimOk(world.db, pc.claim)
    ensures VerdictAgrees(Step(m, world, pc, act).0.db, j)
  {
    RowAct(m, world, pc, act, j);
    if pc.Holding? {
      assert pc.claim.asset != world.db.jobs[j].asset;
    }
    if act.Ensure? {
      EnsureJobKeeps(world.db, PayloadOf(world, pc.msg).asset, world.clock);
    }
  }

  lemma WorkerVerdict(m: int, s: State, w: WorkerId, act: Action, j: JobId)
    requires Inv(s) && Enabled(s, Act(w, act)) && j in s.world.db.jobs && VerdictAgrees(s.world.db, j)
    ensures VerdictAgrees(Next(m, s, Act(w, act)).world.db, j) <==> !Clashes(s, Act(w, act), j)
  {
    var pc := s.workers[w].pc;
    assert PcOk(s.world, pc);
    if !act.Begin? {
      if pc.Holding? && pc.claim.job == j {
        HolderVerdict(m, s.world, pc, act, j);
      } else {
        BystanderVerdict(m, s.world, pc, act, j);
      }
    }
  }

  lemma OtherVerdict(m: int, s: State, l: Label, j: JobId)
    requires Inv(s) && Enabled(s, l) && !l.Act? && j in s.world.db.jobs && VerdictAgrees(s.world.db, j)
    ensures VerdictAgrees(Next(m, s, l).world.db, j)
  {
    if l.MarkUploaded? {
      MarkUploadedKeeps(s.world.db, l.asset, s.world.clock);
    }
  }

  lemma NewVerdict(m: int, s: State, l: Label, j: JobId)
    requires Inv(s) && Enabled(s, l) && j !in s.world.db.jobs
    ensures VerdictAgrees(Next(m, s, l).world.db, j)
  {
    NewRowStep(m, s, l, j);
    NextKeeps(m, s, l);
  }

  /** A step ends the agreement of a job and its asset if and only if it clashes. */
  lemma VerdictStepIff(m: int, s: State, l: Label, j: JobId)
    requires Inv(s) && Enabled(s, l) && VerdictAgrees(s.world.db, j)
    ensures VerdictAgrees(Next(m, s, l).world.db, j) <==> !Clashes(s, l, j)
  {
    if j !in s.world.db.jobs {
      NewVerdict(m, s, l, j);
    } else if l.Act? {
      WorkerVerdict(m, s, l.worker, l.action, j);
    } else {
      OtherVerdict(m, s, l, j);
    }
  }

  ghost predicate AgreesUpTo(r: Run, k: nat, j: JobId)
    requires k < |r.states|
  {
    forall i :: 0 <= i <= k ==> VerdictAgrees(r.states[i].world.db, j)
  }

  ghost predicate NoClashBefore(r: Run, k: nat, j: JobId)
    requires k < |r.states| && k <= |r.labels|
  {
    forall i :: 0 <= i < k ==> !Clashes(r.states[i], r.labels[i], j)
  }

  lemma OneMore(r: Run, k: nat, j: JobId)
    requires k + 1 < |r.states| && k < |r.labels|
    ensures AgreesUpTo(r, k + 1, j) <==> AgreesUpTo(r, k, j) && VerdictAgrees(r.states[k + 1].world.db, j)
    ensures NoClashBefore(r, k + 1, j) <==> NoClashBefore(r, k, j) && !Clashes(r.states[k], r.labels[k], j)
  {
  }

  /** With any number of workers and crashes, job j and its asset agree in every state of a run if and
      only if no step of the run clashes. */
  lemma {:induction false} VerdictsAgreeIff(m: int, r: Run, k: nat, j: JobId)
    requires IsRun(m, r) && k < |r.states|
    ensures AgreesUpTo(r, k, j) <==> NoClashBefore(r, k, j)
  {
    if k > 0 {
      VerdictsAgreeIff(m, r, k - 1, j);
      Reachable(m, r, k - 1);
      OneMore(r, k - 1, j);
      if VerdictAgrees(r.states[k - 1].world.db, j) {
        VerdictStepIff(m, r.states[k - 1], r.labels[k - 1], j);
      }
    }
  }

  // ---------- where no step clashes ----------

  /** No job is held by two workers at once; with one worker this always holds. */
  ghost predicate Exclusive(s: State) {
    forall w, w', j :: Holds(s, w, j) && Holds(s, w', j) ==> w == w'
  }

  ghost predicate HeldAreInProgress(s: State) {
    forall w, j :: Holds(s, w, j) ==> StatusIs(s, j, InProgress)
  }

  lemma HeldInProgress(m: int, s: State, l: Label, w: WorkerId, j: JobId)
    requires DbInv(s.world.db) && Enabled(s, l)
    requires forall v :: Holds(s, v, j) ==> StatusIs(s, j, InProgress)
    requires forall v :: Holds(s, v, j) && Holds(s, w, j) ==> v == w
    requires Holds(Next(m, s, l), w, j)
    ensures StatusIs(Next(m, s, l), j, InProgress)
  {
    HeldStep(m, s, l, w);
    var e := EventOf(m, s, l);
    assert e.Settles? ==> Holds(s, l.worker, e.job);
    assert !Holds(s, w, j) ==> e.Claims? && e.job == j;
    if j in s.world.db.jobs {
      RowStep(m, s, l, j);
    }
  }

  lemma {:induction false} HeldAlong(m: int, r: Run, k: nat)
    requires IsRun(m, r) && k < |r.states|
    requires forall i :: 0 <= i <= k ==> Exclusive(r.states[i])
    ensures HeldAreInProgress(r.states[k])
  {
    if k > 0 {
      HeldAlong(m, r, k - 1);
      Reachable(m, r, k - 1);
      assert Exclusive(r.states[k - 1]) && Exclusive(r.states[k]);
      forall w, j | Holds(r.states[k], w, j) ensures StatusIs(r.states[k], j, InProgress) {
        HeldInProgress(m, r.states[k - 1], r.labels[k - 1], w, j);
      }
    }
  }

  /** In every run in which no job is ever held twice at once, crashes anywhere included, no step
      clashes: a 'done' job has a 'ready' asset and a 'failed' job a 'failed' asset, in every state. */
  lemma VerdictsAgree(m: int, r: Run, k: nat, j: JobId)
    requires IsRun(m, r) && k < |r.states|
    requires forall i :: 0 <= i <= k ==> Exclusive(r.states[i])
    ensures VerdictAgrees(r.states[k].world.db, j)
    ensures HeldAreInProgress(r.states[k])
  {
    forall i | 0 <= i < k ensures !Clashes(r.states[i], r.labels[i], j) {
      HeldAlong(m, r, i);
    }
    HeldAlong(m, r, k);
    VerdictsAgreeIff(m, r, k, j);
  }

  /** The special case of a single worker that may crash and restart anywhere. */
  lemma SingleWorkerAgrees(m: int, r: Run, k: nat, j: JobId)
    requires IsRun(m, r) && k < |r.states|
    requires forall i, w, w' :: 0 <= i < |r.states| && w in r.states[i].workers && w' in r.states[i].workers ==> w == w'
    ensures VerdictAgrees(r.states[k].world.db, j)
  {
    VerdictsAgree(m, r, k, j);
  }
}
