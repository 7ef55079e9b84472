/**
 The job that recovery never reaches: its row was committed, its message was lost, and no worker
 ever claimed it.  The API's status is not one that the sweep selects.
 */
module LostMessage {
  import opened Postgres
  import opened Streams
  import opened Protocol
  import opened Invariants
  import opened Runs
  import Convergence

  lemma UnclaimedStays(m: int, s: State, l: Label, s': State, j: JobId)
    requires Inv(s) && Enabled(s, l) && s' == Next(m, s, l) && j in s.world.db.jobs && AttemptsOf(s'.world.db, j) == 0
    ensures AttemptsOf(s.world.db, j) == 0
    ensures j in s'.world.db.jobs && s'.world.db.jobs[j] == s.world.db.jobs[j]
  {
    AttemptsStep(m, s, l, j);
    RowStep(m, s, l, j);
    if EventOf(m, s, l).Settles? {
      SettledEvent(m, s, l);
    }
  }

  /** As long as a job was never claimed, nothing writes its row. */
  lemma {:induction false} UnclaimedRowStays(m: int, r: Run, i: nat, k: nat, j: JobId)
    requires IsRun(m, r) && i <= k < |r.states| && j in r.states[i].world.db.jobs
    requires AttemptsOf(r.states[k].world.db, j) == 0
    ensures j in r.states[k].world.db.jobs && r.states[k].world.db.jobs[j] == r.states[i].world.db.jobs[j]
    decreases k - i
  {
    if i < k {
      Reachable(m, r, i);
      GrowsAlong(m, r, i, i + 1);
      GrowsAlong(m, r, i + 1, k);
      UnclaimedStays(m, r.states[i], r.labels[i], r.states[i + 1], j);
      UnclaimedRowStays(m, r, i + 1, k, j);
    }
  }

  /** With any number of workers, crashes and sweeps: as long as no entry naming a job was delivered,
      the job keeps the row that the API inserted. */
  lemma UndeliveredIsUntouched(m: int, r: Run, i: nat, k: nat, j: JobId)
    requires IsRun(m, r) && i <= k < |r.states| && j in r.states[i].world.db.jobs
    requires DeliveredNaming(r.states[k].world, j) == {}
    ensures j in r.states[k].world.db.jobs && r.states[k].world.db.jobs[j] == r.states[i].world.db.jobs[j]
    ensures r.states[k].world.db.jobs[j].status.Accepted?
  {
    AttemptsAccounting(m, r, k, j);
    UnclaimedRowStays(m, r, i, k, j);
    Reachable(m, r, k);
  }

  /** Every entry naming j, if there is any, was dropped. */
  ghost predicate Lost(world: World, j: JobId) {
    j in world.db.jobs && forall n :: n in Naming(world, j) ==> n in world.stream.dropped
  }

  /** Nothing naming j was appended between these two worlds. */
  ghost predicate NotNamedSince(world: World, world': World, j: JobId) {
    forall n :: |world.stream.log| <= n < |world'.stream.log| ==> !Names(world'.db, world'.stream.log[n].payload, j)
  }

  lemma {:induction false} GrowsAlong(m: int, r: Run, i: nat, k: nat)
    requires IsRun(m, r) && i <= k < |r.states|
    ensures DbGrows(r.states[i].world.db, r.states[k].world.db)
    ensures StreamGrows(r.states[i].world.stream, r.states[k].world.stream)
    decreases k
  {
    if i < k {
      GrowsAlong(m, r, i, k - 1);
      Reachable(m, r, k - 1);
      NextGrows(m, r.states[k - 1], r.labels[k - 1]);
      GrowsTrans(r.states[i].world, r.states[k - 1].world, r.states[k].world);
    }
  }

  lemma GrowsTrans(w1: World, w2: World, w3: World)
    requires DbGrows(w1.db, w2.db) && DbGrows(w2.db, w3.db)
    requires StreamGrows(w1.stream, w2.stream) && StreamGrows(w2.stream, w3.stream)
    ensures DbGrows(w1.db, w3.db) && StreamGrows(w1.stream, w3.stream)
  {
  }

  /** A lost job stays lost: until someone appends an entry naming it, no worker, sweep or restart
      ever touches it, and it remains 'processing'. */
  lemma LostStaysLost(m: int, r: Run, i: nat, k: nat, j: JobId)
    requires IsRun(m, r) && i <= k < |r.states|
    requires Lost(r.states[i].world, j) && NotNamedSince(r.states[i].world, r.states[k].world, j)
    ensures Lost(r.states[k].world, j) && r.states[k].world.db.jobs[j] == r.states[i].world.db.jobs[j]
    ensures r.states[k].world.db.jobs[j].status.Accepted?
  {
    GrowsAlong(m, r, i, k);
    Reachable(m, r, i);
    Reachable(m, r, k);
    var here, there := r.states[i].world, r.states[k].world;
    forall n | n in Naming(there, j) ensures n in there.stream.dropped {
      assert n < |here.stream.log|;
      assert there.stream.log[n] == here.stream.log[n];
      assert n in Naming(here, j);
    }
    UndeliveredIsUntouched(m, r, i, k, j);
  }

  // ---------- such a job can be reached ----------

  const A: AssetId := 7
  const J: JobId := 1
  const NOW: real := 120.0

  /** The worker starts, the asset is created and marked uploaded, and the API dies before Enqueue. */
  const LABELS: seq<Label> := [Start(0), NewAsset(A), MarkUploaded(0, A), EndRequest(0)]

  const GROUPED: Stream := Stream([], true, 0, {}, {}, {})

  const LOST: State :=
    State(World(Db(map[A := Uploaded], map[J := Job(A, Accepted, 0, NOW)], map[A := J], 2), GROUPED, NOW),
          map[0 := Worker(Idle, 0.0)], map[])

  /** Whatever max_retries is, a run reaches a state with a live worker, an idle API and a job that is
      out of reach: never claimed and named by no message. */
  lemma JobCanBeLost(m: int) returns (r: Run)
    ensures IsRun(m, r) && r.states[|r.labels|] == LOST
    ensures LOST.world.stream.grouped && Lost(LOST.world, J) && !Convergence.InReach(LOST.world, J)
  {
    var none := Db(map[], map[], map[], 1);
    var idle := map[0 := Worker(Idle, 0.0)];
    var s0 := State(World(none, GROUPED.(grouped := false), NOW), map[], map[]);
    var s1 := State(World(none, GROUPED, NOW), idle, map[]);
    var s2 := State(World(Db(map[A := Uploading], map[], map[], 1), GROUPED, NOW), idle, map[]);
    var s3 := LOST.(api := map[0 := Request(JobPayload(J, A), false)]);
    assert Next(m, s0, LABELS[0]) == s1;
    assert Next(m, s1, LABELS[1]) == s2;
    assert Next(m, s2, LABELS[2]) == s3;
    assert Next(m, s3, LABELS[3]) == LOST;
    r := Run([s0, s1, s2, s3, LOST], LABELS);
  }

  /** No number of recovery rounds brings that job to an end. */
  lemma RoundsDoNotHelp(m: int, worlds: seq<World>, k: nat)
    requires Convergence.AreRounds(m, worlds) && k < |worlds| && worlds[0] == LOST.world
    ensures J in worlds[k].db.jobs && worlds[k].db.jobs[J].status.Accepted?
  {
    var r := JobCanBeLost(m);
    Convergence.ReachableIsReady(m, r, |r.labels|);
    if k > 0 {
      Convergence.RoundsAlong(m, worlds, k, J);
    }
  }
}
