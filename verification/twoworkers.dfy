/**
 Why the stability results need their conditions: a reachable state, with two workers and one
 message published twice, in which a job is 'done' while its asset is not 'ready' and while an
 open claim can still overwrite the verdict.
 */
module TwoWorkers {
  import opened Postgres
  import opened Streams
  import opened Protocol
  import opened Invariants
  import opened Runs
  import opened Refinement
  import Stability

  const A: AssetId := 7
  const J: JobId := 1
  const NOW: real := 120.0

  function Tables(asset: AssetStatus, status: JobStatus, attempts: nat): Db {
    Db(map[A := asset], map[J := Job(A, status, attempts, NOW)], map[A := J], 2)
  }

  /** The stream holds the API's message twice; the first `cursor` copies are delivered. */
  function Copies(cursor: nat): Stream
    requires cursor <= 2
  {
    var e := Entry(JobPayload(J, A), Api);
    Stream([e, e], true, cursor, {}, Range(0, cursor), {})
  }

  function Two(db: Db, st: Stream, pc0: Pc, last0: real, pc1: Pc, last1: real): State {
    State(World(db, st, NOW), map[0 := Worker(pc0, last0), 1 := Worker(pc1, last1)], map[0 := Request(JobPayload(J, A), true)])
  }

  const EMPTY: State := State(World(Db(map[], map[], map[], 1), Stream([], false, 0, {}, {}, {}), NOW), map[], map[])

  const PUBLISHED: State := Two(Tables(Uploaded, Accepted, 0), Copies(0), Idle, 0.0, Idle, 0.0)

  const DELIVERED0: State := Two(Tables(Uploaded, Accepted, 0), Copies(1), Received(0), NOW, Idle, 0.0)

  const BOTH_DELIVERED: State := Two(Tables(Uploaded, Accepted, 0), Copies(2), Received(0), NOW, Received(1), NOW)

  const BOTH_HOLD: State :=
    Two(Tables(Uploaded, InProgress, 2), Copies(2),
        Holding(0, Claim(J, A, 1), Fresh), NOW, Holding(1, Claim(J, A, 2), Loaded), NOW)

  /** Worker 0 has committed 'done'; worker 1 then marks the asset 'processing'. */
  const CLASH: State :=
    Two(Tables(Processing, Done, 2), Copies(2), Acking(0), NOW, Holding(1, Claim(J, A, 2), Working), NOW)

  const LATE: Pc := Holding(1, Claim(J, A, 2), Loaded)

  const MARKED0: State := Two(Tables(Processing, InProgress, 2), Copies(2), Holding(0, Claim(J, A, 1), Working), NOW, LATE, NOW)

  const READY0: State := Two(Tables(Ready, InProgress, 2), Copies(2), Holding(0, Claim(J, A, 1), Finishing), NOW, LATE, NOW)

  lemma ReachClash(m: int)
    ensures RunsTo(m, READY0, CLASH)
  {
    var done := Two(Tables(Ready, Done, 2), Copies(2), Acking(0), NOW, LATE, NOW);
    assert Next(m, READY0, Act(0, Finish)) == done;
    assert Next(m, done, Act(1, MarkProcessing)) == CLASH;
    RunsToItself(m, CLASH);
    RunBefore(m, done, Act(1, MarkProcessing), CLASH);
    RunBefore(m, READY0, Act(0, Finish), CLASH);
  }

  lemma ReachReady0(m: int)
    ensures RunsTo(m, BOTH_HOLD, CLASH)
  {
    var s1 := Two(Tables(Uploaded, InProgress, 2), Copies(2), Holding(0, Claim(J, A, 1), Loaded), NOW, LATE, NOW);
    assert Next(m, BOTH_HOLD, Act(0, Load)) == s1;
    assert Next(m, s1, Act(0, MarkProcessing)) == MARKED0;
    var cached := READY0.(workers := READY0.workers[0 := Worker(Holding(0, Claim(J, A, 1), Cached), NOW)]);
    assert Next(m, MARKED0, Act(0, WriteReady)) == cached;
    assert Next(m, cached, Act(0, Return)) == READY0;
    ReachClash(m);
    RunBefore(m, cached, Act(0, Return), CLASH);
    RunBefore(m, MARKED0, Act(0, WriteReady), CLASH);
    RunBefore(m, s1, Act(0, MarkProcessing), CLASH);
    RunBefore(m, BOTH_HOLD, Act(0, Load), CLASH);
  }

  const HOLD0: State :=
    Two(Tables(Uploaded, InProgress, 1), Copies(2), Holding(0, Claim(J, A, 1), Fresh), NOW, Received(1), NOW)

  lemma ReachBothHold(m: int)
    ensures RunsTo(m, HOLD0, CLASH)
  {
    var s2 := Two(Tables(Uploaded, InProgress, 2), Copies(2),
                  Holding(0, Claim(J, A, 1), Fresh), NOW, Holding(1, Claim(J, A, 2), Fresh), NOW);
    assert Next(m, HOLD0, Act(1, Take)) == s2;
    assert Next(m, s2, Act(1, Load)) == BOTH_HOLD;
    ReachReady0(m);
    RunBefore(m, s2, Act(1, Load), CLASH);
    RunBefore(m, HOLD0, Act(1, Take), CLASH);
  }

  lemma ReachHold0(m: int)
    ensures RunsTo(m, BOTH_DELIVERED, CLASH)
  {
    assert Next(m, BOTH_DELIVERED, Act(0, Take)) == HOLD0;
    ReachBothHold(m);
    RunBefore(m, BOTH_DELIVERED, Act(0, Take), CLASH);
  }

  /** A first consume call of a fresh worker: recovery is due, finds nothing, and a message comes. */
  lemma FirstDelivery(m: int, s: State, w: WorkerId, s': State)
    requires w in s.workers && s.workers[w] == Worker(Idle, 0.0)
    requires s.world.clock == NOW && StaleJobs(s.world.db, NOW) == {} && HasNext(s.world.stream)
    requires RunsTo(m, s.(world := s.world.(stream := Deliver(s.world.stream)),
                          workers := s.workers[w := Worker(Received(s.world.stream.cursor), NOW)]), s')
    ensures RunsTo(m, s, s')
  {
    var s1 := s.(workers := s.workers[w := Worker(Selecting, NOW)]);
    var s2 := s.(workers := s.workers[w := Worker(Polling, NOW)]);
    var s3 := s.(world := s.world.(stream := Deliver(s.world.stream)),
                 workers := s.workers[w := Worker(Received(s.world.stream.cursor), NOW)]);
    assert Next(m, s, Act(w, Begin)) == s1;
    assert Next(m, s1, Act(w, Select([]))) == s2;
    assert Next(m, s2, Act(w, Poll)) == s3;
    RunBefore(m, s2, Act(w, Poll), s');
    RunBefore(m, s1, Act(w, Select([])), s');
    RunBefore(m, s, Act(w, Begin), s');
  }

  lemma ReachBothDelivered(m: int)
    ensures RunsTo(m, PUBLISHED, CLASH)
  {
    ReachHold0(m);
    var db := Tables(Uploaded, Accepted, 0);
    assert StaleJobs(db, NOW) == {};
    assert Deliver(Copies(1)) == Copies(2);
    assert Deliver(Copies(0)) == Copies(1);
    assert DELIVERED0.(world := DELIVERED0.world.(stream := Deliver(Copies(1))),
                       workers := DELIVERED0.workers[1 := Worker(Received(1), NOW)]) == BOTH_DELIVERED;
    FirstDelivery(m, DELIVERED0, 1, CLASH);
    assert PUBLISHED.(world := PUBLISHED.world.(stream := Deliver(Copies(0))),
                      workers := PUBLISHED.workers[0 := Worker(Received(0), NOW)]) == DELIVERED0;
    FirstDelivery(m, PUBLISHED, 0, CLASH);
  }

  lemma ReachPublished(m: int)
    ensures RunsTo(m, EMPTY, CLASH)
  {
    var none := Db(map[], map[], map[], 1);
    var ready := Stream([], true, 0, {}, {}, {});
    var idle := Worker(Idle, 0.0);
    var e := Entry(JobPayload(J, A), Api);
    var s1 := State(World(none, ready, NOW), map[0 := idle], map[]);
    var s2 := State(World(none, ready, NOW), map[0 := idle, 1 := idle], map[]);
    var s3 := State(World(Db(map[A := Uploading], map[], map[], 1), ready, NOW), map[0 := idle, 1 := idle], map[]);
    var s4 := Two(Tables(Uploaded, Accepted, 0), ready, Idle, 0.0, Idle, 0.0);
    var s3' := s4.(api := map[0 := Request(JobPayload(J, A), false)]);
    var s5 := Two(Tables(Uploaded, Accepted, 0), ready.(log := [e]), Idle, 0.0, Idle, 0.0);
    assert Next(m, EMPTY, Start(0)) == s1;
    assert Next(m, s1, Start(1)) == s2;
    assert Next(m, s2, NewAsset(A)) == s3;
    assert Next(m, s3, MarkUploaded(0, A)) == s3';
    assert Next(m, s3', StartEnqueue(0)) == s4;
    assert Next(m, s4, Publish(0, 0)) == s5;
    assert Next(m, s5, Publish(0, 0)) == PUBLISHED by {
      assert [e] + [e] == [e, e];
      assert Range(0, 0) == {};
    }
    ReachBothDelivered(m);
    RunBefore(m, s5, Publish(0, 0), CLASH);
    RunBefore(m, s4, Publish(0, 0), CLASH);
    RunBefore(m, s3', StartEnqueue(0), CLASH);
    RunBefore(m, s3, MarkUploaded(0, A), CLASH);
    RunBefore(m, s2, NewAsset(A), CLASH);
    RunBefore(m, s1, Start(1), CLASH);
    RunBefore(m, EMPTY, Start(0), CLASH);
  }

  /** Two workers can disagree: whatever max_retries is, some run reaches a state in which a job is
      'done', its asset is not 'ready', and the verdict can still be overwritten. */
  lemma DoneIsNotAbsorbing(m: int)
    ensures exists r, k: nat ::
              && IsRun(m, r) && k < |r.states| && StatusIs(r.states[k], J, Done)
              && !Stability.VerdictAgrees(r.states[k].world.db, J)
              && Stability.Overwritable(m, r.states[k], J)
  {
    ReachPublished(m);
    var r :| IsRunFrom(m, r) && r.states[0] == EMPTY && r.states[|r.labels|] == CLASH;
    var k := |r.labels|;
    Reachable(m, r, k);
    assert Stability.Holds(r.states[k], 1, J);
    Stability.DoneOverwritableIff(m, r.states[k], J);
    assert StatusIs(r.states[k], J, Done);
  }
}
