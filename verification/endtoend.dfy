/**
 What a 'done' job is worth: its asset was written 'ready' by a pipeline earlier in the run, with any
 number of workers and crashes.
 */
module EndToEnd {
  import opened Postgres
  import opened Protocol
  import opened Invariants
  import opened Runs

  /** This step is a pipeline's own 'ready' write on asset a. */
  ghost predicate WritesReady(s: State, l: Label, a: AssetId) {
    l.Act? && l.action.WriteReady? && l.worker in s.workers
    && s.workers[l.worker].pc.Holding? && s.workers[l.worker].pc.claim.asset == a
  }

  ghost predicate Written(r: Run, k: nat, a: AssetId)
    requires k < |r.states| && k <= |r.labels|
  {
    exists i :: 0 <= i < k && WritesReady(r.states[i], r.labels[i], a)
  }

  ghost predicate IsReady(s: State, a: AssetId) {
    a in s.world.db.assets && s.world.db.assets[a].Ready?
  }

  /** A worker that marked asset a 'ready', or whose processing of it returned. */
  ghost predicate Finished(s: State, w: WorkerId, a: AssetId) {
    w in s.workers && s.workers[w].pc.Holding? && s.workers[w].pc.claim.asset == a
    && (s.workers[w].pc.stage.Cached? || s.workers[w].pc.stage.Finishing?)
  }

  ghost predicate SomeFinished(s: State, a: AssetId) {
    exists w :: Finished(s, w, a)
  }

  /** An asset becomes 'ready' by a pipeline's write or by the commit of a finished worker. */
  lemma ReadyStep(m: int, s: State, l: Label, a: AssetId)
    requires Enabled(s, l) && IsReady(Next(m, s, l), a)
    ensures IsReady(s, a) || WritesReady(s, l, a) || SomeFinished(s, a)
  {
    if l.Act? && l.action.Finish? && s.workers[l.worker].pc.claim.asset == a {
      assert Finished(s, l.worker, a);
    }
  }

  /** Processing returns by such a write, or because the asset was 'ready' already. */
  lemma FinishedStep(m: int, s: State, l: Label, w: WorkerId, a: AssetId)
    requires Enabled(s, l) && Finished(Next(m, s, l), w, a)
    ensures Finished(s, w, a) || WritesReady(s, l, a) || IsReady(s, a)
  {
  }

  /** A job becomes 'done' only by the commit of a worker that finished its asset. */
  lemma DoneStep(m: int, s: State, l: Label, j: JobId)
    requires Inv(s) && Enabled(s, l) && StatusIs(Next(m, s, l), j, Done)
    ensures j in s.world.db.jobs && Next(m, s, l).world.db.jobs[j].asset == s.world.db.jobs[j].asset
    ensures StatusIs(s, j, Done) || Finished(s, l.worker, s.world.db.jobs[j].asset)
  {
    if j in s.world.db.jobs {
      RowStep(m, s, l, j);
      if EventOf(m, s, l).Settles? {
        assert PcOk(s.world, s.workers[l.worker].pc);
      }
    } else {
      NewRowStep(m, s, l, j);
    }
  }

  ghost predicate ReadyInv(r: Run, k: nat)
    requires k < |r.states| && k <= |r.labels|
  {
    var s := r.states[k];
    && (forall a :: IsReady(s, a) || SomeFinished(s, a) ==> Written(r, k, a))
    && (forall j :: StatusIs(s, j, Done) ==> Written(r, k, s.world.db.jobs[j].asset))
  }

  lemma {:induction false} ReadyAlong(m: int, r: Run, k: nat)
    requires IsRun(m, r) && k < |r.states|
    ensures ReadyInv(r, k)
  {
    if k > 0 {
      ReadyAlong(m, r, k - 1);
      Reachable(m, r, k - 1);
      var s, s', l := r.states[k - 1], r.states[k], r.labels[k - 1];
      forall a | WritesReady(s, l, a) || Written(r, k - 1, a) ensures Written(r, k, a) {
        if WritesReady(s, l, a) {
          assert 0 <= k - 1 < k && WritesReady(r.states[k - 1], r.labels[k - 1], a);
        }
      }
      forall a | IsReady(s', a) || SomeFinished(s', a) ensures Written(r, k, a) {
        if IsReady(s', a) {
          ReadyStep(m, s, l, a);
        } else {
          var w :| Finished(s', w, a);
          FinishedStep(m, s, l, w, a);
        }
      }
      forall j | StatusIs(s', j, Done) ensures Written(r, k, s'.world.db.jobs[j].asset) {
        DoneStep(m, s, l, j);
      }
    }
  }

  /** With any number of workers and crashes: the asset of a 'done' job was written 'ready' by a
      pipeline earlier in the run, even if the job that did it crashed before its commit. */
  lemma DoneWasProcessed(m: int, r: Run, k: nat, j: JobId)
    requires IsRun(m, r) && k < |r.states| && StatusIs(r.states[k], j, Done)
    ensures Written(r, k, r.states[k].world.db.jobs[j].asset)
  {
    ReadyAlong(m, r, k);
  }
}

/**
 The job protocol and the variant cache as one system.  A pipeline's 'ready' write is one commit, so
 it is one step of both; every other step is of one of them, in any interleaving.
 */
module Whole {
  import opened Postgres
  import opened Invariants
  import opened Runs
  import opened EndToEnd
  import opened Variants
  import Protocol

  datatype System = System(jobs: Protocol.State, cache: Variants.State)

  /** The worker processing an asset has a part in either model: it holds a claim on the asset's job,
      and it works through a pipeline's plan. */
  datatype Step =
    | JobStep(l: Protocol.Label)
    | CacheStep(worker: WorkerId, move: Move)
    | ReadyStep(holder: WorkerId, worker: WorkerId)

  function Write(w: WorkerId): Protocol.Label {
    Protocol.Act(w, Protocol.WriteReady)
  }

  ghost predicate Can(s: System, e: Step) {
    match e
    case JobStep(l) => Protocol.Enabled(s.jobs, l) && !(l.Act? && l.action.WriteReady?)
    case CacheStep(w, move) => Variants.Enabled(s.cache, w, move) && !move.MarkReady?
    case ReadyStep(h, w) =>
      && Protocol.Enabled(s.jobs, Write(h)) && Variants.Enabled(s.cache, w, MarkReady)
      && s.jobs.workers[h].pc.claim.asset == s.cache.workers[w].asset
  }

  ghost function After(m: int, render: Renderer, raw: Uploads, s: System, e: Step): System
    requires Can(s, e)
  {
    match e
    case JobStep(l) => s.(jobs := Protocol.Next(m, s.jobs, l))
    case CacheStep(w, move) => s.(cache := Variants.Next(render, raw, s.cache, w, move))
    case ReadyStep(h, w) =>
      System(Protocol.Next(m, s.jobs, Write(h)), Variants.Next(render, raw, s.cache, w, MarkReady))
  }

  datatype History = History(states: seq<System>, steps: seq<Step>)

  ghost predicate IsHistory(m: int, render: Renderer, raw: Uploads, r: History) {
    && |r.states| == |r.steps| + 1
    && Protocol.Initial(r.states[0].jobs) && r.states[0].cache.store == EMPTY_STORE
    && (forall w :: w in r.states[0].cache.workers ==> r.states[0].cache.workers[w].Resting?)
    && forall k :: 0 <= k < |r.steps| ==>
         Can(r.states[k], r.steps[k]) && r.states[k + 1] == After(m, render, raw, r.states[k], r.steps[k])
  }

  /** All roles of some pipeline are linked to the hashes of the asset's bytes. */
  ghost predicate Complete(raw: Uploads, st: Store, a: AssetId) {
    exists p :: AllLinked(raw, st, a, p)
  }

  /** The protocol takes this asset for processed. */
  ghost predicate Processed(s: Protocol.State, a: AssetId) {
    IsReady(s, a) || SomeFinished(s, a) || exists j :: StatusIs(s, j, Done) && s.world.db.jobs[j].asset == a
  }

  ghost predicate WholeInv(render: Renderer, raw: Uploads, s: System) {
    && Inv(s.jobs) && CacheInv(render, raw, s.cache)
    && forall a :: Processed(s.jobs, a) ==> Complete(raw, s.cache.store, a)
  }

  /** An asset comes to be taken for processed only by a pipeline's 'ready' write. */
  lemma ProcessedStep(m: int, s: Protocol.State, l: Protocol.Label, a: AssetId)
    requires Inv(s) && Protocol.Enabled(s, l) && Processed(Protocol.Next(m, s, l), a)
    ensures Processed(s, a) || WritesReady(s, l, a)
  {
    var s' := Protocol.Next(m, s, l);
    if IsReady(s', a) {
      EndToEnd.ReadyStep(m, s, l, a);
    } else if SomeFinished(s', a) {
      var w :| Finished(s', w, a);
      FinishedStep(m, s, l, w, a);
    } else {
      var j :| StatusIs(s', j, Done) && s'.world.db.jobs[j].asset == a;
      DoneStep(m, s, l, j);
    }
  }

  lemma CompleteStays(render: Renderer, raw: Uploads, s: Variants.State, w: WorkerId, move: Move, a: AssetId)
    requires CacheInv(render, raw, s) && Variants.Enabled(s, w, move) && Complete(raw, s.store, a)
    ensures Complete(raw, Variants.Next(render, raw, s, w, move).store, a)
  {
    var p :| AllLinked(raw, s.store, a, p);
    Variants.NextKeeps(render, raw, s, w, move);
    AllLinkedStays(raw, s.store, Variants.Next(render, raw, s, w, move).store, a, p);
  }

  /** At its 'ready' write a pipeline has linked all its roles. */
  lemma CompleteAtWrite(render: Renderer, raw: Uploads, s: Variants.State, w: WorkerId)
    requires CacheInv(render, raw, s) && Variants.Enabled(s, w, MarkReady)
    ensures Complete(raw, Variants.Next(render, raw, s, w, MarkReady).store, s.workers[w].asset)
  {
    var wk := s.workers[w];
    assert WorkerAgrees(raw, s.store, wk);
    assert AllLinked(raw, s.store, wk.asset, wk.pipeline);
    CompleteStays(render, raw, s, w, MarkReady, wk.asset);
  }

  lemma StepKeepsWhole(m: int, render: Renderer, raw: Uploads, s: System, e: Step)
    requires WholeInv(render, raw, s) && Can(s, e)
    ensures WholeInv(render, raw, After(m, render, raw, s, e))
  {
    var s' := After(m, render, raw, s, e);
    match e {
      case JobStep(l) =>
        Invariants.NextKeeps(m, s.jobs, l);
        forall a | Processed(s'.jobs, a) ensures Complete(raw, s'.cache.store, a) {
          ProcessedStep(m, s.jobs, l, a);
        }
      case CacheStep(w, move) =>
        Variants.NextKeeps(render, raw, s.cache, w, move);
        forall a | Processed(s'.jobs, a) ensures Complete(raw, s'.cache.store, a) {
          CompleteStays(render, raw, s.cache, w, move, a);
        }
      case ReadyStep(h, w) =>
        Invariants.NextKeeps(m, s.jobs, Write(h));
        Variants.NextKeeps(render, raw, s.cache, w, MarkReady);
        forall a | Processed(s'.jobs, a) ensures Complete(raw, s'.cache.store, a) {
          ProcessedStep(m, s.jobs, Write(h), a);
          if a == s.cache.workers[w].asset {
            CompleteAtWrite(render, raw, s.cache, w);
          } else {
            CompleteStays(render, raw, s.cache, w, MarkReady, a);
          }
        }
    }
  }

  lemma {:induction false} WholeAlong(m: int, render: Renderer, raw: Uploads, r: History, k: nat)
    requires IsHistory(m, render, raw, r) && k < |r.states|
    ensures WholeInv(render, raw, r.states[k])
  {
    if k > 0 {
      WholeAlong(m, render, raw, r, k - 1);
      StepKeepsWhole(m, render, raw, r.states[k - 1], r.steps[k - 1]);
    }
  }

  /** This role of the asset can be served: its link leads to a row made from the asset's bytes, and
      the blob at the row's key is their rendering. */
  ghost predicate Served(render: Renderer, raw: Uploads, st: Store, a: AssetId, item: Item) {
    var link := LinkKey(item.table, a, item.params.role);
    && link in st.links && RowKey(item.table, st.links[link]) in st.rows
    && var row := st.rows[RowKey(item.table, st.links[link])];
       && row.content == raw(a) && row.params == item.params && row.role == item.params.role
       && row.url in st.blobs && st.blobs[row.url] == render(raw(a), item.params)
  }

  ghost predicate AllServed(render: Renderer, raw: Uploads, st: Store, a: AssetId, p: Pipeline) {
    forall i :: 0 <= i < |Plan(p)| ==> Served(render, raw, st, a, Plan(p)[i])
  }

  lemma LinkedIsServed(render: Renderer, raw: Uploads, st: Store, a: AssetId, p: Pipeline)
    requires StoreInv(render, raw, st) && AllLinked(raw, st, a, p)
    ensures AllServed(render, raw, st, a, p)
  {
    forall i | 0 <= i < |Plan(p)| ensures Served(render, raw, st, a, Plan(p)[i]) {
      var item := Plan(p)[i];
      assert Linked(raw, st, a, item);
      var key := RowKey(item.table, st.links[LinkKey(item.table, a, item.params.role)]);
      assert key in st.rows && key.hash == Sha256(raw(a), item.params);
    }
  }

  /** In every reachable state of the whole system, with any number of workers and crashes anywhere:
      if a job is 'done', or an asset is 'ready', all roles of some pipeline can be served for it now. */
  lemma DoneIsServed(m: int, render: Renderer, raw: Uploads, r: History, k: nat, a: AssetId) returns (p: Pipeline)
    requires IsHistory(m, render, raw, r) && k < |r.states|
    requires IsReady(r.states[k].jobs, a)
             || exists j :: StatusIs(r.states[k].jobs, j, Done) && r.states[k].jobs.world.db.jobs[j].asset == a
    ensures AllServed(render, raw, r.states[k].cache.store, a, p)
  {
    WholeAlong(m, render, raw, r, k);
    assert Processed(r.states[k].jobs, a);
    p :| AllLinked(raw, r.states[k].cache.store, a, p);
    LinkedIsServed(render, raw, r.states[k].cache.store, a, p);
  }
}
