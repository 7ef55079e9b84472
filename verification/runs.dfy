/**
 Safety over whole runs: what the claims and verdicts of one job can look like, where every
 message is, and what an acknowledgement proves.
 */
module Runs {
  import opened Postgres
  import opened FiniteSets
  import opened Streams
  import opened Protocol
  import opened Invariants

  datatype Verdict = WentBack | GaveUp | Succeeded

  datatype Event =
    | Claims(job: JobId, ordinal: nat, msg: MsgId)             // a committed claim
    | Settles(job: JobId, ordinal: nat, verdict: Verdict)      // a committed outcome of that claim
    | Quiet

  /** What the jobs table shows of one action of a worker. */
  ghost function ActEvent(m: int, world: World, pc: Pc, act: Action): Event
    requires Can(world, pc, act)
  {
    match act
    case Take =>
      var j := Wanted(world, pc).value;
      if j in world.db.jobs && !world.db.jobs[j].status.Done?
      then Claims(j, world.db.jobs[j].attempts + 1, HandOf(pc).value) else Quiet
    case Settle =>
      Settles(pc.claim.job, pc.claim.ordinal,
              if GoesBack(m, pc.stage.attemptsNow, pc.stage.retryable) then WentBack else GaveUp)
    case Finish => Settles(pc.claim.job, pc.claim.ordinal, Succeeded)
    case _ => Quiet
  }

  /** What the jobs table shows of one step. */
  ghost function EventOf(m: int, s: State, l: Label): Event
    requires Enabled(s, l)
  {
    if l.Act? then ActEvent(m, s.world, s.workers[l.worker].pc, l.action) else Quiet
  }

  /** The events of job j in the first k steps. */
  ghost function ClaimsOf(m: int, r: Run, k: nat, j: JobId): seq<Event>
    requires IsRunFrom(m, r) && k < |r.states|
  {
    if k == 0 then []
    else
      var e := EventOf(m, r.states[k - 1], r.labels[k - 1]);
      ClaimsOf(m, r, k - 1, j) + if e.Claims? && e.job == j then [e] else []
  }

  ghost function VerdictsOf(m: int, r: Run, k: nat, j: JobId): seq<Event>
    requires IsRunFrom(m, r) && k < |r.states|
  {
    if k == 0 then []
    else
      var e := EventOf(m, r.states[k - 1], r.labels[k - 1]);
      VerdictsOf(m, r, k - 1, j) + if e.Settles? && e.job == j then [e] else []
  }

  /** How often a failure put job j back to 'pending' in the first k steps. */
  ghost function Requeues(m: int, r: Run, k: nat, j: JobId): nat
    requires IsRunFrom(m, r) && k < |r.states|
  {
    if k == 0 then 0
    else
      var e := EventOf(m, r.states[k - 1], r.labels[k - 1]);
      Requeues(m, r, k - 1, j) + if e.Settles? && e.job == j && e.verdict.WentBack? then 1 else 0
  }

  // ---------- how one step can change one job row ----------

  /** The row after an event. */
  function RowAfter(job: Job, j: JobId, e: Event, now: real): Job {
    match e
    case Claims(k, n, _) => if k == j then job.(status := InProgress, attempts := n, updated := now) else job
    case Settles(k, _, v) =>
      if k == j then
        job.(status := match v case WentBack => Pending case GaveUp => JobStatus.Failed case Succeeded => Done,
             updated := now)
      else job
    case Quiet => job
  }

  lemma RowAct(m: int, world: World, pc: Pc, act: Action, j: JobId)
    requires DbInv(world.db) && Can(world, pc, act) && j in world.db.jobs
    ensures var db' := Step(m, world, pc, act).0.db;
            j in db'.jobs && db'.jobs[j] == RowAfter(world.db.jobs[j], j, ActEvent(m, world, pc, act), world.clock)
  {
    if act.Ensure? {
      EnsureJobKeeps(world.db, PayloadOf(world, pc.msg).asset, world.clock);
    }
  }

  /** Only a claim of j, or the verdict of a claim on j, writes j's row. */
  lemma RowStep(m: int, s: State, l: Label, j: JobId)
    requires DbInv(s.world.db) && Enabled(s, l) && j in s.world.db.jobs
    ensures var jobs' := Next(m, s, l).world.db.jobs;
            j in jobs' && jobs'[j] == RowAfter(s.world.db.jobs[j], j, EventOf(m, s, l), s.world.clock)
  {
    match l {
      case MarkUploaded(r, a) => MarkUploadedKeeps(s.world.db, a, s.world.clock);
      case Act(w, act) => RowAct(m, s.world, s.workers[w].pc, act, j);
      case _ =>
    }
  }

  /** Rows appear only with no attempts made. */
  lemma NewRowStep(m: int, s: State, l: Label, j: JobId)
    requires DbInv(s.world.db) && Enabled(s, l) && j !in s.world.db.jobs
    ensures AttemptsOf(Next(m, s, l).world.db, j) == 0
    ensures var e := EventOf(m, s, l); !(e.Claims? && e.job == j)
    ensures j in Next(m, s, l).world.db.jobs ==> Next(m, s, l).world.db.jobs[j].status == Accepted
  {
    match l {
      case MarkUploaded(r, a) => MarkUploadedKeeps(s.world.db, a, s.world.clock);
      case Act(w, act) =>
        if act.Ensure? {
          EnsureJobKeeps(s.world.db, PayloadOf(s.world, s.workers[w].pc.msg).asset, s.world.clock);
        }
      case _ =>
    }
  }

  lemma AttemptsStep(m: int, s: State, l: Label, j: JobId)
    requires DbInv(s.world.db) && Enabled(s, l)
    ensures var e := EventOf(m, s, l);
            var n := AttemptsOf(s.world.db, j);
            AttemptsOf(Next(m, s, l).world.db, j) == if e.Claims? && e.job == j then n + 1 else n
    ensures var e := EventOf(m, s, l);
            e.Claims? && e.job == j ==> e.ordinal == AttemptsOf(s.world.db, j) + 1
  {
    if j in s.world.db.jobs {
      RowStep(m, s, l, j);
    } else {
      NewRowStep(m, s, l, j);
    }
  }

  // ---------- every claim has its own ordinal and its own message ----------

  predicate Unclaimed(pc: Pc) { pc.Received? || pc.Resolved? }

  predicate Delivered(st: Stream, msg: MsgId) { msg in st.pending || msg in st.acked }

  ghost predicate ClaimsInv(s: State, j: JobId, h: seq<Event>) {
    && |h| == AttemptsOf(s.world.db, j)
    && (forall i :: 0 <= i < |h| ==>
          && h[i].Claims? && h[i].job == j && h[i].ordinal == i + 1
          && Delivered(s.world.stream, h[i].msg) && h[i].msg < |s.world.stream.log|
          && Names(s.world.db, s.world.stream.log[h[i].msg].payload, j))
    && (forall i, i' :: 0 <= i < i' < |h| ==> h[i].msg != h[i'].msg)
    && (forall i, w :: 0 <= i < |h| && w in s.workers && Unclaimed(s.workers[w].pc) ==>
          HandOf(s.workers[w].pc) != Some(h[i].msg))
  }

  lemma NextGrows(m: int, s: State, l: Label)
    requires Inv(s) && Enabled(s, l)
    ensures DbGrows(s.world.db, Next(m, s, l).world.db) && StreamGrows(s.world.stream, Next(m, s, l).world.stream)
  {
    match l {
      case MarkUploaded(r, a) => MarkUploadedKeeps(s.world.db, a, s.world.clock);
      case Publish(r, trim) =>
        AppendKeeps(s.world.stream, s.api[r].payload, Api);
        TrimKeeps(Append(s.world.stream, s.api[r].payload, Api), trim);
      case ForeignAdd(p) => AppendKeeps(s.world.stream, p, Foreign);
      case Start(w) => CreateGroupKeeps(s.world.stream);
      case Act(w, act) =>
        if !act.Begin? {
          StepKeeps(m, s.world, s.workers[w].pc, act);
        }
      case _ =>
    }
  }

  /** A worker's unclaimed entry was unclaimed in its hand before, or undelivered. */
  lemma UnclaimedStep(m: int, s: State, l: Label, w: WorkerId)
    requires StreamInv(s.world.stream) && Enabled(s, l)
    requires w in Next(m, s, l).workers && Unclaimed(Next(m, s, l).workers[w].pc)
    ensures var hand := HandOf(Next(m, s, l).workers[w].pc);
            || (w in s.workers && Unclaimed(s.workers[w].pc) && hand == HandOf(s.workers[w].pc))
            || !Delivered(s.world.stream, hand.value)
  {
  }

  /** The facts about the old claims survive a step that only lets the world grow. */
  lemma OldClaimsStay(s: State, s': State, j: JobId, h: seq<Event>, i: nat)
    requires ClaimsInv(s, j, h) && i < |h|
    requires DbGrows(s.world.db, s'.world.db) && StreamGrows(s.world.stream, s'.world.stream)
    ensures Delivered(s'.world.stream, h[i].msg) && h[i].msg < |s'.world.stream.log|
    ensures Names(s'.world.db, s'.world.stream.log[h[i].msg].payload, j)
  {
    assert s'.world.stream.log[h[i].msg] == s.world.stream.log[h[i].msg];
  }

  /** Nobody holds a claimed message unclaimed. */
  lemma ClaimedHandsStep(m: int, s: State, l: Label, j: JobId, h: seq<Event>, i: nat, w: WorkerId)
    requires Inv(s) && Enabled(s, l) && ClaimsInv(s, j, h)
    requires var e := EventOf(m, s, l);
             i < |h| || (i == |h| && e.Claims? && e.job == j)
    requires w in Next(m, s, l).workers && Unclaimed(Next(m, s, l).workers[w].pc)
    ensures HandOf(Next(m, s, l).workers[w].pc) != Some(if i < |h| then h[i].msg else EventOf(m, s, l).msg)
  {
    UnclaimedStep(m, s, l, w);
    if i == |h| && w in s.workers && w != l.worker {
      assert Apart(s.workers[w].pc, s.workers[l.worker].pc);
    }
  }

  lemma ClaimsStep(m: int, s: State, l: Label, j: JobId, h: seq<Event>)
    requires Inv(s) && Enabled(s, l) && ClaimsInv(s, j, h)
    ensures var e := EventOf(m, s, l);
            ClaimsInv(Next(m, s, l), j, h + if e.Claims? && e.job == j then [e] else [])
  {
    var s' := Next(m, s, l);
    var e := EventOf(m, s, l);
    AttemptsStep(m, s, l, j);
    NextGrows(m, s, l);
    var h' := h + if e.Claims? && e.job == j then [e] else [];
    forall i | 0 <= i < |h'|
      ensures Delivered(s'.world.stream, h'[i].msg) && h'[i].msg < |s'.world.stream.log|
      ensures Names(s'.world.db, s'.world.stream.log[h'[i].msg].payload, j)
    {
      if i < |h| {
        OldClaimsStay(s, s', j, h, i);
      }
    }
    forall i, w | 0 <= i < |h'| && w in s'.workers && Unclaimed(s'.workers[w].pc)
      ensures HandOf(s'.workers[w].pc) != Some(h'[i].msg)
    {
      ClaimedHandsStep(m, s, l, j, h, i, w);
    }
  }

  lemma {:induction false} ClaimsAlong(m: int, r: Run, k: nat, j: JobId)
    requires IsRun(m, r) && k < |r.states|
    ensures ClaimsInv(r.states[k], j, ClaimsOf(m, r, k, j))
  {
    if k > 0 {
      ClaimsAlong(m, r, k - 1, j);
      Reachable(m, r, k - 1);
      ClaimsStep(m, r.states[k - 1], r.labels[k - 1], j, ClaimsOf(m, r, k - 1, j));
    }
  }

  /** The positions of log entries whose payload can lead to a claim of j. */
  ghost function Naming(world: World, j: JobId): set<MsgId> {
    set i: nat | i < |world.stream.log| && Names(world.db, world.stream.log[i].payload, j)
  }

  ghost function DeliveredNaming(world: World, j: JobId): set<MsgId> {
    set i | i in Naming(world, j) && Delivered(world.stream, i)
  }

  lemma {:induction false} DistinctFit(h: seq<Event>, s: set<MsgId>)
    requires forall i :: 0 <= i < |h| ==> h[i].Claims? && h[i].msg in s
    requires forall i, i' :: 0 <= i < i' < |h| ==> h[i].msg != h[i'].msg
    ensures |h| <= |s|
  {
    if h != [] {
      var last := h[|h| - 1].msg;
      DistinctFit(h[..|h| - 1], s - {last});
    }
  }

  /** attempts counts the committed claims, numbered 1, 2, ... in order; each used up its own
      delivered message, so attempts never exceeds the deliveries naming the job, and these never
      exceed the entries ever appended for it. */
  lemma AttemptsAccounting(m: int, r: Run, k: nat, j: JobId)
    requires IsRun(m, r) && k < |r.states|
    ensures var h := ClaimsOf(m, r, k, j);
            var world := r.states[k].world;
            && AttemptsOf(world.db, j) == |h|
            && (forall i :: 0 <= i < |h| ==> h[i].Claims? && h[i].ordinal == i + 1)
            && (forall i, i' :: 0 <= i < i' < |h| ==> h[i].msg != h[i'].msg)
            && |h| <= |DeliveredNaming(world, j)| <= |Naming(world, j)|
  {
    ClaimsAlong(m, r, k, j);
    DistinctFit(ClaimsOf(m, r, k, j), DeliveredNaming(r.states[k].world, j));
    SubsetSize(DeliveredNaming(r.states[k].world, j), Naming(r.states[k].world, j));
  }

  // ---------- every claim has at most one verdict, and few of them send the job back ----------

  ghost predicate SettledInv(m: int, s: State, j: JobId, h: seq<Event>) {
    && (forall i :: 0 <= i < |h| ==>
          && h[i].Settles? && h[i].job == j && 1 <= h[i].ordinal <= AttemptsOf(s.world.db, j)
          && (h[i].verdict.WentBack? ==> h[i].ordinal < m))
    && (forall i, i' :: 0 <= i < i' < |h| ==> h[i].ordinal != h[i'].ordinal)
    && (forall i, w :: 0 <= i < |h| && w in s.workers && s.workers[w].pc.Holding? && s.workers[w].pc.claim.job == j ==>
          s.workers[w].pc.claim.ordinal != h[i].ordinal)
  }

  /** A claim is held on, or it was committed just now; a settled claim is held no longer. */
  lemma HeldStep(m: int, s: State, l: Label, w: WorkerId)
    requires Enabled(s, l) && w in Next(m, s, l).workers && Next(m, s, l).workers[w].pc.Holding?
    ensures var c := Next(m, s, l).workers[w].pc.claim;
            var e := EventOf(m, s, l);
            || (w in s.workers && s.workers[w].pc.Holding? && s.workers[w].pc.claim == c && (e.Settles? ==> w != l.worker))
            || (e.Claims? && e.job == c.job && e.ordinal == c.ordinal)
  {
  }

  lemma SettledEvent(m: int, s: State, l: Label)
    requires Inv(s) && Enabled(s, l) && EventOf(m, s, l).Settles?
    ensures var e := EventOf(m, s, l);
            && l.Act? && s.workers[l.worker].pc.Holding?
            && s.workers[l.worker].pc.claim.job == e.job && s.workers[l.worker].pc.claim.ordinal == e.ordinal
            && 1 <= e.ordinal <= AttemptsOf(s.world.db, e.job)
            && (e.verdict.WentBack? ==> e.ordinal < m)
  {
    assert PcOk(s.world, s.workers[l.worker].pc);
  }

  lemma SettledStep(m: int, s: State, l: Label, j: JobId, h: seq<Event>)
    requires Inv(s) && Enabled(s, l) && SettledInv(m, s, j, h)
    ensures var e := EventOf(m, s, l);
            SettledInv(m, Next(m, s, l), j, h + if e.Settles? && e.job == j then [e] else [])
  {
    var s' := Next(m, s, l);
    var e := EventOf(m, s, l);
    AttemptsStep(m, s, l, j);
    var h' := h + if e.Settles? && e.job == j then [e] else [];
    if e.Settles? {
      SettledEvent(m, s, l);
    }
    forall i, w | 0 <= i < |h'| && w in s'.workers && s'.workers[w].pc.Holding? && s'.workers[w].pc.claim.job == j
      ensures s'.workers[w].pc.claim.ordinal != h'[i].ordinal
    {
      HeldStep(m, s, l, w);
      if e.Settles? {
        assert w != l.worker ==> Apart(s.workers[w].pc, s.workers[l.worker].pc);
      }
    }
  }

  lemma {:induction false} SettledAlong(m: int, r: Run, k: nat, j: JobId)
    requires IsRun(m, r) && k < |r.states|
    ensures SettledInv(m, r.states[k], j, VerdictsOf(m, r, k, j))
  {
    if k > 0 {
      SettledAlong(m, r, k - 1, j);
      Reachable(m, r, k - 1);
      SettledStep(m, r.states[k - 1], r.labels[k - 1], j, VerdictsOf(m, r, k - 1, j));
    }
  }

  /** The ordinals of the claims whose failure sent the job back. */
  ghost function BackOrdinals(h: seq<Event>): set<nat>
    requires forall i :: 0 <= i < |h| ==> h[i].Settles?
  {
    set i | 0 <= i < |h| && h[i].verdict.WentBack? :: h[i].ordinal
  }

  lemma BackOrdinalsGrow(h: seq<Event>, e: Event)
    requires e.Settles?
    requires forall i :: 0 <= i < |h| ==> h[i].Settles? && h[i].ordinal != e.ordinal
    ensures |BackOrdinals(h + [e])| == |BackOrdinals(h)| + if e.verdict.WentBack? then 1 else 0
  {
    var h' := h + [e];
    forall o | o in BackOrdinals(h) ensures o in BackOrdinals(h') {
      var i :| 0 <= i < |h| && h[i].verdict.WentBack? && h[i].ordinal == o;
      assert h'[i] == h[i];
    }
    assert h'[|h|] == e;
    assert BackOrdinals(h') == BackOrdinals(h) + if e.verdict.WentBack? then {e.ordinal} else {};
  }

  lemma {:induction false} RequeuesAreOrdinals(m: int, r: Run, k: nat, j: JobId)
    requires IsRun(m, r) && k < |r.states|
    ensures var h := VerdictsOf(m, r, k, j);
            (forall i :: 0 <= i < |h| ==> h[i].Settles?) && |BackOrdinals(h)| == Requeues(m, r, k, j)
  {
    SettledAlong(m, r, k, j);
    if k > 0 {
      RequeuesAreOrdinals(m, r, k - 1, j);
      var h, h' := VerdictsOf(m, r, k - 1, j), VerdictsOf(m, r, k, j);
      var e := EventOf(m, r.states[k - 1], r.labels[k - 1]);
      if e.Settles? && e.job == j {
        assert h' == h + [e];
        forall i | 0 <= i < |h| ensures h[i].ordinal != e.ordinal {
          assert h'[i].ordinal != h'[|h|].ordinal;
        }
        BackOrdinalsGrow(h, e);
      } else {
        assert h' == h;
      }
    }
  }

  lemma {:induction false} RangeSize(lo: nat, hi: nat)
    requires lo <= hi
    ensures |Range(lo, hi)| == hi - lo
  {
    if lo == hi {
      assert Range(lo, hi) == {};
    } else {
      RangeSize(lo, hi - 1);
      assert Range(lo, hi) == Range(lo, hi - 1) + {hi - 1};
    }
  }

  /** Over every run, with any number of workers, crashes and duplicate entries: the verdicts of a
      job belong to different claims, only a claim numbered below max_retries goes back to
      'pending', and so this happens at most max_retries - 1 times. */
  lemma RequeueBound(m: int, r: Run, k: nat, j: JobId)
    requires IsRun(m, r) && k < |r.states|
    ensures var h := VerdictsOf(m, r, k, j);
            && (forall i :: 0 <= i < |h| ==> h[i].Settles? && 1 <= h[i].ordinal <= AttemptsOf(r.states[k].world.db, j))
            && (forall i :: 0 <= i < |h| && h[i].verdict.WentBack? ==> h[i].ordinal < m)
            && (forall i, i' :: 0 <= i < i' < |h| ==> h[i].ordinal != h[i'].ordinal)
    ensures Requeues(m, r, k, j) <= if m >= 1 then m - 1 else 0
  {
    SettledAlong(m, r, k, j);
    RequeuesAreOrdinals(m, r, k, j);
    var top := if m >= 1 then m else 1;
    SubsetSize(BackOrdinals(VerdictsOf(m, r, k, j)), Range(1, top));
    RangeSize(1, top);
  }

  // ---------- conservation of messages ----------

  ghost predicate InHand(s: State, i: MsgId) {
    exists w :: w in s.workers && HandOf(s.workers[w].pc) == Some(i)
  }

  /** Every appended entry is in exactly one place, and in at most one worker's hand. */
  lemma MessageConservation(m: int, r: Run, k: nat, i: MsgId)
    requires IsRun(m, r) && k < |r.states| && i < |r.states[k].world.stream.log|
    ensures var s := r.states[k];
            var st := s.world.stream;
            var undelivered, dropped, acked := i >= st.cursor, i in st.dropped, i in st.acked;
            var held, left := InHand(s, i), i in st.pending && !InHand(s, i);
            && (undelivered || dropped || held || left || acked)
            && (undelivered ==> !dropped && !held && !left && !acked)
            && (dropped ==> !held && !left && !acked)
            && (held ==> !left && !acked)
            && (left ==> !acked)
            && (forall w, w' :: w in s.workers && w' in s.workers && w != w' && HandOf(s.workers[w].pc) == Some(i) ==>
                  HandOf(s.workers[w'].pc) != Some(i))
  {
    Reachable(m, r, k);
    var s := r.states[k];
    assert i < s.world.stream.cursor ==> i in Range(0, s.world.stream.cursor);
    forall w, w' | w in s.workers && w' in s.workers && w != w' ensures Apart(s.workers[w].pc, s.workers[w'].pc) {
    }
  }

  // ---------- what an acknowledgement proves ----------

  ghost predicate StatusIs(s: State, j: JobId, status: JobStatus) {
    j in s.world.db.jobs && s.world.db.jobs[j].status == status
  }

  /** Job j was committed 'done' in one of the first k + 1 states. */
  ghost predicate WasDone(r: Run, k: nat, j: JobId)
    requires k < |r.states|
  {
    exists i :: 0 <= i <= k && StatusIs(r.states[i], j, Done)
  }

  /** The entry is a job message of the API or the sweep. */
  predicate Ours(world: World, msg: MsgId) {
    msg < |world.stream.log| && !world.stream.log[msg].origin.Foreign? && world.stream.log[msg].payload.JobPayload?
  }

  /** The entry is acknowledged, or a worker is about to. */
  ghost predicate AckDecided(s: State, msg: MsgId) {
    msg in s.world.stream.acked || exists w :: w in s.workers && s.workers[w].pc == Acking(msg)
  }

  ghost predicate AckInv(r: Run, k: nat)
    requires k < |r.states|
  {
    var s := r.states[k];
    forall msg: MsgId :: Ours(s.world, msg) && AckDecided(s, msg) ==>
      WasDone(r, k, s.world.stream.log[msg].payload.job)
  }

  /** A worker starts to acknowledge one of our job messages only when its job is 'done'. */
  lemma AckingMeansDone(m: int, s: State, w: WorkerId, act: Action)
    requires Inv(s) && Enabled(s, Act(w, act))
    ensures var s' := Next(m, s, Act(w, act));
            var pc' := s'.workers[w].pc;
            pc'.Acking? && !s.workers[w].pc.Acking? && Ours(s'.world, pc'.msg) ==>
              StatusIs(s', s'.world.stream.log[pc'.msg].payload.job, Done)
  {
  }

  lemma AckedStep(m: int, s: State, l: Label, msg: MsgId)
    requires Inv(s) && Enabled(s, l) && msg in Next(m, s, l).world.stream.acked
    ensures msg in s.world.stream.acked || (l.Act? && s.workers[l.worker].pc == Acking(msg))
  {
  }

  /** An entry in the pending list or acknowledged was in the log before. */
  lemma OldEntry(m: int, s: State, l: Label, msg: MsgId)
    requires Inv(s) && Enabled(s, l) && msg < |s.world.stream.log|
    ensures s.world.stream.log[msg] == Next(m, s, l).world.stream.log[msg]
    ensures !s.world.stream.log[msg].origin.Foreign? && s.world.stream.log[msg].payload.JobPayload? <==> Ours(Next(m, s, l).world, msg)
  {
    NextGrows(m, s, l);
  }

  lemma AckDecidedStep(m: int, s: State, l: Label, msg: MsgId)
    requires Inv(s) && Enabled(s, l) && AckDecided(Next(m, s, l), msg) && Ours(Next(m, s, l).world, msg)
    ensures var s' := Next(m, s, l);
            || (AckDecided(s, msg) && Ours(s.world, msg) && s.world.stream.log[msg] == s'.world.stream.log[msg])
            || StatusIs(s', s'.world.stream.log[msg].payload.job, Done)
  {
    var s' := Next(m, s, l);
    if msg in s'.world.stream.acked {
      AckedStep(m, s, l, msg);
      if msg !in s.world.stream.acked {
        assert PcOk(s.world, s.workers[l.worker].pc);
      }
      OldEntry(m, s, l, msg);
    } else {
      var w :| w in s'.workers && s'.workers[w].pc == Acking(msg);
      if w in s.workers && s.workers[w].pc == Acking(msg) {
        assert PcOk(s.world, s.workers[w].pc);
        OldEntry(m, s, l, msg);
      } else {
        AckingMeansDone(m, s, w, l.action);
      }
    }
  }

  lemma {:induction false} AckAlong(m: int, r: Run, k: nat)
    requires IsRun(m, r) && k < |r.states|
    ensures AckInv(r, k)
  {
    if k > 0 {
      AckAlong(m, r, k - 1);
      Reachable(m, r, k - 1);
      var s, s', l := r.states[k - 1], r.states[k], r.labels[k - 1];
      forall msg: MsgId | Ours(s'.world, msg) && AckDecided(s', msg)
        ensures WasDone(r, k, s'.world.stream.log[msg].payload.job)
      {
        AckDecidedStep(m, s, l, msg);
        if AckDecided(s, msg) && Ours(s.world, msg) && s.world.stream.log[msg] == s'.world.stream.log[msg] {
          assert WasDone(r, k - 1, s.world.stream.log[msg].payload.job);
        }
      }
    }
  }

  /** Entries of the API and the sweep always name a committed row, so a worker never finds their
      job missing; and if one was acknowledged, its job was committed 'done' earlier in the run. */
  lemma AckSafety(m: int, r: Run, k: nat, msg: MsgId)
    requires IsRun(m, r) && k < |r.states| && Ours(r.states[k].world, msg)
    ensures NamesRow(r.states[k].world.db, r.states[k].world.stream.log[msg].payload)
    ensures msg in r.states[k].world.stream.acked ==> WasDone(r, k, r.states[k].world.stream.log[msg].payload.job)
  {
    Reachable(m, r, k);
    AckAlong(m, r, k);
  }

  // ---------- upload and job agreement ----------

  /** How many transactions of the API committed a job for asset a in the first k steps. */
  ghost function Commits(m: int, r: Run, k: nat, a: AssetId): nat
    requires IsRunFrom(m, r) && k < |r.states|
  {
    if k == 0 then 0
    else Commits(m, r, k - 1, a) + if CommitsFor(r.states[k - 1], r.labels[k - 1], a) then 1 else 0
  }

  predicate CommitsFor(s: State, l: Label, a: AssetId) {
    l.MarkUploaded? && l.asset == a && MarkUploadedTx(s.world.db, a, s.world.clock).1.Some?
  }

  /** How many Enqueue calls the API started for asset a in the first k steps. */
  ghost function Enqueues(m: int, r: Run, k: nat, a: AssetId): nat
    requires IsRunFrom(m, r) && k < |r.states|
  {
    if k == 0 then 0
    else Enqueues(m, r, k - 1, a) + if EnqueuesFor(r.states[k - 1], r.labels[k - 1], a) then 1 else 0
  }

  predicate EnqueuesFor(s: State, l: Label, a: AssetId) {
    l.StartEnqueue? && l.request in s.api && About(s.api[l.request], a)
  }

  /** How many requests for asset a ended between their commit and their Enqueue. */
  ghost function Deaths(m: int, r: Run, k: nat, a: AssetId): nat
    requires IsRunFrom(m, r) && k < |r.states|
  {
    if k == 0 then 0
    else Deaths(m, r, k - 1, a) + if DiesFor(r.states[k - 1], r.labels[k - 1], a) then 1 else 0
  }

  predicate DiesFor(s: State, l: Label, a: AssetId) {
    l.EndRequest? && l.request in s.api && About(s.api[l.request], a) && !s.api[l.request].enqueuing
  }

  predicate About(request: Request, a: AssetId) {
    request.payload.JobPayload? && request.payload.asset == a
  }

  /** The requests for asset a that committed and have not called Enqueue yet. */
  function Waiting(s: State, a: AssetId): set<RequestId> {
    set q | q in s.api && About(s.api[q], a) && !s.api[q].enqueuing
  }

  lemma IndexStep(m: int, s: State, l: Label, a: AssetId)
    requires Inv(s) && Enabled(s, l)
    ensures a in Next(m, s, l).world.db.index <==> a in s.world.db.index || CommitsFor(s, l, a)
    ensures CommitsFor(s, l, a) ==> a !in s.world.db.index
  {
    if l.Act? && l.action.Ensure? {
      EnsureGood(m, s.world, s.workers[l.worker].pc);
    }
  }

  lemma WaitingRest(m: int, s: State, l: Label)
    requires Enabled(s, l) && !l.MarkUploaded? && !l.StartEnqueue? && !l.EndRequest?
    ensures Next(m, s, l).api == s.api
  {
  }

  lemma WaitingCommit(m: int, s: State, l: Label, a: AssetId)
    requires Enabled(s, l) && l.MarkUploaded?
    ensures Waiting(Next(m, s, l), a) == Waiting(s, a) + if CommitsFor(s, l, a) then {l.request} else {}
    ensures l.request !in Waiting(s, a)
  {
  }

  lemma WaitingLeave(m: int, s: State, l: Label, a: AssetId)
    requires Enabled(s, l) && (l.StartEnqueue? || l.EndRequest?)
    ensures Waiting(Next(m, s, l), a) == Waiting(s, a) - {l.request}
    ensures l.request in Waiting(s, a) <==> EnqueuesFor(s, l, a) || DiesFor(s, l, a)
  {
  }

  lemma WaitingStep(m: int, s: State, l: Label, a: AssetId)
    requires Enabled(s, l)
    ensures |Waiting(Next(m, s, l), a)| ==
              |Waiting(s, a)| + (if CommitsFor(s, l, a) then 1 else 0)
                - (if EnqueuesFor(s, l, a) then 1 else 0) - (if DiesFor(s, l, a) then 1 else 0)
  {
    if l.MarkUploaded? {
      WaitingCommit(m, s, l, a);
    } else if l.StartEnqueue? || l.EndRequest? {
      WaitingLeave(m, s, l, a);
    } else {
      WaitingRest(m, s, l);
    }
  }

  /** Each commit leads to one Enqueue, is still to call it, or died before. */
  lemma {:induction false} CommitsAlong(m: int, r: Run, k: nat, a: AssetId)
    requires IsRun(m, r) && k < |r.states|
    ensures Commits(m, r, k, a) == if a in r.states[k].world.db.index then 1 else 0
    ensures Commits(m, r, k, a) == Enqueues(m, r, k, a) + |Waiting(r.states[k], a)| + Deaths(m, r, k, a)
  {
    if k > 0 {
      CommitsAlong(m, r, k - 1, a);
      Reachable(m, r, k - 1);
      IndexStep(m, r.states[k - 1], r.labels[k - 1], a);
      WaitingStep(m, r.states[k - 1], r.labels[k - 1], a);
    } else {
      assert Waiting(r.states[0], a) == {};
    }
  }

  /** In every reachable state an asset is 'uploading' exactly when it has no job and otherwise has
      exactly one.  Until then the API has started no Enqueue for it; from then on it has started at
      most one, and exactly one unless the one request that committed is about to or died before. */
  lemma UploadJobAgreement(m: int, r: Run, k: nat, a: AssetId)
    requires IsRun(m, r) && k < |r.states| && a in r.states[k].world.db.assets
    ensures var db := r.states[k].world.db;
            && (db.assets[a].Uploading? <==> forall j :: j in db.jobs ==> db.jobs[j].asset != a)
            && (forall j, j' :: j in db.jobs && j' in db.jobs && db.jobs[j].asset == a && db.jobs[j'].asset == a ==> j == j')
    ensures Commits(m, r, k, a) == if r.states[k].world.db.assets[a].Uploading? then 0 else 1
    ensures Enqueues(m, r, k, a) + |Waiting(r.states[k], a)| + Deaths(m, r, k, a) == Commits(m, r, k, a)
  {
    Reachable(m, r, k);
    CommitsAlong(m, r, k, a);
    var db := r.states[k].world.db;
    if !db.assets[a].Uploading? {
      assert db.index[a] in db.jobs;
    }
  }

  /** Both paths that can insert a job resolve an asset to the same, already existing job: a worker
      handling an asset message never inserts a second one. */
  lemma BothPathsOneJob(m: int, r: Run, k: nat, w: WorkerId)
    requires IsRun(m, r) && k < |r.labels| && r.labels[k] == Act(w, Ensure)
    ensures var db := r.states[k].world.db;
            var pc' := r.states[k + 1].workers[w].pc;
            && r.states[k + 1].world.db == db
            && (pc'.Resolved? ==> pc'.job in db.jobs && PayloadOf(r.states[k].world, pc'.msg) == AssetPayload(db.jobs[pc'.job].asset))
  {
    Reachable(m, r, k);
    EnsureGood(m, r.states[k].world, r.states[k].workers[w].pc);
  }
}
