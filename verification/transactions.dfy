/**
 ExecTransaction: a bounded retry loop around one transaction, its backoff and its classification
 of errors.  What can fail is chosen per attempt from outside.
 */
module Backoff {
  const BASE: int := 100_000_000             // 100 ms in nanoseconds
  const CAP: int := 5_000_000_000            // 5 s
  const TWO53: int := 0x20_0000_0000_0000
  const TWO63: int := 0x8000_0000_0000_0000

  function Pow2(n: nat): (r: nat)
    ensures r >= 1
  {
    if n == 0 then 1 else 2 * Pow2(n - 1)
  }

  /** The conversion of a float to int64: exact in range, else a value the platform chooses. */
  function ToInt64(x: int, overflow: int): int {
    if x < TWO63 then x else overflow
  }

  function BackoffOf(attempt: nat, overflow: int): int
    requires attempt >= 1
  {
    var raw := ToInt64(BASE * Pow2(attempt - 1), overflow);
    if raw > CAP then CAP else raw
  }

  /** Go's integer division truncates toward zero. */
  function Quot(x: int, d: int): int
    requires d > 0
  {
    if x >= 0 then x / d else -((-x) / d)
  }

  /** Int63n panics on an argument that is not positive. */
  predicate SleepPanics(attempt: nat, overflow: int)
    requires attempt >= 1
  {
    Quot(BackoffOf(attempt, overflow), 2) <= 0
  }

  /** The sleep for the random draw Int63n(backoff / 2). */
  function SleepOf(attempt: nat, overflow: int, draw: int): int
    requires attempt >= 1
  {
    var backoff := BackoffOf(attempt, overflow);
    var sleep := backoff + (draw - Quot(backoff, 4));
    if sleep < 0 then 0 else sleep
  }

  /** The bound b of the n-th wait. */
  function Bound(attempt: nat): int
    requires attempt >= 1
  {
    if attempt <= 6 then BASE * Pow2(attempt - 1) else CAP
  }

  lemma {:induction false} Pow2Grows(n: nat, k: nat)
    requires n <= k
    ensures Pow2(n) <= Pow2(k)
    decreases k
  {
    if n < k {
      Pow2Grows(n, k - 1);
    }
  }

  lemma {:induction false} Pow2Sum(n: nat, k: nat)
    ensures Pow2(n + k) == Pow2(n) * Pow2(k)
    decreases k
  {
    if k > 0 {
      Pow2Sum(n, k - 1);
      assert Pow2(n + k) == 2 * Pow2(n + k - 1);
      assert Pow2(n) * (2 * Pow2(k - 1)) == 2 * (Pow2(n) * Pow2(k - 1));
    }
  }

  lemma Pow2Values()
    ensures Pow2(3) == 8 && Pow2(5) == 32 && Pow2(6) == 64 && Pow2(36) == 68_719_476_736 && Pow2(37) == 137_438_953_472
  {
    assert Pow2(6) == 64 by { assert Pow2(3) == 8; }
    Pow2Sum(6, 6);
    Pow2Sum(12, 12);
    Pow2Sum(24, 12);
    assert Pow2(37) == 2 * Pow2(36);
  }

  /** A whole number that a 64-bit float holds exactly: 53 bits and a scale. */
  ghost predicate IsFloat(x: nat) {
    exists mantissa: nat, scale: nat :: ScaledTo(x, mantissa, scale)
  }

  ghost predicate ScaledTo(x: nat, mantissa: nat, scale: nat) {
    mantissa < TWO53 && scale <= 971 && x == mantissa * Pow2(scale)
  }

  lemma SmallIsFloat(mantissa: nat, scale: nat)
    requires mantissa <= 390_625 && scale <= 971
    ensures IsFloat(mantissa * Pow2(scale))
  {
    assert ScaledTo(mantissa * Pow2(scale), mantissa, scale);
  }

  /** The base is a small mantissa and a power of two. */
  lemma BaseScales(n: nat)
    ensures BASE * Pow2(n) == 390_625 * Pow2(8 + n)
  {
    assert Pow2(8) == 256 by {
      Pow2Values();
      Pow2Sum(3, 5);
    }
    Pow2Sum(8, n);
  }

  /** The base, the power and their product are floats, far beyond the attempts in range, so the
      multiplication does not round and the conversion starts from the exact value. */
  lemma FloatIsExact(attempt: nat)
    requires 1 <= attempt <= 964
    ensures IsFloat(BASE) && IsFloat(Pow2(attempt - 1)) && IsFloat(BASE * Pow2(attempt - 1))
  {
    BaseScales(0);
    BaseScales(attempt - 1);
    SmallIsFloat(390_625, 8);
    SmallIsFloat(1, attempt - 1);
    SmallIsFloat(390_625, 7 + attempt);
  }

  /** In range, the backoff is min(100 ms * 2^(attempt - 1), 5 s). */
  lemma BackoffInRange(attempt: nat, overflow: int)
    requires 1 <= attempt <= 37
    ensures BackoffOf(attempt, overflow) == Bound(attempt) ==
              if 100_000_000 * Pow2(attempt - 1) > 5_000_000_000 then 5_000_000_000 else 100_000_000 * Pow2(attempt - 1)
    ensures Bound(attempt) >= BASE && Bound(attempt) % 4 == 0
  {
    Pow2Values();
    Pow2Grows(attempt - 1, 36);
    if attempt <= 6 {
      Pow2Grows(attempt - 1, 5);
    } else {
      Pow2Grows(6, attempt - 1);
    }
  }

  /** The sleep panics exactly from the 38th wait on, and only where an overflowing conversion
      gives less than 2. */
  lemma SleepPanicsIff(attempt: nat, overflow: int)
    requires attempt >= 1
    ensures SleepPanics(attempt, overflow) <==> attempt >= 38 && overflow < 2
  {
    if attempt <= 37 {
      BackoffInRange(attempt, overflow);
    } else {
      Pow2Values();
      Pow2Grows(37, attempt - 1);
    }
  }

  /** Each wait lies in [3/4 b, 5/4 b), so the branch for negative sleeps is dead. */
  lemma SleepBounds(attempt: nat, overflow: int, draw: int)
    requires 1 <= attempt <= 37 && 0 <= draw < Quot(BackoffOf(attempt, overflow), 2)
    ensures 3 * Bound(attempt) <= 4 * SleepOf(attempt, overflow, draw) < 5 * Bound(attempt)
    ensures BackoffOf(attempt, overflow) + (draw - Quot(BackoffOf(attempt, overflow), 4)) > 0
  {
    BackoffInRange(attempt, overflow);
  }

  /** The draw shifts the wait by itself: it is spread evenly over half the bound around it. */
  lemma DrawCounts(attempt: nat, overflow: int, draw: int)
    requires 1 <= attempt <= 37 && 0 <= draw < Quot(BackoffOf(attempt, overflow), 2)
    ensures 4 * SleepOf(attempt, overflow, draw) == 3 * Bound(attempt) + 4 * draw
    ensures 2 * Quot(BackoffOf(attempt, overflow), 2) == Bound(attempt)
  {
    BackoffInRange(attempt, overflow);
  }

  /** The total of the waits 1..n for given draws. */
  function Total(n: nat, overflow: int, draws: nat -> int): int {
    if n == 0 then 0 else Total(n - 1, overflow, draws) + SleepOf(n, overflow, draws(n))
  }

  /** 100 ms * (2^n - 1) up to n = 6, and 5 s more for each wait beyond. */
  function S(n: nat): int {
    if n <= 6 then BASE * (Pow2(n) - 1) else 63 * BASE + CAP * (n - 6)
  }

  lemma SStep(n: nat)
    requires n >= 1
    ensures S(n) == S(n - 1) + Bound(n)
  {
    Pow2Values();
    assert Pow2(n) == 2 * Pow2(n - 1);
  }

  /** n waits total less than 1.25 * S(n). */
  lemma {:induction false} TotalBound(n: nat, overflow: int, draws: nat -> int)
    requires 1 <= n <= 37
    requires forall k :: 1 <= k <= n ==> 0 <= draws(k) < Quot(BackoffOf(k, overflow), 2)
    ensures 3 * S(n) <= 4 * Total(n, overflow, draws) < 5 * S(n)
  {
    SStep(n);
    SleepBounds(n, overflow, draws(n));
    if n > 1 {
      TotalBound(n - 1, overflow, draws);
    }
  }
}

module Transactions {
  import opened Postgres
  import Backoff

  datatype Err = Err(msg: string, canceled: bool, deadline: bool)

  // ---------- which errors are retried ----------

  const MARKERS: seq<string> :=
    [ "sqlstate 40001", "40001", "serialization_failure", "could not serialize", "sqlstate 40p01", "40p01",
      "deadlock detected", "deadlock", "lock wait timeout", "1213", "serialization error", "retry transaction",
      "write conflict" ]

  function Lower(s: string): (r: string)
    ensures |r| == |s|
    ensures forall i :: 0 <= i < |s| ==> r[i] == if 'A' <= s[i] <= 'Z' then (s[i] as int + 32) as char else s[i]
  {
    if s == [] then [] else [if 'A' <= s[0] <= 'Z' then (s[0] as int + 32) as char else s[0]] + Lower(s[1..])
  }

  predicate ContainsAt(s: string, t: string, i: nat) {
    i + |t| <= |s| && s[i..i + |t|] == t
  }

  ghost predicate Contains(s: string, t: string) {
    exists i: nat :: ContainsAt(s, t, i)
  }

  ghost predicate Transient(msg: string) {
    exists k :: 0 <= k < |MARKERS| && Contains(Lower(msg), MARKERS[k])
  }

  ghost predicate Retryable(e: Err) {
    !e.canceled && !e.deadline && Transient(e.msg)
  }

  /** A marker in any casing, anywhere in the message, makes it transient. */
  lemma AnyCasing(before: string, s: string, after: string, k: nat)
    requires k < |MARKERS| && Lower(s) == MARKERS[k]
    ensures Transient(before + s + after)
  {
    var msg := before + s + after;
    assert Lower(msg)[|before|..|before| + |s|] == Lower(s);
    assert ContainsAt(Lower(msg), MARKERS[k], |before|);
  }

  /** Whatever the message says, a cancelled or expired context ends the call; any other error is
      retried exactly for a marker at some position. */
  lemma RetryableIff(e: Err)
    ensures Retryable(e) <==> !e.canceled && !e.deadline && exists k: nat, i: nat :: MarkedAt(e.msg, k, i)
  {
    if Transient(e.msg) {
      var k :| 0 <= k < |MARKERS| && Contains(Lower(e.msg), MARKERS[k]);
      var i: nat :| ContainsAt(Lower(e.msg), MARKERS[k], i);
      assert MarkedAt(e.msg, k, i);
    }
    if k: nat, i: nat :| MarkedAt(e.msg, k, i) {
      assert ContainsAt(Lower(e.msg), MARKERS[k], i);
    }
  }

  /** Marker k stands at position i of the lower-cased message. */
  predicate MarkedAt(msg: string, k: nat, i: nat) {
    k < |MARKERS| && i + |MARKERS[k]| <= |msg| && Lower(msg)[i..i + |MARKERS[k]|] == MARKERS[k]
  }

  method StringContains(s: string, t: string) returns (found: bool)
    ensures found <==> Contains(s, t)
  {
    var i := 0;
    while i + |t| <= |s|
      invariant forall k: nat :: k < i ==> !ContainsAt(s, t, k)
      decreases |s| + 1 - i
    {
      if s[i..i + |t|] == t {
        assert ContainsAt(s, t, i);
        return true;
      }
      i := i + 1;
    }
    return false;
  }

  /** A cancelled or expired context is never retried, whatever its message says. */
  method ShouldRetry(err: Option<Err>) returns (retry: bool)
    ensures retry <==> err.Some? && Retryable(err.value)
  {
    if err.None? || err.value.canceled || err.value.deadline {
      return false;
    }
    var msg := Lower(err.value.msg);
    for k := 0 to |MARKERS|
      invariant forall i :: 0 <= i < k ==> !Contains(msg, MARKERS[i])
    {
      var found := StringContains(msg, MARKERS[k]);
      if found {
        return true;
      }
    }
    return false;
  }

  // ---------- one attempt ----------

  datatype FnResult = FnOk | FnErr(err: Err) | FnPanic(text: string)

  /** Everything that can go wrong in one attempt. */
  datatype Faults = Faults(ctxErr: Option<Err>, beginErr: Option<Err>, fn: FnResult, rollbackErr: Option<Err>,
                           commitErr: Option<Err>, ctxDoneAfter: bool)

  datatype Failure =
    | CtxFailure(err: Err)
    | BeginFailure(err: Err)
    | FnFailure(err: Err)
    | RollbackFailure(rollback: Err, original: Err)
    | CommitFailure(err: Err)

  datatype Result = Committed | Errored(failure: Failure) | Panicked

  /** A panic of the callback becomes an error. */
  function FnError(r: FnResult): Option<Err> {
    match r
    case FnOk => None
    case FnErr(e) => Some(e)
    case FnPanic(text) => Some(Err("panic in transaction func: " + text, false, false))
  }

  /** How an attempt ends on its own. */
  function EndOf(f: Faults): Result {
    if f.ctxErr.Some? then Errored(CtxFailure(f.ctxErr.value))
    else if f.beginErr.Some? then Errored(BeginFailure(f.beginErr.value))
    else if FnError(f.fn).Some? then
      Errored(if f.rollbackErr.Some? then RollbackFailure(f.rollbackErr.value, FnError(f.fn).value) else FnFailure(FnError(f.fn).value))
    else if f.commitErr.Some? then Errored(CommitFailure(f.commitErr.value))
    else Committed
  }

  /** An attempt ends with the first thing that goes wrong, in the order context, begin, fn, commit; an
      error of the rollback is reported with the one that caused it, and a panic of fn counts as an error. */
  lemma EndEffect(f: Faults)
    ensures EndOf(f).Committed? <==> f.ctxErr.None? && f.beginErr.None? && f.fn.FnOk? && f.commitErr.None?
    ensures f.ctxErr.Some? ==> EndOf(f) == Errored(CtxFailure(f.ctxErr.value))
    ensures f.ctxErr.None? && f.beginErr.Some? ==> EndOf(f) == Errored(BeginFailure(f.beginErr.value))
    ensures f.ctxErr.None? && f.beginErr.None? && !f.fn.FnOk? ==>
              var e := if f.fn.FnErr? then f.fn.err else Err("panic in transaction func: " + f.fn.text, false, false);
              EndOf(f) == Errored(if f.rollbackErr.Some? then RollbackFailure(f.rollbackErr.value, e) else FnFailure(e))
    ensures f.ctxErr.None? && f.beginErr.None? && f.fn.FnOk? && f.commitErr.Some? ==>
              EndOf(f) == Errored(CommitFailure(f.commitErr.value))
  {
  }

  /** The error that decides about a retry. */
  function Cause(failure: Failure): Err {
    match failure
    case CtxFailure(e) => e
    case BeginFailure(e) => e
    case FnFailure(e) => e
    case RollbackFailure(_, original) => original
    case CommitFailure(e) => e
  }

  /** The attempt is followed by another one if the limit allows. */
  ghost predicate MayRetry(f: Faults) {
    && EndOf(f).Errored? && !EndOf(f).failure.CtxFailure?
    && Retryable(Cause(EndOf(f).failure))
    && (EndOf(f).failure.BeginFailure? || !f.ctxDoneAfter)
  }

  /** No attempt follows one whose context had ended, or one that failed for good: what decides is the
      error of begin, fn or commit itself, not that of the rollback. */
  lemma MayRetryIff(f: Faults)
    ensures MayRetry(f) <==>
              && f.ctxErr.None?
              && (if f.beginErr.Some? then Retryable(f.beginErr.value)
                  else
                    && !f.ctxDoneAfter
                    && match f.fn
                       case FnErr(e) => Retryable(e)
                       case FnPanic(text) => Retryable(Err("panic in transaction func: " + text, false, false))
                       case FnOk => f.commitErr.Some? && Retryable(f.commitErr.value))
  {
  }

  // ---------- the database handle ----------

  /** A database as one client sees it: the committed state, and the open transactions' copies. */
  class Handle<D> {
    var committed: D
    var commits: nat
    var open: map<nat, D>
    var nextTx: nat
    ghost var peak: nat                    // most transactions that were ever open at once

    constructor (data: D)
      ensures committed == data && commits == 0 && open == map[] && peak == 0
    {
      committed, commits, open, nextTx, peak := data, 0, map[], 0, 0;
    }

    method Begin() returns (tx: nat)
      requires nextTx !in open
      modifies this
      ensures tx !in old(open) && open == old(open)[tx := committed]
      ensures committed == old(committed) && commits == old(commits)
      ensures peak == if |open| > old(peak) then |open| else old(peak)
    {
      tx := nextTx;
      nextTx := nextTx + 1;
      open := open[tx := committed];
      peak := if |open| > peak then |open| else peak;
    }

    method Write(tx: nat, data: D)
      requires tx in open
      modifies this`open
      ensures open == old(open)[tx := data]
    {
      open := open[tx := data];
    }

    method Rollback(tx: nat)
      modifies this`open
      ensures open == old(open) - {tx}
    {
      open := open - {tx};
    }

    /** A commit that reports an error has not committed. */
    method Commit(tx: nat, fails: bool)
      requires tx in open
      modifies this
      ensures open == old(open) - {tx} && nextTx == old(nextTx) && peak == old(peak)
      ensures committed == (if fails then old(committed) else old(open[tx])) && commits == old(commits) + if fails then 0 else 1
    {
      if !fails {
        committed := open[tx];
        commits := commits + 1;
      }
      open := open - {tx};
    }
  }

  /** A deferred rollback of one iteration, with the flag it looks at. */
  datatype Deferred = Deferred(tx: nat, rolledBack: bool)

  // ---------- the loop ----------

  function Limit(maxAttempts: int): (n: nat)
    ensures n >= 1 && (n == maxAttempts || (n == 1 && maxAttempts <= 0))
  {
    if maxAttempts <= 0 then 1 else maxAttempts
  }

  /** The attempts before number n all failed with a retryable error, and their sleeps did not panic. */
  ghost predicate Retried(script: nat -> Faults, overflow: int, n: nat) {
    forall k :: 1 <= k < n ==> MayRetry(script(k)) && !Backoff.SleepPanics(k, overflow)
  }

  lemma RetriedNext(script: nat -> Faults, overflow: int, n: nat)
    requires n >= 1 && Retried(script, overflow, n) && MayRetry(script(n)) && !Backoff.SleepPanics(n, overflow)
    ensures Retried(script, overflow, n + 1)
  {
  }

  /** One transaction: begin, run fn, and commit, or roll back what fn wrote before it failed.
      `again` tells whether its error may be retried. */
  method Once<D>(db: Handle<D>, f: Faults, fn: D -> D, partial: D) returns (end: Result, again: bool, done: Deferred)
    requires db.open == map[] && db.peak <= 1 && f.ctxErr.None? && f.beginErr.None?
    modifies db
    ensures db.open == map[] && db.peak <= 1 && done.rolledBack
    ensures end == EndOf(f) && (again <==> MayRetry(f))
    ensures db.committed == (if end.Committed? then fn(old(db.committed)) else old(db.committed))
    ensures db.commits == old(db.commits) + if end.Committed? then 1 else 0
  {
    var tx := db.Begin();
    var fnErr := FnError(f.fn);
    db.Write(tx, if fnErr.None? then fn(db.committed) else partial);
    if fnErr.Some? {
      db.Rollback(tx);
      done := Deferred(tx, true);
      again := ShouldRetry(fnErr);
      again := again && !f.ctxDoneAfter;
      end := Errored(if f.rollbackErr.Some? then RollbackFailure(f.rollbackErr.value, fnErr.value) else FnFailure(fnErr.value));
      return;
    }
    db.Commit(tx, f.commitErr.Some?);
    done := Deferred(tx, true);
    if f.commitErr.Some? {
      db.Rollback(tx);
      again := ShouldRetry(f.commitErr);
      again := again && !f.ctxDoneAfter;
      end := Errored(CommitFailure(f.commitErr.value));
      return;
    }
    end, again := Committed, false;
  }

  /** One pass of the loop, up to the question whether to go on. */
  method Pass<D>(db: Handle<D>, f: Faults, fn: D -> D, partial: D)
    returns (end: Result, again: bool, started: bool, deferred: seq<Deferred>)
    requires db.open == map[] && db.peak <= 1
    modifies db
    ensures db.open == map[] && db.peak <= 1 && forall d :: d in deferred ==> d.rolledBack
    ensures end == EndOf(f) && (again <==> MayRetry(f)) && (started <==> f.ctxErr.None? && f.beginErr.None?)
    ensures db.committed == (if end.Committed? then fn(old(db.committed)) else old(db.committed))
    ensures db.commits == old(db.commits) + if end.Committed? then 1 else 0
  {
    if f.ctxErr.Some? {
      return Errored(CtxFailure(f.ctxErr.value)), false, false, [];
    }
    if f.beginErr.Some? {
      again := ShouldRetry(f.beginErr);
      return Errored(BeginFailure(f.beginErr.value)), again, false, [];
    }
    var done;
    end, again, done := Once(db, f, fn, partial);
    started, deferred := true, [done];
  }

  /** The attempts up to number n in which fn starts: wherever a transaction began. */
  function Begun(script: nat -> Faults, n: nat): set<nat> {
    set k: nat | k <= n && Begins(script, k)
  }

  predicate Begins(script: nat -> Faults, k: nat) {
    k >= 1 && script(k).ctxErr.None? && script(k).beginErr.None?
  }

  lemma BegunStep(script: nat -> Faults, n: nat)
    ensures Begun(script, 0) == {}
    ensures |Begun(script, n + 1)| == |Begun(script, n)| + if Begins(script, n + 1) then 1 else 0
  {
    assert Begun(script, n + 1) == Begun(script, n) + if Begins(script, n + 1) then {n + 1} else {};
  }

  lemma {:induction false} BegunFit(script: nat -> Faults, n: nat)
    ensures |Begun(script, n)| <= n
  {
    if n > 0 {
      BegunFit(script, n - 1);
      BegunStep(script, n - 1);
    } else {
      BegunStep(script, 0);
    }
  }

  /** What the attempts leave to the deferred rollbacks: nothing. */
  method Attempts<D>(db: Handle<D>, maxAttempts: int, fn: D -> D, partial: nat -> D, script: nat -> Faults, overflow: int)
    returns (result: Result, last: nat, starts: nat, deferred: seq<Deferred>)
    requires db.open == map[] && db.peak <= 1
    modifies db
    ensures db.open == map[] && db.peak <= 1
    ensures 1 <= last <= Limit(maxAttempts) && starts == |Begun(script, last)|
    ensures Retried(script, overflow, last)
    ensures !result.Panicked? ==> result == EndOf(script(last))
    ensures !result.Panicked? && MayRetry(script(last)) ==> last == Limit(maxAttempts)
    ensures result.Panicked? ==> MayRetry(script(last)) && Backoff.SleepPanics(last, overflow) && last < Limit(maxAttempts)
    ensures result.Committed? ==> db.committed == fn(old(db.committed)) && db.commits == old(db.commits) + 1
    ensures !result.Committed? ==> db.committed == old(db.committed) && db.commits == old(db.commits)
    ensures forall d :: d in deferred ==> d.rolledBack
  {
    var limit := Limit(maxAttempts);
    result, last, starts, deferred := Panicked, 0, 0, [];
    var attempt := 1;
    BegunStep(script, 0);
    while attempt <= limit
      invariant 1 <= attempt <= limit && last == attempt - 1 && starts == |Begun(script, last)|
      invariant db.open == map[] && db.peak <= 1 && db.committed == old(db.committed) && db.commits == old(db.commits)
      invariant Retried(script, overflow, attempt)
      invariant forall d :: d in deferred ==> d.rolledBack
      decreases limit - attempt
    {
      BegunStep(script, last);
      last := attempt;
      var end, again, started, more := Pass(db, script(attempt), fn, partial(attempt));
      deferred := deferred + more;
      if started {
        starts := starts + 1;
      }
      assert starts == |Begun(script, last)|;
      if !again || attempt == limit {
        return end, last, starts, deferred;
      }
      if Backoff.SleepPanics(attempt, overflow) {
        return Panicked, last, starts, deferred;
      }
      RetriedNext(script, overflow, attempt);
      attempt := attempt + 1;
    }
    assert false;
  }

  method RunDeferred<D>(db: Handle<D>, deferred: seq<Deferred>)
    modifies db`open
    ensures (forall d :: d in deferred ==> d.rolledBack) ==> db.open == old(db.open)
  {
    var k := |deferred|;
    while k > 0
      invariant 0 <= k <= |deferred|
      invariant (forall d :: d in deferred ==> d.rolledBack) ==> db.open == old(db.open)
    {
      k := k - 1;
      if !deferred[k].rolledBack {
        db.Rollback(deferred[k].tx);
      }
    }
  }

  /** Once or not at all: the call returns nil exactly when one attempt committed, and then the
      database shows fn applied once; otherwise the database is unchanged.  fn starts at most
      max(1, maxAttempts) times, every attempt before the last failed with a retryable error, no
      transaction stays open, and a panic of the backoff leaves nothing behind. */
  method ExecTransaction<D>(db: Handle<D>, maxAttempts: int, fn: D -> D, partial: nat -> D, script: nat -> Faults, overflow: int)
    returns (result: Result, last: nat, starts: nat)
    requires db.open == map[] && db.peak <= 1
    modifies db
    ensures db.open == map[] && db.peak <= 1
    ensures IsLast(script, overflow, Limit(maxAttempts), last)
    ensures starts == |Begun(script, last)| && starts <= last <= if maxAttempts <= 0 then 1 else maxAttempts
    ensures result.Committed? <==> EndOf(script(last)).Committed?
    ensures db.committed == (if result.Committed? then fn(old(db.committed)) else old(db.committed))
    ensures db.commits == old(db.commits) + if result.Committed? then 1 else 0
    ensures !result.Panicked? ==> result == EndOf(script(last))
    ensures result.Panicked? <==> MayRetry(script(last)) && last < Limit(maxAttempts)
    ensures result.Panicked? ==> last >= 38 && overflow < 2
  {
    var deferred;
    result, last, starts, deferred := Attempts(db, maxAttempts, fn, partial, script, overflow);
    RunDeferred(db, deferred);
    BegunFit(script, last);
    Backoff.SleepPanicsIff(last, overflow);
  }

  // ---------- what the caller can know beforehand ----------

  /** The number of the last attempt is fixed by the faults alone. */
  ghost predicate IsLast(script: nat -> Faults, overflow: int, limit: nat, n: nat) {
    && 1 <= n <= limit && Retried(script, overflow, n)
    && (MayRetry(script(n)) && n < limit ==> Backoff.SleepPanics(n, overflow))
  }

  /** Whatever the faults, some attempt is the last. */
  lemma {:induction false} LastExists(script: nat -> Faults, overflow: int, limit: nat, k: nat) returns (n: nat)
    requires 1 <= k <= limit && Retried(script, overflow, k)
    ensures IsLast(script, overflow, limit, n)
    decreases limit - k
  {
    if MayRetry(script(k)) && k < limit && !Backoff.SleepPanics(k, overflow) {
      n := LastExists(script, overflow, limit, k + 1);
    } else {
      n := k;
    }
  }

  lemma LastIsUnique(script: nat -> Faults, overflow: int, limit: nat, n: nat, n': nat)
    requires IsLast(script, overflow, limit, n) && IsLast(script, overflow, limit, n')
    ensures n == n'
  {
  }

  /** The call succeeds if and only if some attempt within the limit succeeds and all attempts before
      it failed with a retryable error and a sleep that did not panic. */
  lemma SucceedsIff(script: nat -> Faults, overflow: int, limit: nat, last: nat)
    requires IsLast(script, overflow, limit, last)
    ensures EndOf(script(last)).Committed? <==>
              exists n :: 1 <= n <= limit && EndOf(script(n)).Committed? && Retried(script, overflow, n)
  {
    forall n | 1 <= n <= limit && EndOf(script(n)).Committed? && Retried(script, overflow, n) ensures n == last {
      LastIsUnique(script, overflow, limit, n, last);
    }
  }
}
