/**
 The worker's migration runner: files in filename order, one transaction per file that applies its
 SQL and records its version, and a skip for versions already recorded.
 */
module Migrations {
  import opened Postgres

  type Version = string

  datatype File = File(version: Version, name: string)

  /** The schema, and the versions in the tracking table. */
  datatype Schema<D> = Schema(data: D, applied: set<Version>)

  /** The effect of a file's SQL; None when it raises. */
  type Sql<!D> = (File, D) -> Option<D>

  // ---------- which files, in which order ----------

  /** The characters that the pattern's \d matches: the decimal digits, not only the ASCII ones. */
  type Digits = char -> bool

  /** The match of the pattern ^(\d+), empty when it does not match. */
  function LeadingDigits(digits: Digits, name: string): (d: string)
    ensures |d| <= |name| && d == name[..|d|] && (forall ch :: ch in d ==> digits(ch))
    ensures |d| < |name| ==> !digits(name[|d|])
  {
    if name == [] || !digits(name[0]) then [] else [name[0]] + LeadingDigits(digits, name[1..])
  }

  /** Code-point order, as sorted() compares names. */
  predicate Before(s: string, t: string) {
    if t == [] then false
    else if s == [] then true
    else s[0] < t[0] || (s[0] == t[0] && Before(s[1..], t[1..]))
  }

  /** The names agree up to position k, and there one ends or has the smaller character. */
  ghost predicate SmallerAt(s: string, t: string, k: nat) {
    k <= |s| && k < |t| && s[..k] == t[..k] && (k == |s| || s[k] < t[k])
  }

  lemma {:induction false} BeforeIff(s: string, t: string)
    ensures Before(s, t) <==> exists k: nat :: SmallerAt(s, t, k)
    decreases |s|
  {
    if s != [] && t != [] && s[0] == t[0] {
      BeforeIff(s[1..], t[1..]);
      if Before(s[1..], t[1..]) {
        var k: nat :| SmallerAt(s[1..], t[1..], k);
        assert s[..k + 1] == [s[0]] + s[1..][..k] && t[..k + 1] == [t[0]] + t[1..][..k];
        assert SmallerAt(s, t, k + 1);
      }
      forall k: nat | SmallerAt(s, t, k) ensures Before(s, t) {
        assert s[1..][..k - 1] == s[..k][1..] && t[1..][..k - 1] == t[..k][1..];
        assert SmallerAt(s[1..], t[1..], k - 1);
      }
    } else if t != [] {
      if s == [] || s[0] < t[0] {
        assert SmallerAt(s, t, 0);
      }
      forall k: nat | SmallerAt(s, t, k) ensures Before(s, t) {
        if k > 0 {
          assert s[..k][0] == t[..k][0];
        }
      }
    }
  }

  predicate SortedNames(names: seq<string>) {
    forall i, k :: 0 <= i < k < |names| ==> Before(names[i], names[k])
  }

  /** Files in strict filename order. */
  predicate InOrder(files: seq<File>) {
    forall i, k :: 0 <= i < k < |files| ==> Before(files[i].name, files[k].name)
  }

  /** The numbered files of a listing, in its order. */
  function Numbered(digits: Digits, listing: seq<string>): (files: seq<File>)
    ensures forall f :: f in files ==> f.name in listing && f.version == LeadingDigits(digits, f.name) != []
  {
    if listing == [] then []
    else
      var before, name := listing[..|listing| - 1], listing[|listing| - 1];
      Numbered(digits, before) + if LeadingDigits(digits, name) == [] then [] else [File(LeadingDigits(digits, name), name)]
  }

  method MigrationFiles(digits: Digits, listing: seq<string>) returns (files: seq<File>)
    ensures files == Numbered(digits, listing)
  {
    files := [];
    for i := 0 to |listing|
      invariant files == Numbered(digits, listing[..i])
    {
      var d := LeadingDigits(digits, listing[i]);
      if d != [] {
        files := files + [File(d, listing[i])];
      }
      assert listing[..i + 1][..i] == listing[..i];
    }
    assert listing[..|listing|] == listing;
  }

  lemma {:induction false} NumberedComplete(digits: Digits, listing: seq<string>, name: string)
    requires name in listing && LeadingDigits(digits, name) != []
    ensures File(LeadingDigits(digits, name), name) in Numbered(digits, listing)
  {
    if name != listing[|listing| - 1] {
      NumberedComplete(digits, listing[..|listing| - 1], name);
    }
  }

  /** A sorted listing gives files in strict filename order. */
  lemma {:induction false} NumberedInOrder(digits: Digits, listing: seq<string>)
    requires SortedNames(listing)
    ensures InOrder(Numbered(digits, listing))
  {
    if listing != [] {
      var before, name := listing[..|listing| - 1], listing[|listing| - 1];
      NumberedInOrder(digits, before);
      forall f | f in Numbered(digits, before) ensures Before(f.name, name) {
        var i :| 0 <= i < |before| && before[i] == f.name;
      }
    }
  }

  // ---------- runs ----------

  function ApplyOne<D>(sql: Sql<D>, f: File, db: Schema<D>): Option<Schema<D>> {
    if f.version in db.applied then Some(db)
    else
      match sql(f, db.data)
      case None => None
      case Some(data) => Some(Schema(data, db.applied + {f.version}))
  }

  /** The first n files, stopping at the first failure; the flag says that none failed. */
  function RunFirst<D>(sql: Sql<D>, files: seq<File>, n: nat, db: Schema<D>): (Schema<D>, bool)
    requires n <= |files|
  {
    if n == 0 then (db, true)
    else
      var (before, ok) := RunFirst(sql, files, n - 1, db);
      if !ok then (before, false)
      else
        match ApplyOne(sql, files[n - 1], before)
        case None => (before, false)
        case Some(after) => (after, true)
  }

  function FullRun<D>(sql: Sql<D>, files: seq<File>, db: Schema<D>): (Schema<D>, bool) {
    RunFirst(sql, files, |files|, db)
  }

  predicate CutsOk(files: seq<File>, cuts: seq<nat>) {
    forall i :: 0 <= i < |cuts| ==> cuts[i] <= |files|
  }

  /** Runs cut off after some number of transactions, one after another. */
  function CutRuns<D>(sql: Sql<D>, files: seq<File>, cuts: seq<nat>, db: Schema<D>): Schema<D>
    requires CutsOk(files, cuts)
  {
    if cuts == [] then db
    else RunFirst(sql, files, cuts[|cuts| - 1], CutRuns(sql, files, cuts[..|cuts| - 1], db)).0
  }

  // ---------- the runner over a connection ----------

  class Connection<D> {
    var data: D
    var applied: set<Version>

    constructor (data: D)
      ensures this.data == data && applied == {}
    {
      this.data, applied := data, {};
    }

    function View(): Schema<D>
      reads this
    {
      Schema(data, applied)
    }

    /** Run, being cut off after at most `cut` files; a failing file aborts the run. */
    method RunMigrations(sql: Sql<D>, files: seq<File>, cut: nat) returns (ok: bool)
      requires cut <= |files|
      modifies this
      ensures (View(), ok) == RunFirst(sql, files, cut, old(View()))
    {
      ok := true;
      var n := 0;
      while n < cut
        invariant 0 <= n <= cut && ok && RunFirst(sql, files, n, old(View())) == (View(), true)
      {
        var f := files[n];
        if f.version !in applied {
          var result := sql(f, data);
          if result.None? {
            FailureStops(sql, files, n, cut, old(View()));
            return false;                        // the transaction rolls back and the exception ends the run
          }
          data, applied := result.value, applied + {f.version};
        }
        n := n + 1;
      }
    }
  }

  /** Once a file has failed, the run is over. */
  lemma {:induction false} FailureStops<D>(sql: Sql<D>, files: seq<File>, n: nat, m: nat, db: Schema<D>)
    requires n < m <= |files| && RunFirst(sql, files, n, db).1
    requires ApplyOne(sql, files[n], RunFirst(sql, files, n, db).0).None?
    ensures RunFirst(sql, files, m, db) == (RunFirst(sql, files, n, db).0, false)
    decreases m
  {
    if m > n + 1 {
      FailureStops(sql, files, n, m - 1, db);
    }
  }

  // ---------- resuming ----------

  ghost predicate AllApplied<D>(files: seq<File>, n: nat, db: Schema<D>)
    requires n <= |files|
  {
    forall i :: 0 <= i < n ==> files[i].version in db.applied
  }

  lemma {:induction false} SuccessApplies<D>(sql: Sql<D>, files: seq<File>, n: nat, db: Schema<D>)
    requires n <= |files|
    ensures db.applied <= RunFirst(sql, files, n, db).0.applied
    ensures RunFirst(sql, files, n, db).1 ==> AllApplied(files, n, RunFirst(sql, files, n, db).0)
  {
    if n > 0 {
      SuccessApplies(sql, files, n - 1, db);
    }
  }

  lemma {:induction false} AppliedAreSkipped<D>(sql: Sql<D>, files: seq<File>, n: nat, db: Schema<D>)
    requires n <= |files| && AllApplied(files, n, db)
    ensures RunFirst(sql, files, n, db) == (db, true)
  {
    if n > 0 {
      AppliedAreSkipped(sql, files, n - 1, db);
    }
  }

  /** The file at which a failed run stopped, with everything before it applied. */
  lemma {:induction false} FailurePoint<D>(sql: Sql<D>, files: seq<File>, n: nat, db: Schema<D>) returns (k: nat)
    requires n <= |files| && !RunFirst(sql, files, n, db).1
    ensures k < n && RunFirst(sql, files, k, db) == (RunFirst(sql, files, n, db).0, true)
    ensures ApplyOne(sql, files[k], RunFirst(sql, files, n, db).0).None?
  {
    if RunFirst(sql, files, n - 1, db).1 {
      k := n - 1;
    } else {
      k := FailurePoint(sql, files, n - 1, db);
    }
  }

  /** Running further after a cut-off run gives what one uninterrupted run gives. */
  lemma {:induction false} ResumeFrom<D>(sql: Sql<D>, files: seq<File>, n: nat, m: nat, db: Schema<D>)
    requires n <= m <= |files|
    ensures RunFirst(sql, files, m, RunFirst(sql, files, n, db).0) == RunFirst(sql, files, m, db)
    decreases m
  {
    var (db1, ok) := RunFirst(sql, files, n, db);
    SuccessApplies(sql, files, n, db);
    if !ok {
      var k := FailurePoint(sql, files, n, db);
      SuccessApplies(sql, files, k, db);
      AppliedAreSkipped(sql, files, k, db1);
      FailureStops(sql, files, k, m, db1);
      FailureStops(sql, files, k, m, db);
    } else if m == n {
      AppliedAreSkipped(sql, files, n, db1);
    } else {
      ResumeFrom(sql, files, n, m - 1, db);
    }
  }

  /** Migrations are crash-resumable: after any finite sequence of runs cut off between transactions,
      a complete run gives the same schema, the same applied versions and the same verdict as one
      uninterrupted run, a failing file included. */
  lemma {:induction false} CrashResumable<D>(sql: Sql<D>, files: seq<File>, cuts: seq<nat>, db: Schema<D>)
    requires CutsOk(files, cuts)
    ensures FullRun(sql, files, CutRuns(sql, files, cuts, db)) == FullRun(sql, files, db)
    decreases |cuts|
  {
    if cuts != [] {
      CrashResumable(sql, files, cuts[..|cuts| - 1], db);
      ResumeFrom(sql, files, cuts[|cuts| - 1], |files|, CutRuns(sql, files, cuts[..|cuts| - 1], db));
    }
  }

  /** A further run after a complete one changes nothing and has the same verdict. */
  lemma FurtherRunIsIdle<D>(sql: Sql<D>, files: seq<File>, db: Schema<D>)
    ensures FullRun(sql, files, FullRun(sql, files, db).0) == FullRun(sql, files, db)
  {
    ResumeFrom(sql, files, |files|, |files|, db);
  }

  // ---------- what is applied, and how often ----------

  /** The positions of the files whose SQL a run commits, in order. */
  function AppliedBy<D>(sql: Sql<D>, files: seq<File>, n: nat, db: Schema<D>): seq<nat>
    requires n <= |files|
  {
    if n == 0 then []
    else
      var (before, ok) := RunFirst(sql, files, n - 1, db);
      AppliedBy(sql, files, n - 1, db) +
        if ok && files[n - 1].version !in before.applied && sql(files[n - 1], before.data).Some? then [n - 1] else []
  }

  // ---------- what the applied SQL leaves ----------

  /** The SQL of the files at these positions, one after another. */
  function Fold<D>(sql: Sql<D>, files: seq<File>, at: seq<nat>, data: D): Option<D>
    requires Positions(files, at)
  {
    if at == [] then Some(data)
    else
      match Fold(sql, files, at[..|at| - 1], data)
      case None => None
      case Some(before) => sql(files[at[|at| - 1]], before)
  }

  lemma {:induction false} FoldJoin<D>(sql: Sql<D>, files: seq<File>, at: seq<nat>, more: seq<nat>, data: D, mid: D)
    requires Positions(files, at) && Positions(files, more) && Fold(sql, files, at, data) == Some(mid)
    ensures Positions(files, at + more) && Fold(sql, files, at + more, data) == Fold(sql, files, more, mid)
    decreases |more|
  {
    if more == [] {
      assert at + more == at;
    } else {
      FoldJoin(sql, files, at, more[..|more| - 1], data, mid);
      assert (at + more)[..|at + more| - 1] == at + more[..|more| - 1];
    }
  }

  /** The schema after a run is what the SQL of the committed files makes of the schema before, file
      by file: no SQL is recorded without being applied, and none is applied without being recorded. */
  lemma {:induction false} SchemaIsFold<D>(sql: Sql<D>, files: seq<File>, n: nat, db: Schema<D>)
    requires n <= |files|
    ensures var at := AppliedBy(sql, files, n, db);
            Positions(files, at) && Fold(sql, files, at, db.data) == Some(RunFirst(sql, files, n, db).0.data)
  {
    if n > 0 {
      SchemaIsFold(sql, files, n - 1, db);
      var at, at' := AppliedBy(sql, files, n - 1, db), AppliedBy(sql, files, n, db);
      if at' != at {
        assert at'[..|at'| - 1] == at;
      }
    }
  }

  /** One file: recorded versions are skipped; an unrecorded one leaves exactly what its SQL makes of
      the schema and is recorded, or, if its SQL fails, changes nothing and ends the run. */
  lemma FileEffect<D>(sql: Sql<D>, files: seq<File>, n: nat, db: Schema<D>)
    requires n < |files| && RunFirst(sql, files, n, db).1
    ensures var (before, f) := (RunFirst(sql, files, n, db).0, files[n]);
            RunFirst(sql, files, n + 1, db) ==
              if f.version in before.applied then (before, true)
              else match sql(f, before.data)
                   case Some(data) => (Schema(data, before.applied + {f.version}), true)
                   case None => (before, false)
  {
  }

  /** A run fails if and only if it comes to a file whose version is not recorded and whose SQL fails
      on the schema that the files before it left. */
  lemma {:induction false} FailsIff<D>(sql: Sql<D>, files: seq<File>, n: nat, db: Schema<D>)
    requires n <= |files|
    ensures !RunFirst(sql, files, n, db).1 <==> exists k: nat :: k < n && FailsAt(sql, files, k, db)
  {
    if n > 0 {
      FailsIff(sql, files, n - 1, db);
      if RunFirst(sql, files, n - 1, db).1 {
        FileEffect(sql, files, n - 1, db);
        assert forall k: nat :: k < n && FailsAt(sql, files, k, db) ==> k < n - 1 || k == n - 1;
        assert !RunFirst(sql, files, n, db).1 <==> FailsAt(sql, files, n - 1, db);
      }
    }
  }

  ghost predicate FailsAt<D>(sql: Sql<D>, files: seq<File>, k: nat, db: Schema<D>)
    requires k < |files|
  {
    var (before, ok) := RunFirst(sql, files, k, db);
    ok && files[k].version !in before.applied && sql(files[k], before.data).None?
  }

  function AppliedByCuts<D>(sql: Sql<D>, files: seq<File>, cuts: seq<nat>, db: Schema<D>): seq<nat>
    requires CutsOk(files, cuts)
  {
    if cuts == [] then []
    else
      var before := cuts[..|cuts| - 1];
      AppliedByCuts(sql, files, before, db) + AppliedBy(sql, files, cuts[|cuts| - 1], CutRuns(sql, files, before, db))
  }

  ghost predicate Positions(files: seq<File>, at: seq<nat>) {
    forall i :: 0 <= i < |at| ==> at[i] < |files|
  }

  ghost function Versions(files: seq<File>, at: seq<nat>): set<Version>
    requires Positions(files, at)
  {
    set i | 0 <= i < |at| :: files[at[i]].version
  }

  ghost predicate DistinctVersions(files: seq<File>, at: seq<nat>)
    requires Positions(files, at)
  {
    forall i, k :: 0 <= i < k < |at| ==> files[at[i]].version != files[at[k]].version
  }

  predicate Increasing(at: seq<nat>) {
    forall i, k :: 0 <= i < k < |at| ==> at[i] < at[k]
  }

  /** What a run commits: positions in order, below n, of distinct versions that were not recorded;
      the tracking table gains exactly these. */
  ghost predicate Accounts<D>(files: seq<File>, n: nat, db: Schema<D>, at: seq<nat>, after: set<Version>) {
    && n <= |files|
    && (forall i :: 0 <= i < |at| ==> at[i] < n && files[at[i]].version !in db.applied)
    && Increasing(at) && DistinctVersions(files, at)
    && after == db.applied + Versions(files, at)
  }

  lemma AccountsGrow<D>(files: seq<File>, n: nat, db: Schema<D>, at: seq<nat>, after: set<Version>)
    requires n < |files| && Accounts(files, n, db, at, after) && files[n].version !in after
    ensures Accounts(files, n + 1, db, at + [n], after + {files[n].version})
  {
    var at' := at + [n];
    forall i | 0 <= i < |at| ensures files[at'[i]].version != files[n].version {
      assert files[at[i]].version in Versions(files, at);
    }
    VersionsJoin(files, at, [n]);
    assert Versions(files, [n]) == {files[n].version} by {
      assert [n][0] == n;
    }
  }

  lemma VersionsJoin(files: seq<File>, at: seq<nat>, more: seq<nat>)
    requires Positions(files, at) && Positions(files, more)
    ensures Positions(files, at + more) && Versions(files, at + more) == Versions(files, at) + Versions(files, more)
  {
    var all := at + more;
    forall v | v in Versions(files, at) ensures v in Versions(files, all) {
      var i :| 0 <= i < |at| && files[at[i]].version == v;
      assert all[i] == at[i];
    }
    forall v | v in Versions(files, more) ensures v in Versions(files, all) {
      var i :| 0 <= i < |more| && files[more[i]].version == v;
      assert all[|at| + i] == more[i];
    }
  }

  lemma {:induction false} RunAccounts<D>(sql: Sql<D>, files: seq<File>, n: nat, db: Schema<D>)
    requires n <= |files|
    ensures Accounts(files, n, db, AppliedBy(sql, files, n, db), RunFirst(sql, files, n, db).0.applied)
  {
    if n > 0 {
      RunAccounts(sql, files, n - 1, db);
      var (before, ok) := RunFirst(sql, files, n - 1, db);
      var at := AppliedBy(sql, files, n - 1, db);
      if AppliedBy(sql, files, n, db) != at {
        AccountsGrow(files, n - 1, db, at, before.applied);
      }
    }
  }

  /** A run commits files in filename order, each version once and none recorded before, and the
      tracking table gains exactly their versions. */
  lemma RunApplies<D>(sql: Sql<D>, files: seq<File>, n: nat, db: Schema<D>)
    requires n <= |files| && InOrder(files)
    ensures var at := AppliedBy(sql, files, n, db);
            && Positions(files, at) && DistinctVersions(files, at)
            && (forall i, k :: 0 <= i < k < |at| ==> Before(files[at[i]].name, files[at[k]].name))
            && (forall i :: 0 <= i < |at| ==> files[at[i]].version !in db.applied)
            && RunFirst(sql, files, n, db).0.applied == db.applied + Versions(files, at)
  {
    RunAccounts(sql, files, n, db);
  }

  /** Over any sequence of cut-off runs every version is applied at most once. */
  lemma {:induction false} AppliedOnce<D>(sql: Sql<D>, files: seq<File>, cuts: seq<nat>, db: Schema<D>)
    requires CutsOk(files, cuts)
    ensures var at := AppliedByCuts(sql, files, cuts, db);
            && Positions(files, at) && DistinctVersions(files, at)
            && (forall i :: 0 <= i < |at| ==> files[at[i]].version !in db.applied)
            && CutRuns(sql, files, cuts, db).applied == db.applied + Versions(files, at)
    decreases |cuts|
  {
    if cuts != [] {
      var before := cuts[..|cuts| - 1];
      AppliedOnce(sql, files, before, db);
      var mid := CutRuns(sql, files, before, db);
      RunAccounts(sql, files, cuts[|cuts| - 1], mid);
      var at, more := AppliedByCuts(sql, files, before, db), AppliedBy(sql, files, cuts[|cuts| - 1], mid);
      VersionsJoin(files, at, more);
      forall i, k | 0 <= i < |at| && 0 <= k < |more| ensures files[at[i]].version != files[more[k]].version {
        assert files[at[i]].version in Versions(files, at);
      }
    }
  }

  /** The schema after any sequence of cut-off runs is what the SQL committed by all of them makes of
      the schema before. */
  lemma {:induction false} SchemaIsFoldOfCuts<D>(sql: Sql<D>, files: seq<File>, cuts: seq<nat>, db: Schema<D>)
    requires CutsOk(files, cuts)
    ensures var at := AppliedByCuts(sql, files, cuts, db);
            Positions(files, at) && Fold(sql, files, at, db.data) == Some(CutRuns(sql, files, cuts, db).data)
    decreases |cuts|
  {
    if cuts != [] {
      var before := cuts[..|cuts| - 1];
      SchemaIsFoldOfCuts(sql, files, before, db);
      var mid := CutRuns(sql, files, before, db);
      SchemaIsFold(sql, files, cuts[|cuts| - 1], mid);
      FoldJoin(sql, files, AppliedByCuts(sql, files, before, db), AppliedBy(sql, files, cuts[|cuts| - 1], mid), db.data, mid.data);
    }
  }

  /** In a run that fails nowhere, a file's SQL is committed if and only if its version was not
      recorded and no earlier file has the same version. */
  lemma {:induction false} CommittedIff<D>(sql: Sql<D>, files: seq<File>, n: nat, db: Schema<D>, i: nat)
    requires i < n <= |files| && RunFirst(sql, files, n, db).1
    ensures i in AppliedBy(sql, files, n, db) <==>
              files[i].version !in db.applied && forall k :: 0 <= k < i ==> files[k].version != files[i].version
    decreases n
  {
    var at := AppliedBy(sql, files, n - 1, db);
    if i < n - 1 {
      CommittedIff(sql, files, n - 1, db, i);
    } else {
      var (mid, _) := RunFirst(sql, files, i, db);
      RunAccounts(sql, files, i, db);
      SuccessApplies(sql, files, i, db);
      assert i in AppliedBy(sql, files, n, db) <==> files[i].version !in mid.applied;
      if files[i].version in mid.applied && files[i].version !in db.applied {
        assert files[i].version in Versions(files, at);
      }
    }
  }
}
