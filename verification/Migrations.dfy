/** The resumable migration runner: every file applied once, in name order, each in its own
    transaction (pkg/db/db.go). */
module Migrations {
  import opened Models

  // File names matter only through their order, contents only through being what was run.
  type Name = int
  type Body = nat

  /** The rows of schema_migrations in the order they were inserted, and the bodies executed. */
  datatype Db = Db(applied: seq<Name>, schema: seq<Body>)

  ghost predicate Sorted(names: seq<Name>) {
    forall i, j :: 0 <= i < j < |names| ==> names[i] < names[j]
  }

  ghost predicate AllFound(names: seq<Name>, files: map<Name, Body>) {
    forall i :: 0 <= i < |names| ==> names[i] in files
  }

  function Bodies(names: seq<Name>, files: map<Name, Body>): (bodies: seq<Body>)
    requires AllFound(names, files)
    ensures |bodies| == |names|
    ensures forall i :: 0 <= i < |names| ==> bodies[i] == files[names[i]]
  {
    seq(|names|, i requires 0 <= i < |names| => files[names[i]])
  }

  /** One run over the first k names: a file already applied is skipped, a broken one stops the run
      and leaves nothing behind. */
  function Migrated(db: Db, names: seq<Name>, k: nat, files: map<Name, Body>, broken: set<Name>): (Db, bool)
    requires k <= |names| && AllFound(names, files)
  {
    if k == 0 then (db, true)
    else
      var (d, ok) := Migrated(db, names, k - 1, files, broken);
      var name := names[k - 1];
      if !ok then (d, false)
      else if name in d.applied then (d, true)
      else if name in broken then (d, false)
      else (Db(d.applied + [name], d.schema + [files[name]]), true)
  }

  function MigrateAll(db: Db, names: seq<Name>, files: map<Name, Body>, broken: set<Name>): (Db, bool)
    requires AllFound(names, files)
  {
    Migrated(db, names, |names|, files, broken)
  }

  // ---- the runner ---------------------------------------------------------------------------

  class Database {
    var applied: seq<Name>
    var schema: seq<Body>

    function View(): Db
      reads this
    {
      Db(applied, schema)
    }

    constructor ()
      ensures View() == Db([], [])
    {
      applied, schema := [], [];
    }

    method AppliedVersions() returns (versions: set<Name>)
      ensures forall v :: v in versions <==> v in applied
    {
      versions := {};
      for i := 0 to |applied|
        invariant forall v :: v in versions <==> v in applied[..i]
      {
        versions := versions + {applied[i]};
        assert applied[..i + 1] == applied[..i] + [applied[i]];
      }
      assert applied[..|applied|] == applied;
    }

    /** Executes a file and records its name in one transaction; an error rolls both back. */
    method ApplyOne(name: Name, body: Body, broken: bool) returns (ok: bool)
      modifies this
      ensures ok <==> !broken && name !in old(applied)
      ensures View() == if ok then Db(old(applied) + [name], old(schema) + [body]) else old(View())
    {
      if broken {
        return false;
      }
      var tx := schema + [body];
      if name in applied {
        return false; // the primary key refuses the second record; rolled back
      }
      applied, schema := applied + [name], tx;
      return true;
    }

    /** The names arrive sorted; what is applied is read once, before the loop. */
    method Migrate(names: seq<Name>, files: map<Name, Body>, broken: set<Name>) returns (ok: bool)
      requires Sorted(names) && AllFound(names, files)
      modifies this
      ensures (View(), ok) == MigrateAll(old(View()), names, files, broken)
    {
      ghost var db := View();
      var done := AppliedVersions();
      assert forall v :: v in applied <==> v in done;
      for k := 0 to |names|
        invariant Migrated(db, names, k, files, broken) == (View(), true)
        invariant forall v :: v in names[k..] ==> (v in applied <==> v in done)
      {
        assert names[k..] == [names[k]] + names[k + 1..];
        if names[k] in done {
          continue;
        }
        var recorded := ApplyOne(names[k], files[names[k]], names[k] in broken);
        if !recorded {
          StoppedStaysStopped(db, names, k + 1, |names|, files, broken);
          return false;
        }
      }
      return true;
    }

    static lemma {:induction false} StoppedStaysStopped(db: Db, names: seq<Name>, k: nat, n: nat, files: map<Name, Body>,
                                                        broken: set<Name>)
      requires k <= n <= |names| && AllFound(names, files)
      requires !Migrated(db, names, k, files, broken).1
      ensures Migrated(db, names, n, files, broken) == Migrated(db, names, k, files, broken)
      decreases n
    {
      if k < n {
        StoppedStaysStopped(db, names, k, n - 1, files, broken);
      }
    }
  }

  // ---- what one run does ------------------------------------------------------------------------

  /** The names applied are the first so many of the sorted names, in that order, and the schema is
      what running their files in that order gives. */
  ghost predicate UpToDate(db: Db, names: seq<Name>, files: map<Name, Body>)
    requires AllFound(names, files)
  {
    && |db.applied| <= |names|
    && db.applied == names[..|db.applied|]
    && db.schema == Bodies(names, files)[..|db.applied|]
  }

  lemma {:induction false} RunExtends(db: Db, names: seq<Name>, k: nat, files: map<Name, Body>, broken: set<Name>)
    requires k <= |names| && Sorted(names) && AllFound(names, files) && UpToDate(db, names, files)
    ensures var (d, ok) := Migrated(db, names, k, files, broken);
            && UpToDate(d, names, files)
            && |db.applied| <= |d.applied|
            && (ok ==> |d.applied| == if |db.applied| > k then |db.applied| else k)
            && (ok <==> forall i :: |db.applied| <= i < k ==> names[i] !in broken)
  {
    if k > 0 {
      RunExtends(db, names, k - 1, files, broken);
      NextFileExtends(Migrated(db, names, k - 1, files, broken).0, names, k - 1, files);
    }
  }

  /** Of an orderly database: the next name is recorded exactly if that many are, and if it is the next
      to come, recording it keeps the order. */
  lemma NextFileExtends(d: Db, names: seq<Name>, k: nat, files: map<Name, Body>)
    requires k < |names| && Sorted(names) && AllFound(names, files) && UpToDate(d, names, files)
    ensures names[k] in d.applied <==> k < |d.applied|
    ensures |d.applied| == k ==> UpToDate(Db(d.applied + [names[k]], d.schema + [files[names[k]]]), names, files)
  {
    if k < |d.applied| {
      assert d.applied[k] == names[k];
    }
  }

  /** After a run the applied names are a prefix of the sorted names, in order, exactly if they were
      before it: a run can neither repair nor break the order. */
  lemma PrefixIffItWas(db: Db, names: seq<Name>, files: map<Name, Body>, broken: set<Name>)
    requires Sorted(names) && AllFound(names, files) && |db.schema| == |db.applied|
    ensures UpToDate(MigrateAll(db, names, files, broken).0, names, files) <==> UpToDate(db, names, files)
  {
    if UpToDate(db, names, files) {
      RunExtends(db, names, |names|, files, broken);
    } else {
      RunOnlyAppends(db, names, |names|, files, broken);
    }
  }

  lemma {:induction false} RunOnlyAppends(db: Db, names: seq<Name>, k: nat, files: map<Name, Body>, broken: set<Name>)
    requires k <= |names| && AllFound(names, files)
    ensures db.applied <= Migrated(db, names, k, files, broken).0.applied
    ensures db.schema <= Migrated(db, names, k, files, broken).0.schema
    ensures |Migrated(db, names, k, files, broken).0.schema| - |db.schema|
         == |Migrated(db, names, k, files, broken).0.applied| - |db.applied|
  {
    if k > 0 {
      RunOnlyAppends(db, names, k - 1, files, broken);
    }
  }

  /** A file whose name sorts before one already applied is run out of order. */
  lemma LateNameRunsOutOfOrder(files: map<Name, Body>)
    requires files.Keys == {1, 2, 3}
    ensures var db := MigrateAll(Db([], []), [1, 3], files, {}).0;
            && db.applied == [1, 3]
            && MigrateAll(db, [1, 2, 3], files, {}) == (Db([1, 3, 2], [files[1], files[3], files[2]]), true)
  {
    var names, late := [1, 3], [1, 2, 3];
    var db := Db([1, 3], [files[1], files[3]]);
    assert [] + [1] == [1] && [] + [files[1]] == [files[1]];
    assert [1] + [3] == [1, 3] && [files[1]] + [files[3]] == [files[1], files[3]];
    assert [1, 3] + [2] == [1, 3, 2] && [files[1], files[3]] + [files[2]] == [files[1], files[3], files[2]];
    assert Migrated(Db([], []), names, 0, files, {}) == (Db([], []), true);
    assert Migrated(Db([], []), names, 1, files, {}) == (Db([1], [files[1]]), true);
    assert Migrated(Db([], []), names, 2, files, {}) == (db, true);
    assert Migrated(db, late, 1, files, {}) == (db, true);
    assert Migrated(db, late, 2, files, {}) == (Db([1, 3, 2], [files[1], files[3], files[2]]), true);
  }

  // ---- releases that add files --------------------------------------------------------------------

  /** New names all sort after the old ones exactly if the old sorted list is a prefix of the new. */
  lemma SortingLastIsPrefix(was: seq<Name>, now: seq<Name>)
    requires Sorted(was) && Sorted(now) && forall x :: x in was ==> x in now
    ensures was <= now <==> forall x, y :: x in was && y in now && y !in was ==> x < y
  {
    if was <= now {
      forall x, y | x in was && y in now && y !in was
        ensures x < y
      {
        var i :| 0 <= i < |was| && was[i] == x;
        var j :| 0 <= j < |now| && now[j] == y;
        assert now[i] == x;
        assert forall m :: 0 <= m < |was| ==> now[m] == was[m];
      }
    } else if forall x, y :: x in was && y in now && y !in was ==> x < y {
      SameStart(was, now, |was|);
    }
  }

  lemma {:induction false} SameStart(was: seq<Name>, now: seq<Name>, n: nat)
    requires Sorted(was) && Sorted(now) && n <= |was| && forall x :: x in was ==> x in now
    requires forall x, y :: x in was && y in now && y !in was ==> x < y
    ensures n <= |now| && forall i :: 0 <= i < n ==> was[i] == now[i]
  {
    if n > 0 {
      SameStart(was, now, n - 1);
      var p := n - 1;
      var x := was[p];
      assert x in now;
      var j :| 0 <= j < |now| && now[j] == x;
      assert forall m :: 0 <= m < p ==> now[m] == was[m] < x;
      assert p <= j;
      var y := now[p];
      assert y <= x;
      assert y in was;
      var i :| 0 <= i < |was| && was[i] == y;
      assert forall m :: 0 <= m < p ==> was[m] == now[m] < y;
      assert p <= i;
    }
  }

  /** A release on top of a complete one ends in name order, failures or not, exactly if all its new
      names sort after the old ones. */
  lemma InOrderIffNewNamesSortLast(was: seq<Name>, now: seq<Name>, files: map<Name, Body>, broken: set<Name>)
    requires Sorted(was) && Sorted(now) && AllFound(was, files) && AllFound(now, files)
    requires forall x :: x in was ==> x in now
    ensures UpToDate(MigrateAll(Db(was, Bodies(was, files)), now, files, broken).0, now, files)
       <==> forall x, y :: x in was && y in now && y !in was ==> x < y
  {
    SortingLastIsPrefix(was, now);
    var db := Db(was, Bodies(was, files));
    PrefixIffItWas(db, now, files, broken);
    assert was <= now ==> db.schema == Bodies(now, files)[..|was|];
  }

  /** A run of the migrator: the files that release shipped, by how many of all the names ever
      there were, and those that failed this time. */
  datatype Release = Release(shipped: nat, broken: set<Name>)

  function RunAll(all: seq<Name>, files: map<Name, Body>, runs: seq<Release>): Db
    requires AllFound(all, files)
    requires forall i :: 0 <= i < |runs| ==> runs[i].shipped <= |all|
  {
    if runs == [] then Db([], [])
    else
      var r := runs[|runs| - 1];
      MigrateAll(RunAll(all, files, runs[..|runs| - 1]), all[..r.shipped], files, r.broken).0
  }

  /** Over any sequence of runs stopping at any failing files, new names always sorting last: the
      applied names are a prefix of the sorted names and the schema is the in-order result of
      exactly those files, each run once. */
  lemma {:induction false} EveryRunKeepsThePrefix(all: seq<Name>, files: map<Name, Body>, runs: seq<Release>)
    requires Sorted(all) && AllFound(all, files)
    requires forall i :: 0 <= i < |runs| ==> runs[i].shipped <= |all|
    requires forall i, j :: 0 <= i < j < |runs| ==> runs[i].shipped <= runs[j].shipped
    ensures UpToDate(RunAll(all, files, runs), all, files)
    ensures runs != [] ==> |RunAll(all, files, runs).applied| <= runs[|runs| - 1].shipped
    ensures runs == [] ==> RunAll(all, files, runs) == Db([], [])
  {
    if runs != [] {
      var before, r := runs[..|runs| - 1], runs[|runs| - 1];
      EveryRunKeepsThePrefix(all, files, before);
      assert before != [] ==> before[|before| - 1].shipped <= r.shipped;
      var db, names := RunAll(all, files, before), all[..r.shipped];
      ShorterList(db, all, r.shipped, files);
      RunExtends(db, names, |names|, files, r.broken);
      ShorterList(MigrateAll(db, names, files, r.broken).0, all, r.shipped, files);
    }
  }

  lemma ShorterList(db: Db, all: seq<Name>, n: nat, files: map<Name, Body>)
    requires AllFound(all, files) && n <= |all| && |db.applied| <= n
    ensures UpToDate(db, all, files) <==> UpToDate(db, all[..n], files)
  {
    assert all[..n][..|db.applied|] == all[..|db.applied|];
    assert Bodies(all[..n], files)[..|db.applied|] == Bodies(all, files)[..|db.applied|];
  }

  /** However often it was interrupted before, one run with nothing broken ends exactly where an
      uninterrupted run on an empty database ends, and the run after that changes nothing. */
  lemma ResumingEqualsStartingOver(all: seq<Name>, files: map<Name, Body>, runs: seq<Release>, broken: set<Name>)
    requires Sorted(all) && AllFound(all, files)
    requires forall i :: 0 <= i < |runs| ==> runs[i].shipped <= |all|
    requires forall i, j :: 0 <= i < j < |runs| ==> runs[i].shipped <= runs[j].shipped
    ensures var db := MigrateAll(RunAll(all, files, runs), all, files, {}).0;
            && db == Db(all, Bodies(all, files))
            && db == MigrateAll(Db([], []), all, files, {}).0
            && MigrateAll(db, all, files, broken) == (db, true)
  {
    EveryRunKeepsThePrefix(all, files, runs);
    RunExtends(RunAll(all, files, runs), all, |all|, files, {});
    RunExtends(Db([], []), all, |all|, files, {});
    var db := Db(all, Bodies(all, files));
    RunExtends(db, all, |all|, files, broken);
  }

  // ---- several migrators at once ---------------------------------------------------------------------

  type Tid = nat

  /** A migrator in the middle of its loop, with what it read before the loop. */
  datatype Proc = Looping(shipped: nat, next: nat, done: seq<Name>) | Stopped

  datatype Sys = Sys(db: Db, procs: seq<Proc>)

  datatype Action = StartUp(shipped: nat) | Advance(tid: Tid, fails: bool)

  function Next(s: Sys, a: Action, all: seq<Name>, files: map<Name, Body>): Sys
    requires AllFound(all, files)
  {
    match a
    case StartUp(shipped) => if shipped <= |all| then s.(procs := s.procs + [Looping(shipped, 0, s.db.applied)]) else s
    case Advance(t, fails) =>
      if t < |s.procs| && s.procs[t].Looping? && s.procs[t].next < s.procs[t].shipped && s.procs[t].next < |all| then
        var p := s.procs[t];
        var name := all[p.next];
        if name in p.done then s.(procs := s.procs[t := p.(next := p.next + 1)])
        else if fails || name in s.db.applied then s.(procs := s.procs[t := Stopped])
        else Sys(Db(s.db.applied + [name], s.db.schema + [files[name]]), s.procs[t := p.(next := p.next + 1)])
      else s
  }

  function Schedule(all: seq<Name>, files: map<Name, Body>, actions: seq<Action>): Sys
    requires AllFound(all, files)
  {
    if actions == [] then Sys(Db([], []), [])
    else Next(Schedule(all, files, actions[..|actions| - 1]), actions[|actions| - 1], all, files)
  }

  /** A migrator has seen applied everything it has passed. */
  ghost predicate Behind(p: Proc, db: Db) {
    p.Looping? ==> p.next <= |db.applied| && p.done <= db.applied
  }

  /** Migrators of any releases, interleaved at their transactions and failing at will, still apply
      every file once and in name order: the primary key stops whoever comes second. */
  lemma {:induction false} ConcurrentRunsKeepThePrefix(all: seq<Name>, files: map<Name, Body>, actions: seq<Action>)
    requires Sorted(all) && AllFound(all, files)
    ensures var s := Schedule(all, files, actions);
            && UpToDate(s.db, all, files)
            && forall t :: 0 <= t < |s.procs| ==> Behind(s.procs[t], s.db)
  {
    if actions != [] {
      var before, a := actions[..|actions| - 1], actions[|actions| - 1];
      ConcurrentRunsKeepThePrefix(all, files, before);
      var s := Schedule(all, files, before);
      if a.Advance? && a.tid < |s.procs| && s.procs[a.tid].Looping? && s.procs[a.tid].next < |all| {
        var p := s.procs[a.tid];
        assert Behind(p, s.db);
        if p.next < |s.db.applied| {
          assert s.db.applied[p.next] == all[p.next];
        }
        if all[p.next] in p.done {
          var i :| 0 <= i < |p.done| && p.done[i] == all[p.next];
          assert s.db.applied[i] == all[i];
        }
      }
    }
  }
}
