/** Safety of every schedule of overlapping checkpoint transactions. */
module CheckpointTheorems {
  import opened Contracts
  import opened CheckpointStore
  import opened CheckpointInterleaving
  import Names

  /** Which runs and windows there are, and what each run is, never changes. */
  predicate SameMembers(a: Db, b: Db) {
    && a.runs.Keys == b.runs.Keys
    && a.windows.Keys == b.windows.Keys
    && forall r :: r in a.runs ==> b.runs[r].window == a.runs[r].window && b.runs[r].kind == a.runs[r].kind
  }

  lemma StepKeepsMembers(s: State, e: Event)
    requires Enabled(s, e)
    ensures SameMembers(s.db, Next(s, e).db)
  {
  }

  lemma {:induction false} Reached(s: State, es: seq<Event>)
    requires Initial(s) && Allowed(s, es)
    ensures Inv(StateAfter(s, es)) && SameMembers(s.db, StateAfter(s, es).db)
  {
    hide Inv, Initial, Enabled, Next;
    if es == [] {
      InitialHolds(s);
    } else {
      var before := es[..|es| - 1];
      Reached(s, before);
      Keeps(StateAfter(s, before), es[|es| - 1]);
      StepKeepsMembers(StateAfter(s, before), es[|es| - 1]);
    }
  }

  // ---------------------------------------------------------------- window completion

  /**
    After every schedule of begins, retries, skips and ends, however they overlap, a window is final
    exactly when all its runs are, and its status is fixed by which of them ended in BROWSER_ERROR.
  */
  lemma NoLostWindowCompletion(s: State, es: seq<Event>, w: Id)
    requires Initial(s) && Allowed(s, es) && w in s.db.windows && RunsIn(s.db.runs, w) != {}
    ensures SameMembers(s.db, StateAfter(s, es).db)
    ensures var db, members := StateAfter(s, es).db, RunsIn(s.db.runs, w);
      && (FinalWindow(db.windows[w]) <==> forall r :: r in members ==> Final(db.runs[r].status))
      && (FinalWindow(db.windows[w]) ==>
            && (db.windows[w] == WindowFailed <==> forall r :: r in members ==> db.runs[r].status == BrowserError)
            && (db.windows[w] == WindowComplete <==> forall r :: r in members ==> db.runs[r].status != BrowserError))
  {
    Reached(s, es);
    var db := StateAfter(s, es).db;
    assert Agrees(db.runs, w, db.windows[w]);
    SameMembersInside(s.db, db, w);
    if AllFinal(db.runs, w) {
      FinalValue(db.runs, w);
    }
  }

  lemma SameMembersInside(a: Db, b: Db, w: Id)
    requires SameMembers(a, b)
    ensures RunsIn(a.runs, w) == RunsIn(b.runs, w)
  {
    assert forall r :: r in a.runs.Keys <==> r in b.runs.Keys;
    forall r | r in RunsIn(a.runs, w)
      ensures r in RunsIn(b.runs, w)
    {
      assert r in a.runs.Keys;
    }
    forall r | r in RunsIn(b.runs, w)
      ensures r in RunsIn(a.runs, w)
    {
      assert r in b.runs.Keys;
    }
    Names.SubsetByMembers(RunsIn(a.runs, w), RunsIn(b.runs, w));
    Names.SubsetByMembers(RunsIn(b.runs, w), RunsIn(a.runs, w));
  }

  lemma FinalValue(runs: map<Id, Run>, w: Id)
    requires RunsIn(runs, w) != {} && AllFinal(runs, w)
    ensures FinalWindow(Aggregate(runs, w))
    ensures Aggregate(runs, w) == WindowFailed <==> forall r :: r in RunsIn(runs, w) ==> runs[r].status == BrowserError
    ensures Aggregate(runs, w) == WindowComplete <==> forall r :: r in RunsIn(runs, w) ==> runs[r].status != BrowserError
  {
    var members, failed := RunsIn(runs, w), WithStatus(runs, w, BrowserError);
    assert failed <= members;
    assert forall r :: r in members ==> (runs[r].status == BrowserError <==> r in failed);
    if forall r :: r in members ==> runs[r].status == BrowserError {
      Names.SubsetByMembers(members, failed);
    }
    var m := Names.Member(members);
    assert m in members;
    if failed != {} {
      var f := Names.Member(failed);
      assert f in members && runs[f].status == BrowserError;
    }
  }

  // ---------------------------------------------------------------- final runs and derivation jobs

  lemma FinalRunIsKept(s: State, e: Event, r: Id)
    requires Inv(s) && Enabled(s, e) && r in s.db.runs
    ensures var s' := Next(s, e);
      && r in s'.db.runs
      && (Final(s.db.runs[r].status) ==> s'.db.runs[r] == s.db.runs[r] && (r in s'.db.jobs <==> r in s.db.jobs))
  {
  }

  lemma {:induction false} PrefixAllowed(s: State, es: seq<Event>, k: nat)
    requires Allowed(s, es) && k <= |es|
    ensures Allowed(s, es[..k])
    decreases |es|
  {
    if k == |es| {
      assert es[..k] == es;
    } else {
      var before := es[..|es| - 1];
      PrefixAllowed(s, before, k);
      assert before[..k] == es[..k];
    }
  }

  /** Once final, a run's row and its job never change again, whatever stale or repeated attempt follows. */
  lemma {:induction false} FinalRunsNeverChange(s: State, es: seq<Event>, k: nat, r: Id)
    requires Initial(s) && Allowed(s, es) && k <= |es| && r in s.db.runs
    ensures Allowed(s, es[..k]) && r in StateAfter(s, es[..k]).db.runs && r in StateAfter(s, es).db.runs
    ensures var earlier, later := StateAfter(s, es[..k]).db, StateAfter(s, es).db;
      Final(earlier.runs[r].status) ==>
        later.runs[r] == earlier.runs[r] && (r in later.jobs <==> r in earlier.jobs)
    decreases |es|
  {
    hide Inv, Initial, Enabled, Next;
    PrefixAllowed(s, es, k);
    Reached(s, es[..k]);
    if k == |es| {
      assert es[..k] == es;
    } else {
      var before := es[..|es| - 1];
      FinalRunsNeverChange(s, before, k, r);
      assert before[..k] == es[..k];
      Reached(s, before);
      FinalRunIsKept(StateAfter(s, before), es[|es| - 1], r);
    }
  }

  /** How many committed transactions of the schedule gave the run a final status. */
  function Finalizations(s: State, es: seq<Event>, r: Id): nat
    requires Allowed(s, es)
  {
    if es == [] then 0
    else
      var before := es[..|es| - 1];
      Finalizations(s, before, r) +
      if es[|es| - 1] == Commit(r) && Finalizes(StateAfter(s, before).txns[r].op) then 1 else 0
  }

  /** How many committed transactions of the schedule inserted a derivation job for the run. */
  function Insertions(s: State, es: seq<Event>, r: Id): nat
    requires Allowed(s, es)
  {
    if es == [] then 0
    else
      var before := es[..|es| - 1];
      Insertions(s, before, r) +
      if es[|es| - 1] == Commit(r) && Enqueues(StateAfter(s, before).db.runs[r], StateAfter(s, before).txns[r].op) then 1 else 0
  }

  lemma CommitFinalizesOpenRun(s: State, e: Event, r: Id)
    requires Inv(s) && Enabled(s, e) && r in s.db.runs
    ensures var s' := Next(s, e);
      && (e == Commit(r) && Finalizes(s.txns[r].op) ==> !Final(s.db.runs[r].status) && Final(s'.db.runs[r].status))
      && (!(e == Commit(r) && Finalizes(s.txns[r].op)) ==> (Final(s'.db.runs[r].status) <==> Final(s.db.runs[r].status)))
      && (e == Commit(r) && Enqueues(s.db.runs[r], s.txns[r].op) ==> r !in s.db.jobs && r in s'.db.jobs)
      && (!(e == Commit(r) && Enqueues(s.db.runs[r], s.txns[r].op)) ==> (r in s'.db.jobs <==> r in s.db.jobs))
  {
    if e == Commit(r) {
      assert RowAgrees(s.db, r);
    }
  }

  /** At most one transaction finalizes a run, and at most one inserts its derivation job. */
  lemma {:induction false} FinalizedAtMostOnce(s: State, es: seq<Event>, r: Id)
    requires Initial(s) && Allowed(s, es) && r in s.db.runs
    ensures r in StateAfter(s, es).db.runs
    ensures Finalizations(s, es, r) == if Final(StateAfter(s, es).db.runs[r].status) then 1 else 0
    ensures Insertions(s, es, r) == if r in StateAfter(s, es).db.jobs then 1 else 0
  {
    hide Inv, Enabled, Next;
    if es == [] {
    } else {
      var before := es[..|es| - 1];
      FinalizedAtMostOnce(s, before, r);
      Reached(s, before);
      StepKeepsMembers(StateAfter(s, before), es[|es| - 1]);
      CommitFinalizesOpenRun(StateAfter(s, before), es[|es| - 1], r);
    }
  }

  /** The attempt count of a run is the greatest attempt it has started; a skipped attempt does not count. */
  ghost predicate CountIsGreatest(db: Db) {
    forall r :: r in db.runs ==>
      && (db.runs[r].attemptCount > 0 ==> (r, db.runs[r].attemptCount) in db.attempts)
      && (forall n: nat :: (r, n) in db.attempts && db.attempts[(r, n)] != Skipped ==> n <= db.runs[r].attemptCount)
  }

  lemma CommitKeepsCount(s: State, e: Event)
    requires Inv(s) && Enabled(s, e) && CountIsGreatest(s.db)
    ensures CountIsGreatest(Next(s, e).db)
  {
    hide WindowsAgree, WritesAgree, OneHolder, RowsAgree, Aggregate;
    if e.Commit? {
      var r := e.run;
      assert Admits(s.db, r, s.txns[r].attempt, s.txns[r].op);
    }
  }

  lemma {:induction false} AttemptCountIsGreatest(s: State, es: seq<Event>)
    requires Initial(s) && Allowed(s, es) && forall r :: r in s.db.runs ==> s.db.runs[r].attemptCount == 0
    ensures CountIsGreatest(StateAfter(s, es).db)
  {
    if es != [] {
      var before := es[..|es| - 1];
      AttemptCountIsGreatest(s, before);
      Reached(s, before);
      hide Inv, Enabled, Next, CountIsGreatest;
      CommitKeepsCount(StateAfter(s, before), es[|es| - 1]);
    }
  }
}
