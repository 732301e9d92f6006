/**
  Overlapping checkpoint transactions over a fixed set of runs. A transaction in flight holds its
  run's row; it may wait for the window's row, it reads the committed runs only when it has that row,
  and nothing it wrote is visible before it commits.
*/
module CheckpointInterleaving {
  import opened Contracts
  import opened CheckpointStore
  import Names

  /** Its own rows written; the window row locked; ready to commit with this write to the window. */
  datatype Stage = Wrote | Locked | Ready(write: Option<WindowStatus>)

  datatype Txn = Txn(attempt: nat, op: Op, stage: Stage)

  datatype State = State(db: Db, txns: map<Id, Txn>)

  datatype Event =
    | Start(run: Id, attempt: nat, op: Op)
    | ReadRunning(run: Id)
    | LockWindow(run: Id)
    | Refresh(run: Id)
    | Commit(run: Id)
    | Abort(run: Id)
    | Toggle(enabled: bool)

  predicate LocksSite(op: Op) {
    op == OpBegin || op == OpSkip
  }

  predicate SiteFree(s: State) {
    forall q :: q in s.txns ==> !LocksSite(s.txns[q].op)
  }

  predicate HoldsWindow(txn: Txn) {
    txn.stage.Locked? || (txn.stage.Ready? && txn.stage.write.Some?)
  }

  predicate WindowFree(s: State, w: Id) {
    forall q :: q in s.txns && q in s.db.runs && s.db.runs[q].window == w ==> !HoldsWindow(s.txns[q])
  }

  predicate InFlight(s: State, r: Id) {
    r in s.txns && r in s.db.runs
  }

  /** An unchanged window status is not written, so a start that reads RUNNING needs no window row. */
  predicate NeedsNoWrite(db: Db, w: Id) {
    w !in db.windows || db.windows[w] == WindowRunning
  }

  predicate Enabled(s: State, e: Event) {
    match e
    case Start(r, n, op) => r !in s.txns && Admits(s.db, r, n, op) && (LocksSite(op) ==> SiteFree(s))
    case ReadRunning(r) =>
      InFlight(s, r) && s.txns[r].op == OpBegin && s.txns[r].stage == Wrote && NeedsNoWrite(s.db, s.db.runs[r].window)
    case LockWindow(r) => InFlight(s, r) && s.txns[r].stage == Wrote && WindowFree(s, s.db.runs[r].window)
    case Refresh(r) => InFlight(s, r) && s.txns[r].stage == Locked
    case Commit(r) => InFlight(s, r) && s.txns[r].stage.Ready?
    case Abort(r) => InFlight(s, r)
    case Toggle(_) => SiteFree(s)
  }

  function Next(s: State, e: Event): State
    requires Enabled(s, e)
  {
    match e
    case Start(r, n, op) => s.(txns := s.txns[r := Txn(n, op, if op == OpRetry then Ready(None) else Wrote)])
    case ReadRunning(r) => s.(txns := s.txns[r := s.txns[r].(stage := Ready(None))])
    case LockWindow(r) => s.(txns := s.txns[r := s.txns[r].(stage := Locked)])
    case Refresh(r) =>
      s.(txns := s.txns[r := s.txns[r].(stage := Ready(WindowWrite(s.db.runs, r, s.txns[r].attempt, s.txns[r].op)))])
    case Commit(r) =>
      State(Written(s.db, r, s.txns[r].attempt, s.txns[r].op, s.txns[r].stage.write), s.txns - {r})
    case Abort(r) => s.(txns := s.txns - {r})
    case Toggle(enabled) => s.(db := s.db.(on := enabled))
  }

  predicate Allowed(s: State, es: seq<Event>)
    decreases |es|, 0
  {
    es == [] || (Allowed(s, es[..|es| - 1]) && Enabled(StateAfter(s, es[..|es| - 1]), es[|es| - 1]))
  }

  function StateAfter(s: State, es: seq<Event>): State
    requires Allowed(s, es)
    decreases |es|, 1
  {
    if es == [] then s else Next(StateAfter(s, es[..|es| - 1]), es[|es| - 1])
  }

  /** Materialized and queued, nothing attempted. */
  predicate Initial(s: State) {
    && s.txns == map[]
    && s.db.attempts == map[]
    && s.db.jobs == {}
    && (forall r :: r in s.db.runs ==> s.db.runs[r].status == PendingRun && s.db.runs[r].limitation == NoLimitation)
    && (forall w :: w in s.db.windows ==> s.db.windows[w] == WindowScheduled)
  }

  // ---------------------------------------------------------------- invariants

  /** What the row locks guard: the check made at the start still holds, and the stages fit the operation. */
  predicate Guarded(s: State) {
    forall r :: r in s.txns ==>
      && Admits(s.db, r, s.txns[r].attempt, s.txns[r].op)
      && (Finalizes(s.txns[r].op) && s.txns[r].stage.Ready? ==> s.txns[r].stage.write.Some?)
      && (s.txns[r].op == OpRetry ==> s.txns[r].stage == Ready(None))
  }

  ghost predicate OneHolder(s: State) {
    forall q, r :: InFlight(s, q) && InFlight(s, r) && q != r && s.db.runs[q].window == s.db.runs[r].window ==>
      !(HoldsWindow(s.txns[q]) && HoldsWindow(s.txns[r]))
  }

  predicate Agrees(runs: map<Id, Run>, w: Id, v: WindowStatus) {
    RunsIn(runs, w) != {} ==> if AllFinal(runs, w) then v == Aggregate(runs, w) else !FinalWindow(v)
  }

  predicate WindowsAgree(db: Db) {
    forall w :: w in db.windows ==> Agrees(db.runs, w, db.windows[w])
  }

  /** What a transaction is about to write agrees with the runs as they will be when it has committed. */
  predicate WritesAgree(s: State) {
    forall r :: r in s.txns && r in s.db.runs && s.txns[r].stage.Ready? && s.txns[r].stage.write.Some? ==>
      Agrees(RunsAfter(s, r), s.db.runs[r].window, s.txns[r].stage.write.value)
  }

  function RunsAfter(s: State, r: Id): map<Id, Run>
    requires InFlight(s, r)
  {
    s.db.runs[r := RunAfter(s.db.runs[r], s.txns[r].attempt, s.txns[r].op)]
  }

  /** How a run came to its final status, and whether that inserted a derivation job. */
  predicate RowAgrees(db: Db, r: Id)
    requires r in db.runs
  {
    var run := db.runs[r];
    && (Final(run.status) <==> run.limitation != NoLimitation)
    && (run.status == Skipped <==> run.limitation == SkippedLimitation)
    && (run.limitation == StorageLimitation ==> run.status == BrowserError)
    && (run.status == Skipped ==> run.kind == ScheduledKind)
    && (r in db.jobs <==> run.limitation == EvidenceLimitation && run.kind != IncidentKind)
  }

  predicate RowsAgree(db: Db) {
    && db.jobs <= db.runs.Keys
    && forall r :: r in db.runs ==> RowAgrees(db, r)
  }

  ghost predicate Inv(s: State) {
    Guarded(s) && OneHolder(s) && WindowsAgree(s.db) && WritesAgree(s) && RowsAgree(s.db)
  }

  // ---------------------------------------------------------------- window lemmas

  lemma AgreesAfterOther(runs: map<Id, Run>, q: Id, run: Run, w: Id, v: WindowStatus)
    requires q in runs && run.window == runs[q].window
    requires runs[q].window == w ==> !Final(runs[q].status) && !Final(run.status)
    requires Agrees(runs, w, v)
    ensures Agrees(runs[q := run], w, v)
  {
    var runs' := runs[q := run];
    assert RunsIn(runs', w) == RunsIn(runs, w);
    if runs[q].window == w {
      assert q in RunsIn(runs, w) && q in RunsIn(runs', w);
      assert !AllFinal(runs, w) && !AllFinal(runs', w);
    } else {
      assert WithStatus(runs', w, PendingRun) == WithStatus(runs, w, PendingRun);
      assert WithStatus(runs', w, BrowserError) == WithStatus(runs, w, BrowserError);
      assert AllFinal(runs', w) <==> AllFinal(runs, w);
    }
  }

  lemma SwapUpdates(runs: map<Id, Run>, q: Id, a: Run, r: Id, b: Run)
    requires q != r
    ensures runs[q := a][r := b] == runs[r := b][q := a]
  {
  }

  lemma AggregateAgrees(runs: map<Id, Run>, w: Id)
    ensures Agrees(runs, w, Aggregate(runs, w))
  {
  }

  lemma OpenRunKeepsWindowOpen(runs: map<Id, Run>, r: Id, v: WindowStatus)
    requires r in runs && !Final(runs[r].status) && !FinalWindow(v)
    ensures Agrees(runs, runs[r].window, v)
  {
    assert r in RunsIn(runs, runs[r].window);
  }

  // ---------------------------------------------------------------- preservation

  lemma InitialHolds(s: State)
    requires Initial(s)
    ensures Inv(s)
  {
    forall w | w in s.db.windows
      ensures Agrees(s.db.runs, w, s.db.windows[w])
    {
      if RunsIn(s.db.runs, w) != {} {
        var r := Names.Member(RunsIn(s.db.runs, w));
        assert !Final(s.db.runs[r].status);
      }
    }
  }

  lemma StageKeeps(s: State, e: Event)
    requires Inv(s) && Enabled(s, e) && (e.Start? || e.ReadRunning? || e.LockWindow? || e.Abort?)
    ensures Inv(Next(s, e))
  {
    hide Agrees, RowAgrees, Admits, Final;
  }

  lemma ToggleKeeps(s: State, e: Event)
    requires Inv(s) && Enabled(s, e) && e.Toggle?
    ensures Inv(Next(s, e))
  {
    hide Agrees, RunAfter;
    var s' := Next(s, e);
    assert forall r :: r in s.txns ==> !LocksSite(s.txns[r].op);
    assert RowsAgree(s'.db) by {
      assert forall r :: r in s.db.runs ==> RowAgrees(s.db, r);
    }
  }

  lemma RefreshKeeps(s: State, e: Event)
    requires Inv(s) && Enabled(s, e) && e.Refresh?
    ensures Inv(Next(s, e))
  {
    var s', r := Next(s, e), e.run;
    var write := s'.txns[r].stage.write;
    var runs' := RunsAfter(s, r);
    assert Admits(s.db, r, s.txns[r].attempt, s.txns[r].op);
    assert write.Some? ==> Agrees(runs', s.db.runs[r].window, write.value) by {
      if s.txns[r].op == OpBegin {
        OpenRunKeepsWindowOpen(runs', r, WindowRunning);
      } else {
        AggregateAgrees(runs', s.db.runs[r].window);
      }
    }
    hide Agrees, RowAgrees, Admits, Final, RunAfter, Aggregate;
  }

  lemma CommittedWindows(s: State, r: Id)
    requires Inv(s) && Enabled(s, Commit(r))
    ensures WindowsAgree(Next(s, Commit(r)).db)
  {
    var s' := Next(s, Commit(r));
    var txn, run := s.txns[r], s.db.runs[r];
    assert Admits(s.db, r, txn.attempt, txn.op);
    forall w | w in s'.db.windows
      ensures Agrees(s'.db.runs, w, s'.db.windows[w])
    {
      if txn.stage.write.Some? && w == run.window {
        assert Agrees(RunsAfter(s, r), w, txn.stage.write.value);
      } else {
        AgreesAfterOther(s.db.runs, r, RunAfter(run, txn.attempt, txn.op), w, s.db.windows[w]);
      }
    }
  }

  lemma CommittedWrites(s: State, r: Id)
    requires Inv(s) && Enabled(s, Commit(r))
    ensures WritesAgree(Next(s, Commit(r)))
  {
    var s' := Next(s, Commit(r));
    var txn, run := s.txns[r], s.db.runs[r];
    var run' := RunAfter(run, txn.attempt, txn.op);
    assert Admits(s.db, r, txn.attempt, txn.op);
    forall q | q in s'.txns && q in s'.db.runs && s'.txns[q].stage.Ready? && s'.txns[q].stage.write.Some?
      ensures Agrees(RunsAfter(s', q), s'.db.runs[q].window, s'.txns[q].stage.write.value)
    {
      assert HoldsWindow(s.txns[q]);
      var q' := RunAfter(s.db.runs[q], s.txns[q].attempt, s.txns[q].op);
      SwapUpdates(s.db.runs, r, run', q, q');
      AgreesAfterOther(RunsAfter(s, q), r, run', s.db.runs[q].window, s.txns[q].stage.write.value);
    }
  }

  lemma CommittedRest(s: State, r: Id)
    requires Inv(s) && Enabled(s, Commit(r))
    ensures var s' := Next(s, Commit(r)); Guarded(s') && OneHolder(s') && RowsAgree(s'.db)
  {
    hide Agrees, Aggregate;
    var s' := Next(s, Commit(r));
    assert Admits(s.db, r, s.txns[r].attempt, s.txns[r].op);
    assert RowAgrees(s.db, r) && RowAgrees(s'.db, r);
    forall q | q in s'.db.runs
      ensures RowAgrees(s'.db, q)
    {
      assert RowAgrees(s.db, q);
    }
  }

  lemma Keeps(s: State, e: Event)
    requires Inv(s) && Enabled(s, e)
    ensures Inv(Next(s, e))
  {
    hide Inv;
    match e
    case Toggle(_) => ToggleKeeps(s, e);
    case Refresh(_) => RefreshKeeps(s, e);
    case Commit(r) => CommitKeeps(s, r);
    case _ => StageKeeps(s, e);
  }

  lemma CommitKeeps(s: State, r: Id)
    requires Inv(s) && Enabled(s, Commit(r))
    ensures Inv(Next(s, Commit(r)))
  {
    CommittedWindows(s, r);
    CommittedWrites(s, r);
    CommittedRest(s, r);
    hide WindowsAgree, WritesAgree, Guarded, OneHolder, RowsAgree;
  }
}
