/** What commits leave behind over every schedule: final statuses, attempts, and windows nobody has touched. */
module CheckpointOutcomes {
  import opened Contracts
  import opened CheckpointStore
  import opened CheckpointInterleaving
  import opened CheckpointTheorems
  import CheckpointEffects

  // ---------------------------------------------------------------- one commit

  /** A commit leaves in the run and in its attempt what its operation stands for, and touches no other row. */
  lemma CommitLeaves(s: State, r: Id)
    requires Enabled(s, Commit(r))
    ensures var (db, db', txn) := (s.db, Next(s, Commit(r)).db, s.txns[r]);
      var run, n := db.runs[r], txn.attempt;
      match txn.op
      case OpBegin =>
        CheckpointEffects.Leaves(db, db', r, n,
          run.(status := RunningRun, attemptCount := if n > run.attemptCount then n else run.attemptCount), RunningRun, false)
      case OpSkip =>
        CheckpointEffects.Leaves(db, db', r, n, run.(status := Skipped, limitation := SkippedLimitation), Skipped, false)
      case OpRetry =>
        CheckpointEffects.Leaves(db, db', r, n, run.(status := PendingRun), BrowserError, false)
      case OpTerminal =>
        CheckpointEffects.Leaves(db, db', r, n, run.(status := BrowserError, limitation := StorageLimitation), BrowserError, false)
      case OpFinalize(status) =>
        CheckpointEffects.Leaves(db, db', r, n, run.(status := status, limitation := EvidenceLimitation), status,
          run.kind != IncidentKind)
  {
  }

  // ---------------------------------------------------------------- final statuses

  /** The status an operation that ends a run gives it. */
  predicate EndsWith(op: Op, status: RunStatus) {
    match op
    case OpSkip => status == Skipped
    case OpTerminal => status == BrowserError
    case OpFinalize(reported) => status == reported
    case _ => false
  }

  lemma EndedAttemptIsKept(s: State, e: Event, key: (Id, nat))
    requires Inv(s) && Enabled(s, e) && key in s.db.attempts && s.db.attempts[key] != RunningRun
    ensures key in Next(s, e).db.attempts && Next(s, e).db.attempts[key] == s.db.attempts[key]
  {
    hide WindowsAgree, WritesAgree, OneHolder, RowsAgree, Aggregate;
    if e.Commit? {
      assert Admits(s.db, e.run, s.txns[e.run].attempt, s.txns[e.run].op);
    }
  }

  /**
    Over every schedule, a run is final exactly when some transaction that ends it has committed; its
    status, and that of the attempt which ended it, are then still what that transaction stood for.
  */
  lemma {:induction false} FinalStatusIsThatOfTheEnding(s: State, es: seq<Event>, r: Id) returns (k: nat)
    requires Initial(s) && Allowed(s, es) && r in s.db.runs
    ensures k <= |es| && Allowed(s, es[..k])
    ensures r in StateAfter(s, es).db.runs
    ensures var db := StateAfter(s, es).db;
      if Final(db.runs[r].status) then
        && k < |es| && es[k] == Commit(r) && r in StateAfter(s, es[..k]).txns
        && var txn := StateAfter(s, es[..k]).txns[r];
           && EndsWith(txn.op, db.runs[r].status)
           && (r, txn.attempt) in db.attempts && db.attempts[(r, txn.attempt)] == db.runs[r].status
      else forall j :: 0 <= j < |es| && es[j] == Commit(r) && Allowed(s, es[..j]) && r in StateAfter(s, es[..j]).txns ==>
        forall status :: !EndsWith(StateAfter(s, es[..j]).txns[r].op, status)
  {
    hide Inv, Enabled, Next;
    if es == [] {
      k := 0;
    } else {
      var before, e := es[..|es| - 1], es[|es| - 1];
      var t := StateAfter(s, before);
      Reached(s, before);
      Reached(s, es);
      k := FinalStatusIsThatOfTheEnding(s, before, r);
      assert before[..k] == es[..k];
      LastStep(t, e, r);
      if Final(t.db.runs[r].status) {
        EndedAttemptIsKept(t, e, (r, StateAfter(s, es[..k]).txns[r].attempt)) by {
          assert StateAfter(s, es) == Next(t, e);
        }
      } else if Final(StateAfter(s, es).db.runs[r].status) {
        k := |before|;
        assert es[..k] == before;
      } else {
        k := 0;
        assert es[..0] == [];
        forall j | 0 <= j < |es| && es[j] == Commit(r) && Allowed(s, es[..j]) && r in StateAfter(s, es[..j]).txns
          ensures forall status :: !EndsWith(StateAfter(s, es[..j]).txns[r].op, status)
        {
          if j < |before| {
            assert before[..j] == es[..j] && before[j] == es[j];
          } else {
            assert es[..j] == before;
          }
        }
      }
    }
  }

  lemma LastStep(t: State, e: Event, r: Id)
    requires Inv(t) && Enabled(t, e) && r in t.db.runs
    ensures var t' := Next(t, e);
      && r in t'.db.runs
      && (Final(t.db.runs[r].status) ==> t'.db.runs[r] == t.db.runs[r])
      && (!Final(t.db.runs[r].status) && Final(t'.db.runs[r].status) ==>
            && e == Commit(r) && r in t.txns && EndsWith(t.txns[r].op, t'.db.runs[r].status)
            && (r, t.txns[r].attempt) in t'.db.attempts && t'.db.attempts[(r, t.txns[r].attempt)] == t'.db.runs[r].status)
      && (e == Commit(r) && !Final(t'.db.runs[r].status) ==> forall status :: !EndsWith(t.txns[r].op, status))
  {
    FinalRunIsKept(t, e, r);
    hide WindowsAgree, WritesAgree, OneHolder, RowsAgree, Aggregate;
    if e == Commit(r) {
      assert Admits(t.db, r, t.txns[r].attempt, t.txns[r].op);
      CommitLeaves(t, r);
    }
  }

  // ---------------------------------------------------------------- windows nobody has touched

  predicate Attempted(db: Db, w: Id) {
    exists key :: key in db.attempts && CheckpointEffects.Member(db.runs, w, key.0)
  }

  /** A window shows SCHEDULED exactly while none of its runs has an attempt. */
  predicate ScheduledUntilAttempted(db: Db) {
    forall w :: w in db.windows ==> (db.windows[w] == WindowScheduled <==> !Attempted(db, w))
  }

  /** No transaction is about to write SCHEDULED, nor to leave it in place. */
  ghost predicate NoneWritesScheduled(s: State) {
    forall r :: InFlight(s, r) && s.txns[r].stage.Ready? ==>
      match s.txns[r].stage.write
      case Some(v) => v != WindowScheduled
      case None => s.db.runs[r].window in s.db.windows ==> s.db.windows[s.db.runs[r].window] != WindowScheduled
  }

  lemma WriteIsNotScheduled(runs: map<Id, Run>, r: Id, n: nat, op: Op)
    requires r in runs && (op.OpFinalize? ==> EvidenceStatus(op.status))
    ensures WindowWrite(runs, r, n, op).Some? ==> WindowWrite(runs, r, n, op).value != WindowScheduled
  {
    var w, runs' := runs[r].window, runs[r := RunAfter(runs[r], n, op)];
    CheckpointEffects.AggregateIsWhatIsTrue(runs', w, WindowScheduled);
    assert CheckpointEffects.Member(runs', w, r);
    hide Aggregate;
  }

  lemma StepKeepsScheduled(s: State, e: Event)
    requires Inv(s) && Enabled(s, e) && NoneWritesScheduled(s) && ScheduledUntilAttempted(s.db)
    ensures NoneWritesScheduled(Next(s, e)) && ScheduledUntilAttempted(Next(s, e).db)
  {
    hide WindowsAgree, WritesAgree, OneHolder, RowsAgree, Aggregate;
    match e
    case Commit(r) => CommitKeepsScheduled(s, r);
    case Refresh(r) =>
      assert Admits(s.db, r, s.txns[r].attempt, s.txns[r].op);
      WriteIsNotScheduled(s.db.runs, r, s.txns[r].attempt, s.txns[r].op);
      hide WindowWrite, Attempted, ScheduledUntilAttempted, Admits;
    case Start(r, n, op) =>
      if op == OpRetry {
        assert CheckpointEffects.Member(s.db.runs, s.db.runs[r].window, r) && (r, n) in s.db.attempts;
        assert Attempted(s.db, s.db.runs[r].window);
      }
      hide Attempted;
    case _ =>
      hide Attempted, Admits;
  }

  lemma CommitKeepsScheduled(s: State, r: Id)
    requires Inv(s) && Enabled(s, Commit(r)) && NoneWritesScheduled(s) && ScheduledUntilAttempted(s.db)
    ensures NoneWritesScheduled(Next(s, Commit(r))) && ScheduledUntilAttempted(Next(s, Commit(r)).db)
  {
    hide WindowsAgree, WritesAgree, OneHolder, RowsAgree, Aggregate, Admits, Guarded;
    var db, db' := s.db, Next(s, Commit(r)).db;
    var w, n := db.runs[r].window, s.txns[r].attempt;
    forall v
      ensures Attempted(db', v) <==> Attempted(db, v) || v == w
    {
      AttemptAdded(db, db', r, n, v);
    }
    hide Attempted;
  }

  lemma AttemptAdded(db: Db, db': Db, r: Id, n: nat, w: Id)
    requires r in db.runs && db'.attempts.Keys == db.attempts.Keys + {(r, n)}
    requires db'.runs.Keys == db.runs.Keys && forall q :: q in db.runs ==> db'.runs[q].window == db.runs[q].window
    ensures Attempted(db', w) <==> Attempted(db, w) || w == db.runs[r].window
  {
    assert forall q :: q in db'.runs.Keys <==> q in db.runs.Keys;
    assert (r, n) in db'.attempts.Keys;
    if w == db.runs[r].window {
      assert CheckpointEffects.Member(db'.runs, w, r) && (r, n) in db'.attempts;
    }
    if Attempted(db, w) {
      var key :| key in db.attempts && CheckpointEffects.Member(db.runs, w, key.0);
      assert key in db'.attempts.Keys && CheckpointEffects.Member(db'.runs, w, key.0);
    }
    if Attempted(db', w) && w != db.runs[r].window {
      var key :| key in db'.attempts && CheckpointEffects.Member(db'.runs, w, key.0);
      assert key in db.attempts.Keys + {(r, n)} && CheckpointEffects.Member(db.runs, w, key.0);
    }
  }

  /** Over every schedule a window shows SCHEDULED exactly while none of its runs has an attempt, retries included. */
  lemma {:induction false} WindowIsScheduledUntilAnAttempt(s: State, es: seq<Event>)
    requires Initial(s) && Allowed(s, es)
    ensures NoneWritesScheduled(StateAfter(s, es)) && ScheduledUntilAttempted(StateAfter(s, es).db)
  {
    if es != [] {
      var before := es[..|es| - 1];
      Reached(s, before);
      hide Inv, Enabled, Next, NoneWritesScheduled, ScheduledUntilAttempted;
      WindowIsScheduledUntilAnAttempt(s, before);
      StepKeepsScheduled(StateAfter(s, before), es[|es| - 1]);
    }
  }
}
