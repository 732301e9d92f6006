/** The step that completes a window, the starts a disabled site refuses, and what stale attempts can do. */
module CheckpointCompletion {
  import opened Contracts
  import opened CheckpointStore
  import opened CheckpointInterleaving
  import opened CheckpointTheorems
  import Names

  /**
    A window becomes final only at the commit of its last open run, and that commit inserts a job
    exactly when the run ended with evidence and is not an incident run.
  */
  lemma CompletionStep(s: State, e: Event, w: Id)
    requires Inv(s) && Enabled(s, e) && w in s.db.windows && RunsIn(s.db.runs, w) != {}
    requires !FinalWindow(s.db.windows[w]) && FinalWindow(Next(s, e).db.windows[w])
    ensures e.Commit? && e.run in RunsIn(s.db.runs, w)
    ensures var r, s' := e.run, Next(s, e);
      && !Final(s.db.runs[r].status)
      && (forall q :: q in RunsIn(s.db.runs, w) ==> Final(s'.db.runs[q].status))
      && (forall q :: q in RunsIn(s.db.runs, w) && q != r ==> s'.db.runs[q] == s.db.runs[q])
      && r !in s.db.jobs
      && s'.db.jobs ==
         if s'.db.runs[r].limitation == EvidenceLimitation && s'.db.runs[r].kind != IncidentKind
         then s.db.jobs + {r} else s.db.jobs
  {
    var r, s' := e.run, Next(s, e);
    assert s.db.runs[r].window == w;
    var txn := s.txns[r];
    assert Admits(s.db, r, txn.attempt, txn.op);
    assert RowAgrees(s.db, r);
    assert Agrees(RunsAfter(s, r), w, txn.stage.write.value);
    assert r in RunsIn(s.db.runs, w);
    assert RunsAfter(s, r) == s'.db.runs;
    assert forall q :: q in RunsIn(s.db.runs, w) ==> q in RunsIn(s'.db.runs, w);
    assert r in RunsIn(s'.db.runs, w);
    assert AllFinal(s'.db.runs, w);
  }

  predicate AllScheduled(db: Db, w: Id) {
    forall r :: r in RunsIn(db.runs, w) ==> db.runs[r].kind == ScheduledKind
  }

  predicate NoneSkipped(db: Db, w: Id) {
    forall r :: r in RunsIn(db.runs, w) ==> db.runs[r].status != Skipped
  }

  lemma CompleteWasComplete(s: State, e: Event, w: Id)
    requires Inv(s) && Enabled(s, e) && w in s.db.windows && RunsIn(s.db.runs, w) != {}
    requires FinalWindow(s.db.windows[w]) && Inv(Next(s, e))
    requires Next(s, e).db.windows[w] == WindowComplete && NoneSkipped(Next(s, e).db, w)
    ensures s.db.windows[w] == WindowComplete && NoneSkipped(s.db, w)
  {
    var s' := Next(s, e);
    assert Agrees(s.db.runs, w, s.db.windows[w]);
    assert AllFinal(s.db.runs, w);
    forall r | r in RunsIn(s.db.runs, w)
      ensures r in RunsIn(s'.db.runs, w) && s'.db.runs[r] == s.db.runs[r]
    {
      FinalRunIsKept(s, e, r);
    }
    StepKeepsMembers(s, e);
    SameMembersInside(s.db, s'.db, w);
    assert Agrees(s'.db.runs, w, s'.db.windows[w]);
    FinalValue(s.db.runs, w);
    FinalValue(s'.db.runs, w);
  }

  /**
    If a window of scheduled runs ends COMPLETE with none of them skipped, then some run's job became
    visible in the very commit that completed the window, and not before.
  */
  lemma {:induction false} JobAppearsWithCompletion(s: State, es: seq<Event>, w: Id) returns (k: nat, r: Id)
    requires Initial(s) && Allowed(s, es) && w in s.db.windows && RunsIn(s.db.runs, w) != {}
    requires w in StateAfter(s, es).db.windows && StateAfter(s, es).db.windows[w] == WindowComplete
    requires AllScheduled(s.db, w) && NoneSkipped(StateAfter(s, es).db, w)
    ensures k < |es| && Allowed(s, es[..k]) && Allowed(s, es[..k + 1])
    ensures w in StateAfter(s, es[..k]).db.windows && w in StateAfter(s, es[..k + 1]).db.windows
    ensures !FinalWindow(StateAfter(s, es[..k]).db.windows[w]) && r !in StateAfter(s, es[..k]).db.jobs
    ensures StateAfter(s, es[..k + 1]).db.windows[w] == WindowComplete && r in StateAfter(s, es[..k + 1]).db.jobs
    ensures r in RunsIn(s.db.runs, w)
    decreases |es|
  {
    hide Inv, Enabled, Next, NoneSkipped, AllFinal;
    var before, e := es[..|es| - 1], es[|es| - 1];
    var t := StateAfter(s, before);
    Reached(s, before);
    Reached(s, es);
    SameMembersInside(s.db, t.db, w);
    SameMembersInside(s.db, StateAfter(s, es).db, w);
    if FinalWindow(t.db.windows[w]) {
      CompleteWasComplete(t, e, w);
      k, r := JobAppearsWithCompletion(s, before, w);
      assert before[..k] == es[..k] && before[..k + 1] == es[..k + 1];
    } else {
      CompletionStep(t, e, w);
      k, r := |es| - 1, e.run;
      assert es[..k + 1] == es;
      LastWasObserved(t, e, w);
    }
  }

  lemma LastWasObserved(t: State, e: Event, w: Id)
    requires e.Commit? && e.run in RunsIn(t.db.runs, w) && Enabled(t, e) && Inv(Next(t, e)) && w in t.db.windows
    requires Next(t, e).db.windows[w] == WindowComplete && NoneSkipped(Next(t, e).db, w)
    requires forall q :: q in RunsIn(t.db.runs, w) ==> Final(Next(t, e).db.runs[q].status)
    ensures Next(t, e).db.runs[e.run].limitation == EvidenceLimitation
  {
    var t' := Next(t, e);
    StepKeepsMembers(t, e);
    SameMembersInside(t.db, t'.db, w);
    assert RowAgrees(t'.db, e.run);
    assert Agrees(t'.db.runs, w, t'.db.windows[w]);
    FinalValue(t'.db.runs, w);
  }

  // ---------------------------------------------------------------- monitoring switch

  /** No scheduled run is started while the site is off, and the switch cannot move under the start. */
  lemma ScheduledStartsOnlyWhileOn(s: State, es: seq<Event>, e: Event, r: Id)
    requires Initial(s) && Allowed(s, es) && Enabled(StateAfter(s, es), e) && r in s.db.runs
    ensures var t, t' := StateAfter(s, es), Next(StateAfter(s, es), e);
      && r in t.db.runs && r in t'.db.runs
      && (s.db.runs[r].kind == ScheduledKind && t.db.runs[r].status != RunningRun && t'.db.runs[r].status == RunningRun ==>
            t.db.on && t'.db.on && e == Commit(r) && t.txns[r].op == OpBegin)
  {
    Reached(s, es);
    var t := StateAfter(s, es);
    StepKeepsMembers(t, e);
    if e.Commit? {
      assert Admits(t.db, e.run, t.txns[e.run].attempt, t.txns[e.run].op);
    }
  }

  // ---------------------------------------------------------------- one transaction alone

  /** With nothing else in flight the steps of a transaction are the repository's single write. */
  lemma AloneIsPerform(s: State, r: Id, n: nat, op: Op)
    requires s.txns == map[] && Admits(s.db, r, n, op)
    ensures var es := if op == OpRetry then [Start(r, n, op), Commit(r)] else [Start(r, n, op), LockWindow(r), Refresh(r), Commit(r)];
      Allowed(s, es) && StateAfter(s, es) == State(Perform(s.db, r, n, op), map[])
  {
    hide RunAfter, Aggregate, WindowWrite, Admits, Written;
    assert r in s.db.runs by {
      AdmittedExists(s.db, r, n, op);
    }
    var one := [Start(r, n, op)];
    assert Allowed(s, []) && [] + one == one;
    Extend(s, [], Start(r, n, op));
    hide Allowed, StateAfter;
    if op == OpRetry {
      assert StateAfter(s, one) == State(s.db, map[r := Txn(n, op, Ready(None))]);
      WritesNothingToWindow(s.db, r, n);
      Extend(s, one, Commit(r));
      assert one + [Commit(r)] == [Start(r, n, op), Commit(r)];
    } else {
      var two := one + [LockWindow(r)];
      var three := two + [Refresh(r)];
      assert StateAfter(s, one) == State(s.db, map[r := Txn(n, op, Wrote)]);
      Extend(s, one, LockWindow(r));
      assert StateAfter(s, two) == State(s.db, map[r := Txn(n, op, Locked)]);
      Extend(s, two, Refresh(r));
      assert StateAfter(s, three) == State(s.db, map[r := Txn(n, op, Ready(WindowWrite(s.db.runs, r, n, op)))]);
      Extend(s, three, Commit(r));
      assert three + [Commit(r)] == [Start(r, n, op), LockWindow(r), Refresh(r), Commit(r)];
    }
  }

  lemma AdmittedExists(db: Db, r: Id, n: nat, op: Op)
    requires Admits(db, r, n, op)
    ensures r in db.runs
  {
  }

  lemma WritesNothingToWindow(db: Db, r: Id, n: nat)
    requires r in db.runs
    ensures WindowWrite(db.runs, r, n, OpRetry) == None
  {
  }

  lemma Extend(s: State, es: seq<Event>, e: Event)
    requires Allowed(s, es) && Enabled(StateAfter(s, es), e)
    ensures Allowed(s, es + [e]) && StateAfter(s, es + [e]) == Next(StateAfter(s, es), e)
  {
    assert (es + [e])[..|es|] == es;
  }

  // ---------------------------------------------------------------- stale attempts

  /**
    Starting again does not close an older running attempt: both then run, either may end the run, and
    whichever does shuts the other out.
  */
  lemma StaleAttemptMayFinish(db: Db, r: Id, first: nat, n: nat, status: RunStatus, late: Op)
    requires Admits(db, r, n, OpBegin) && (r, first) in db.attempts && db.attempts[(r, first)] == RunningRun
    requires EvidenceStatus(status) && !LocksSite(late)
    ensures var started := Perform(db, r, n, OpBegin);
      && started.attempts[(r, first)] == RunningRun && started.attempts[(r, n)] == RunningRun
      && Admits(started, r, first, OpFinalize(status))
      && Admits(started, r, n, OpFinalize(status))
      && !Admits(Perform(started, r, first, OpFinalize(status)), r, n, late)
      && !Admits(Perform(started, r, n, OpFinalize(status)), r, first, late)
  {
  }
}
