/** What deliveries and commits leave in the tables, spelled out status by status. */
module CheckpointEffects {
  import opened Contracts
  import opened CheckpointStore
  import opened CheckpointInterleaving
  import opened CheckpointTheorems
  import BrowserWorker
  import Names

  // ---------------------------------------------------------------- the status of a window

  predicate Member(runs: map<Id, Run>, w: Id, r: Id) {
    r in runs && runs[r].window == w
  }

  /** What each window status says about the runs of the window; exactly one of them is true. */
  ghost predicate Shows(runs: map<Id, Run>, w: Id, v: WindowStatus) {
    match v
    case WindowScheduled => forall r :: Member(runs, w, r) ==> runs[r].status == PendingRun
    case WindowRunning =>
      && (exists r :: Member(runs, w, r) && !Final(runs[r].status))
      && (exists r :: Member(runs, w, r) && runs[r].status != PendingRun)
    case WindowFailed =>
      && (exists r :: Member(runs, w, r))
      && (forall r :: Member(runs, w, r) ==> runs[r].status == BrowserError)
    case WindowPartial =>
      && (forall r :: Member(runs, w, r) ==> Final(runs[r].status))
      && (exists r :: Member(runs, w, r) && runs[r].status == BrowserError)
      && (exists r :: Member(runs, w, r) && runs[r].status != BrowserError)
    case WindowComplete =>
      && (exists r :: Member(runs, w, r))
      && (forall r :: Member(runs, w, r) ==> Final(runs[r].status) && runs[r].status != BrowserError)
  }

  lemma SetMeaning(runs: map<Id, Run>, w: Id, status: RunStatus)
    ensures RunsIn(runs, w) == {} <==> forall r :: !Member(runs, w, r)
    ensures WithStatus(runs, w, status) == RunsIn(runs, w) <==> forall r :: Member(runs, w, r) ==> runs[r].status == status
    ensures WithStatus(runs, w, status) != {} <==> exists r :: Member(runs, w, r) && runs[r].status == status
  {
    var all, some := RunsIn(runs, w), WithStatus(runs, w, status);
    assert forall r :: r in all <==> Member(runs, w, r);
    assert forall r :: r in some <==> Member(runs, w, r) && runs[r].status == status;
    if all != {} {
      var r := Names.Member(all);
      assert Member(runs, w, r);
    }
    if some != {} {
      var r := Names.Member(some);
      assert Member(runs, w, r);
    }
    if forall r :: Member(runs, w, r) ==> runs[r].status == status {
      forall r | r in all
        ensures r in some
      {
        assert Member(runs, w, r);
      }
      Names.SubsetByMembers(all, some);
    }
    if some == all {
      forall r | Member(runs, w, r)
        ensures runs[r].status == status
      {
        assert r in some;
      }
    }
  }

  /** The aggregate is the one status that is true of the window's runs. */
  lemma AggregateIsWhatIsTrue(runs: map<Id, Run>, w: Id, v: WindowStatus)
    ensures v == Aggregate(runs, w) <==> Shows(runs, w, v)
  {
    SetMeaning(runs, w, PendingRun);
    SetMeaning(runs, w, BrowserError);
    assert forall r :: r in RunsIn(runs, w) <==> Member(runs, w, r);
    hide RunsIn, WithStatus;
  }

  // ---------------------------------------------------------------- one delivery

  /** One attempt row, its run and at most one job are written, and nothing else but the window. */
  predicate Leaves(db: Db, db': Db, r: Id, n: nat, run: Run, attempt: RunStatus, job: bool) {
    && db'.runs == db.runs[r := run]
    && db'.attempts == db.attempts[(r, n) := attempt]
    && db'.jobs == (if job then db.jobs + {r} else db.jobs)
    && db'.on == db.on
  }

  /** Only the run's window is written, and shows what is true of its runs. */
  ghost predicate ShowsWindow(db: Db, db': Db, w: Id) {
    if w in db.windows then w in db'.windows && db'.windows == db.windows[w := db'.windows[w]] && Shows(db'.runs, w, db'.windows[w])
    else db'.windows == db.windows
  }

  /**
    One delivery of a pending run: skipped while the site is off, back to pending after a failure with an
    attempt left, BROWSER_ERROR after the last failure, and else exactly the status the browser reported.
  */
  lemma DeliveryLeaves(db: Db, r: Id, n: nat, max: nat, runner: BrowserWorker.Runner)
    requires BrowserWorker.Reports(runner) && r in db.runs && db.runs[r].status == PendingRun && (r, n) !in db.attempts
    ensures var (db', result) := BrowserWorker.Handle(db, r, n, max, runner);
      var run := db.runs[r];
      var counted := run.(attemptCount := if n > run.attemptCount then n else run.attemptCount);
      var failed := runner.RunnerRaised? || !runner.stored || (runner.status == BrowserError && n < max);
      if run.kind == ScheduledKind && !db.on then
        && result == BrowserWorker.JobDone
        && Leaves(db, db', r, n, run.(status := Skipped, limitation := SkippedLimitation), Skipped, false)
        && ShowsWindow(db, db', run.window)
      else if failed && n < max then
        && result == BrowserWorker.JobRetried
        && Leaves(db, db', r, n, counted, BrowserError, false)
        && db'.windows == if run.window in db.windows then db.windows[run.window := WindowRunning] else db.windows
      else if failed then
        && result == BrowserWorker.JobFailed
        && Leaves(db, db', r, n, counted.(status := BrowserError, limitation := StorageLimitation), BrowserError, false)
        && ShowsWindow(db, db', run.window)
      else
        && result == BrowserWorker.JobDone
        && Leaves(db, db', r, n, counted.(status := runner.status, limitation := EvidenceLimitation), runner.status,
                  run.kind != IncidentKind)
        && ShowsWindow(db, db', run.window)
  {
    BrowserWorker.HandleIsTwoWrites(db, r, n, max, runner);
    hide BrowserWorker.Handle, Shows, Aggregate;
    var run := db.runs[r];
    if run.kind == ScheduledKind && !db.on {
      AggregateIsWhatIsTrue(Perform(db, r, n, OpSkip).runs, run.window, Aggregate(Perform(db, r, n, OpSkip).runs, run.window));
    } else {
      var op := BrowserWorker.Ending(n, max, runner);
      var begun := Perform(db, r, n, OpBegin);
      var db' := Perform(begun, r, n, op);
      AggregateIsWhatIsTrue(db'.runs, run.window, Aggregate(db'.runs, run.window));
      assert db'.runs == begun.runs[r := RunAfter(begun.runs[r], n, op)];
      Twice(db.runs, r, begun.runs[r], db'.runs[r]);
      Twice(db.attempts, (r, n), begun.attempts[(r, n)], db'.attempts[(r, n)]);
      if run.window in db.windows && op != OpRetry {
        Twice(db.windows, run.window, WindowRunning, db'.windows[run.window]);
      }
    }
  }

  lemma Twice<K, V>(m: map<K, V>, k: K, a: V, b: V)
    ensures m[k := a][k := b] == m[k := b]
  {
  }

  /** A delivery of a run that is unknown, final or already attempted under this number changes nothing. */
  lemma RefusedDeliveryChangesNothing(db: Db, r: Id, n: nat, max: nat, runner: BrowserWorker.Runner)
    requires BrowserWorker.Reports(runner)
    requires r !in db.runs || Final(db.runs[r].status) || (r, n) in db.attempts
    ensures BrowserWorker.Handle(db, r, n, max, runner) ==
      (db, if r in db.runs && db.runs[r].status == Skipped && db.runs[r].limitation == SkippedLimitation
           then BrowserWorker.JobDone else BrowserWorker.JobFailed)
  {
  }

  // ---------------------------------------------------------------- deliveries 1, 2, ...

  /** The delivery ends the run: it skips it, succeeds, or is the last one allowed. */
  predicate Ends(kind: Kind, d: BrowserWorker.Delivery, n: nat, max: nat) {
    !BrowserWorker.Fails(kind, d) || n == max
  }

  /** What a delivery that ends the run leaves it with. */
  function Ended(kind: Kind, d: BrowserWorker.Delivery): RunStatus {
    if kind == ScheduledKind && !d.on then Skipped
    else if d.runner.RunnerRaised? || !d.runner.stored then BrowserError
    else d.runner.status
  }

  lemma DeliveryStatuses(db: Db, r: Id, n: nat, max: nat, d: BrowserWorker.Delivery)
    requires BrowserWorker.Reports(d.runner) && r in db.runs && db.runs[r].status == PendingRun && (r, n) !in db.attempts
    requires n <= max
    ensures var (db', result) := BrowserWorker.Handle(db.(on := d.on), r, n, max, d.runner);
      var (kind, retried) := (db.runs[r].kind, result == BrowserWorker.JobRetried);
      && (retried <==> !Ends(kind, d, n, max)) && r in db'.runs
      && (!retried ==> db'.runs[r].status == Ended(kind, d))
      && db'.attempts == db.attempts[(r, n) := if retried then BrowserError else Ended(kind, d)]
  {
    hide Shows, Aggregate, BrowserWorker.Handle;
    DeliveryLeaves(db.(on := d.on), r, n, max, d.runner);
  }

  /**
    Over the deliveries of a queued run the first one that skips it, is stored with a status other than
    BROWSER_ERROR, or is the last one allowed ends it: run and attempt then carry exactly the status that
    delivery reported, and every attempt before it BROWSER_ERROR.
  */
  lemma {:induction false} RunEndsAsReported(db: Db, r: Id, max: nat, ds: seq<BrowserWorker.Delivery>) returns (k: nat)
    requires BrowserWorker.Queued(db, r) && BrowserWorker.AllReport(ds) && |ds| <= max
    requires BrowserWorker.Deliver(db, r, max, ds).1 != BrowserWorker.JobRetried
    ensures var (kind, db') := (db.runs[r].kind, BrowserWorker.Deliver(db, r, max, ds).0);
      && k < |ds| && BrowserWorker.AllFail(kind, ds[..k]) && Ends(kind, ds[k], k + 1, max)
      && r in db'.runs && db'.runs[r].status == Ended(kind, ds[k])
      && (r, k + 1) in db'.attempts && db'.attempts[(r, k + 1)] == Ended(kind, ds[k])
      && (forall m: nat :: 1 <= m <= k ==> (r, m) in db'.attempts && db'.attempts[(r, m)] == BrowserError)
  {
    var before := ds[..|ds| - 1];
    var (mid, result) := BrowserWorker.Deliver(db, r, max, before);
    if result != BrowserWorker.JobRetried {
      k := RunEndsAsReported(db, r, max, before);
      assert before[..k] == ds[..k];
    } else {
      k := |before|;
      var d := ds[k];
      FailedSoFar(db, r, max, before);
      BrowserWorker.RetriedExactlyWhileFailing(db, r, max, before);
      BrowserWorker.StillQueued(mid, r, max, k);
      assert ds[..k] == before;
      assert d in ds;
      hide BrowserWorker.Handle, BrowserWorker.Progress, BrowserWorker.AllFail, Ends, Ended;
      DeliveryStatuses(mid, r, k + 1, max, d);
    }
  }

  /** While a run is to be retried, every attempt made so far failed. */
  lemma {:induction false} FailedSoFar(db: Db, r: Id, max: nat, ds: seq<BrowserWorker.Delivery>)
    requires BrowserWorker.Queued(db, r) && BrowserWorker.AllReport(ds) && |ds| <= max
    requires BrowserWorker.Deliver(db, r, max, ds).1 == BrowserWorker.JobRetried
    ensures var db' := BrowserWorker.Deliver(db, r, max, ds).0;
      && BrowserWorker.Progress(db', BrowserWorker.JobRetried, r, max, |ds|)
      && (forall m: nat :: 1 <= m <= |ds| ==> (r, m) in db'.attempts && db'.attempts[(r, m)] == BrowserError)
  {
    BrowserWorker.BoundedProgress(db, r, max, ds);
    if ds != [] {
      var before := ds[..|ds| - 1];
      FailedSoFar(db, r, max, before);
      var mid, d := BrowserWorker.Deliver(db, r, max, before).0, ds[|ds| - 1];
      BrowserWorker.StillQueued(mid, r, max, |before|);
      assert d in ds;
      hide BrowserWorker.Handle, BrowserWorker.Progress, Ends, Ended;
      DeliveryStatuses(mid, r, |ds|, max, d);
    }
  }
}
