/** The browser job handler: one leased attempt driven through the checkpoint repository. */
module BrowserWorker {
  import opened Contracts
  import opened CheckpointStore
  import CheckpointRepository

  /** What the browser and the evidence storage do during one attempt. */
  datatype Runner = RunnerRaised | Observed(status: RunStatus, stored: bool)

  datatype JobResult = JobDone | JobRetried | JobFailed | JobRaised

  predicate Reports(runner: Runner) {
    runner.Observed? ==> EvidenceStatus(runner.status)
  }

  // ---------------------------------------------------------------- one delivery

  function FailAttempt(db: Db, r: Id, n: nat, max: nat): (Db, JobResult) {
    var (db', ok) := EndAttempt(db, r, n, if n < max then OpRetry else OpTerminal);
    (db', if !ok then JobRaised else if n < max then JobRetried else JobFailed)
  }

  function Handle(db: Db, r: Id, n: nat, max: nat, runner: Runner): (Db, JobResult)
    requires Reports(runner)
  {
    var (started, outcome) := BeginAttempt(db, r, n);
    match outcome
    case SkippedNow => (started, JobDone)
    case SkippedBefore => (started, JobDone)
    case Refused => (started, JobFailed)
    case Started =>
      if runner.RunnerRaised? || (runner.status == BrowserError && n < max) || !runner.stored then
        FailAttempt(started, r, n, max)
      else
        var (ended, ok) := EndAttempt(started, r, n, OpFinalize(runner.status));
        if ok then (ended, JobDone) else FailAttempt(ended, r, n, max)
  }

  method FailOrRetry(repository: CheckpointRepository.Repository, r: Id, n: nat, max: nat) returns (result: JobResult)
    modifies repository
    ensures (repository.Contents(), result) == FailAttempt(old(repository.Contents()), r, n, max)
  {
    if n < max {
      var ok := repository.RecordRetryableFailure(r, n);
      return if ok then JobRetried else JobRaised;
    }
    var ok := repository.FinalizeTerminalFailure(r, n);
    return if ok then JobFailed else JobRaised;
  }

  method HandleBrowserJob(repository: CheckpointRepository.Repository, r: Id, n: nat, max: nat, runner: Runner)
    returns (result: JobResult)
    requires Reports(runner)
    modifies repository
    ensures (repository.Contents(), result) == Handle(old(repository.Contents()), r, n, max, runner)
  {
    var outcome := repository.Begin(r, n);
    if outcome == SkippedNow || outcome == SkippedBefore {
      return JobDone;
    }
    if outcome == Refused {
      return JobFailed;
    }
    if runner.RunnerRaised? {
      result := FailOrRetry(repository, r, n, max);
      return;
    }
    if runner.status == BrowserError && n < max {
      var ok := repository.RecordRetryableFailure(r, n);
      return if ok then JobRetried else JobRaised;
    }
    if !runner.stored {
      result := FailOrRetry(repository, r, n, max);
      return;
    }
    var ok := repository.Finalize(r, n, runner.status);
    if ok {
      return JobDone;
    }
    result := FailOrRetry(repository, r, n, max);
  }

  // ---------------------------------------------------------------- deliveries 1, 2, ..., max

  /** Monitoring may be switched between deliveries. */
  datatype Delivery = Delivery(on: bool, runner: Runner)

  predicate AllReport(ds: seq<Delivery>) {
    forall d :: d in ds ==> Reports(d.runner)
  }

  /** Deliveries that do not overlap; a job that is not to be retried is not delivered again. */
  function Deliver(db: Db, r: Id, max: nat, ds: seq<Delivery>): (Db, JobResult)
    requires AllReport(ds)
  {
    if ds == [] then (db, JobRetried)
    else
      var last := ds[|ds| - 1];
      var (before, result) := Deliver(db, r, max, ds[..|ds| - 1]);
      if result != JobRetried then (before, result)
      else Handle(before.(on := last.on), r, |ds|, max, last.runner)
  }

  predicate Queued(db: Db, r: Id) {
    r in db.runs && db.runs[r].status == PendingRun && forall key :: key in db.attempts ==> key.0 != r
  }

  /** How many of attempts 1..k were started. */
  function Made(db: Db, r: Id, k: nat): nat {
    if k == 0 then 0 else Made(db, r, k - 1) + if (r, k) in db.attempts then 1 else 0
  }

  /** How many of attempts 1..k carry this status. */
  function Carrying(db: Db, r: Id, k: nat, status: RunStatus): nat {
    if k == 0 then 0
    else Carrying(db, r, k - 1, status) + if (r, k) in db.attempts && db.attempts[(r, k)] == status then 1 else 0
  }

  /** What is true of a run whose first k deliveries are over. */
  ghost predicate Progress(db: Db, result: JobResult, r: Id, max: nat, k: nat) {
    && r in db.runs
    && (forall m: nat :: (r, m) in db.attempts ==> 1 <= m <= k)
    && match result
       case JobRetried =>
         && db.runs[r].status == PendingRun && (k < max || k == 0)
         && Made(db, r, k) == k && Carrying(db, r, k, BrowserError) == k
       case JobRaised => false
       case _ =>
         var status, made := db.runs[r].status, Made(db, r, k);
         && Final(status) && 1 <= made <= k
         && Carrying(db, r, k, status) == if status == BrowserError then made else 1
  }

  lemma {:induction false} CountsFramed(a: Db, b: Db, r: Id, k: nat, status: RunStatus)
    requires forall m: nat :: 1 <= m <= k ==>
      ((r, m) in a.attempts <==> (r, m) in b.attempts) && ((r, m) in a.attempts ==> b.attempts[(r, m)] == a.attempts[(r, m)])
    ensures Made(a, r, k) == Made(b, r, k) && Carrying(a, r, k, status) == Carrying(b, r, k, status)
  {
    if k > 0 {
      CountsFramed(a, b, r, k - 1, status);
    }
  }

  /** How a started attempt ends. */
  function Ending(n: nat, max: nat, runner: Runner): Op {
    if runner.RunnerRaised? || !runner.stored || (runner.status == BrowserError && n < max) then
      if n < max then OpRetry else OpTerminal
    else OpFinalize(runner.status)
  }

  lemma HandleIsTwoWrites(db: Db, r: Id, n: nat, max: nat, runner: Runner)
    requires Reports(runner) && r in db.runs && db.runs[r].status == PendingRun && (r, n) !in db.attempts
    ensures Handle(db, r, n, max, runner) ==
      if db.runs[r].kind == ScheduledKind && !db.on then (Perform(db, r, n, OpSkip), JobDone)
      else
        var op := Ending(n, max, runner);
        (Perform(Perform(db, r, n, OpBegin), r, n, op),
         if op == OpRetry then JobRetried else if op == OpTerminal then JobFailed else JobDone)
  {
    hide Perform;
    PerformWrites(db, r, n, OpBegin);
    assert Admits(Perform(db, r, n, OpBegin), r, n, Ending(n, max, runner));
  }

  /** An attempt that is not refused writes exactly its own attempt row and its own run. */
  lemma HandleWritesOneAttempt(db: Db, r: Id, n: nat, max: nat, runner: Runner)
    requires Reports(runner) && r in db.runs && db.runs[r].status == PendingRun && (r, n) !in db.attempts
    ensures var (db', result) := Handle(db, r, n, max, runner);
      && db'.attempts.Keys == db.attempts.Keys + {(r, n)}
      && (forall key :: key in db.attempts ==> db'.attempts[key] == db.attempts[key])
      && db'.runs.Keys == db.runs.Keys
      && (forall q :: q in db.runs && q != r ==> db'.runs[q] == db.runs[q])
      && match result
         case JobRetried => n < max && db'.runs[r].status == PendingRun && db'.attempts[(r, n)] == BrowserError
         case JobRaised => false
         case _ => Final(db'.runs[r].status) && db'.attempts[(r, n)] == db'.runs[r].status
  {
    HandleIsTwoWrites(db, r, n, max, runner);
    hide Perform, Handle;
    PerformWrites(db, r, n, OpSkip);
    PerformWrites(db, r, n, OpBegin);
    PerformWrites(Perform(db, r, n, OpBegin), r, n, Ending(n, max, runner));
  }

  lemma PerformWrites(db: Db, r: Id, n: nat, op: Op)
    requires r in db.runs
    ensures var db' := Perform(db, r, n, op);
      && db'.attempts == db.attempts[(r, n) := AttemptAfter(op)]
      && db'.runs == db.runs[r := RunAfter(db.runs[r], n, op)]
  {
  }

  lemma {:induction false} CarryingNone(db: Db, r: Id, k: nat, status: RunStatus)
    requires Carrying(db, r, k, BrowserError) == k && status != BrowserError
    ensures Carrying(db, r, k, status) == 0
  {
    if k > 0 {
      CarryingAtMost(db, r, k - 1, BrowserError);
      CarryingNone(db, r, k - 1, status);
    }
  }

  lemma {:induction false} CarryingAtMost(db: Db, r: Id, k: nat, status: RunStatus)
    ensures Carrying(db, r, k, status) <= k
  {
    if k > 0 {
      CarryingAtMost(db, r, k - 1, status);
    }
  }

  lemma ProgressStep(db: Db, r: Id, max: nat, k: nat, d: Delivery)
    requires Progress(db, JobRetried, r, max, k) && Reports(d.runner) && k < max
    ensures var next := k + 1; var (db', result) := Handle(db.(on := d.on), r, next, max, d.runner);
      Progress(db', result, r, max, next)
  {
    var next := k + 1;
    var start := db.(on := d.on);
    assert (r, next) !in db.attempts;
    HandleWritesOneAttempt(start, r, next, max, d.runner);
    var (db', result) := Handle(start, r, next, max, d.runner);
    hide Handle;
    var status := db'.runs[r].status;
    CountsFramed(db, db', r, k, status);
    CountsFramed(db, db', r, k, BrowserError);
    if status != BrowserError {
      CarryingNone(db, r, k, status);
    }
  }

  lemma {:induction false} MadeFramed(db: Db, r: Id, k: nat, j: nat, status: RunStatus)
    requires k <= j && forall m: nat :: (r, m) in db.attempts ==> m <= k
    ensures Made(db, r, j) == Made(db, r, k) && Carrying(db, r, j, status) == Carrying(db, r, k, status)
    decreases j
  {
    if j > k {
      MadeFramed(db, r, k, j - 1, status);
    }
  }

  /**
    For every pattern of browser and storage failures over deliveries 1..k of a queued run, the run is
    final, or it is pending with a retry left; after the last delivery it is final.
  */
  lemma {:induction false} BoundedProgress(db: Db, r: Id, max: nat, ds: seq<Delivery>)
    requires Queued(db, r) && AllReport(ds) && |ds| <= max
    ensures var (db', result) := Deliver(db, r, max, ds);
      && Progress(db', result, r, max, |ds|)
      && (|ds| == max > 0 ==> Final(db'.runs[r].status))
      && (result == JobRetried <==> !Final(db'.runs[r].status))
  {
    if ds == [] {
    } else {
      var before := ds[..|ds| - 1];
      BoundedProgress(db, r, max, before);
      var (mid, result) := Deliver(db, r, max, before);
      if result == JobRetried {
        ProgressStep(mid, r, max, |before|, ds[|ds| - 1]);
      } else {
        MadeFramed(mid, r, |before|, |ds|, mid.runs[r].status);
      }
    }
  }

  /** The delivery starts an attempt, and the attempt raises, cannot store its evidence, or reports a browser failure. */
  predicate Fails(kind: Kind, d: Delivery) {
    && (kind == ScheduledKind ==> d.on)
    && (d.runner.RunnerRaised? || !d.runner.stored || d.runner.status == BrowserError)
  }

  predicate AllFail(kind: Kind, ds: seq<Delivery>) {
    forall d :: d in ds ==> Fails(kind, d)
  }

  /** How one delivery ends, read off the delivery: retried if it fails early, BROWSER_ERROR if it fails last. */
  lemma OneDelivery(db: Db, r: Id, n: nat, max: nat, d: Delivery)
    requires Reports(d.runner) && r in db.runs && db.runs[r].status == PendingRun && (r, n) !in db.attempts && n <= max
    ensures var (db', result) := Handle(db.(on := d.on), r, n, max, d.runner);
      && r in db'.runs && db'.runs[r].kind == db.runs[r].kind
      && (result == JobRetried <==> Fails(db.runs[r].kind, d) && n < max)
      && (result != JobRetried ==> (db'.runs[r].status == BrowserError <==> Fails(db.runs[r].kind, d) && n == max))
  {
    var start := db.(on := d.on);
    HandleIsTwoWrites(start, r, n, max, d.runner);
    hide Perform, Handle;
    PerformWrites(start, r, n, OpSkip);
    PerformWrites(start, r, n, OpBegin);
    PerformWrites(Perform(start, r, n, OpBegin), r, n, Ending(n, max, d.runner));
  }

  lemma FailsAppend(kind: Kind, ds: seq<Delivery>)
    requires ds != []
    ensures AllFail(kind, ds) <==> AllFail(kind, ds[..|ds| - 1]) && Fails(kind, ds[|ds| - 1])
  {
    assert ds == ds[..|ds| - 1] + [ds[|ds| - 1]];
  }

  /** A job is still to be retried exactly while every delivery failed and one is left. */
  lemma {:induction false} RetriedExactlyWhileFailing(db: Db, r: Id, max: nat, ds: seq<Delivery>)
    requires Queued(db, r) && AllReport(ds) && |ds| <= max
    ensures var (db', result) := Deliver(db, r, max, ds);
      && r in db'.runs && db'.runs[r].kind == db.runs[r].kind
      && (result == JobRetried <==> ds == [] || (AllFail(db.runs[r].kind, ds) && |ds| < max))
      && (result != JobRetried ==> (db'.runs[r].status == BrowserError <==> AllFail(db.runs[r].kind, ds) && |ds| == max))
  {
    hide Handle, Fails, AllFail, Progress, Final;
    if ds != [] {
      var before := ds[..|ds| - 1];
      RetriedExactlyWhileFailing(db, r, max, before);
      BoundedProgress(db, r, max, before);
      FailsAppend(db.runs[r].kind, ds);
      var (mid, result) := Deliver(db, r, max, before);
      if result == JobRetried {
        NothingFails(db.runs[r].kind);
        StillQueued(mid, r, max, |before|);
        OneDelivery(mid, r, |ds|, max, ds[|ds| - 1]);
      }
    }
  }

  lemma NothingFails(kind: Kind)
    ensures AllFail(kind, [])
  {
  }

  lemma StillQueued(db: Db, r: Id, max: nat, k: nat)
    requires Progress(db, JobRetried, r, max, k)
    ensures r in db.runs && db.runs[r].status == PendingRun && (r, k + 1) !in db.attempts
  {
    var next := k + 1;
    assert (r, next) in db.attempts ==> next <= k;
  }

  /** A run that failed on every delivery made every attempt. */
  lemma EveryDeliveryMade(db: Db, r: Id, max: nat, ds: seq<Delivery>)
    requires Queued(db, r) && AllReport(ds) && |ds| == max > 0 && AllFail(db.runs[r].kind, ds)
    ensures Made(Deliver(db, r, max, ds).0, r, max) == max
  {
    var before, last := ds[..|ds| - 1], ds[|ds| - 1];
    FailsAppend(db.runs[r].kind, ds);
    hide AllFail, Fails;
    RetriedExactlyWhileFailing(db, r, max, before);
    BoundedProgress(db, r, max, before);
    var (mid, result) := Deliver(db, r, max, before);
    StillQueued(mid, r, max, |before|);
    HandleWritesOneAttempt(mid.(on := last.on), r, max, max, last.runner);
    var db' := Handle(mid.(on := last.on), r, max, max, last.runner).0;
    assert Deliver(db, r, max, ds).0 == db';
    hide Handle;
    CountsFramed(mid, db', r, max - 1, BrowserError);
  }

  /**
    Over any deliveries that settle a queued run, exactly one attempt carries the run's status unless there
    were at least two deliveries, as many as allowed, and every one of them started and failed.
  */
  lemma OneAttemptCarriesTheStatus(db: Db, r: Id, max: nat, ds: seq<Delivery>)
    requires Queued(db, r) && AllReport(ds) && |ds| <= max && Deliver(db, r, max, ds).1 != JobRetried
    ensures var db' := Deliver(db, r, max, ds).0;
      && r in db'.runs
      && (Carrying(db', r, |ds|, db'.runs[r].status) == 1 <==>
            !(max >= 2 && |ds| == max && AllFail(db.runs[r].kind, ds)))
  {
    hide AllFail, Deliver, Carrying, Made;
    BoundedProgress(db, r, max, ds);
    RetriedExactlyWhileFailing(db, r, max, ds);
    if |ds| == max && AllFail(db.runs[r].kind, ds) {
      EveryDeliveryMade(db, r, max, ds);
    }
  }

  /** A browser that fails on both of two attempts leaves two attempts with the run's final status. */
  lemma TwoAttemptsCarryBrowserError(db: Db, r: Id)
    requires Queued(db, r) && db.runs[r].kind == DiagnosticKind
    ensures var failed := Delivery(true, RunnerRaised); var (db', result) := Deliver(db, r, 2, [failed, failed]);
      && result == JobFailed && r in db'.runs
      && db'.runs[r].status == BrowserError && Carrying(db', r, 2, BrowserError) == 2
  {
    var failed := Delivery(true, RunnerRaised);
    var one := [failed];
    assert one[..0] == [] && [failed, failed][..1] == one;
    assert Deliver(db, r, 2, []) == (db, JobRetried);
    var on := db.(on := true);
    HandleIsTwoWrites(on, r, 1, 2, RunnerRaised);
    var mid := Deliver(db, r, 2, one).0;
    PerformWrites(on, r, 1, OpBegin);
    PerformWrites(Perform(on, r, 1, OpBegin), r, 1, OpRetry);
    HandleIsTwoWrites(mid.(on := true), r, 2, 2, RunnerRaised);
    hide Handle, Perform;
    BoundedProgress(db, r, 2, [failed, failed]);
    PerformWrites(mid.(on := true), r, 2, OpBegin);
    PerformWrites(Perform(mid.(on := true), r, 2, OpBegin), r, 2, OpTerminal);
  }
}
