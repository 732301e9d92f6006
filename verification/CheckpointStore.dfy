/**
  Checkpoint runs, attempts, windows and derivation jobs: what one transaction of the checkpoint
  repository reads, checks and writes.
*/
module CheckpointStore {
  import opened Contracts

  datatype Kind = ScheduledKind | DiagnosticKind | IncidentKind

  datatype Limitation = NoLimitation | SkippedLimitation | StorageLimitation | EvidenceLimitation

  datatype Run = Run(status: RunStatus, kind: Kind, window: Id, attemptCount: nat, limitation: Limitation)

  datatype WindowStatus = WindowScheduled | WindowRunning | WindowComplete | WindowPartial | WindowFailed

  type Attempts = map<(Id, nat), RunStatus>

  /** One site: its runs, their attempts, its windows, the derivation jobs and the monitoring switch. */
  datatype Db = Db(runs: map<Id, Run>, attempts: Attempts, windows: map<Id, WindowStatus>, jobs: set<Id>, on: bool)

  predicate Final(status: RunStatus) {
    status != PendingRun && status != RunningRun
  }

  /** What a browser run can report; an administrative skip is never reported by a run. */
  predicate EvidenceStatus(status: RunStatus) {
    Final(status) && status != Skipped
  }

  predicate FinalWindow(w: WindowStatus) {
    w == WindowComplete || w == WindowPartial || w == WindowFailed
  }

  // ---------------------------------------------------------------- window status

  function RunsIn(runs: map<Id, Run>, w: Id): set<Id> {
    set r | r in runs && runs[r].window == w
  }

  function WithStatus(runs: map<Id, Run>, w: Id, status: RunStatus): set<Id> {
    set r | r in runs && runs[r].window == w && runs[r].status == status
  }

  predicate AllFinal(runs: map<Id, Run>, w: Id) {
    forall r :: r in RunsIn(runs, w) ==> Final(runs[r].status)
  }

  function Aggregate(runs: map<Id, Run>, w: Id): WindowStatus {
    if RunsIn(runs, w) == {} then WindowScheduled
    else if !AllFinal(runs, w) then
      if WithStatus(runs, w, PendingRun) == RunsIn(runs, w) then WindowScheduled else WindowRunning
    else if WithStatus(runs, w, BrowserError) == RunsIn(runs, w) then WindowFailed
    else if WithStatus(runs, w, BrowserError) != {} then WindowPartial
    else WindowComplete
  }

  // ---------------------------------------------------------------- transactions

  datatype Op = OpBegin | OpSkip | OpRetry | OpTerminal | OpFinalize(status: RunStatus)

  /** The guard read under the run's row lock. */
  predicate Admits(db: Db, r: Id, n: nat, op: Op) {
    && r in db.runs
    && match op
       case OpBegin =>
         !Final(db.runs[r].status) && (r, n) !in db.attempts && (db.runs[r].kind == ScheduledKind ==> db.on)
       case OpSkip =>
         !Final(db.runs[r].status) && (r, n) !in db.attempts && db.runs[r].kind == ScheduledKind && !db.on
       case OpFinalize(status) =>
         db.runs[r].status == RunningRun && (r, n) in db.attempts && db.attempts[(r, n)] == RunningRun && EvidenceStatus(status)
       case _ =>
         db.runs[r].status == RunningRun && (r, n) in db.attempts && db.attempts[(r, n)] == RunningRun
  }

  predicate Finalizes(op: Op) {
    op == OpSkip || op == OpTerminal || op.OpFinalize?
  }

  function AttemptAfter(op: Op): RunStatus {
    match op
    case OpBegin => RunningRun
    case OpSkip => Skipped
    case OpRetry => BrowserError
    case OpTerminal => BrowserError
    case OpFinalize(status) => status
  }

  function RunAfter(run: Run, n: nat, op: Op): Run {
    match op
    case OpBegin => run.(status := RunningRun, attemptCount := if n > run.attemptCount then n else run.attemptCount)
    case OpSkip => run.(status := Skipped, limitation := SkippedLimitation)
    case OpRetry => run.(status := PendingRun)
    case OpTerminal => run.(status := BrowserError, limitation := StorageLimitation)
    case OpFinalize(status) => run.(status := status, limitation := EvidenceLimitation)
  }

  predicate Enqueues(run: Run, op: Op) {
    op.OpFinalize? && run.kind != IncidentKind
  }

  /** What the transaction writes to its window after seeing the committed runs and its own write. */
  function WindowWrite(runs: map<Id, Run>, r: Id, n: nat, op: Op): Option<WindowStatus>
    requires r in runs
  {
    match op
    case OpBegin => Some(WindowRunning)
    case OpRetry => None
    case _ => Some(Aggregate(runs[r := RunAfter(runs[r], n, op)], runs[r].window))
  }

  function Written(db: Db, r: Id, n: nat, op: Op, w: Option<WindowStatus>): Db
    requires r in db.runs
  {
    var run := db.runs[r];
    Db(db.runs[r := RunAfter(run, n, op)],
       db.attempts[(r, n) := AttemptAfter(op)],
       if w.Some? && run.window in db.windows then db.windows[run.window := w.value] else db.windows,
       if Enqueues(run, op) then db.jobs + {r} else db.jobs,
       db.on)
  }

  /** The transaction run with nothing interleaved. */
  function Perform(db: Db, r: Id, n: nat, op: Op): Db
    requires r in db.runs
  {
    Written(db, r, n, op, WindowWrite(db.runs, r, n, op))
  }

  datatype BeginOutcome = Started | SkippedNow | SkippedBefore | Refused

  function BeginAttempt(db: Db, r: Id, n: nat): (Db, BeginOutcome) {
    if r !in db.runs then (db, Refused)
    else if Final(db.runs[r].status) then
      (db, if db.runs[r].status == Skipped && db.runs[r].limitation == SkippedLimitation then SkippedBefore else Refused)
    else if (r, n) in db.attempts then (db, Refused)
    else if db.runs[r].kind == ScheduledKind && !db.on then (Perform(db, r, n, OpSkip), SkippedNow)
    else (Perform(db, r, n, OpBegin), Started)
  }

  /** The three ways to end an attempt raise unless run and attempt are both running. */
  function EndAttempt(db: Db, r: Id, n: nat, op: Op): (Db, bool)
    requires op == OpRetry || op == OpTerminal || (op.OpFinalize? && EvidenceStatus(op.status))
  {
    if Admits(db, r, n, op) then (Perform(db, r, n, op), true) else (db, false)
  }

  /** The run is still open and has not been attempted under this number. */
  predicate Startable(db: Db, r: Id, n: nat) {
    r in db.runs && (db.runs[r].status == PendingRun || db.runs[r].status == RunningRun) && (r, n) !in db.attempts
  }

  /** A run is admitted to begin exactly through its guard: the first check that fails decides. */
  lemma BeginIsGuarded(db: Db, r: Id, n: nat)
    ensures var (db', outcome) := BeginAttempt(db, r, n);
      && (outcome == Started <==> Startable(db, r, n) && (db.runs[r].kind != ScheduledKind || db.on))
      && (outcome == SkippedNow <==> Startable(db, r, n) && db.runs[r].kind == ScheduledKind && !db.on)
      && (outcome == SkippedBefore <==> r in db.runs && db.runs[r].status == Skipped && db.runs[r].limitation == SkippedLimitation)
      && (outcome == Started <==> Admits(db, r, n, OpBegin)) && (outcome == SkippedNow <==> Admits(db, r, n, OpSkip))
      && (outcome != Started && outcome != SkippedNow ==> db' == db)
      && (outcome == SkippedNow ==> Final(db'.runs[r].status) && db'.jobs == db.jobs)
  {
  }

  /** An attempt is ended exactly while it and its run are both running; a refused end changes nothing. */
  lemma EndIsGuarded(db: Db, r: Id, n: nat, op: Op)
    requires op == OpRetry || op == OpTerminal || (op.OpFinalize? && EvidenceStatus(op.status))
    ensures EndAttempt(db, r, n, op).1 <==>
      r in db.runs && db.runs[r].status == RunningRun && (r, n) in db.attempts && db.attempts[(r, n)] == RunningRun
    ensures !EndAttempt(db, r, n, op).1 ==> EndAttempt(db, r, n, op).0 == db
  {
  }
}
