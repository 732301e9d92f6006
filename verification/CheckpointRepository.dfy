/** The checkpoint repository: row updates and the status loop, against CheckpointStore. */
module CheckpointRepository {
  import opened Contracts
  import opened CheckpointStore
  import Names

  class Repository {
    var runs: map<Id, Run>
    var attempts: Attempts
    var windows: map<Id, WindowStatus>
    var jobs: set<Id>
    var on: bool

    ghost function Contents(): Db
      reads this
    {
      Db(runs, attempts, windows, jobs, on)
    }

    constructor (runs: map<Id, Run>, windows: map<Id, WindowStatus>, on: bool)
      ensures Contents() == Db(runs, map[], windows, {}, on)
    {
      this.runs, this.windows, this.on := runs, windows, on;
      attempts, jobs := map[], {};
    }

    method CountStatuses(w: Id) returns (total: int, nonfinal: int, pending: int, failures: int)
      ensures total == |runs.Keys * RunsIn(runs, w)|
      ensures nonfinal == |runs.Keys * Unfinished(runs, w)|
      ensures pending == |runs.Keys * WithStatus(runs, w, PendingRun)|
      ensures failures == |runs.Keys * WithStatus(runs, w, BrowserError)|
    {
      hide RunsIn, Unfinished, WithStatus, Final;
      total, nonfinal, pending, failures := 0, 0, 0, 0;
      var rest := runs.Keys;
      ghost var seen: set<Id> := {};
      while rest != {}
        invariant seen + rest == runs.Keys && seen !! rest
        invariant total == |seen * RunsIn(runs, w)|
        invariant nonfinal == |seen * Unfinished(runs, w)|
        invariant pending == |seen * WithStatus(runs, w, PendingRun)|
        invariant failures == |seen * WithStatus(runs, w, BrowserError)|
      {
        ghost var _ := Names.Member(rest);
        var r :| r in rest;
        CountRun(runs, w, seen, r);
        Move(seen, rest, r);
        if runs[r].window == w {
          total := total + 1;
          nonfinal := nonfinal + if Final(runs[r].status) then 0 else 1;
          pending := pending + if runs[r].status == PendingRun then 1 else 0;
          failures := failures + if runs[r].status == BrowserError then 1 else 0;
        }
        seen, rest := seen + {r}, rest - {r};
      }
      AllSeen(seen, runs.Keys);
    }

    method RefreshWindowStatus(w: Id)
      modifies this`windows
      ensures windows == if w in old(windows) then old(windows)[w := Aggregate(runs, w)] else old(windows)
    {
      if w !in windows {
        return;
      }
      var total, nonfinal, pending, failures := CountStatuses(w);
      AggregateFromCounts(runs, w, total, nonfinal, pending, failures);
      hide RunsIn, Unfinished, WithStatus, Aggregate;
      if total == 0 {
        windows := windows[w := WindowScheduled];
      } else if nonfinal > 0 {
        windows := windows[w := if pending != total then WindowRunning else WindowScheduled];
      } else if failures == total {
        windows := windows[w := WindowFailed];
      } else if failures > 0 {
        windows := windows[w := WindowPartial];
      } else {
        windows := windows[w := WindowComplete];
      }
    }

    method TerminalizeSkipped(r: Id, n: nat)
      requires r in runs
      modifies this
      ensures Contents() == Perform(old(Contents()), r, n, OpSkip)
    {
      attempts := attempts[(r, n) := Skipped];
      runs := runs[r := runs[r].(status := Skipped)];
      runs := runs[r := runs[r].(limitation := SkippedLimitation)];
      assert runs == old(runs)[r := RunAfter(old(runs)[r], n, OpSkip)];
      RefreshWindowStatus(runs[r].window);
    }

    method Begin(r: Id, n: nat) returns (outcome: BeginOutcome)
      modifies this
      ensures (Contents(), outcome) == BeginAttempt(old(Contents()), r, n)
    {
      if r !in runs {
        return Refused;
      }
      if Final(runs[r].status) {
        if runs[r].status == Skipped && runs[r].limitation == SkippedLimitation {
          return SkippedBefore;
        }
        return Refused;
      }
      if (r, n) in attempts {
        return Refused;
      }
      if runs[r].kind == ScheduledKind && !on {
        TerminalizeSkipped(r, n);
        return SkippedNow;
      }
      runs := runs[r := runs[r].(status := RunningRun)];
      runs := runs[r := runs[r].(attemptCount := if n > runs[r].attemptCount then n else runs[r].attemptCount)];
      assert runs == old(runs)[r := RunAfter(old(runs)[r], n, OpBegin)];
      if runs[r].window in windows {
        windows := windows[runs[r].window := WindowRunning];
      }
      attempts := attempts[(r, n) := RunningRun];
      return Started;
    }

    method RecordRetryableFailure(r: Id, n: nat) returns (ok: bool)
      modifies this
      ensures (Contents(), ok) == EndAttempt(old(Contents()), r, n, OpRetry)
    {
      if r !in runs || runs[r].status != RunningRun || (r, n) !in attempts || attempts[(r, n)] != RunningRun {
        return false;
      }
      attempts := attempts[(r, n) := BrowserError];
      runs := runs[r := runs[r].(status := PendingRun)];
      return true;
    }

    method FinalizeTerminalFailure(r: Id, n: nat) returns (ok: bool)
      modifies this
      ensures (Contents(), ok) == EndAttempt(old(Contents()), r, n, OpTerminal)
    {
      if r !in runs || runs[r].status != RunningRun || (r, n) !in attempts || attempts[(r, n)] != RunningRun {
        return false;
      }
      attempts := attempts[(r, n) := BrowserError];
      runs := runs[r := runs[r].(status := BrowserError)];
      runs := runs[r := runs[r].(limitation := StorageLimitation)];
      assert runs == old(runs)[r := RunAfter(old(runs)[r], n, OpTerminal)];
      RefreshWindowStatus(runs[r].window);
      return true;
    }

    method Finalize(r: Id, n: nat, status: RunStatus) returns (ok: bool)
      requires EvidenceStatus(status)
      modifies this
      ensures (Contents(), ok) == EndAttempt(old(Contents()), r, n, OpFinalize(status))
    {
      if r !in runs || runs[r].status != RunningRun || (r, n) !in attempts || attempts[(r, n)] != RunningRun {
        return false;
      }
      attempts := attempts[(r, n) := status];
      runs := runs[r := runs[r].(status := status)];
      runs := runs[r := runs[r].(limitation := EvidenceLimitation)];
      assert runs == old(runs)[r := RunAfter(old(runs)[r], n, OpFinalize(status))];
      if runs[r].kind == ScheduledKind {
        jobs := jobs + {r};
      } else if runs[r].kind == DiagnosticKind {
        jobs := jobs + {r};
      }
      RefreshWindowStatus(runs[r].window);
      return true;
    }
  }

  function Unfinished(runs: map<Id, Run>, w: Id): set<Id> {
    set r | r in runs && runs[r].window == w && !Final(runs[r].status)
  }

  function One(b: bool): int {
    if b then 1 else 0
  }

  lemma CountOne(seen: set<Id>, r: Id, chosen: set<Id>)
    requires r !in seen
    ensures |(seen + {r}) * chosen| == |seen * chosen| + One(r in chosen)
  {
    if r in chosen {
      assert (seen + {r}) * chosen == seen * chosen + {r};
    } else {
      assert (seen + {r}) * chosen == seen * chosen;
    }
  }

  lemma Move<T>(seen: set<T>, rest: set<T>, r: T)
    requires r in rest && seen !! rest
    ensures (seen + {r}) + (rest - {r}) == seen + rest && (seen + {r}) !! (rest - {r}) && |rest - {r}| < |rest|
  {
  }

  lemma AllSeen<T>(seen: set<T>, all: set<T>)
    requires seen + {} == all
    ensures seen == all
  {
  }

  lemma CountRun(runs: map<Id, Run>, w: Id, seen: set<Id>, r: Id)
    requires r in runs && r !in seen
    ensures var inside, status, next := runs[r].window == w, runs[r].status, seen + {r};
      && |next * RunsIn(runs, w)| == |seen * RunsIn(runs, w)| + One(inside)
      && |next * Unfinished(runs, w)| == |seen * Unfinished(runs, w)| + One(inside && !Final(status))
      && |next * WithStatus(runs, w, PendingRun)| == |seen * WithStatus(runs, w, PendingRun)| + One(inside && status == PendingRun)
      && |next * WithStatus(runs, w, BrowserError)|
         == |seen * WithStatus(runs, w, BrowserError)| + One(inside && status == BrowserError)
  {
    CountOne(seen, r, RunsIn(runs, w));
    CountOne(seen, r, Unfinished(runs, w));
    CountOne(seen, r, WithStatus(runs, w, PendingRun));
    CountOne(seen, r, WithStatus(runs, w, BrowserError));
  }

  lemma SubsetFills(a: set<Id>, b: set<Id>)
    requires a <= b
    ensures |a| == |b| <==> a == b
    ensures |a| <= |b|
  {
    assert b == a + (b - a);
    assert |b| == |a| + |b - a|;
    if |b - a| == 0 {
      assert b - a == {};
    }
  }

  function StatusFromCounts(total: int, nonfinal: int, pending: int, failures: int): WindowStatus {
    if total == 0 then WindowScheduled
    else if nonfinal > 0 then if pending != total then WindowRunning else WindowScheduled
    else if failures == total then WindowFailed
    else if failures > 0 then WindowPartial
    else WindowComplete
  }

  lemma AggregateFromCounts(runs: map<Id, Run>, w: Id, total: int, nonfinal: int, pending: int, failures: int)
    requires total == |runs.Keys * RunsIn(runs, w)|
    requires nonfinal == |runs.Keys * Unfinished(runs, w)|
    requires pending == |runs.Keys * WithStatus(runs, w, PendingRun)|
    requires failures == |runs.Keys * WithStatus(runs, w, BrowserError)|
    ensures Aggregate(runs, w) == StatusFromCounts(total, nonfinal, pending, failures)
  {
    var inside, open := RunsIn(runs, w), Unfinished(runs, w);
    var waiting, failed := WithStatus(runs, w, PendingRun), WithStatus(runs, w, BrowserError);
    assert runs.Keys * inside == inside && runs.Keys * open == open;
    assert runs.Keys * waiting == waiting && runs.Keys * failed == failed;
    SubsetFills(waiting, inside);
    SubsetFills(failed, inside);
    UnfinishedIffSomeOpen(runs, w);
    hide RunsIn, Unfinished, WithStatus, AllFinal;
    assert |open| == 0 <==> open == {};
  }

  lemma UnfinishedIffSomeOpen(runs: map<Id, Run>, w: Id)
    ensures Unfinished(runs, w) == {} <==> AllFinal(runs, w)
  {
    assert Unfinished(runs, w) == {} ==> forall r :: r in RunsIn(runs, w) ==> r !in Unfinished(runs, w);
    if Unfinished(runs, w) != {} {
      var open := Names.Member(Unfinished(runs, w));
      assert open in RunsIn(runs, w);
    }
  }
}
