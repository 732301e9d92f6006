/** The in-memory attempt limiter: one step as a function, and the sliding log it must equal. */
module RateLimit {
  import opened Contracts

  /** `IndexFailure` is the empty list the source indexes when no attempt is allowed at all. */
  datatype Answer = Admitted | Refused(retryAfter: real) | IndexFailure

  type Counts = map<Name, seq<real>>

  datatype State = State(counts: Counts, lastCleanup: real)

  datatype Limits = Limits(maxAttempts: int, window: real, cleanupInterval: real)

  function Recent(times: seq<real>, start: real): seq<real> {
    if times == [] then []
    else
      var last := times[|times| - 1];
      Recent(times[..|times| - 1], start) + if last > start then [last] else []
  }

  function Attempts(counts: Counts, key: Name): seq<real> {
    if key in counts then counts[key] else []
  }

  function Cleaned<K>(counts: map<K, seq<real>>, start: real): map<K, seq<real>> {
    map k | k in counts && Recent(counts[k], start) != [] :: Recent(counts[k], start)
  }

  function AfterCleanup(s: State, now: real, limits: Limits): State {
    if now - s.lastCleanup >= limits.cleanupInterval then State(Cleaned(s.counts, now - limits.window), now) else s
  }

  /** One call with one reading of the clock. */
  function Check(s: State, key: Name, now: real, limits: Limits): (State, Answer) {
    var swept := AfterCleanup(s, now, limits);
    var times := Recent(Attempts(swept.counts, key), now - limits.window);
    if |times| >= limits.maxAttempts then
      (swept.(counts := swept.counts[key := times]),
       if times == [] then IndexFailure
       else Refused(if times[0] + limits.window - now >= 0.0 then times[0] + limits.window - now else 0.0))
    else (swept.(counts := swept.counts[key := times + [now]]), Admitted)
  }

  function Cleared(s: State, key: Name): State {
    s.(counts := s.counts - {key})
  }

  // ---------------------------------------------------------------- traces

  datatype Event = Attempt(key: Name, at: real) | Clear(key: Name, at: real)

  function Step(s: State, e: Event, limits: Limits): State {
    match e
    case Attempt(key, at) => Check(s, key, at, limits).0
    case Clear(key, _) => Cleared(s, key)
  }

  function Run(es: seq<Event>, limits: Limits): State {
    if es == [] then State(map[], 0.0) else Step(Run(es[..|es| - 1], limits), es[|es| - 1], limits)
  }

  predicate Ordered(es: seq<Event>) {
    forall i, j :: 0 <= i < j < |es| ==> es[i].at <= es[j].at
  }

  /** The sliding log: every admitted time of a key since it was last cleared, none ever pruned. */
  function Admissions(es: seq<Event>, key: Name, limits: Limits): seq<real> {
    if es == [] then []
    else
      var before, last := Admissions(es[..|es| - 1], key, limits), es[|es| - 1];
      if last.key != key then before
      else if last.Clear? then []
      else if |Recent(before, last.at - limits.window)| < limits.maxAttempts then before + [last.at]
      else before
  }

  function LogAnswer(log: seq<real>, now: real, limits: Limits): Answer {
    var times := Recent(log, now - limits.window);
    if |times| < limits.maxAttempts then Admitted
    else if times == [] then IndexFailure
    else Refused(times[0] + limits.window - now)
  }

  // ---------------------------------------------------------------- lemmas about the filter

  lemma {:induction false} RecentMembers(times: seq<real>, start: real)
    ensures |Recent(times, start)| <= |times|
    ensures forall t :: t in Recent(times, start) <==> t in times && t > start
  {
    if times != [] {
      RecentMembers(times[..|times| - 1], start);
      assert times == times[..|times| - 1] + [times[|times| - 1]];
    }
  }

  lemma {:induction false} RecentOfRecent(times: seq<real>, a: real, b: real)
    requires a <= b
    ensures Recent(Recent(times, a), b) == Recent(times, b)
  {
    if times != [] {
      var before, last := times[..|times| - 1], times[|times| - 1];
      RecentOfRecent(before, a, b);
      if last > a {
        var kept := Recent(before, a) + [last];
        assert kept[..|kept| - 1] == Recent(before, a);
      } else {
        assert Recent(times, a) == Recent(before, a);
        assert Recent(times, b) == Recent(before, b);
      }
    }
  }

  lemma RecentOfAppend(times: seq<real>, t: real, start: real)
    ensures Recent(times + [t], start) == Recent(times, start) + if t > start then [t] else []
  {
    assert (times + [t])[..|times|] == times;
  }

  predicate Sorted(times: seq<real>) {
    forall i, j :: 0 <= i < j < |times| ==> times[i] <= times[j]
  }

  lemma {:induction false} RecentIsSorted(times: seq<real>, start: real)
    requires Sorted(times)
    ensures Sorted(Recent(times, start))
  {
    if times != [] {
      var before := times[..|times| - 1];
      RecentIsSorted(before, start);
      RecentMembers(before, start);
      assert forall t :: t in before ==> t <= times[|times| - 1];
      assert forall i :: 0 <= i < |Recent(before, start)| ==> Recent(before, start)[i] in Recent(before, start);
    }
  }

  /** Of a sorted list nothing is dropped exactly while its first element is recent. */
  lemma {:induction false} RecentKeepsAll(times: seq<real>, start: real)
    requires Sorted(times) && times != []
    ensures |Recent(times, start)| == |times| <==> times[0] > start
  {
    var before, last := times[..|times| - 1], times[|times| - 1];
    RecentMembers(before, start);
    if before != [] {
      RecentKeepsAll(before, start);
    }
  }

  // ---------------------------------------------------------------- the machine equals the sliding log

  /** Up to what can still be recent, the stored attempts of every key are its log. */
  ghost predicate Tracks(s: State, es: seq<Event>, last: real, limits: Limits) {
    forall key, start :: start >= last - limits.window ==>
      Recent(Attempts(s.counts, key), start) == Recent(Admissions(es, key, limits), start)
  }

  lemma CleanupTracks(s: State, es: seq<Event>, last: real, now: real, limits: Limits)
    requires Tracks(s, es, last, limits) && last <= now
    ensures Tracks(AfterCleanup(s, now, limits), es, now, limits)
  {
    hide AfterCleanup, Recent, Attempts, Admissions;
    forall key, start | start >= now - limits.window
      ensures Recent(Attempts(AfterCleanup(s, now, limits).counts, key), start) == Recent(Admissions(es, key, limits), start)
    {
      SweptKey(s, now, key, start, limits);
      assert Recent(Attempts(s.counts, key), start) == Recent(Admissions(es, key, limits), start);
    }
  }

  /** Sweeping drops of a key only what is not recent anyway. */
  lemma SweptKey(s: State, now: real, key: Name, start: real, limits: Limits)
    requires start >= now - limits.window
    ensures Recent(Attempts(AfterCleanup(s, now, limits).counts, key), start) == Recent(Attempts(s.counts, key), start)
  {
    var from := now - limits.window;
    RecentOfRecent(Attempts(s.counts, key), from, start);
    assert Recent([], start) == [];
    hide Recent;
    assert Attempts(Cleaned(s.counts, from), key) == Recent(Attempts(s.counts, key), from) || key !in s.counts;
  }

  /** The two states of one key, the stored list and the log, around one attempt of that key. */
  lemma AttemptTracks(stored: seq<real>, log: seq<real>, now: real, from: real, max: int, start: real)
    requires Recent(stored, from) == Recent(log, from) && start >= from
    ensures var times, full := Recent(stored, from), |Recent(stored, from)| >= max;
      Recent(if full then times else times + [now], start) == Recent(if full then log else log + [now], start)
  {
    RecentOfRecent(log, from, start);
    RecentOfAppend(Recent(stored, from), now, start);
    RecentOfAppend(log, now, start);
  }

  lemma AdmissionsAfterAttempt(es: seq<Event>, key: Name, now: real, k: Name, limits: Limits)
    ensures var log := Admissions(es, k, limits);
      Admissions(es + [Attempt(key, now)], k, limits) ==
      if k == key && |Recent(log, now - limits.window)| < limits.maxAttempts then log + [now] else log
  {
    var all := es + [Attempt(key, now)];
    assert all[..|all| - 1] == es && all[|all| - 1] == Attempt(key, now);
  }

  lemma AttemptsAfterCheck(s: State, key: Name, now: real, k: Name, limits: Limits)
    ensures var stored := Attempts(AfterCleanup(s, now, limits).counts, k);
      var times := Recent(stored, now - limits.window);
      Attempts(Check(s, key, now, limits).0.counts, k) ==
      if k != key then stored else if |times| >= limits.maxAttempts then times else times + [now]
  {
    hide AfterCleanup, Recent;
  }

  lemma CheckTracks(s: State, es: seq<Event>, last: real, key: Name, now: real, limits: Limits)
    requires Tracks(s, es, last, limits) && last <= now
    ensures Tracks(Check(s, key, now, limits).0, es + [Attempt(key, now)], now, limits)
  {
    var swept, from := AfterCleanup(s, now, limits), now - limits.window;
    CleanupTracks(s, es, last, now, limits);
    hide AfterCleanup, Check, Admissions, Recent, Attempts;
    forall k, start | start >= from
      ensures Recent(Attempts(Check(s, key, now, limits).0.counts, k), start)
           == Recent(Admissions(es + [Attempt(key, now)], k, limits), start)
    {
      assert Recent(Attempts(swept.counts, k), from) == Recent(Admissions(es, k, limits), from);
      assert Recent(Attempts(swept.counts, k), start) == Recent(Admissions(es, k, limits), start);
      KeyTracks(s, es, key, now, k, start, limits);
    }
  }

  lemma KeyTracks(s: State, es: seq<Event>, key: Name, now: real, k: Name, start: real, limits: Limits)
    requires var stored, log := Attempts(AfterCleanup(s, now, limits).counts, k), Admissions(es, k, limits);
      && start >= now - limits.window
      && Recent(stored, now - limits.window) == Recent(log, now - limits.window)
      && Recent(stored, start) == Recent(log, start)
    ensures Recent(Attempts(Check(s, key, now, limits).0.counts, k), start)
         == Recent(Admissions(es + [Attempt(key, now)], k, limits), start)
  {
    hide AfterCleanup, Check, Admissions, Recent, Attempts;
    var stored, log := Attempts(AfterCleanup(s, now, limits).counts, k), Admissions(es, k, limits);
    AdmissionsAfterAttempt(es, key, now, k, limits);
    AttemptsAfterCheck(s, key, now, k, limits);
    if k == key {
      AttemptTracks(stored, log, now, now - limits.window, limits.maxAttempts, start);
    }
  }

  lemma FirstIsRecent(times: seq<real>, start: real)
    ensures Recent(times, start) != [] ==> Recent(times, start)[0] > start
  {
    RecentMembers(times, start);
    var kept := Recent(times, start);
    hide Recent;
    assert kept != [] ==> kept[0] in kept;
  }

  lemma AnswerTracks(s: State, es: seq<Event>, last: real, key: Name, now: real, limits: Limits)
    requires Tracks(s, es, last, limits) && last <= now
    ensures Check(s, key, now, limits).1 == LogAnswer(Admissions(es, key, limits), now, limits)
  {
    hide AfterCleanup, Recent, Admissions, Attempts;
    var swept, from := AfterCleanup(s, now, limits), now - limits.window;
    CleanupTracks(s, es, last, now, limits);
    assert Recent(Attempts(swept.counts, key), from) == Recent(Admissions(es, key, limits), from);
    FirstIsRecent(Admissions(es, key, limits), from);
    hide Tracks;
  }

  lemma ClearTracks(s: State, es: seq<Event>, last: real, key: Name, now: real, limits: Limits)
    requires Tracks(s, es, last, limits) && last <= now
    ensures Tracks(Cleared(s, key), es + [Clear(key, now)], now, limits)
  {
    var all, s' := es + [Clear(key, now)], Cleared(s, key);
    assert all[..|all| - 1] == es && all[|all| - 1] == Clear(key, now);
    forall k, start | start >= now - limits.window
      ensures Recent(Attempts(s'.counts, k), start) == Recent(Admissions(all, k, limits), start)
    {
      hide Recent;
      if k != key {
        assert Attempts(s'.counts, k) == Attempts(s.counts, k);
      }
    }
  }

  lemma NothingTracks(limits: Limits, last: real)
    ensures Tracks(Run([], limits), [], last, limits)
  {
  }

  lemma TracksLater(s: State, es: seq<Event>, last: real, later: real, limits: Limits)
    requires last <= later && Tracks(s, es, last, limits)
    ensures Tracks(s, es, later, limits)
  {
  }

  lemma {:induction false} MachineTracks(es: seq<Event>, limits: Limits, last: real)
    requires Ordered(es) && (es != [] ==> es[|es| - 1].at <= last)
    ensures Tracks(Run(es, limits), es, last, limits)
  {
    hide Check, Cleared, Admissions, Tracks, Recent;
    if es == [] {
      NothingTracks(limits, last);
    } else {
      var before, e := es[..|es| - 1], es[|es| - 1];
      MachineTracks(before, limits, e.at);
      assert before + [e] == es;
      EventTracks(Run(before, limits), before, e, limits);
      TracksLater(Run(es, limits), es, e.at, last, limits);
    }
  }

  lemma EventTracks(s: State, before: seq<Event>, e: Event, limits: Limits)
    requires Tracks(s, before, e.at, limits) && Run(before, limits) == s
    ensures Tracks(Run(before + [e], limits), before + [e], e.at, limits)
  {
    hide Check, Cleared, Admissions, Tracks, Recent;
    assert (before + [e])[..|before|] == before;
    match e
    case Attempt(key, at) => CheckTracks(s, before, at, key, at, limits);
    case Clear(key, at) => ClearTracks(s, before, at, key, at, limits);
  }

  /**
    On every trace with a clock that does not go back, each answer is the answer of the sliding log:
    pruning, whenever it happens to run, never changes one.
  */
  lemma PruningChangesNoAnswer(es: seq<Event>, key: Name, now: real, limits: Limits)
    requires Ordered(es) && (es != [] ==> es[|es| - 1].at <= now)
    ensures Check(Run(es, limits), key, now, limits).1 == LogAnswer(Admissions(es, key, limits), now, limits)
  {
    MachineTracks(es, limits, now);
    AnswerTracks(Run(es, limits), es, now, key, now, limits);
  }

  // ---------------------------------------------------------------- bound and retry time

  /** The admitted times in the half-open span (end - window, end]. */
  function Within(times: seq<real>, end: real, window: real): seq<real> {
    if times == [] then []
    else
      var last := times[|times| - 1];
      Within(times[..|times| - 1], end, window) + if end - window < last <= end then [last] else []
  }

  lemma {:induction false} WithinIsRecent(times: seq<real>, end: real, window: real, now: real)
    requires end >= now
    ensures |Within(times, end, window)| <= |Recent(times, now - window)|
  {
    if times != [] {
      WithinIsRecent(times[..|times| - 1], end, window, now);
    }
  }

  /** No half-open span of the window's length holds more admitted attempts of a key than allowed. */
  lemma {:induction false} SpanHoldsAtMostMax(es: seq<Event>, key: Name, limits: Limits, end: real)
    requires Ordered(es) && limits.maxAttempts >= 0
    ensures |Within(Admissions(es, key, limits), end, limits.window)| <= limits.maxAttempts
  {
    if es != [] {
      var before, e := es[..|es| - 1], es[|es| - 1];
      SpanHoldsAtMostMax(before, key, limits, end);
      var log := Admissions(before, key, limits);
      assert (log + [e.at])[..|log|] == log;
      if e.at <= end {
        WithinIsRecent(log, end, limits.window, e.at);
      }
    }
  }

  lemma {:induction false} AdmissionsAreSorted(es: seq<Event>, key: Name, limits: Limits)
    requires Ordered(es)
    ensures Sorted(Admissions(es, key, limits))
    ensures forall t :: t in Admissions(es, key, limits) ==> es != [] && t <= es[|es| - 1].at
  {
    if es != [] {
      var before, e := es[..|es| - 1], es[|es| - 1];
      AdmissionsAreSorted(before, key, limits);
      var log := Admissions(before, key, limits);
      if before != [] {
        assert before[|before| - 1] == es[|es| - 2] && es[|es| - 2].at <= e.at;
      }
      assert forall i :: 0 <= i < |log| ==> log[i] in log;
    }
  }

  lemma {:induction false} RecentWithin(times: seq<real>, end: real, window: real)
    requires forall t :: t in times ==> t <= end
    ensures Recent(times, end - window) == Within(times, end, window)
  {
    if times != [] {
      var before := times[..|times| - 1];
      assert times[|times| - 1] in times;
      forall t | t in before
        ensures t <= end
      {
        assert t in times;
      }
      RecentWithin(before, end, window);
    }
  }

  lemma LogFreesAtRetryTime(es: seq<Event>, key: Name, now: real, later: real, limits: Limits)
    requires Ordered(es) && (es != [] ==> es[|es| - 1].at <= now) && now <= later && limits.maxAttempts >= 1
    requires LogAnswer(Admissions(es, key, limits), now, limits).Refused?
    ensures LogAnswer(Admissions(es, key, limits), now, limits).retryAfter > 0.0
    ensures LogAnswer(Admissions(es, key, limits), later, limits).Admitted? <==>
            later >= now + LogAnswer(Admissions(es, key, limits), now, limits).retryAfter
  {
    var log := Admissions(es, key, limits);
    var times := Recent(log, now - limits.window);
    AdmissionsAreSorted(es, key, limits);
    RecentIsSorted(log, now - limits.window);
    RecentMembers(log, now - limits.window);
    SpanHoldsAtMostMax(es, key, limits, now);
    assert forall t :: t in log ==> t <= now;
    RecentWithin(log, now, limits.window);
    FullListFrees(log, times, now, later, limits);
  }

  lemma FullListFrees(log: seq<real>, times: seq<real>, now: real, later: real, limits: Limits)
    requires times == Recent(log, now - limits.window) && Sorted(times) && now <= later
    requires |times| == limits.maxAttempts >= 1
    ensures LogAnswer(log, now, limits).Refused? && LogAnswer(log, now, limits).retryAfter > 0.0
    ensures LogAnswer(log, later, limits).Admitted? <==> later >= now + LogAnswer(log, now, limits).retryAfter
  {
    hide Sorted;
    var start, oldest := later - limits.window, times[0];
    assert oldest > now - limits.window by {
      RecentMembers(log, now - limits.window);
      assert oldest in times;
    }
    var left := Recent(log, start);
    assert |left| < limits.maxAttempts <==> oldest <= start by {
      RecentOfRecent(log, now - limits.window, start);
      RecentKeepsAll(times, start);
      RecentMembers(times, start);
    }
    hide Recent;
    assert LogAnswer(log, now, limits) == Refused(oldest + limits.window - now);
    assert LogAnswer(log, later, limits).Admitted? <==> |left| < limits.maxAttempts;
  }

  function RetryTime(es: seq<Event>, key: Name, now: real, limits: Limits): real {
    match LogAnswer(Admissions(es, key, limits), now, limits)
    case Refused(retryAfter) => now + retryAfter
    case _ => now
  }

  /** Any traffic after a refusal that does not clear the key and tries it only before its retry time. */
  predicate Waits(more: seq<Event>, key: Name, now: real, retryTime: real) {
    forall e :: e in more ==> e.at >= now && (e.key == key ==> e.Attempt? && e.at < retryTime)
  }

  lemma {:induction false} WaitingKeepsLog(es: seq<Event>, more: seq<Event>, key: Name, now: real, limits: Limits)
    requires Ordered(es) && (es != [] ==> es[|es| - 1].at <= now) && limits.maxAttempts >= 1
    requires LogAnswer(Admissions(es, key, limits), now, limits).Refused?
    requires Waits(more, key, now, RetryTime(es, key, now, limits))
    ensures Admissions(es + more, key, limits) == Admissions(es, key, limits)
    decreases |more|
  {
    if more == [] {
      assert es + more == es;
    } else {
      var rest, e := more[..|more| - 1], more[|more| - 1];
      assert (es + more)[..|es + more| - 1] == es + rest && e in more;
      forall x | x in rest
        ensures x.at >= now && (x.key == key ==> x.Attempt? && x.at < RetryTime(es, key, now, limits))
      {
        assert x in more;
      }
      WaitingKeepsLog(es, rest, key, now, limits);
      if e.key == key {
        LogFreesAtRetryTime(es, key, now, e.at, limits);
      }
    }
  }

  /**
    A refusal's retry time is exact: it lies in the future, and whatever traffic follows that neither
    clears the key nor tries it once the time has come, an attempt is admitted exactly from then on.
  */
  lemma RetryAfterIsExact(es: seq<Event>, more: seq<Event>, key: Name, now: real, later: real, limits: Limits)
    requires Ordered(es + more) && Ordered(es) && limits.maxAttempts >= 1
    requires (es != [] ==> es[|es| - 1].at <= now) && now <= later && forall e :: e in es + more ==> e.at <= later
    requires Check(Run(es, limits), key, now, limits).1.Refused?
    requires Waits(more, key, now, RetryTime(es, key, now, limits))
    ensures RetryTime(es, key, now, limits) == now + Check(Run(es, limits), key, now, limits).1.retryAfter > now
    ensures Check(Run(es + more, limits), key, later, limits).1.Admitted? <==> later >= RetryTime(es, key, now, limits)
  {
    PruningChangesNoAnswer(es, key, now, limits);
    hide Check, Run, Ordered;
    WaitingKeepsLog(es, more, key, now, limits);
    PruningChangesNoAnswer(es + more, key, later, limits);
    LogFreesAtRetryTime(es, key, now, later, limits);
  }
}
