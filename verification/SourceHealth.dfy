/**
  Reliability of the browser source: what one diagnostic run adds to a site's list of reliability
  events, and what the list says about every history of diagnostics.
*/
module SourceHealth {
  import opened Contracts

  /** The stored access classification; anything malformed reads as none. */
  datatype Access = NoClassification | AccessOk | AccessDegraded | AccessChallenge

  datatype Diagnostic = Diagnostic(run: Id, access: Access, observedAt: Option<Time>)

  /** One reliability event: its trigger run, its time, its code, and the degradation it recovers from with its time. */
  datatype Entry = Entry(run: Id, at: Time, code: Code, recovers: Option<Id>, since: Option<Time>)

  predicate Classified(d: Diagnostic) {
    d.access != NoClassification && d.observedAt.Some?
  }

  predicate Bad(d: Diagnostic) {
    Classified(d) && d.access != AccessOk
  }

  function CodeOf(access: Access): Code
    requires access == AccessDegraded || access == AccessChallenge
  {
    if access == AccessDegraded then BrowserSourceDegraded else BrowserAccessChallengeSuspected
  }

  predicate IsDegraded(log: seq<Entry>) {
    log != [] && log[|log| - 1].code != BrowserSourceRecovered
  }

  /** What a diagnostic appends: a degradation not yet listed, or a recovery strictly after an open one. */
  function Derived(log: seq<Entry>, d: Diagnostic): seq<Entry> {
    if !Classified(d) then log
    else if d.access == AccessOk then
      if IsDegraded(log) && d.observedAt.value > log[|log| - 1].at && d.run != log[|log| - 1].run
      then log + [Entry(d.run, d.observedAt.value, BrowserSourceRecovered, Some(log[|log| - 1].run), Some(log[|log| - 1].at))]
      else log
    else
      var entry := Entry(d.run, d.observedAt.value, CodeOf(d.access), None, None);
      if entry in log then log else log + [entry]
  }

  function Log(ds: seq<Diagnostic>): seq<Entry> {
    if ds == [] then [] else Derived(Log(ds[..|ds| - 1]), ds[|ds| - 1])
  }

  // ---------------------------------------------------------------- histories

  /** Observation times do not decrease and no two diagnostics are the same run. */
  predicate History(ds: seq<Diagnostic>) {
    && (forall i, j :: 0 <= i < j < |ds| && Classified(ds[i]) && Classified(ds[j]) ==>
          ds[i].observedAt.value <= ds[j].observedAt.value)
    && (forall i, j :: 0 <= i < j < |ds| ==> ds[i].run != ds[j].run)
  }

  /** Every recovery directly follows a degradation it names: the shape (D+ R)* D*. */
  predicate Shaped(log: seq<Entry>) {
    forall i :: 0 <= i < |log| ==> Fits(log, i)
  }

  predicate Fits(log: seq<Entry>, i: nat)
    requires i < |log|
  {
    if log[i].code == BrowserSourceRecovered
    then
      && i > 0 && log[i - 1].code != BrowserSourceRecovered && log[i - 1].at < log[i].at
      && log[i].recovers == Some(log[i - 1].run) && log[i].since == Some(log[i - 1].at)
    else log[i].recovers.None? && log[i].since.None? && (log[i].code == BrowserSourceDegraded || log[i].code == BrowserAccessChallengeSuspected)
  }

  lemma {:induction false} LogIsShaped(ds: seq<Diagnostic>)
    ensures Shaped(Log(ds))
  {
    if ds != [] {
      LogIsShaped(ds[..|ds| - 1]);
      DerivedIsShaped(Log(ds[..|ds| - 1]), ds[|ds| - 1]);
    }
  }

  lemma DerivedIsShaped(log: seq<Entry>, d: Diagnostic)
    requires Shaped(log)
    ensures Shaped(Derived(log, d))
  {
    var log' := Derived(log, d);
    forall i | 0 <= i < |log'|
      ensures Fits(log', i)
    {
      if i < |log| {
        assert Fits(log, i);
      }
    }
  }

  /** Entries come from the history's runs, each run at most once, in the order of their times. */
  predicate Sourced(ds: seq<Diagnostic>, log: seq<Entry>) {
    && (forall e :: e in log ==> exists d :: d in ds && Classified(d) && d.run == e.run && d.observedAt.value == e.at)
    && (forall i, j :: 0 <= i < j < |log| ==> log[i].at <= log[j].at && log[i].run != log[j].run)
  }

  lemma HistoryPrefix(ds: seq<Diagnostic>)
    requires ds != [] && History(ds)
    ensures History(ds[..|ds| - 1])
  {
  }

  lemma AppendSourced(ds: seq<Diagnostic>, log: seq<Entry>, e: Entry)
    requires ds != [] && History(ds) && Sourced(ds[..|ds| - 1], log)
    requires Classified(ds[|ds| - 1]) && e.run == ds[|ds| - 1].run && e.at == ds[|ds| - 1].observedAt.value
    ensures Sourced(ds, log + [e])
  {
    var before, last := ds[..|ds| - 1], ds[|ds| - 1];
    assert last in ds && forall d :: d in before ==> d in ds;
    forall i | 0 <= i < |log|
      ensures log[i].at <= e.at && log[i].run != e.run
    {
      assert log[i] in log;
      var d :| d in before && Classified(d) && d.run == log[i].run && d.observedAt.value == log[i].at;
      var k :| 0 <= k < |before| && before[k] == d;
      assert ds[k] == d;
    }
  }

  lemma SourcedWidens(before: seq<Diagnostic>, ds: seq<Diagnostic>, log: seq<Entry>)
    requires Sourced(before, log) && forall d :: d in before ==> d in ds
    ensures Sourced(ds, log)
  {
    forall e | e in log
      ensures exists d :: d in ds && Classified(d) && d.run == e.run && d.observedAt.value == e.at
    {
      var d :| d in before && Classified(d) && d.run == e.run && d.observedAt.value == e.at;
      assert d in ds;
    }
  }

  lemma {:induction false} LogIsSourced(ds: seq<Diagnostic>)
    requires History(ds)
    ensures Sourced(ds, Log(ds))
  {
    if ds != [] {
      var before, last := ds[..|ds| - 1], ds[|ds| - 1];
      LogIsSourced(before);
      if Log(ds) != Log(before) {
        AppendSourced(ds, Log(before), Log(ds)[|Log(before)|]);
      } else {
        SourcedWidens(before, ds, Log(before));
      }
    }
  }

  // ---------------------------------------------------------------- what an entry says was seen

  /** The entry is the diagnostic's, and its code names what that diagnostic saw. */
  predicate Tells(e: Entry, d: Diagnostic) {
    && e.run == d.run && d.observedAt == Some(e.at)
    && match d.access
       case AccessDegraded => e.code == BrowserSourceDegraded
       case AccessChallenge => e.code == BrowserAccessChallengeSuspected
       case AccessOk => e.code == BrowserSourceRecovered
       case NoClassification => false
  }

  /**
    Every entry tells of a diagnostic: degraded access as a degradation, a challenge as a suspected
    challenge, ok access as a recovery; and every observed degradation or challenge is told.
  */
  lemma {:induction false} LogTellsWhatWasSeen(ds: seq<Diagnostic>)
    ensures forall e :: e in Log(ds) ==> exists d :: d in ds && Tells(e, d)
    ensures forall d :: d in ds && d.observedAt.Some? && (d.access == AccessDegraded || d.access == AccessChallenge) ==>
      exists e :: e in Log(ds) && Tells(e, d)
  {
    if ds != [] {
      var before, last := ds[..|ds| - 1], ds[|ds| - 1];
      LogTellsWhatWasSeen(before);
      assert ds == before + [last];
      LogGrows(Log(before), last);
      forall e | e in Log(ds)
        ensures exists d :: d in ds && Tells(e, d)
      {
        if e in Log(before) {
          var d :| d in before && Tells(e, d);
          assert d in ds;
        } else {
          assert last in ds && Tells(e, last);
        }
      }
      forall d | d in ds && d.observedAt.Some? && (d.access == AccessDegraded || d.access == AccessChallenge)
        ensures exists e :: e in Log(ds) && Tells(e, d)
      {
        if d == last {
          var e := Entry(d.run, d.observedAt.value, CodeOf(d.access), None, None);
          assert e in Log(ds) && Tells(e, d);
        } else {
          var e :| e in Log(before) && Tells(e, d);
          assert e in Log(ds);
        }
      }
    }
  }

  lemma LogGrows(log: seq<Entry>, d: Diagnostic)
    ensures forall e :: e in log ==> e in Derived(log, d)
    ensures forall e :: e in Derived(log, d) && e !in log ==> Classified(d) && Tells(e, d)
    ensures Bad(d) ==> Entry(d.run, d.observedAt.value, CodeOf(d.access), None, None) in Derived(log, d)
  {
  }

  // ---------------------------------------------------------------- projected health

  function LatestTime(ds: seq<Diagnostic>): Option<Time> {
    if ds == [] then None
    else if Classified(ds[|ds| - 1]) then ds[|ds| - 1].observedAt
    else LatestTime(ds[..|ds| - 1])
  }

  /** Some diagnostic of the latest observed instant is not ok. */
  predicate BadAtLatestTime(ds: seq<Diagnostic>) {
    BadAt(ds, LatestTime(ds))
  }

  lemma {:induction false} LatestTimeBounds(ds: seq<Diagnostic>, d: Diagnostic)
    requires History(ds) && d in ds && Classified(d)
    ensures LatestTime(ds).Some? && d.observedAt.value <= LatestTime(ds).value
  {
    var last := ds[|ds| - 1];
    if !Classified(last) {
      LatestTimeBounds(ds[..|ds| - 1], d);
    }
  }

  /**
    For every history the projected health is DEGRADED exactly when some diagnostic of the latest
    observed instant is not ok; the open degradation is then one of that instant.
  */
  lemma {:induction false} DegradedIffBadAtLatestTime(ds: seq<Diagnostic>)
    requires History(ds)
    ensures Projected(ds)
  {
    if ds != [] {
      var before, last := ds[..|ds| - 1], ds[|ds| - 1];
      DegradedIffBadAtLatestTime(before);
      LogIsSourced(before);
      Members(ds);
      EarlierBounds(ds);
      hide History, Log, Sourced;
      if !Classified(last) {
        SkipStep(ds);
      } else if Bad(last) {
        BadStep(ds);
      } else {
        OkStep(ds);
      }
    }
  }

  predicate Projected(ds: seq<Diagnostic>) {
    && (IsDegraded(Log(ds)) <==> BadAtLatestTime(ds))
    && (IsDegraded(Log(ds)) ==> Some(Log(ds)[|Log(ds)| - 1].at) == LatestTime(ds))
  }

  lemma Members(ds: seq<Diagnostic>)
    requires ds != []
    ensures forall d :: d in ds <==> d in ds[..|ds| - 1] || d == ds[|ds| - 1]
  {
    assert ds == ds[..|ds| - 1] + [ds[|ds| - 1]];
  }

  /** No earlier diagnostic is later than the latest time before, nor that one than the last diagnostic. */
  predicate Bounded(ds: seq<Diagnostic>)
    requires ds != []
  {
    var before, last := ds[..|ds| - 1], ds[|ds| - 1];
    && (forall d :: d in before && Classified(d) ==> LatestTime(before).Some? && d.observedAt.value <= LatestTime(before).value)
    && (Classified(last) && LatestTime(before).Some? ==> LatestTime(before).value <= last.observedAt.value)
  }

  lemma EarlierBounds(ds: seq<Diagnostic>)
    requires ds != [] && History(ds)
    ensures Bounded(ds)
  {
    var before, last := ds[..|ds| - 1], ds[|ds| - 1];
    forall d | d in before && Classified(d)
      ensures LatestTime(before).Some? && d.observedAt.value <= LatestTime(before).value
      ensures Classified(last) ==> d.observedAt.value <= last.observedAt.value
    {
      LatestTimeBounds(before, d);
      var k :| 0 <= k < |before| && before[k] == d;
      assert ds[k] == d;
    }
    if Classified(last) {
      LatestOf(before, last.observedAt.value);
    }
  }

  lemma SkipStep(ds: seq<Diagnostic>)
    requires ds != [] && !Classified(ds[|ds| - 1]) && Projected(ds[..|ds| - 1])
    requires forall d :: d in ds <==> d in ds[..|ds| - 1] || d == ds[|ds| - 1]
    ensures Projected(ds)
  {
    assert Log(ds) == Log(ds[..|ds| - 1]) && LatestTime(ds) == LatestTime(ds[..|ds| - 1]);
  }

  lemma BadStep(ds: seq<Diagnostic>)
    requires ds != [] && History(ds) && Bad(ds[|ds| - 1]) && Sourced(ds[..|ds| - 1], Log(ds[..|ds| - 1]))
    ensures Projected(ds)
  {
    assert ds == ds[..|ds| - 1] + [ds[|ds| - 1]];
    NewDegradation(ds[..|ds| - 1], ds[|ds| - 1]);
    assert ds[|ds| - 1] in ds;
  }

  lemma OkStep(ds: seq<Diagnostic>)
    requires ds != [] && History(ds) && Classified(ds[|ds| - 1]) && !Bad(ds[|ds| - 1])
    requires Projected(ds[..|ds| - 1]) && Bounded(ds) && Sourced(ds[..|ds| - 1], Log(ds[..|ds| - 1]))
    requires forall d :: d in ds <==> d in ds[..|ds| - 1] || d == ds[|ds| - 1]
    ensures Projected(ds)
  {
    var before, last := ds[..|ds| - 1], ds[|ds| - 1];
    OpenRunDiffers(ds);
    OkCases(before, ds, last, Log(before), LatestTime(before), last.observedAt.value);
    assert Log(ds) == Derived(Log(before), last) && LatestTime(ds) == last.observedAt;
  }

  predicate BadAt(ds: seq<Diagnostic>, time: Option<Time>) {
    exists d :: d in ds && Bad(d) && d.observedAt == time
  }

  lemma OkCases(before: seq<Diagnostic>, ds: seq<Diagnostic>, last: Diagnostic, log: seq<Entry>, latest: Option<Time>, t: Time)
    requires forall d :: d in ds <==> d in before || d == last
    requires Classified(last) && !Bad(last) && last.observedAt == Some(t)
    requires forall e :: e in log ==> e.run != last.run
    requires IsDegraded(log) <==> BadAt(before, latest)
    requires IsDegraded(log) ==> Some(log[|log| - 1].at) == latest
    requires forall d :: d in before && Classified(d) ==> latest.Some? && d.observedAt.value <= latest.value
    requires latest.Some? ==> latest.value <= t
    ensures IsDegraded(Derived(log, last)) <==> BadAt(ds, Some(t))
    ensures IsDegraded(Derived(log, last)) ==> Derived(log, last)[|Derived(log, last)| - 1].at == t
  {
    if IsDegraded(log) && t <= log[|log| - 1].at {
      var d :| d in before && Bad(d) && d.observedAt == latest;
      assert d in ds;
    }
    if BadAt(ds, Some(t)) {
      var d :| d in ds && Bad(d) && d.observedAt == Some(t);
      assert d in before;
    }
  }

  lemma OpenRunDiffers(ds: seq<Diagnostic>)
    requires ds != [] && History(ds) && Sourced(ds[..|ds| - 1], Log(ds[..|ds| - 1]))
    ensures forall e :: e in Log(ds[..|ds| - 1]) ==> e.run != ds[|ds| - 1].run
  {
    var before, last := ds[..|ds| - 1], ds[|ds| - 1];
    forall e | e in Log(before)
      ensures e.run != last.run
    {
      var d :| d in before && Classified(d) && d.run == e.run && d.observedAt.value == e.at;
      var k :| 0 <= k < |before| && before[k] == d;
      assert ds[k].run != ds[|ds| - 1].run;
    }
  }

  lemma {:induction false} LatestOf(ds: seq<Diagnostic>, bound: Time)
    requires forall d :: d in ds && Classified(d) ==> d.observedAt.value <= bound
    ensures LatestTime(ds).Some? ==> LatestTime(ds).value <= bound
    ensures LatestTime(ds).Some? ==> exists d :: d in ds && Classified(d) && d.observedAt == LatestTime(ds)
  {
    if ds != [] {
      assert ds[|ds| - 1] in ds;
      if !Classified(ds[|ds| - 1]) {
        assert forall d :: d in ds[..|ds| - 1] ==> d in ds;
        LatestOf(ds[..|ds| - 1], bound);
      }
    }
  }

  lemma NewDegradation(before: seq<Diagnostic>, last: Diagnostic)
    requires Bad(last) && Sourced(before, Log(before)) && History(before + [last])
    ensures Derived(Log(before), last) == Log(before) + [Entry(last.run, last.observedAt.value, CodeOf(last.access), None, None)]
  {
    var ds := before + [last];
    assert ds[..|ds| - 1] == before;
    OpenRunDiffers(ds);
  }

  /** When observation times strictly increase, that is the latest classified diagnostic alone. */
  lemma {:induction false} DegradedIffLatestIsBad(ds: seq<Diagnostic>)
    requires History(ds) && ds != [] && Classified(ds[|ds| - 1])
    requires forall i :: 0 <= i < |ds| - 1 && Classified(ds[i]) ==> ds[i].observedAt.value < ds[|ds| - 1].observedAt.value
    ensures IsDegraded(Log(ds)) <==> Bad(ds[|ds| - 1])
  {
    DegradedIffBadAtLatestTime(ds);
    assert ds[|ds| - 1] in ds;
    forall d | d in ds && Bad(d) && d.observedAt == ds[|ds| - 1].observedAt
      ensures d == ds[|ds| - 1]
    {
      var k :| 0 <= k < |ds| && ds[k] == d;
    }
  }

  /** An ok diagnostic of the very instant of a degradation does not recover from it. */
  lemma TieStaysDegraded(t: Time)
    ensures var ds := [Diagnostic(1, AccessDegraded, Some(t)), Diagnostic(2, AccessOk, Some(t))];
      History(ds) && IsDegraded(Log(ds)) && !Bad(ds[1])
  {
    var ds := [Diagnostic(1, AccessDegraded, Some(t)), Diagnostic(2, AccessOk, Some(t))];
    assert ds[..1] == [ds[0]] && [ds[0]][..0] == [];
    assert Log([ds[0]]) == [Entry(1, t, BrowserSourceDegraded, None, None)];
  }

  // ---------------------------------------------------------------- redelivery

  /** Deriving this diagnostic once more would append nothing. */
  predicate Settled(log: seq<Entry>, d: Diagnostic) {
    Classified(d) ==>
      if d.access == AccessOk then
        IsDegraded(log) ==> d.observedAt.value <= log[|log| - 1].at || d.run == log[|log| - 1].run
      else Entry(d.run, d.observedAt.value, CodeOf(d.access), None, None) in log
  }

  /** Redelivering any earlier diagnostic, in any state reached since, leaves the list as it is. */
  lemma {:induction false} RedeliveryLeavesLog(ds: seq<Diagnostic>, d: Diagnostic)
    requires History(ds) && d in ds
    ensures Derived(Log(ds), d) == Log(ds)
  {
    SettledAfter(ds, d);
  }

  lemma {:induction false} SettledAfter(ds: seq<Diagnostic>, d: Diagnostic)
    requires History(ds) && d in ds
    ensures Settled(Log(ds), d)
  {
    var before, last := ds[..|ds| - 1], ds[|ds| - 1];
    if d == last {
    } else {
      SettledAfter(before, d);
      if Classified(d) && Classified(last) {
        var k :| 0 <= k < |ds| && ds[k] == d;
        assert d.observedAt.value <= last.observedAt.value;
      }
    }
  }
}
