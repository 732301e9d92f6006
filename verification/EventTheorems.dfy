/** Main results about the event tables, for every sequence of calls with arbitrary candidates. */
module EventTheorems {
  import opened Contracts
  import opened Lifecycle
  import opened EventStore
  import opened EventInvariants
  import opened EventHistory

  // ---------------------------------------------------------------- what a candidate does to condition rows

  ghost predicate Effect(s: Store, s': Store, a: Anchor, c: Candidate, o: Outcome) {
    && (forall id: EventId :: id in s.events && id.ConditionId? && o != Updated(id) ==> Keeps(s, s', id))
    && (forall id: EventId :: id in s'.events && id.ConditionId? && id !in s.events ==> o == Created(id))
    && (o.Created? && o.id.ConditionId? ==>
          && o.id !in s.events && o.id in s'.events && o.id == ConditionEventId(a, c)
          && c.action == Upsert
          && TemplateKey in NormalizedScope(c.scope)
          && s'.events[o.id] == ConditionRow(a, c, NormalizedScope(c.scope)[TemplateKey]).(serial := s.serial))
    && (o.Updated? ==>
          && IsActive(s, o.id, KeyOf(a, c)) && o.id in s'.events
          && if c.action == Resolve then s'.events[o.id] == Closed(s.events[o.id], a, c)
             else exists n: nat :: s'.events[o.id] == Supported(s.events[o.id], a, c, n))
  }

  lemma PointEffect(runs: Runs, s: Store, a: Anchor, c: Candidate, row: Event, level: ScopeValidation)
    requires Inv(s) && row.key.None? && row.status == Recorded
    ensures var r := PersistPointEvent(runs, s, a, c, row, level);
      r.Ok? ==> Effect(s, r.value.0, a, c, r.value.1)
  {
    hide InsertEvidence, FirstSource, Links;
    if RowConstraints(row) {
      PointIdsAreNotConditions(a, c, row.scope);
      hide PointEventId;
      var id := PointEventId(a, c, row.scope);
      var inserted := if !Conflicts(s, id, row) then Insert(s, id, row) else s;
      InsertEvidenceGrow(runs, inserted, a.tenant, a.site, id, c.evidence, false, level);
    }
  }

  lemma SupportEffect(runs: Runs, s: Store, a: Anchor, c: Candidate, id: EventId)
    requires Inv(s) && IsActive(s, id, KeyOf(a, c)) && c.action != Resolve
    ensures var r := SupportActive(runs, s, a, c, id);
      r.Ok? ==> Effect(s, r.value.0, a, c, r.value.1)
  {
    InsertEvidenceGrow(runs, s, a.tenant, a.site, id, AsSupport(c.evidence), true, Strict);
  }

  lemma CloseEffect(runs: Runs, s: Store, a: Anchor, c: Candidate, id: EventId)
    requires Inv(s) && IsActive(s, id, KeyOf(a, c)) && c.action == Resolve
    ensures var r := CloseActive(runs, s, a, c, id);
      r.Ok? ==> Effect(s, r.value.0, a, c, r.value.1)
  {
    InsertEvidenceGrow(runs, s, a.tenant, a.site, id, c.evidence, true, Strict);
  }

  lemma ConditionEffect(runs: Runs, s: Store, a: Anchor, c: Candidate, firstRead: Option<EventId>)
    requires Inv(s) && (c.action == Upsert || c.action == Support)
    requires firstRead.Some? ==> IsActive(s, firstRead.value, KeyOf(a, c))
    ensures var r := PersistConditionFrom(runs, s, a, c, firstRead);
      r.Ok? ==> Effect(s, r.value.0, a, c, r.value.1)
  {
    if firstRead.Some? {
      SupportEffect(runs, s, a, c, firstRead.value);
    } else if c.action != Support && TemplateKey in NormalizedScope(c.scope) {
      var id, row := ConditionEventId(a, c), ConditionRow(a, c, NormalizedScope(c.scope)[TemplateKey]);
      if RowConstraints(row) {
        if !Conflicts(s, id, row) {
          InsertEvidenceGrow(runs, Insert(s, id, row), a.tenant, a.site, id, c.evidence, false, Strict);
        } else if FindActive(s, KeyOf(a, c)).Some? {
          SupportEffect(runs, s, a, c, FindActive(s, KeyOf(a, c)).value);
        }
      }
    }
  }

  lemma PersistOneEffect(runs: Runs, s: Store, a: Anchor, c: Candidate, raced: bool)
    requires Inv(s)
    ensures var r := PersistOne(runs, s, a, c, raced);
      r.Ok? ==> Effect(s, r.value.0, a, c, r.value.1)
  {
    if c.action == Pending {
    } else if c.action == Record {
      if RuleOf(c.code).kind == Point && TemplateKey in NormalizedScope(c.scope) {
        var scope := NormalizedScope(c.scope);
        var after := if c.occurredAfter.Some? then c.occurredAfter else a.previousAt;
        PointEffect(runs, s, a, c,
                    PointRow(a, c, scope, Some(scope[TemplateKey]),
                             c.detectedAt.Or(a.currentAt), c.occurredBefore.Or(a.currentAt), after),
                    Strict);
      }
    } else if c.action == Resolve {
      if FindActive(s, KeyOf(a, c)).Some? {
        CloseEffect(runs, s, a, c, FindActive(s, KeyOf(a, c)).value);
      }
    } else {
      ConditionEffect(runs, s, a, c, if raced then None else FindActive(s, KeyOf(a, c)));
    }
  }

  lemma CloseCounts(runs: Runs, s: Store, a: Anchor, c: Candidate, id: EventId)
    requires Inv(s) && Counters(s) && IsActive(s, id, KeyOf(a, c)) && c.action == Resolve && CleanRecovery(c)
    ensures var r := CloseActive(runs, s, a, c, id);
      r.Ok? ==> Counters(r.value.0)
  {
    NoNewSupporters(c.evidence, Linked(s.refs, id));
    CloseCountsIff(runs, s, a, c, id);
  }

  lemma PersistOneCounts(runs: Runs, s: Store, a: Anchor, c: Candidate, raced: bool)
    requires Inv(s) && Counters(s) && CleanRecovery(c)
    ensures var r := PersistOne(runs, s, a, c, raced);
      r.Ok? ==> Counters(r.value.0)
  {
    hide InsertEvidence, Counters, Inv, Effect, ConditionRow, ConditionEventId, SupportActive, CloseActive;
    PersistOneEffect(runs, s, a, c, raced);
    var active := FindActive(s, KeyOf(a, c));
    if c.action == Pending {
    } else if c.action == Record {
      PointCounts(s, a, c, PersistOne(runs, s, a, c, raced));
    } else if c.action == Resolve {
      if active.Some? {
        CloseCounts(runs, s, a, c, active.value);
      }
    } else {
      if active.Some? {
        SupportCounts(runs, s, a, c, active.value);
      }
      if TemplateKey in NormalizedScope(c.scope) {
        var template := NormalizedScope(c.scope)[TemplateKey];
        if !Conflicts(s, ConditionEventId(a, c), ConditionRow(a, c, template)) {
          CreateCounts(runs, s, a, c, template);
        }
      }
    }
  }

  lemma PointCounts(s: Store, a: Anchor, c: Candidate, r: Result<(Store, Outcome)>)
    requires Counters(s)
    requires r.Ok? ==> Effect(s, r.value.0, a, c, r.value.1) && (r.value.1.Ignored? || (r.value.1.Created? && !r.value.1.id.ConditionId?))
    ensures r.Ok? ==> Counters(r.value.0)
  {
    if r.Ok? {
      forall id: EventId | id in r.value.0.events && id.ConditionId?
        ensures CounterOk(r.value.0, id)
      {
        CounterKept(s, r.value.0, id);
      }
    }
  }

  // ---------------------------------------------------------------- runs

  type Log = map<EventId, seq<Candidate>>

  datatype Item = Item(candidate: Candidate, raced: bool)

  datatype Call =
    | Scheduled(anchor: Anchor, items: seq<Item>)
    | Diagnostic(anchor: Anchor, observedAt: Option<Time>, candidates: seq<Candidate>)

  datatype Trace = Trace(store: Store, log: Log)

  /** The candidates a condition row was created by and then accepted as support, in order. */
  function Logged(log: Log, o: Outcome, c: Candidate): Log {
    match o
    case Created(id) => if id.ConditionId? then log[id := [c]] else log
    case Updated(id) => if c.action == Resolve || id !in log then log else log[id := log[id] + [c]]
    case Ignored => log
  }

  ghost function RunItems(runs: Runs, t: Trace, a: Anchor, items: seq<Item>): Result<Trace>
    decreases |items|
  {
    if items == [] then Ok(t)
    else
      var (s, o) :- PersistOne(runs, t.store, a, items[0].candidate, items[0].raced);
      RunItems(runs, Trace(s, Logged(t.log, o, items[0].candidate)), a, items[1..])
  }

  function RunDiagnostics(runs: Runs, t: Trace, a: Anchor, observedAt: Option<Time>, cs: seq<Candidate>): Result<Trace>
    decreases |cs|
  {
    if cs == [] then Ok(t)
    else
      var (s, o) :- PersistDiagnosticOne(runs, t.store, a, cs[0], observedAt);
      RunDiagnostics(runs, Trace(s, Logged(t.log, o, cs[0])), a, observedAt, cs[1..])
  }

  ghost function RunCall(runs: Runs, t: Trace, call: Call): Trace {
    var r := match call
             case Scheduled(a, items) => RunItems(runs, t, a, items)
             case Diagnostic(a, observedAt, cs) => RunDiagnostics(runs, t, a, observedAt, cs);
    if r.Ok? then r.value else t
  }

  ghost function RunFrom(runs: Runs, t: Trace, calls: seq<Call>): Trace
    decreases |calls|
  {
    if calls == [] then t else RunFrom(runs, RunCall(runs, t, calls[0]), calls[1..])
  }

  const START := Trace(EMPTY, map[])

  // ---------------------------------------------------------------- the row summarizes its candidates

  ghost predicate Summary(e: Event, cs: seq<Candidate>) {
    && (forall c :: c in cs ==>
          Rank(SeverityOf(c)) <= Rank(e.severity) && c.affectedUrls <= e.progress.affected
          && c.validUrls <= e.progress.valid && BlastRadius(c) <= e.progress.blast)
    && (exists c :: c in cs && SeverityOf(c) == e.severity)
    && (exists c :: c in cs && c.affectedUrls == e.progress.affected)
    && (exists c :: c in cs && c.validUrls == e.progress.valid)
    && (exists c :: c in cs && BlastRadius(c) == e.progress.blast)
  }

  ghost predicate Summaries(t: Trace) {
    && t.log.Keys <= t.store.events.Keys
    && forall id: EventId :: id in t.store.events && id.ConditionId? ==>
         id in t.log && Summary(t.store.events[id], t.log[id])
  }

  lemma SummaryExtends(e: Event, a: Anchor, c: Candidate, n: nat, cs: seq<Candidate>)
    requires Summary(e, cs)
    ensures Summary(Supported(e, a, c, n), cs + [c])
  {
    hide SeverityOf, BlastRadius;
    var e', cs' := Supported(e, a, c, n), cs + [c];
    assert c in cs';
    assert forall x :: x in cs ==> x in cs';
    assert exists x :: x in cs' && SeverityOf(x) == e'.severity by {
      if Rank(SeverityOf(c)) <= Rank(e.severity) {
        var w :| w in cs && SeverityOf(w) == e.severity;
        assert w in cs';
      }
    }
    assert exists x :: x in cs' && x.affectedUrls == e'.progress.affected by {
      var w :| w in cs && w.affectedUrls == e.progress.affected;
      assert w in cs';
    }
    assert exists x :: x in cs' && x.validUrls == e'.progress.valid by {
      var w :| w in cs && w.validUrls == e.progress.valid;
      assert w in cs';
    }
    assert exists x :: x in cs' && BlastRadius(x) == e'.progress.blast by {
      var w :| w in cs && BlastRadius(w) == e.progress.blast;
      assert w in cs';
    }
  }

  lemma SummaryStep(s: Store, s': Store, log: Log, a: Anchor, c: Candidate, o: Outcome)
    requires Summaries(Trace(s, log)) && Effect(s, s', a, c, o) && s.events.Keys <= s'.events.Keys
    ensures Summaries(Trace(s', Logged(log, o, c)))
  {
    var log' := Logged(log, o, c);
    forall id: EventId | id in s'.events && id.ConditionId?
      ensures id in log' && Summary(s'.events[id], log'[id])
    {
      if o == Created(id) {
        assert c in log'[id];
      } else if o == Updated(id) {
        if c.action == Resolve {
          assert log'[id] == log[id];
        } else {
          var n: nat :| s'.events[id] == Supported(s.events[id], a, c, n);
          SummaryExtends(s.events[id], a, c, n, log[id]);
        }
      } else {
        assert id in s.events && Keeps(s, s', id);
        assert log'[id] == log[id];
      }
    }
  }

  // ---------------------------------------------------------------- invariants of a run

  ghost predicate Good(t: Trace) {
    Inv(t.store) && Summaries(t)
  }

  /** Closed conditions and their evidence never change again. */
  ghost predicate ClosedStays(s: Store, s': Store) {
    forall id: EventId :: id in s.events && s.events[id].status == Resolved ==> Keeps(s, s', id)
  }

  predicate Clean(call: Call) {
    call.Scheduled? ==> forall item :: item in call.items ==> CleanRecovery(item.candidate)
  }

  lemma ClosedStaysThrough(s: Store, s': Store, s'': Store)
    requires ClosedStays(s, s') && ClosedStays(s', s'')
    ensures ClosedStays(s, s'')
  {
    forall id: EventId | id in s.events && s.events[id].status == Resolved
      ensures Keeps(s, s'', id)
    {
      assert Keeps(s, s', id);
      assert Keeps(s', s'', id);
    }
  }

  lemma StepClosedStays(s: Store, s': Store, key: ConditionKey)
    requires Inv(s) && Step(s, s', key)
    ensures ClosedStays(s, s')
  {
  }

  lemma {:induction false} RunItemsKeep(runs: Runs, t: Trace, a: Anchor, items: seq<Item>)
    requires Good(t)
    ensures var r := RunItems(runs, t, a, items);
      r.Ok? ==>
        && Good(r.value)
        && ClosedStays(t.store, r.value.store)
        && (Counters(t.store) && (forall item :: item in items ==> CleanRecovery(item.candidate)) ==> Counters(r.value.store))
    decreases |items|
  {
    if items != [] {
      var c, raced := items[0].candidate, items[0].raced;
      var one := PersistOne(runs, t.store, a, c, raced);
      if one.Ok? {
        PersistOneStep(runs, t.store, a, c, raced);
        PersistOneEffect(runs, t.store, a, c, raced);
        SummaryStep(t.store, one.value.0, t.log, a, c, one.value.1);
        if Counters(t.store) && CleanRecovery(c) {
          PersistOneCounts(runs, t.store, a, c, raced);
        }
        var t' := Trace(one.value.0, Logged(t.log, one.value.1, c));
        RunItemsKeep(runs, t', a, items[1..]);
        StepClosedStays(t.store, t'.store, KeyOf(a, c));
        var r := RunItems(runs, t, a, items);
        if r.Ok? {
          ClosedStaysThrough(t.store, t'.store, r.value.store);
        }
      }
    }
  }

  lemma {:induction false} RunDiagnosticsKeep(runs: Runs, t: Trace, a: Anchor, observedAt: Option<Time>, cs: seq<Candidate>)
    requires Good(t)
    ensures var r := RunDiagnostics(runs, t, a, observedAt, cs);
      r.Ok? ==>
        && Good(r.value)
        && ClosedStays(t.store, r.value.store)
        && (Counters(t.store) ==> Counters(r.value.store))
    decreases |cs|
  {
    hide Good, ClosedStays, Counters, PersistDiagnosticOne;
    if cs == [] {
      StaysClosed(t.store);
    } else {
      var one := PersistDiagnosticOne(runs, t.store, a, cs[0], observedAt);
      if one.Ok? {
        DiagnosticKeeps(runs, t, a, observedAt, cs[0]);
        var t' := Trace(one.value.0, Logged(t.log, one.value.1, cs[0]));
        RunDiagnosticsKeep(runs, t', a, observedAt, cs[1..]);
        var r := RunDiagnostics(runs, t, a, observedAt, cs);
        if r.Ok? {
          ClosedStaysThrough(t.store, t'.store, r.value.store);
        }
      }
    }
  }

  lemma PointOutcome(runs: Runs, s: Store, a: Anchor, c: Candidate, row: Event, level: ScopeValidation)
    ensures var r := PersistPointEvent(runs, s, a, c, row, level);
      r.Ok? ==> r.value.1.Ignored? || (r.value.1.Created? && !r.value.1.id.ConditionId?)
  {
    hide InsertEvidence;
  }

  lemma StaysClosed(s: Store)
    ensures ClosedStays(s, s)
  {
  }

  lemma DiagnosticKeeps(runs: Runs, t: Trace, a: Anchor, observedAt: Option<Time>, c: Candidate)
    requires Good(t)
    ensures var one := PersistDiagnosticOne(runs, t.store, a, c, observedAt);
      one.Ok? ==>
        var t' := Trace(one.value.0, Logged(t.log, one.value.1, c));
        && Good(t')
        && ClosedStays(t.store, t'.store)
        && (Counters(t.store) ==> Counters(t'.store))
  {
    hide Counters, PersistPointEvent, Effect, ClosedStays, Logged, Summaries;
    var one := PersistDiagnosticOne(runs, t.store, a, c, observedAt);
    if one.Ok? {
      var observed := if c.detectedAt.Some? then c.detectedAt.value else observedAt.value;
      var row := PointRow(a, c, NormalizedScope(c.scope), None, observed, c.occurredBefore.Or(observed), c.occurredAfter);
      PointStep(runs, t.store, a, c, row, SourceLevel, KeyOf(a, c));
      PointEffect(runs, t.store, a, c, row, SourceLevel);
      SummaryStep(t.store, one.value.0, t.log, a, c, one.value.1);
      if Counters(t.store) {
        PointOutcome(runs, t.store, a, c, row, SourceLevel);
        PointCounts(t.store, a, c, one);
      }
      StepClosedStays(t.store, one.value.0, KeyOf(a, c));
    }
  }

  lemma CallKeeps(runs: Runs, t: Trace, call: Call)
    requires Good(t)
    ensures var t' := RunCall(runs, t, call);
      && Good(t')
      && ClosedStays(t.store, t'.store)
      && (Counters(t.store) && Clean(call) ==> Counters(t'.store))
  {
    match call
    case Scheduled(a, items) => RunItemsKeep(runs, t, a, items);
    case Diagnostic(a, observedAt, cs) => RunDiagnosticsKeep(runs, t, a, observedAt, cs);
  }

  lemma {:induction false} RunKeeps(runs: Runs, t: Trace, calls: seq<Call>)
    requires Good(t)
    ensures var t' := RunFrom(runs, t, calls);
      && Good(t')
      && ClosedStays(t.store, t'.store)
      && (Counters(t.store) && (forall call :: call in calls ==> Clean(call)) ==> Counters(t'.store))
    decreases |calls|
  {
    if calls != [] {
      CallKeeps(runs, t, calls[0]);
      var t1 := RunCall(runs, t, calls[0]);
      RunKeeps(runs, t1, calls[1..]);
      ClosedStaysThrough(t.store, t1.store, RunFrom(runs, t, calls).store);
    }
  }

  // ---------------------------------------------------------------- main results

  /** At most one active row per condition key, and every row meets the table's CHECK constraints. */
  lemma OneActiveRowPerCondition(runs: Runs, calls: seq<Call>)
    ensures var s := RunFrom(runs, START, calls).store;
      && (forall id :: id in s.events ==>
            var e := s.events[id];
            && (e.status == Recorded <==> e.key.None?)
            && (e.status == Active ==> e.endedAt.None?) && (e.status == Resolved ==> e.endedAt.Some?)
            && (e.occurredAfter.Some? && e.occurredBefore.Some? ==> e.occurredAfter.value <= e.occurredBefore.value))
      && (forall x, y, key :: IsActive(s, x, key) && IsActive(s, y, key) ==> x == y)
  {
    RunKeeps(runs, START, calls);
  }

  /** Once a call has closed a condition, no later call changes its row or its evidence. */
  lemma ClosedConditionsAreFrozen(runs: Runs, calls: seq<Call>, more: seq<Call>)
    ensures ClosedStays(RunFrom(runs, START, calls).store, RunFrom(runs, START, calls + more).store)
  {
    RunKeeps(runs, START, calls);
    RunKeeps(runs, RunFrom(runs, START, calls), more);
    RunSplits(runs, START, calls, more);
  }

  lemma {:induction false} RunSplits(runs: Runs, t: Trace, calls: seq<Call>, more: seq<Call>)
    ensures RunFrom(runs, t, calls + more) == RunFrom(runs, RunFrom(runs, t, calls), more)
    decreases |calls|
  {
    if calls == [] {
      assert calls + more == more;
    } else {
      assert (calls + more)[1..] == calls[1..] + more;
      RunSplits(runs, RunCall(runs, t, calls[0]), calls[1..], more);
    }
  }

  /** The counter of a condition row is the number of distinct checkpoints that trigger or support it. */
  lemma CounterIsSupporters(runs: Runs, calls: seq<Call>)
    requires forall call :: call in calls ==> Clean(call)
    ensures var s := RunFrom(runs, START, calls).store;
      forall id: EventId :: id in s.events && id.ConditionId? ==>
        s.events[id].progress.supporting == |Supporters(s.refs, id)|
  {
    RunKeeps(runs, START, calls);
    var s := RunFrom(runs, START, calls).store;
    forall id: EventId | id in s.events && id.ConditionId?
      ensures s.events[id].progress.supporting == |Supporters(s.refs, id)|
    {
      assert CounterOk(s, id);
    }
  }

  /**
    Severity and URL counts of a condition row are the maxima over its creating and accepted candidates;
    the blast radius is 2 exactly when the greatest affected count is at least 2.
  */
  lemma RowIsMaximumOfCandidates(runs: Runs, calls: seq<Call>)
    ensures var t := RunFrom(runs, START, calls);
      forall id: EventId :: id in t.store.events && id.ConditionId? ==>
        && id in t.log && Summary(t.store.events[id], t.log[id])
        && t.store.events[id].progress.blast == if t.store.events[id].progress.affected >= 2 then 2 else 1
  {
    RunKeeps(runs, START, calls);
    var t := RunFrom(runs, START, calls);
    forall id: EventId | id in t.store.events && id.ConditionId?
      ensures t.store.events[id].progress.blast == if t.store.events[id].progress.affected >= 2 then 2 else 1
    {
      BlastOfGreatest(t.store.events[id], t.log[id]);
    }
  }

  lemma BlastOfGreatest(e: Event, cs: seq<Candidate>)
    requires Summary(e, cs)
    ensures e.progress.blast == if e.progress.affected >= 2 then 2 else 1
  {
    var widest :| widest in cs && widest.affectedUrls == e.progress.affected;
    assert BlastRadius(widest) <= e.progress.blast;
  }

  lemma {:induction false} PlainItems(runs: Runs, t: Trace, a: Anchor, items: seq<Item>, tally: Tally)
    requires forall item :: item in items ==> !item.raced
    ensures var whole, plain := RunItems(runs, t, a, items), PersistAll(runs, t.store, a, Candidates(items), tally);
      (whole.Ok? <==> plain.Ok?) && (whole.Ok? ==> whole.value.store == plain.value.0)
    decreases |items|
  {
    if items != [] {
      var c := items[0].candidate;
      assert Candidates(items)[0] == c && Candidates(items)[1..] == Candidates(items[1..]);
      var one := PersistOne(runs, t.store, a, c, false);
      if one.Ok? {
        PlainItems(runs, Trace(one.value.0, Logged(t.log, one.value.1, c)), a, items[1..], Counted(tally, one.value.1, c));
      }
    }
  }

  function Candidates(items: seq<Item>): seq<Candidate> {
    seq(|items|, i requires 0 <= i < |items| => items[i].candidate)
  }

  /** Without races, a call of the run is the transaction of the repository's `Persist`. */
  lemma CallIsTransaction(runs: Runs, t: Trace, a: Anchor, items: seq<Item>)
    requires forall item :: item in items ==> !item.raced
    ensures RunCall(runs, t, Scheduled(a, items)).store == Transact(runs, t.store, a, Candidates(items))
  {
    PlainItems(runs, t, a, items, NOTHING);
  }
}
