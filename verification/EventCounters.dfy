/** Exactly which runs keep every supporting counter equal to its set of supporting checkpoints. */
module EventCounters {
  import opened Contracts
  import opened Lifecycle
  import opened EventStore
  import opened EventInvariants
  import opened EventHistory
  import opened EventTheorems

  /** A recovery that closes the active row links no new supporting checkpoint on the way. */
  ghost predicate Harmless(s: Store, a: Anchor, c: Candidate) {
    c.action == Resolve ==>
      var active := FindActive(s, KeyOf(a, c));
      active.Some? && c.detectedAt.Or(a.currentAt) >= s.events[active.value].detectedAt ==>
        NewSupporters(c.evidence, Linked(s.refs, active.value)) == {}
  }

  ghost predicate HarmlessItems(runs: Runs, t: Trace, a: Anchor, items: seq<Item>)
    decreases |items|
  {
    items == [] ||
    var c := items[0].candidate;
    var one := PersistOne(runs, t.store, a, c, items[0].raced);
    Harmless(t.store, a, c) && (one.Ok? ==> HarmlessItems(runs, Trace(one.value.0, Logged(t.log, one.value.1, c)), a, items[1..]))
  }

  /** Every call either raises and is rolled back, or meets only harmless recoveries. */
  ghost predicate HarmlessRun(runs: Runs, t: Trace, calls: seq<Call>)
    decreases |calls|
  {
    calls == [] ||
    var call := calls[0];
    && (call.Scheduled? && RunItems(runs, t, call.anchor, call.items).Ok? ==> HarmlessItems(runs, t, call.anchor, call.items))
    && HarmlessRun(runs, RunCall(runs, t, call), calls[1..])
  }

  /** A closed row whose counter is wrong stays as it is. */
  ghost predicate Miscounted(s: Store) {
    exists id: EventId :: id in s.events && id.ConditionId? && s.events[id].status == Resolved && !CounterOk(s, id)
  }

  lemma MiscountedStays(s: Store, s': Store)
    requires Miscounted(s) && ClosedStays(s, s')
    ensures Miscounted(s')
  {
    var id: EventId :| id in s.events && id.ConditionId? && s.events[id].status == Resolved && !CounterOk(s, id);
    assert Keeps(s, s', id);
    assert Supporters(s'.refs, id) == Supporters(s.refs, id);
    assert !CounterOk(s', id);
  }

  lemma {:induction false} NewSupportersAreSources(ps: seq<Pointer>, linked: set<Id>)
    ensures NewSupporters(ps, linked) <= Sources(ps) - linked
  {
    if ps != [] {
      SourcesStep(ps);
      NewSupportersAreSources(ps[1..], linked);
      NewSupportersAreSources(ps[1..], linked + {ps[0].source});
    }
  }

  lemma CloseCountsExactly(runs: Runs, s: Store, a: Anchor, c: Candidate, id: EventId)
    requires Inv(s) && Counters(s) && IsActive(s, id, KeyOf(a, c)) && c.action == Resolve
    requires FindActive(s, KeyOf(a, c)) == Some(id) && CloseActive(runs, s, a, c, id).Ok?
    ensures var s' := CloseActive(runs, s, a, c, id).value.0;
      if Harmless(s, a, c) then Counters(s') else Miscounted(s')
  {
    var r := CloseActive(runs, s, a, c, id);
    if r.value.1.Updated? {
      CloseCountsIff(runs, s, a, c, id);
      if !Harmless(s, a, c) {
        InsertEvidenceGrow(runs, s, a.tenant, a.site, id, c.evidence, true, Strict);
        RecoveryInsert(runs, s.refs, id, s.events[id], c.evidence);
        assert CounterOk(s, id);
        assert !CounterOk(r.value.0, id);
      }
    } else if !Harmless(s, a, c) {
      SkippingInsert(runs, s.refs, id, s.events[id], c.evidence, {}, Strict, 0);
      NewSupportersAreSources(c.evidence, Linked(s.refs, id));
    }
  }

  lemma OneCountsExactly(runs: Runs, s: Store, a: Anchor, c: Candidate, raced: bool)
    requires Inv(s) && Counters(s) && PersistOne(runs, s, a, c, raced).Ok?
    ensures var s' := PersistOne(runs, s, a, c, raced).value.0;
      if Harmless(s, a, c) then Counters(s') else Miscounted(s')
  {
    hide Inv, Counters, CloseActive, Miscounted;
    if c.action == Resolve {
      if RuleOf(c.code).kind == Condition && FindActive(s, KeyOf(a, c)).Some? {
        CloseCountsExactly(runs, s, a, c, FindActive(s, KeyOf(a, c)).value);
      }
    } else {
      PersistOneCounts(runs, s, a, c, raced);
    }
  }

  lemma {:induction false} ItemsCountExactly(runs: Runs, t: Trace, a: Anchor, items: seq<Item>)
    requires Good(t) && Counters(t.store) && RunItems(runs, t, a, items).Ok?
    ensures var s' := RunItems(runs, t, a, items).value.store;
      if HarmlessItems(runs, t, a, items) then Counters(s') else Miscounted(s')
    decreases |items|
  {
    hide Good, Counters, Miscounted, Harmless, PersistOne;
    if items != [] {
      var c, raced := items[0].candidate, items[0].raced;
      var one := PersistOne(runs, t.store, a, c, raced);
      var t' := Trace(one.value.0, Logged(t.log, one.value.1, c));
      OneKeepsGood(runs, t, a, c, raced);
      OneCountsExactly(runs, t.store, a, c, raced);
      RunItemsKeep(runs, t', a, items[1..]);
      var s' := RunItems(runs, t', a, items[1..]).value.store;
      if Harmless(t.store, a, c) {
        ItemsCountExactly(runs, t', a, items[1..]);
      } else {
        MiscountedStays(t'.store, s');
      }
    }
  }

  lemma OneKeepsGood(runs: Runs, t: Trace, a: Anchor, c: Candidate, raced: bool)
    requires Good(t) && PersistOne(runs, t.store, a, c, raced).Ok?
    ensures var one := PersistOne(runs, t.store, a, c, raced).value;
      Inv(t.store) && Good(Trace(one.0, Logged(t.log, one.1, c)))
  {
    hide Inv, Summaries, PersistOne;
    var one := PersistOne(runs, t.store, a, c, raced).value;
    PersistOneStep(runs, t.store, a, c, raced);
    PersistOneEffect(runs, t.store, a, c, raced);
    SummaryStep(t.store, one.0, t.log, a, c, one.1);
  }

  lemma {:induction false} RunCountsExactly(runs: Runs, t: Trace, calls: seq<Call>)
    requires Good(t) && Counters(t.store)
    ensures var s' := RunFrom(runs, t, calls).store;
      if HarmlessRun(runs, t, calls) then Counters(s') else Miscounted(s')
    decreases |calls|
  {
    hide Good, Counters, Miscounted, HarmlessItems;
    if calls != [] {
      var call := calls[0];
      var t' := RunCall(runs, t, call);
      CallKeeps(runs, t, call);
      RunKeeps(runs, t', calls[1..]);
      if call.Scheduled? && RunItems(runs, t, call.anchor, call.items).Ok? {
        ItemsCountExactly(runs, t, call.anchor, call.items);
      }
      if call.Scheduled? && RunItems(runs, t, call.anchor, call.items).Ok? && !HarmlessItems(runs, t, call.anchor, call.items) {
        MiscountedStays(t'.store, RunFrom(runs, t', calls[1..]).store);
      } else {
        RunCountsExactly(runs, t', calls[1..]);
      }
    }
  }

  /**
    After any run of calls, every condition row's counter equals the number of distinct checkpoints
    that trigger or support it if and only if no accepted recovery linked a new supporting checkpoint.
  */
  lemma CountersAgreeExactlyWhenHarmless(runs: Runs, calls: seq<Call>)
    ensures var s := RunFrom(runs, START, calls).store;
      (forall id: EventId :: id in s.events && id.ConditionId? ==>
         s.events[id].progress.supporting == |Supporters(s.refs, id)|)
      <==> HarmlessRun(runs, START, calls)
  {
    RunCountsExactly(runs, START, calls);
    var s := RunFrom(runs, START, calls).store;
    if HarmlessRun(runs, START, calls) {
      CountersMean(s);
    } else {
      MiscountedMeans(s);
    }
  }

  lemma CountersMean(s: Store)
    requires Counters(s)
    ensures forall id: EventId :: id in s.events && id.ConditionId? ==>
      s.events[id].progress.supporting == |Supporters(s.refs, id)|
  {
    assert forall id: EventId :: id in s.events && id.ConditionId? ==> CounterOk(s, id);
  }

  lemma MiscountedMeans(s: Store)
    requires Miscounted(s)
    ensures !forall id: EventId :: id in s.events && id.ConditionId? ==>
      s.events[id].progress.supporting == |Supporters(s.refs, id)|
  {
    assert exists id: EventId :: id in s.events && id.ConditionId? && !CounterOk(s, id);
  }

  // ---------------------------------------------------------------- a run that miscounts

  const ROW := RunRow(0, 0, 7, 8, 9, {5}, {}, false, {})
  const TWO_RUNS: Runs := map[1 := ROW, 2 := ROW]
  const PAGE: RawScope := map[TemplateKey := Some(7), ScenarioKey := Some(8)]
  const FIRST := Anchor(0, 0, None, 1, None, 1)
  const SECOND := Anchor(0, 0, None, 2, None, 2)
  const OPENS := Candidate(JsErrorStarted, 5, Upsert, None, PAGE, None, Some(1), Some(1), [At(1, TriggerAfter)], 1, 1)
  const CLOSES :=
    Candidate(JsErrorStarted, 5, Resolve, None, PAGE, None, Some(2), Some(2), [At(2, Relation.Supporting)], 1, 1)
  const BOTH := [Scheduled(FIRST, [Item(OPENS, false)]), Scheduled(SECOND, [Item(CLOSES, false)])]

  lemma OpensActive(s: Store)
    requires PersistOne(TWO_RUNS, EMPTY, FIRST, OPENS, false).Ok?
    requires s == PersistOne(TWO_RUNS, EMPTY, FIRST, OPENS, false).value.0
    ensures var id := ConditionEventId(FIRST, OPENS);
      && FindActive(s, KeyOf(SECOND, CLOSES)) == Some(id) && id in s.events
      && s.events[id].detectedAt == 1 && s.events[id].scope == NormalizedScope(PAGE)
      && s.events[id].tenant == 0 && s.events[id].site == 0 && s.events[id].code == JsErrorStarted && s.events[id].subject == 5
      && 2 !in Linked(s.refs, id)
  {
    hide InsertEvidence;
    var id, row := ConditionEventId(FIRST, OPENS), ConditionRow(FIRST, OPENS, 7);
    assert FindActive(EMPTY, KeyOf(FIRST, OPENS)) == None && NormalizedScope(PAGE)[TemplateKey] == 7;
    InsertEvidenceGrow(TWO_RUNS, Insert(EMPTY, id, row), 0, 0, id, OPENS.evidence, false, Strict);
    assert s.events == map[id := row.(serial := 0)];
    assert KeyOf(FIRST, OPENS) == KeyOf(SECOND, CLOSES);
    assert IsActive(s, id, KeyOf(SECOND, CLOSES));
    assert forall r :: r in s.refs ==> r.source == 1;
  }

  lemma OpensSucceeds()
    ensures PersistOne(TWO_RUNS, EMPTY, FIRST, OPENS, false).Ok?
  {
    assert FindActive(EMPTY, KeyOf(FIRST, OPENS)) == None;
    assert TemplateKey in NormalizedScope(PAGE) && ScenarioKey in NormalizedScope(PAGE);
    var id, row := ConditionEventId(FIRST, OPENS), ConditionRow(FIRST, OPENS, 7);
    var p := At(1, TriggerAfter);
    assert OPENS.evidence[0] == p && OPENS.evidence[1..] == [];
    assert PointerError(TWO_RUNS, row.(serial := 0), p, Strict) == None;
  }

  lemma ClosesSucceeds(s: Store, id: EventId)
    requires FindActive(s, KeyOf(SECOND, CLOSES)) == Some(id) && id in s.events
    requires s.events[id].detectedAt == 1 && s.events[id].scope == NormalizedScope(PAGE)
    requires s.events[id].tenant == 0 && s.events[id].site == 0 && s.events[id].code == JsErrorStarted && s.events[id].subject == 5
    requires 2 !in Linked(s.refs, id)
    ensures PersistOne(TWO_RUNS, s, SECOND, CLOSES, false).Ok? && !Harmless(s, SECOND, CLOSES)
  {
    assert TemplateKey in NormalizedScope(PAGE) && ScenarioKey in NormalizedScope(PAGE);
    var p := At(2, Relation.Supporting);
    assert CLOSES.evidence[0] == p && CLOSES.evidence[1..] == [];
    assert PointerError(TWO_RUNS, s.events[id], p, Strict) == None;
    assert 2 in NewSupporters(CLOSES.evidence, Linked(s.refs, id));
  }

  lemma OneItem(runs: Runs, t: Trace, a: Anchor, item: Item)
    ensures var one := PersistOne(runs, t.store, a, item.candidate, item.raced);
      && RunItems(runs, t, a, [item]) ==
         (if one.Ok? then Ok(Trace(one.value.0, Logged(t.log, one.value.1, item.candidate))) else Err(one.error))
      && (!Harmless(t.store, a, item.candidate) ==> !HarmlessItems(runs, t, a, [item]))
  {
    hide PersistOne, Harmless;
    assert [item][1..] == [];
  }

  /** A recovery that brings a SUPPORTING pointer to a new checkpoint leaves a wrong counter behind. */
  lemma RecoveryMayMiscount()
    ensures var s := RunFrom(TWO_RUNS, START, BOTH).store;
      exists id: EventId :: id in s.events && id.ConditionId? &&
        s.events[id].progress.supporting != |Supporters(s.refs, id)|
  {
    hide PersistOne, Harmless, Miscounted, Counters;
    OpensSucceeds();
    var one := PersistOne(TWO_RUNS, EMPTY, FIRST, OPENS, false).value;
    OpensActive(one.0);
    ClosesSucceeds(one.0, ConditionEventId(FIRST, OPENS));
    assert BOTH[1..][0] == BOTH[1] && BOTH[1..][1..] == [];
    var t := RunCall(TWO_RUNS, START, BOTH[0]);
    OneItem(TWO_RUNS, START, FIRST, Item(OPENS, false));
    OneItem(TWO_RUNS, t, SECOND, Item(CLOSES, false));
    assert RunItems(TWO_RUNS, t, SECOND, BOTH[1].items).Ok?;
    assert !HarmlessItems(TWO_RUNS, t, SECOND, BOTH[1].items);
    assert !HarmlessRun(TWO_RUNS, t, BOTH[1..]);
    CountersAgreeExactlyWhenHarmless(TWO_RUNS, BOTH);
  }
}
