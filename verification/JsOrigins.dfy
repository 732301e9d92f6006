/** With gaps, invalid checkpoints and redeliveries: where an open JavaScript condition can come from. */
module JsOrigins {
  import opened Contracts
  import opened Lifecycle
  import opened EventStore
  import opened EventInvariants
  import opened EventTheorems
  import opened Evaluator

  /** Absent, present, present, at three increasing times of comparable checkpoints. */
  predicate Triple(v: EvaluationInput, f: Name) {
    && PriorComparable(v) && ValidStatus(v.previousStatus) && ValidStatus(v.currentStatus)
    && v.prior.value.observedAt < v.previousAt < v.currentAt
    && f !in PriorErrors(v)
    && f in Items(v.previousState, JavascriptPart) && f in Items(v.currentState, JavascriptPart)
  }

  /** The call's JavaScript candidates are the ones evaluated from `v`; the others are arbitrary. */
  ghost predicate DerivedFrom(call: Call, v: EvaluationInput) {
    && call.Scheduled? && call.anchor == AnchorOf(v)
    && forall item :: item in call.items && item.candidate.code == JsErrorStarted ==> item.candidate in Evaluate(v)
  }

  ghost predicate Born(s: Store, vs: set<EvaluationInput>) {
    forall id: EventId :: id in s.events && id.ConditionId? && id.key.code == JsErrorStarted ==>
      exists v :: v in vs && Triple(v, id.key.subject) && id == ConditionEventId(AnchorOf(v), Confirmed(v, id.key.subject))
  }

  lemma UpsertMeansTriple(v: EvaluationInput, c: Candidate)
    requires c in Evaluate(v) && c.action == Upsert
    ensures Triple(v, c.subject) && c == Confirmed(v, c.subject)
  {
    CandidatesSpeak(v);
    var i :| 0 <= i < |JsCandidates(v)| && JsCandidates(v)[i] == c;
    assert Speaks(v, c.subject, c);
  }

  lemma {:induction false} ItemsBorn(runs: Runs, t: Trace, a: Anchor, items: seq<Item>, v: EvaluationInput, vs: set<EvaluationInput>)
    requires Good(t) && Born(t.store, vs) && v in vs && a == AnchorOf(v)
    requires forall item :: item in items && item.candidate.code == JsErrorStarted ==> item.candidate in Evaluate(v)
    ensures var r := RunItems(runs, t, a, items);
      r.Ok? ==> Good(r.value) && Born(r.value.store, vs)
    decreases |items|
  {
    hide Evaluate, Good;
    RunItemsKeep(runs, t, a, items);
    if items != [] {
      var c, raced := items[0].candidate, items[0].raced;
      var one := PersistOne(runs, t.store, a, c, raced);
      if one.Ok? {
        OneBorn(runs, t, a, items[0], v, vs);
        ItemsBorn(runs, Trace(one.value.0, Logged(t.log, one.value.1, c)), a, items[1..], v, vs);
      }
    }
  }

  lemma OneBorn(runs: Runs, t: Trace, a: Anchor, item: Item, v: EvaluationInput, vs: set<EvaluationInput>)
    requires Good(t) && Born(t.store, vs) && v in vs && a == AnchorOf(v)
    requires item.candidate.code == JsErrorStarted ==> item.candidate in Evaluate(v)
    ensures var one := PersistOne(runs, t.store, a, item.candidate, item.raced);
      one.Ok? ==> Good(Trace(one.value.0, Logged(t.log, one.value.1, item.candidate))) && Born(one.value.0, vs)
  {
    var c := item.candidate;
    var one := PersistOne(runs, t.store, a, c, item.raced);
    if one.Ok? {
      hide PersistOne, Evaluate, Effect, Summaries, Born;
      PersistOneStep(runs, t.store, a, c, item.raced);
      PersistOneEffect(runs, t.store, a, c, item.raced);
      SummaryStep(t.store, one.value.0, t.log, a, c, one.value.1);
      EffectBorn(t.store, one.value.0, a, c, one.value.1, v, vs);
    }
  }

  lemma EffectBorn(s: Store, s': Store, a: Anchor, c: Candidate, o: Outcome, v: EvaluationInput, vs: set<EvaluationInput>)
    requires Born(s, vs) && Effect(s, s', a, c, o) && v in vs && a == AnchorOf(v)
    requires c.code == JsErrorStarted ==> c in Evaluate(v)
    ensures Born(s', vs)
  {
    hide Evaluate, ConditionRow, Triple, Closed, Supported;
    if o.Created? && o.id.ConditionId? && c.code == JsErrorStarted {
      UpsertMeansTriple(v, c);
    }
    forall id: EventId | id in s'.events && id.ConditionId? && id.key.code == JsErrorStarted
      ensures exists w :: w in vs && Triple(w, id.key.subject) && id == ConditionEventId(AnchorOf(w), Confirmed(w, id.key.subject))
    {
      if id !in s.events {
        assert o == Created(id) && id.key == KeyOf(a, c);
      }
    }
  }

  lemma {:induction false} RunBorn(runs: Runs, t: Trace, calls: seq<Call>, vs: set<EvaluationInput>)
    requires Good(t) && Born(t.store, vs)
    requires forall call :: call in calls ==> exists v :: v in vs && DerivedFrom(call, v)
    ensures Born(RunFrom(runs, t, calls).store, vs)
    decreases |calls|
  {
    hide Good, Born;
    if calls != [] {
      var call := calls[0];
      assert call in calls;
      var v :| v in vs && DerivedFrom(call, v);
      ItemsBorn(runs, t, call.anchor, call.items, v, vs);
      CallKeeps(runs, t, call);
      assert forall other :: other in calls[1..] ==> other in calls;
      RunBorn(runs, RunCall(runs, t, call), calls[1..], vs);
    }
  }

  /**
    Whatever is skipped, invalid, redelivered or raced, every stored JavaScript condition was opened
    by a checkpoint that saw the error twice in a row after a comparable checkpoint without it.
  */
  lemma EveryConditionHasATriple(runs: Runs, calls: seq<Call>, vs: set<EvaluationInput>)
    requires forall call :: call in calls ==> exists v :: v in vs && DerivedFrom(call, v)
    ensures Born(RunFrom(runs, START, calls).store, vs)
  {
    RunBorn(runs, START, calls, vs);
  }
}
