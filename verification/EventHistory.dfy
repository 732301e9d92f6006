/** Reachable states of the event tables: every sequence of calls, failed calls rolled back. */
module EventHistory {
  import opened Contracts
  import opened Lifecycle
  import opened EventStore
  import opened EventInvariants

  // ---------------------------------------------------------------- the supporting counter

  ghost predicate CounterOk(s: Store, id: EventId) {
    id in s.events ==> s.events[id].progress.supporting == |Supporters(s.refs, id)|
  }

  ghost predicate Counters(s: Store) {
    forall id: EventId :: id in s.events && id.ConditionId? ==> CounterOk(s, id)
  }

  function Sources(ps: seq<Pointer>): set<Id> {
    set i | 0 <= i < |ps| :: ps[i].source
  }

  /** Sources whose first pointer, among the checkpoints not linked yet, is a supporting one. */
  function NewSupporters(ps: seq<Pointer>, linked: set<Id>): set<Id> {
    if ps == [] then {}
    else if ps[0].source in linked then NewSupporters(ps[1..], linked)
    else (if Supports(ps[0].relation) then {ps[0].source} else {}) + NewSupporters(ps[1..], linked + {ps[0].source})
  }

  lemma SourcesStep(ps: seq<Pointer>)
    requires ps != []
    ensures Sources(ps) == {ps[0].source} + Sources(ps[1..])
    ensures SupportingSources(ps) == (if Supports(ps[0].relation) then {ps[0].source} else {}) + SupportingSources(ps[1..])
  {
    assert forall i :: 0 < i < |ps| ==> ps[i] == ps[1..][i - 1];
    assert forall i :: 0 <= i < |ps| - 1 ==> ps[1..][i] == ps[i + 1];
  }

  lemma {:induction false} NewSupportersOfSupport(ps: seq<Pointer>, linked: set<Id>)
    requires forall p :: p in ps ==> Supports(p.relation)
    ensures NewSupporters(ps, linked) == Sources(ps) - linked
  {
    if ps != [] {
      SourcesStep(ps);
      NewSupportersOfSupport(ps[1..], linked);
      NewSupportersOfSupport(ps[1..], linked + {ps[0].source});
    }
  }

  lemma LinkAdds(runs: Runs, refs: set<Ref>, id: EventId, e: Event, p: Pointer)
    requires p.source in runs
    ensures var refs' := Link(runs, refs, id, e, p);
      && Linked(refs', id) == Linked(refs, id) + {p.source}
      && Supporters(refs', id) == Supporters(refs, id) + if Supports(p.relation) then {p.source} else {}
  {
    var refs' := Link(runs, refs, id, e, p);
    var r := Ref(id, CheckpointRef, p.source, p.relation);
    assert r in refs';
    assert p.source in Linked(refs', id);
    forall x | x in Linked(refs, id)
      ensures x in Linked(refs', id)
    {
      var y :| y in refs && y.event == id && y.kind == CheckpointRef && y.source == x;
      assert y in refs';
    }
    forall x | x in Supporters(refs, id)
      ensures x in Supporters(refs', id)
    {
      var y :| y in refs && y.event == id && y.kind == CheckpointRef && Supports(y.relation) && y.source == x;
      assert y in refs';
    }
  }

  ghost predicate SeenAreLinked(refs: set<Ref>, id: EventId, seen: set<(Id, Relation)>) {
    forall pair :: pair in seen ==> pair.0 in Linked(refs, id)
  }

  /** One unrolling of a skipping insertion: the first pointer is passed over or links a new checkpoint. */
  lemma SkippingUnroll(runs: Runs, refs: set<Ref>, id: EventId, e: Event, ps: seq<Pointer>,
                       seen: set<(Id, Relation)>, level: ScopeValidation, n: nat)
    returns (seen': set<(Id, Relation)>)
    requires ps != [] && InsertPointers(runs, refs, id, e, ps, seen, true, level, n).Ok?
    requires SeenAreLinked(refs, id, seen)
    ensures ps[0].source in Linked(refs, id) ==>
      && SeenAreLinked(refs, id, seen')
      && InsertPointers(runs, refs, id, e, ps, seen, true, level, n) == InsertPointers(runs, refs, id, e, ps[1..], seen', true, level, n)
    ensures ps[0].source !in Linked(refs, id) ==>
      && ps[0].source in runs
      && SeenAreLinked(Link(runs, refs, id, e, ps[0]), id, seen')
      && InsertPointers(runs, refs, id, e, ps, seen, true, level, n)
         == InsertPointers(runs, Link(runs, refs, id, e, ps[0]), id, e, ps[1..], seen', true, level, n + 1)
  {
    var p := ps[0];
    seen' := if (p.source, p.relation) in seen then seen else seen + {(p.source, p.relation)};
    assert IsLinked(refs, id, p.source) <==> p.source in Linked(refs, id);
    if p.source !in Linked(refs, id) {
      assert Ref(id, CheckpointRef, p.source, p.relation) !in refs;
      LinkAdds(runs, refs, id, e, p);
    }
  }

  ghost predicate Gains(r: Result<(set<Ref>, nat)>, refs: set<Ref>, id: EventId, ps: seq<Pointer>, n: nat) {
    r.Ok? ==>
      && Supporters(r.value.0, id) == Supporters(refs, id) + NewSupporters(ps, Linked(refs, id))
      && r.value.1 == n + |Sources(ps) - Linked(refs, id)|
  }

  lemma GainsStep(r: Result<(set<Ref>, nat)>, runs: Runs, refs: set<Ref>, id: EventId, e: Event, ps: seq<Pointer>, n: nat)
    requires ps != []
    requires ps[0].source in Linked(refs, id) ==> Gains(r, refs, id, ps[1..], n)
    requires ps[0].source !in Linked(refs, id) ==>
      ps[0].source in runs && Gains(r, Link(runs, refs, id, e, ps[0]), id, ps[1..], n + 1)
    ensures Gains(r, refs, id, ps, n)
  {
    SourcesMinus(ps, Linked(refs, id));
    if ps[0].source !in Linked(refs, id) {
      LinkAdds(runs, refs, id, e, ps[0]);
    }
  }

  /** With `skip_linked_checkpoints` every inserted row is a checkpoint the event did not have. */
  lemma {:induction false} SkippingInsert(runs: Runs, refs: set<Ref>, id: EventId, e: Event, ps: seq<Pointer>,
                                          seen: set<(Id, Relation)>, level: ScopeValidation, n: nat)
    requires SeenAreLinked(refs, id, seen)
    ensures Gains(InsertPointers(runs, refs, id, e, ps, seen, true, level, n), refs, id, ps, n)
    decreases |ps|
  {
    var r := InsertPointers(runs, refs, id, e, ps, seen, true, level, n);
    if ps == [] {
      assert Sources(ps) - Linked(refs, id) == {};
    } else if r.Ok? {
      var seen' := SkippingUnroll(runs, refs, id, e, ps, seen, level, n);
      if ps[0].source in Linked(refs, id) {
        SkippingInsert(runs, refs, id, e, ps[1..], seen', level, n);
      } else {
        SkippingInsert(runs, Link(runs, refs, id, e, ps[0]), id, e, ps[1..], seen', level, n + 1);
      }
      GainsStep(r, runs, refs, id, e, ps, n);
    }
  }

  lemma SourcesMinus(ps: seq<Pointer>, linked: set<Id>)
    requires ps != []
    ensures ps[0].source in linked ==> Sources(ps) - linked == Sources(ps[1..]) - linked
    ensures ps[0].source !in linked ==> |Sources(ps) - linked| == 1 + |Sources(ps[1..]) - (linked + {ps[0].source})|
  {
    SourcesStep(ps);
    if ps[0].source !in linked {
      assert Sources(ps) - linked == {ps[0].source} + (Sources(ps[1..]) - (linked + {ps[0].source}));
    }
  }

  lemma {:induction false} CreatingInsert(runs: Runs, refs: set<Ref>, id: EventId, e: Event, ps: seq<Pointer>,
                                          seen: set<(Id, Relation)>, level: ScopeValidation, n: nat)
    requires forall pair :: pair in seen ==> Ref(id, CheckpointRef, pair.0, pair.1) in refs
    ensures var r := InsertPointers(runs, refs, id, e, ps, seen, false, level, n);
      r.Ok? ==> Supporters(r.value.0, id) == Supporters(refs, id) + SupportingSources(ps)
    decreases |ps|
  {
    if ps != [] && InsertPointers(runs, refs, id, e, ps, seen, false, level, n).Ok? {
      var p, rest := ps[0], ps[1..];
      SourcesStep(ps);
      if (p.source, p.relation) in seen {
        CreatingInsert(runs, refs, id, e, rest, seen, level, n);
        if Supports(p.relation) {
          assert Ref(id, CheckpointRef, p.source, p.relation) in refs;
          assert p.source in Supporters(refs, id);
        }
      } else {
        var isNew := Ref(id, CheckpointRef, p.source, p.relation) !in refs;
        LinkAdds(runs, refs, id, e, p);
        CreatingInsert(runs, Link(runs, refs, id, e, p), id, e, rest, seen + {(p.source, p.relation)}, level,
                       if isNew then n + 1 else n);
      }
    }
  }

  predicate PointsAt(ps: seq<Pointer>, source: Id, relation: Relation) {
    exists p :: p in ps && p.source == source && p.relation == relation
  }

  /** On creation the checkpoint links added are those of the pointers, each checkpoint and relation once. */
  lemma {:induction false} EveryPointerIsLinked(runs: Runs, refs: set<Ref>, id: EventId, e: Event, ps: seq<Pointer>,
                                                seen: set<(Id, Relation)>, level: ScopeValidation, n: nat,
                                                source: Id, relation: Relation)
    requires forall pair :: pair in seen ==> Ref(id, CheckpointRef, pair.0, pair.1) in refs
    ensures var r := InsertPointers(runs, refs, id, e, ps, seen, false, level, n);
      r.Ok? ==>
        var x := Ref(id, CheckpointRef, source, relation);
        (x in r.value.0 <==> x in refs || PointsAt(ps, source, relation))
    decreases |ps|
  {
    hide HasSpecific, NeedsSpecific, PointsAt, ScopeError;
    if ps == [] {
      NamedFirst(ps, source, relation);
    } else if InsertPointers(runs, refs, id, e, ps, seen, false, level, n).Ok? {
      var p, rest := ps[0], ps[1..];
      NamedFirst(ps, source, relation);
      if (p.source, p.relation) in seen {
        assert Ref(id, CheckpointRef, p.source, p.relation) in refs;
        EveryPointerIsLinked(runs, refs, id, e, rest, seen, level, n, source, relation);
      } else {
        var isNew := Ref(id, CheckpointRef, p.source, p.relation) !in refs;
        EveryPointerIsLinked(runs, Link(runs, refs, id, e, p), id, e, rest, seen + {(p.source, p.relation)}, level,
                             if isNew then n + 1 else n, source, relation);
      }
    }
  }

  lemma NamedFirst(ps: seq<Pointer>, source: Id, relation: Relation)
    ensures PointsAt(ps, source, relation) <==>
      ps != [] && ((ps[0].source == source && ps[0].relation == relation) || PointsAt(ps[1..], source, relation))
  {
    if ps != [] {
      assert ps == [ps[0]] + ps[1..];
      assert forall p :: p in ps <==> p == ps[0] || p in ps[1..];
    }
  }

  lemma {:induction false} AsSupportShape(ps: seq<Pointer>)
    ensures forall p :: p in AsSupport(ps) ==> Supports(p.relation)
    ensures Sources(AsSupport(ps)) == SupportingSources(ps)
  {
    if ps != [] {
      AsSupportShape(ps[1..]);
      SourcesStep(ps);
      if Supports(ps[0].relation) {
        SourcesStep(AsSupport(ps));
        assert AsSupport(ps)[1..] == AsSupport(ps[1..]);
      } else {
        assert AsSupport(ps) == AsSupport(ps[1..]);
      }
    }
  }

  lemma SupportersInLinked(refs: set<Ref>, id: EventId)
    ensures Supporters(refs, id) <= Linked(refs, id)
  {
  }

  lemma CountDisjoint(a: set<Id>, b: set<Id>)
    requires a !! b
    ensures |a + b| == |a| + |b|
  {
  }

  /** A row other than the touched one keeps its references, hence its counter. */
  lemma CounterKept(s: Store, s': Store, id: EventId)
    requires id in s.events && id in s'.events && s.events[id].progress == s'.events[id].progress
    requires forall r: Ref :: r.event == id ==> (r in s.refs <==> r in s'.refs)
    requires CounterOk(s, id)
    ensures CounterOk(s', id)
  {
    assert Supporters(s.refs, id) == Supporters(s'.refs, id);
  }

  lemma OthersKept(s: Store, s': Store, touched: EventId)
    requires Counters(s) && CounterOk(s', touched)
    requires forall id: EventId :: id in s'.events && id != touched && id.ConditionId? ==> Keeps(s, s', id)
    ensures Counters(s')
  {
    forall id: EventId | id in s'.events && id.ConditionId?
      ensures CounterOk(s', id)
    {
      if id != touched {
        CounterKept(s, s', id);
      }
    }
  }

  lemma SupportCounts(runs: Runs, s: Store, a: Anchor, c: Candidate, id: EventId)
    requires Inv(s) && Counters(s) && IsActive(s, id, KeyOf(a, c))
    ensures var r := SupportActive(runs, s, a, c, id);
      r.Ok? ==> Counters(r.value.0)
  {
    hide InsertPointers, AsSupport, Supporters, KeyOf, Supports;
    var r := SupportActive(runs, s, a, c, id);
    if r.Ok? && r.value.1.Updated? {
      InsertEvidenceGrow(runs, s, a.tenant, a.site, id, AsSupport(c.evidence), true, Strict);
      SupportInsert(runs, s.refs, id, s.events[id], c.evidence);
      OthersKept(s, r.value.0, id);
    }
  }

  lemma SupportInsert(runs: Runs, refs: set<Ref>, id: EventId, e: Event, evidence: seq<Pointer>)
    ensures var r := InsertPointers(runs, refs, id, e, AsSupport(evidence), {}, true, Strict, 0);
      r.Ok? ==> |Supporters(r.value.0, id)| == |Supporters(refs, id)| + r.value.1
  {
    var ps := AsSupport(evidence);
    AsSupportShape(evidence);
    SkippingInsert(runs, refs, id, e, ps, {}, Strict, 0);
    NewSupportersOfSupport(ps, Linked(refs, id));
    SupportersInLinked(refs, id);
    CountDisjoint(Supporters(refs, id), Sources(ps) - Linked(refs, id));
  }

  lemma CreateCounts(runs: Runs, s: Store, a: Anchor, c: Candidate, template: Id)
    requires Inv(s) && Counters(s)
    requires !Conflicts(s, ConditionEventId(a, c), ConditionRow(a, c, template))
    ensures var s' := Insert(s, ConditionEventId(a, c), ConditionRow(a, c, template));
      var r := InsertEvidence(runs, s', a.tenant, a.site, ConditionEventId(a, c), c.evidence, false, Strict);
      r.Ok? ==> Counters(s'.(refs := r.value.0))
  {
    var id, row := ConditionEventId(a, c), ConditionRow(a, c, template);
    var s' := Insert(s, id, row);
    var r := InsertEvidence(runs, s', a.tenant, a.site, id, c.evidence, false, Strict);
    if r.Ok? {
      InsertEvidenceGrow(runs, s', a.tenant, a.site, id, c.evidence, false, Strict);
      CreatingInsert(runs, s'.refs, id, s'.events[id], c.evidence, {}, Strict, 0);
      assert Supporters(s.refs, id) == {};
      assert Supporters(r.value.0, id) == SupportingSources(c.evidence);
      OthersKept(s, s'.(refs := r.value.0), id);
    }
  }

  /**
    Closing a row leaves its counter equal to its supporters exactly when the recovery evidence
    does not itself link a new supporting checkpoint.
  */
  lemma CloseCountsIff(runs: Runs, s: Store, a: Anchor, c: Candidate, id: EventId)
    requires Inv(s) && Counters(s) && IsActive(s, id, KeyOf(a, c))
    ensures var r := CloseActive(runs, s, a, c, id);
      r.Ok? && r.value.1.Updated? ==>
        (Counters(r.value.0) <==> NewSupporters(c.evidence, Linked(s.refs, id)) == {})
  {
    var r := CloseActive(runs, s, a, c, id);
    if r.Ok? && r.value.1.Updated? {
      InsertEvidenceGrow(runs, s, a.tenant, a.site, id, c.evidence, true, Strict);
      RecoveryInsert(runs, s.refs, id, s.events[id], c.evidence);
      assert CounterOk(s, id);
      if NewSupporters(c.evidence, Linked(s.refs, id)) == {} {
        OthersKept(s, r.value.0, id);
      } else {
        assert !CounterOk(r.value.0, id);
      }
    }
  }

  lemma RecoveryInsert(runs: Runs, refs: set<Ref>, id: EventId, e: Event, evidence: seq<Pointer>)
    ensures var r := InsertPointers(runs, refs, id, e, evidence, {}, true, Strict, 0);
      r.Ok? ==> (|Supporters(r.value.0, id)| == |Supporters(refs, id)| <==> NewSupporters(evidence, Linked(refs, id)) == {})
  {
    SkippingInsert(runs, refs, id, e, evidence, {}, Strict, 0);
    NewSupportersAreNew(evidence, Linked(refs, id));
    SupportersInLinked(refs, id);
    CountDisjoint(Supporters(refs, id), NewSupporters(evidence, Linked(refs, id)));
  }

  lemma {:induction false} NewSupportersAreNew(ps: seq<Pointer>, linked: set<Id>)
    ensures NewSupporters(ps, linked) !! linked
  {
    if ps != [] {
      NewSupportersAreNew(ps[1..], linked);
      NewSupportersAreNew(ps[1..], linked + {ps[0].source});
    }
  }

  /** Recovery evidence, as the evaluator builds it, never supports. */
  predicate CleanRecovery(c: Candidate) {
    c.action == Resolve ==> forall p :: p in c.evidence ==> !Supports(p.relation)
  }

  lemma {:induction false} NoNewSupporters(ps: seq<Pointer>, linked: set<Id>)
    requires forall p :: p in ps ==> !Supports(p.relation)
    ensures NewSupporters(ps, linked) == {}
  {
    if ps != [] {
      NoNewSupporters(ps[1..], linked);
      NoNewSupporters(ps[1..], linked + {ps[0].source});
    }
  }
}
