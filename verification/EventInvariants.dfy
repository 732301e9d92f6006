/** What every transaction of the event repository keeps, over every run. */
module EventInvariants {
  import opened Contracts
  import opened Lifecycle
  import opened EventStore

  // ---------------------------------------------------------------- state predicates

  predicate RowOk(id: EventId, e: Event) {
    && RowConstraints(e)
    && (id.ConditionId? <==> e.key.Some?)
    && (id.ConditionId? ==>
          && id.key == e.key.value && id.key.tenant == e.tenant && id.key.site == e.site && id.key.code == e.code
          && id.key.subject == e.subject && id.key.scope == e.scope)
    && (!id.ConditionId? ==> id.tenant == e.tenant && id.code == e.code && id.subject == e.subject && id.scope == e.scope)
  }

  predicate Shape(s: Store) {
    && (forall id :: id in s.events ==> RowOk(id, s.events[id]))
    && (forall r :: r in s.refs ==> r.event in s.events)
  }

  /** The partial unique index: one active row for a condition key. */
  predicate UniqueActive(s: Store) {
    forall x, y :: x in s.events && y in s.events
      && s.events[x].status == Active && s.events[y].status == Active && s.events[x].key == s.events[y].key
      ==> x == y
  }

  ghost predicate Inv(s: Store) {
    Shape(s) && UniqueActive(s)
  }

  ghost function Linked(refs: set<Ref>, id: EventId): set<Id> {
    set r | r in refs && r.event == id && r.kind == CheckpointRef :: r.source
  }

  /** The distinct checkpoints linked to a row as a trigger or as support. */
  ghost function Supporters(refs: set<Ref>, id: EventId): set<Id> {
    set r | r in refs && r.event == id && r.kind == CheckpointRef && (r.relation == TriggerAfter || r.relation == Relation.Supporting) :: r.source
  }

  // ---------------------------------------------------------------- evidence insertion

  lemma {:induction false} InsertPointersGrow(runs: Runs, refs: set<Ref>, id: EventId, e: Event, ps: seq<Pointer>,
                                              seen: set<(Id, Relation)>, skip: bool, level: ScopeValidation, n: nat)
    ensures var r := InsertPointers(runs, refs, id, e, ps, seen, skip, level, n);
      r.Ok? ==>
        && refs <= r.value.0
        && (forall x :: x in r.value.0 && x !in refs ==> x.event == id && exists p :: p in ps && p.source == x.source)
        && n <= r.value.1
        && (skip && r.value.1 == n ==> r.value.0 == refs)
    decreases |ps|
  {
    if ps != [] {
      var p, rest := ps[0], ps[1..];
      var seen' := seen + {(p.source, p.relation)};
      InsertPointersGrow(runs, refs, id, e, rest, seen, skip, level, n);
      InsertPointersGrow(runs, refs, id, e, rest, seen', skip, level, n);
      if p.source in runs {
        var linked := Link(runs, refs, id, e, p);
        var isNew := Ref(id, CheckpointRef, p.source, p.relation) !in refs;
        InsertPointersGrow(runs, linked, id, e, rest, seen', skip, level, if isNew then n + 1 else n);
      }
    }
  }

  lemma InsertEvidenceGrow(runs: Runs, s: Store, tenant: Id, site: Id, id: EventId, ps: seq<Pointer>,
                           skip: bool, level: ScopeValidation)
    ensures var r := InsertEvidence(runs, s, tenant, site, id, ps, skip, level);
      r.Ok? ==>
        && id in s.events
        && s.refs <= r.value.0
        && (forall x :: x in r.value.0 && x !in s.refs ==> x.event == id && exists p :: p in ps && p.source == x.source)
        && (skip && r.value.1 == 0 ==> r.value.0 == s.refs)
  {
    if id in s.events {
      InsertPointersGrow(runs, s.refs, id, s.events[id], ps, {}, skip, level, 0);
    }
  }

  // ---------------------------------------------------------------- one candidate

  /** Everything outside the touched row stays; closed conditions are never touched. */
  ghost predicate Keeps(s: Store, s': Store, id: EventId) {
    && id in s.events && id in s'.events
    && s'.events[id] == s.events[id]
    && forall r: Ref :: r.event == id ==> (r in s.refs <==> r in s'.refs)
  }

  ghost predicate Step(s: Store, s': Store, key: ConditionKey) {
    && Inv(s')
    && s.events.Keys <= s'.events.Keys
    && s.refs <= s'.refs
    && (forall id :: id in s.events && id.ConditionId? && (id.key != key || s.events[id].status != Active) ==> Keeps(s, s', id))
    && (forall id :: id in s'.events && id !in s.events && id.ConditionId? ==> id.key == key)
    && (forall id :: id in s.events && !id.ConditionId? ==> s'.events[id] == s.events[id])
  }

  lemma PointIdsAreNotConditions(a: Anchor, c: Candidate, scope: Scope)
    ensures var id := PointEventId(a, c, scope);
      !id.ConditionId? && id.tenant == a.tenant && id.code == c.code && id.subject == c.subject && id.scope == scope
  {
  }

  lemma PointRowStep(s: Store, refs: set<Ref>, id: EventId, row: Event, created: bool, key: ConditionKey)
    requires Inv(s) && !id.ConditionId? && row.status == Recorded && row.key.None? && RowOk(id, row)
    requires if created then id !in s.events else id in s.events
    requires s.refs <= refs && forall r :: r in refs && r !in s.refs ==> r.event == id
    ensures Step(s, (if created then Insert(s, id, row) else s).(refs := refs), key)
  {
  }

  lemma PointStep(runs: Runs, s: Store, a: Anchor, c: Candidate, row: Event, level: ScopeValidation, key: ConditionKey)
    requires Inv(s) && row.status == Recorded && row.key.None?
    requires row.tenant == a.tenant && row.code == c.code && row.subject == c.subject
    ensures var r := PersistPointEvent(runs, s, a, c, row, level);
      r.Ok? ==> Step(s, r.value.0, key)
  {
    var r := PersistPointEvent(runs, s, a, c, row, level);
    if r.Ok? {
      PointIdsAreNotConditions(a, c, row.scope);
      hide InsertEvidence, PointEventId, Step, Inv;
      var id := PointEventId(a, c, row.scope);
      var created := !Conflicts(s, id, row);
      var inserted := if created then Insert(s, id, row) else s;
      InsertEvidenceGrow(runs, inserted, a.tenant, a.site, id, c.evidence, false, level);
      PointRowStep(s, r.value.0.refs, id, row, created, key);
    }
  }

  /** Rewriting an active row in place, its evidence only growing, is a step. */
  lemma RowStep(s: Store, refs: set<Ref>, id: EventId, row: Event, key: ConditionKey)
    requires Inv(s) && IsActive(s, id, key) && RowOk(id, row) && row.key == Some(key)
    requires s.refs <= refs && forall r :: r in refs && r !in s.refs ==> r.event == id
    ensures Step(s, Store(s.events[id := row], refs, s.serial), key)
  {
  }

  lemma SupportStep(runs: Runs, s: Store, a: Anchor, c: Candidate, id: EventId)
    requires Inv(s) && IsActive(s, id, KeyOf(a, c))
    ensures var r := SupportActive(runs, s, a, c, id);
      r.Ok? ==> Step(s, r.value.0, KeyOf(a, c))
                && r.value.0.events.Keys == s.events.Keys
                && (forall x :: x in s.events ==> r.value.0.events[x].status == s.events[x].status)
  {
    NoStep(s, KeyOf(a, c));
    assert RowOk(id, s.events[id]);
    hide InsertEvidence, AsSupport, KeyOf, SeverityOf, HigherSeverity, BlastRadius, Step, Inv;
    InsertEvidenceGrow(runs, s, a.tenant, a.site, id, AsSupport(c.evidence), true, Strict);
    var r := SupportActive(runs, s, a, c, id);
    if r.Ok? && r.value.1.Updated? {
      RowStep(s, r.value.0.refs, id, r.value.0.events[id], KeyOf(a, c));
    }
  }

  lemma CreateStep(runs: Runs, s: Store, a: Anchor, c: Candidate, template: Id)
    requires Inv(s)
    requires RowConstraints(ConditionRow(a, c, template))
    requires !Conflicts(s, ConditionEventId(a, c), ConditionRow(a, c, template))
    ensures var s' := Insert(s, ConditionEventId(a, c), ConditionRow(a, c, template));
      var r := InsertEvidence(runs, s', a.tenant, a.site, ConditionEventId(a, c), c.evidence, false, Strict);
      r.Ok? ==> Step(s, s'.(refs := r.value.0), KeyOf(a, c))
  {
    var id, row := ConditionEventId(a, c), ConditionRow(a, c, template);
    var s' := Insert(s, id, row);
    InsertEvidenceGrow(runs, s', a.tenant, a.site, id, c.evidence, false, Strict);
    forall x | x in s.events && s.events[x].status == Active && s.events[x].key == row.key
      ensures false
    {
      assert IsActive(s, x, row.key.value);
    }
  }

  lemma CloseStep(runs: Runs, s: Store, a: Anchor, c: Candidate, id: EventId)
    requires Inv(s) && IsActive(s, id, KeyOf(a, c))
    ensures var r := CloseActive(runs, s, a, c, id);
      r.Ok? ==> Step(s, r.value.0, KeyOf(a, c))
  {
    NoStep(s, KeyOf(a, c));
    assert RowOk(id, s.events[id]);
    hide InsertEvidence, KeyOf, Step, Inv;
    InsertEvidenceGrow(runs, s, a.tenant, a.site, id, c.evidence, true, Strict);
    var r := CloseActive(runs, s, a, c, id);
    if r.Ok? && r.value.1.Updated? {
      RowStep(s, r.value.0.refs, id, r.value.0.events[id], KeyOf(a, c));
    }
  }

  lemma NoStep(s: Store, key: ConditionKey)
    requires Inv(s)
    ensures Step(s, s, key)
  {
  }

  /** A creator whose first read is stale ends as a supporter of the winner's row. */
  lemma ConditionStep(runs: Runs, s: Store, a: Anchor, c: Candidate, firstRead: Option<EventId>)
    requires Inv(s) && c.action != Resolve
    requires firstRead.Some? ==> IsActive(s, firstRead.value, KeyOf(a, c))
    ensures var r := PersistConditionFrom(runs, s, a, c, firstRead);
      r.Ok? ==> Step(s, r.value.0, KeyOf(a, c))
  {
    NoStep(s, KeyOf(a, c));
    if firstRead.Some? {
      SupportStep(runs, s, a, c, firstRead.value);
    } else if c.action != Support && TemplateKey in NormalizedScope(c.scope) {
      var template := NormalizedScope(c.scope)[TemplateKey];
      var id, row := ConditionEventId(a, c), ConditionRow(a, c, template);
      if RowConstraints(row) {
        if !Conflicts(s, id, row) {
          CreateStep(runs, s, a, c, template);
        } else {
          var active := FindActive(s, KeyOf(a, c));
          if active.Some? {
            SupportStep(runs, s, a, c, active.value);
          }
        }
      }
    }
  }

  lemma PersistOneStep(runs: Runs, s: Store, a: Anchor, c: Candidate, raced: bool)
    requires Inv(s)
    ensures var r := PersistOne(runs, s, a, c, raced);
      r.Ok? ==> Step(s, r.value.0, KeyOf(a, c))
  {
    NoStep(s, KeyOf(a, c));
    if c.action == Pending {
    } else if c.action == Record {
      if RuleOf(c.code).kind == Point && TemplateKey in NormalizedScope(c.scope) {
        var scope := NormalizedScope(c.scope);
        var after := if c.occurredAfter.Some? then c.occurredAfter else a.previousAt;
        var row := PointRow(a, c, scope, Some(scope[TemplateKey]),
                            c.detectedAt.Or(a.currentAt), c.occurredBefore.Or(a.currentAt), after);
        PointStep(runs, s, a, c, row, Strict, KeyOf(a, c));
      }
    } else if c.action == Resolve {
      var active := FindActive(s, KeyOf(a, c));
      if active.Some? {
        CloseStep(runs, s, a, c, active.value);
      }
    } else {
      ConditionStep(runs, s, a, c, if raced then None else FindActive(s, KeyOf(a, c)));
    }
  }
}
