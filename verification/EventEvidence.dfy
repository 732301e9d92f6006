/** Whose checkpoints an event is linked to, and with what specific evidence, over every run of calls. */
module EventEvidence {
  import opened Contracts
  import opened Lifecycle
  import opened EventStore
  import opened EventInvariants
  import opened EventTheorems

  /** The checkpoint stored what the event is about. */
  predicate Shows(e: Event, run: RunRow) {
    match e.code
    case JsErrorStarted => e.subject in run.jsErrors
    case GptExpectedSlotMissing => e.subject in run.gptSlots
    case NoindexAdded => run.hasSeo
    case CanonicalChanged => run.hasSeo
    case DependencyAdded => e.subject in run.dependencies
    case DependencyRemoved => e.subject in run.dependencies
    case _ => false
  }

  /** A checkpoint may be linked only together with that evidence; a JavaScript error is absent before it and after it. */
  predicate MustShow(code: Code, relation: Relation) {
    || code == GptExpectedSlotMissing || code == NoindexAdded || code == CanonicalChanged
    || (code == JsErrorStarted && relation != TriggerBefore && relation != Recovery)
  }

  /** The scope names the checkpoint's template, scenario, URL or site wherever it names one. */
  predicate InScope(scope: Scope, run: RunRow) {
    && (TemplateKey in scope ==> scope[TemplateKey] == run.template)
    && (ScenarioKey in scope ==> scope[ScenarioKey] == run.scenario)
    && (UrlKey in scope ==> scope[UrlKey] == run.url)
  }

  /** A link is to a checkpoint of the event's own tenant, site and scope, and carries the evidence it must. */
  predicate LinkFits(runs: Runs, refs: set<Ref>, e: Event, r: Ref, condition: bool) {
    && r.source in runs && r.relation != OtherRelation
    && var run := runs[r.source];
       && run.tenant == e.tenant && run.site == e.site && InScope(e.scope, run)
       && (condition ==> TemplateKey in e.scope && ScenarioKey in e.scope)
       && match r.kind
          case SpecificRef => Ref(r.event, CheckpointRef, r.source, r.relation) in refs && Shows(e, run)
          case CheckpointRef =>
            Ref(r.event, SpecificRef, r.source, r.relation) in refs <==> Shows(e, run)
  }

  ghost predicate LinksFit(runs: Runs, s: Store) {
    forall r: Ref :: r in s.refs ==>
      && r.event in s.events && LinkFits(runs, s.refs, s.events[r.event], r, r.event.ConditionId?)
      && (MustShow(s.events[r.event].code, r.relation) ==> Shows(s.events[r.event], runs[r.source]))
  }

  /** What links an event to its checkpoints says of one event alone. */
  ghost predicate EventLinksFit(runs: Runs, refs: set<Ref>, id: EventId, e: Event) {
    forall r: Ref :: r in refs && r.event == id ==>
      LinkFits(runs, refs, e, r, id.ConditionId?) && (MustShow(e.code, r.relation) ==> Shows(e, runs[r.source]))
  }

  lemma AcceptedPointer(runs: Runs, e: Event, p: Pointer, level: ScopeValidation)
    requires PointerError(runs, e, p, level).None?
    ensures p.source in runs && runs[p.source].tenant == e.tenant && runs[p.source].site == e.site
    ensures InScope(e.scope, runs[p.source])
    ensures level == Strict ==> TemplateKey in e.scope && ScenarioKey in e.scope
  {
  }

  lemma LinkKeepsFit(runs: Runs, refs: set<Ref>, id: EventId, e: Event, p: Pointer, level: ScopeValidation)
    requires EventLinksFit(runs, refs, id, e) && PointerError(runs, e, p, level).None? && p.relation != OtherRelation
    requires id.ConditionId? ==> level == Strict
    requires NeedsSpecific(e.code, p.relation) ==> HasSpecific(e, runs[p.source])
    ensures p.source in runs && EventLinksFit(runs, Link(runs, refs, id, e, p), id, e)
  {
    AcceptedPointer(runs, e, p, level);
    hide PointerError, InScope;
    var refs' := Link(runs, refs, id, e, p);
    forall r: Ref | r in refs' && r.event == id
      ensures LinkFits(runs, refs', e, r, id.ConditionId?) && (MustShow(e.code, r.relation) ==> Shows(e, runs[r.source]))
    {
      if r in refs {
        assert LinkFits(runs, refs, e, r, id.ConditionId?);
      }
    }
  }

  lemma {:induction false} PointersKeepFit(runs: Runs, refs: set<Ref>, id: EventId, e: Event, ps: seq<Pointer>,
                                           seen: set<(Id, Relation)>, skip: bool, level: ScopeValidation, n: nat)
    requires EventLinksFit(runs, refs, id, e) && (id.ConditionId? ==> level == Strict)
    ensures var r := InsertPointers(runs, refs, id, e, ps, seen, skip, level, n);
      r.Ok? ==> EventLinksFit(runs, r.value.0, id, e)
    decreases |ps|
  {
    hide EventLinksFit, PointerError, HasSpecific, NeedsSpecific, Link, IsLinked;
    if ps != [] {
      var p, rest := ps[0], ps[1..];
      var seen' := seen + {(p.source, p.relation)};
      PointersKeepFit(runs, refs, id, e, rest, seen, skip, level, n);
      PointersKeepFit(runs, refs, id, e, rest, seen', skip, level, n);
      if PointerError(runs, e, p, level).None? && p.relation != OtherRelation {
        AcceptedPointer(runs, e, p, level);
        if NeedsSpecific(e.code, p.relation) ==> HasSpecific(e, runs[p.source]) {
          LinkKeepsFit(runs, refs, id, e, p, level);
          var isNew := Ref(id, CheckpointRef, p.source, p.relation) !in refs;
          PointersKeepFit(runs, Link(runs, refs, id, e, p), id, e, rest, seen', skip, level, if isNew then n + 1 else n);
        }
      }
    }
  }

  /** The parts of a row that links are checked against. */
  predicate SameSubject(e: Event, e': Event) {
    e.tenant == e'.tenant && e.site == e'.site && e.code == e'.code && e.subject == e'.subject && e.scope == e'.scope
  }

  /** One row inserted or rewritten, and the evidence of its pointers. */
  lemma RowKeepsFit(runs: Runs, s: Store, s': Store, id: EventId, tenant: Id, site: Id, ps: seq<Pointer>,
                    skip: bool, level: ScopeValidation)
    requires LinksFit(runs, s) && id in s.events && (id.ConditionId? ==> level == Strict)
    requires var r := InsertEvidence(runs, s, tenant, site, id, ps, skip, level); r.Ok? && s'.refs == r.value.0
    requires forall x :: x in s.events ==> x in s'.events && SameSubject(s.events[x], s'.events[x])
    ensures LinksFit(runs, s')
  {
    var e := s.events[id];
    assert EventLinksFit(runs, s.refs, id, e);
    PointersKeepFit(runs, s.refs, id, e, ps, {}, skip, level, 0);
    InsertEvidenceGrow(runs, s, tenant, site, id, ps, skip, level);
    hide InsertPointers, InScope;
    forall r: Ref | r in s'.refs
      ensures r.event in s'.events && LinkFits(runs, s'.refs, s'.events[r.event], r, r.event.ConditionId?)
      ensures MustShow(s'.events[r.event].code, r.relation) ==> Shows(s'.events[r.event], runs[r.source])
    {
      if r.event == id {
        assert LinkFits(runs, s'.refs, e, r, id.ConditionId?);
      } else {
        assert r in s.refs && LinkFits(runs, s.refs, s.events[r.event], r, r.event.ConditionId?);
        assert Ref(r.event, SpecificRef, r.source, r.relation) in s'.refs <==> Ref(r.event, SpecificRef, r.source, r.relation) in s.refs;
      }
    }
  }

  lemma InsertKeepsFit(runs: Runs, s: Store, id: EventId, e: Event)
    requires LinksFit(runs, s) && id !in s.events
    ensures LinksFit(runs, Insert(s, id, e))
  {
    hide LinkFits, MustShow, Shows;
  }

  lemma PointKeepsFit(runs: Runs, s: Store, a: Anchor, c: Candidate, row: Event, level: ScopeValidation)
    requires LinksFit(runs, s)
    ensures var r := PersistPointEvent(runs, s, a, c, row, level); r.Ok? ==> LinksFit(runs, r.value.0)
  {
    PointIdsAreNotConditions(a, c, row.scope);
    hide LinksFit, InsertEvidence, PointEventId, RowConstraints;
    var r, id := PersistPointEvent(runs, s, a, c, row, level), PointEventId(a, c, row.scope);
    if r.Ok? {
      var inserted := if Conflicts(s, id, row) then s else Insert(s, id, row);
      if !Conflicts(s, id, row) {
        InsertKeepsFit(runs, s, id, row);
      }
      InsertEvidenceGrow(runs, inserted, a.tenant, a.site, id, c.evidence, false, level);
      RowKeepsFit(runs, inserted, r.value.0, id, a.tenant, a.site, c.evidence, false, level);
    }
  }

  lemma SupportKeepsFit(runs: Runs, s: Store, a: Anchor, c: Candidate, id: EventId)
    requires LinksFit(runs, s) && id in s.events
    ensures var r := SupportActive(runs, s, a, c, id); r.Ok? ==> LinksFit(runs, r.value.0)
  {
    hide LinksFit, InsertEvidence, AsSupport;
    var r := SupportActive(runs, s, a, c, id);
    if r.Ok? && r.value.1.Updated? {
      RowKeepsFit(runs, s, r.value.0, id, a.tenant, a.site, AsSupport(c.evidence), true, Strict);
    }
  }

  lemma CloseKeepsFit(runs: Runs, s: Store, a: Anchor, c: Candidate, id: EventId)
    requires LinksFit(runs, s) && id in s.events
    ensures var r := CloseActive(runs, s, a, c, id); r.Ok? ==> LinksFit(runs, r.value.0)
  {
    hide LinksFit, InsertEvidence;
    var r := CloseActive(runs, s, a, c, id);
    if r.Ok? && r.value.1.Updated? {
      RowKeepsFit(runs, s, r.value.0, id, a.tenant, a.site, c.evidence, true, Strict);
    }
  }

  lemma ConditionKeepsFit(runs: Runs, s: Store, a: Anchor, c: Candidate, firstRead: Option<EventId>)
    requires LinksFit(runs, s) && (firstRead.Some? ==> firstRead.value in s.events)
    ensures var r := PersistConditionFrom(runs, s, a, c, firstRead); r.Ok? ==> LinksFit(runs, r.value.0)
  {
    hide LinksFit, InsertEvidence, SupportActive, RowConstraints, KeyOf, ConditionRow, NormalizedScope;
    if firstRead.Some? {
      SupportKeepsFit(runs, s, a, c, firstRead.value);
    } else if c.action != Support && TemplateKey in NormalizedScope(c.scope) {
      var id, row := ConditionEventId(a, c), ConditionRow(a, c, NormalizedScope(c.scope)[TemplateKey]);
      if RowConstraints(row) && !Conflicts(s, id, row) {
        var inserted := Insert(s, id, row);
        InsertKeepsFit(runs, s, id, row);
        var refs := InsertEvidence(runs, inserted, a.tenant, a.site, id, c.evidence, false, Strict);
        if refs.Ok? {
          RowKeepsFit(runs, inserted, inserted.(refs := refs.value.0), id, a.tenant, a.site, c.evidence, false, Strict);
        }
      } else if FindActive(s, KeyOf(a, c)).Some? {
        SupportKeepsFit(runs, s, a, c, FindActive(s, KeyOf(a, c)).value);
      }
    }
  }

  lemma PersistOneKeepsFit(runs: Runs, s: Store, a: Anchor, c: Candidate, raced: bool)
    requires LinksFit(runs, s)
    ensures var r := PersistOne(runs, s, a, c, raced); r.Ok? ==> LinksFit(runs, r.value.0)
  {
    hide LinksFit, PersistPointEvent, PersistConditionFrom, CloseActive, KeyOf;
    var active := FindActive(s, KeyOf(a, c));
    if c.action == Record {
      var scope := NormalizedScope(c.scope);
      if TemplateKey in scope {
        var after := if c.occurredAfter.Some? then c.occurredAfter else a.previousAt;
        PointKeepsFit(runs, s, a, c,
                      PointRow(a, c, scope, Some(scope[TemplateKey]),
                               c.detectedAt.Or(a.currentAt), c.occurredBefore.Or(a.currentAt), after),
                      Strict);
      }
    } else if c.action == Resolve {
      if active.Some? {
        CloseKeepsFit(runs, s, a, c, active.value);
      }
    } else {
      ConditionKeepsFit(runs, s, a, c, if raced then None else active);
    }
  }

  lemma DiagnosticKeepsFit(runs: Runs, s: Store, a: Anchor, c: Candidate, observedAt: Option<Time>)
    requires LinksFit(runs, s)
    ensures var r := PersistDiagnosticOne(runs, s, a, c, observedAt); r.Ok? ==> LinksFit(runs, r.value.0)
  {
    hide LinksFit, PersistPointEvent;
    if c.detectedAt.Some? || observedAt.Some? {
      var observed := if c.detectedAt.Some? then c.detectedAt.value else observedAt.value;
      PointKeepsFit(runs, s, a, c,
                    PointRow(a, c, NormalizedScope(c.scope), None, observed, c.occurredBefore.Or(observed), c.occurredAfter),
                    SourceLevel);
    }
  }

  lemma {:induction false} ItemsKeepFit(runs: Runs, t: Trace, a: Anchor, items: seq<Item>)
    requires LinksFit(runs, t.store)
    ensures var r := RunItems(runs, t, a, items); r.Ok? ==> LinksFit(runs, r.value.store)
    decreases |items|
  {
    hide LinksFit, PersistOne;
    if items != [] {
      var c, raced := items[0].candidate, items[0].raced;
      var one := PersistOne(runs, t.store, a, c, raced);
      if one.Ok? {
        PersistOneKeepsFit(runs, t.store, a, c, raced);
        ItemsKeepFit(runs, Trace(one.value.0, Logged(t.log, one.value.1, c)), a, items[1..]);
      }
    }
  }

  lemma {:induction false} DiagnosticsKeepFit(runs: Runs, t: Trace, a: Anchor, observedAt: Option<Time>, cs: seq<Candidate>)
    requires LinksFit(runs, t.store)
    ensures var r := RunDiagnostics(runs, t, a, observedAt, cs); r.Ok? ==> LinksFit(runs, r.value.store)
    decreases |cs|
  {
    hide LinksFit, PersistDiagnosticOne;
    if cs != [] {
      var one := PersistDiagnosticOne(runs, t.store, a, cs[0], observedAt);
      if one.Ok? {
        DiagnosticKeepsFit(runs, t.store, a, cs[0], observedAt);
        DiagnosticsKeepFit(runs, Trace(one.value.0, Logged(t.log, one.value.1, cs[0])), a, observedAt, cs[1..]);
      }
    }
  }

  lemma {:induction false} RunKeepsFit(runs: Runs, t: Trace, calls: seq<Call>)
    requires LinksFit(runs, t.store)
    ensures LinksFit(runs, RunFrom(runs, t, calls).store)
    decreases |calls|
  {
    hide LinksFit, RunItems, RunDiagnostics;
    if calls != [] {
      match calls[0] {
        case Scheduled(a, items) => ItemsKeepFit(runs, t, a, items);
        case Diagnostic(a, observedAt, cs) => DiagnosticsKeepFit(runs, t, a, observedAt, cs);
      }
      RunKeepsFit(runs, RunCall(runs, t, calls[0]), calls[1..]);
    }
  }

  /**
    Over every run of calls, an event is linked only to checkpoints of its own tenant and site that agree
    with its scope wherever that names a template, a scenario or a URL, as a condition's must; a checkpoint
    has the specific evidence beside it exactly when it stored the event's subject, which slot, noindex
    and canonical events demand of every checkpoint and JavaScript errors of all but those before and after.
  */
  lemma EvidenceBelongsToItsEvent(runs: Runs, calls: seq<Call>)
    ensures LinksFit(runs, RunFrom(runs, START, calls).store)
  {
    RunKeepsFit(runs, START, calls);
  }

  /** The checkpoint is the event's and fits its scope as the level demands. */
  predicate Belongs(e: Event, run: RunRow, level: ScopeValidation) {
    && run.tenant == e.tenant && run.site == e.site && InScope(e.scope, run)
    && if level == Strict then TemplateKey in e.scope && ScenarioKey in e.scope
       else SiteKey in e.scope && e.scope[SiteKey] == run.site && forall k :: k in e.scope ==> !k.OtherKey?
  }

  /** A pointer is accepted exactly when its checkpoint is the event's and the scope fits it as its level demands. */
  lemma PointerAcceptedIff(runs: Runs, e: Event, p: Pointer, level: ScopeValidation)
    ensures PointerError(runs, e, p, level).None? <==> p.source in runs && Belongs(e, runs[p.source], level)
  {
  }

  /** The pointer is a checkpoint with a known relation, of the event, with the evidence the event demands of it. */
  predicate Acceptable(runs: Runs, e: Event, p: Pointer, level: ScopeValidation) {
    && p.relation != OtherRelation && p.kind == CheckpointRun
    && p.source in runs && Belongs(e, runs[p.source], level)
    && (MustShow(e.code, p.relation) ==> Shows(e, runs[p.source]))
  }

  lemma EvidenceDemanded(e: Event, run: RunRow, relation: Relation)
    ensures HasSpecific(e, run) <==> Shows(e, run)
    ensures NeedsSpecific(e.code, relation) <==> MustShow(e.code, relation)
  {
  }

  /** New evidence is accepted exactly when every pointer is; a repeated one is judged once. */
  lemma {:induction false} EvidenceAcceptedIff(runs: Runs, refs: set<Ref>, id: EventId, e: Event, ps: seq<Pointer>,
                                               seen: set<(Id, Relation)>, level: ScopeValidation, n: nat)
    ensures InsertPointers(runs, refs, id, e, ps, seen, false, level, n).Ok? <==>
      forall i :: 0 <= i < |ps| ==>
        Acceptable(runs, e, ps[i], level)
        || ((ps[i].source, ps[i].relation) in seen && ps[i].relation != OtherRelation && ps[i].kind == CheckpointRun)
    decreases |ps|
  {
    if ps != [] {
      var p, rest := ps[0], ps[1..];
      var seen' := seen + {(p.source, p.relation)};
      JudgedAs(runs, e, p, level);
      hide PointerError, HasSpecific, NeedsSpecific, Acceptable;
      assert forall i :: 0 < i < |ps| ==> ps[i] == rest[i - 1];
      assert forall i :: 0 <= i < |rest| ==> rest[i] == ps[i + 1];
      EvidenceAcceptedIff(runs, refs, id, e, rest, seen, level, n);
      if Acceptable(runs, e, p, level) {
        var isNew := Ref(id, CheckpointRef, p.source, p.relation) !in refs;
        EvidenceAcceptedIff(runs, Link(runs, refs, id, e, p), id, e, rest, seen', level, if isNew then n + 1 else n);
        Again(runs, e, ps, p, level);
      }
    }
  }

  /** The checks of the loop come to acceptability. */
  lemma JudgedAs(runs: Runs, e: Event, p: Pointer, level: ScopeValidation)
    ensures Acceptable(runs, e, p, level) <==>
      && p.relation != OtherRelation && p.kind == CheckpointRun && PointerError(runs, e, p, level).None?
      && p.source in runs && (NeedsSpecific(e.code, p.relation) ==> HasSpecific(e, runs[p.source]))
    ensures PointerError(runs, e, p, level).None? ==> p.source in runs
  {
    PointerAcceptedIff(runs, e, p, level);
    if p.source in runs {
      EvidenceDemanded(e, runs[p.source], p.relation);
    }
    hide PointerError, HasSpecific, NeedsSpecific, Shows, MustShow, Belongs;
  }

  lemma Again(runs: Runs, e: Event, ps: seq<Pointer>, p: Pointer, level: ScopeValidation)
    requires Acceptable(runs, e, p, level)
    ensures forall q :: q in ps && q.source == p.source && q.relation == p.relation && q.kind == CheckpointRun ==>
      Acceptable(runs, e, q, level)
  {
  }

  /** Where linked checkpoints are passed over, acceptable pointers are accepted all the more. */
  lemma {:induction false} AcceptableSupport(runs: Runs, refs: set<Ref>, id: EventId, e: Event, ps: seq<Pointer>,
                                             seen: set<(Id, Relation)>, level: ScopeValidation, n: nat)
    requires forall i :: 0 <= i < |ps| ==> Acceptable(runs, e, ps[i], level)
    ensures InsertPointers(runs, refs, id, e, ps, seen, true, level, n).Ok?
    decreases |ps|
  {
    if ps != [] {
      var p, rest := ps[0], ps[1..];
      var seen' := seen + {(p.source, p.relation)};
      JudgedAs(runs, e, p, level);
      hide PointerError, HasSpecific, NeedsSpecific, Acceptable;
      AcceptableSupport(runs, refs, id, e, rest, seen, level, n);
      AcceptableSupport(runs, refs, id, e, rest, seen', level, n);
      var isNew := Ref(id, CheckpointRef, p.source, p.relation) !in refs;
      AcceptableSupport(runs, Link(runs, refs, id, e, p), id, e, rest, seen', level, if isNew then n + 1 else n);
    }
  }
}
