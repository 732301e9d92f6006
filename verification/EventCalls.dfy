/** What one whole call leaves: a row for every recorded candidate, tallies that count rows, and when a condition moves. */
module EventCalls {
  import opened Contracts
  import opened Lifecycle
  import opened EventStore
  import opened EventInvariants
  import opened EventHistory
  import opened EventRows
  import opened EventEvidence

  // ---------------------------------------------------------------- every recorded candidate has its row

  /** A recorded row of the candidate's own tenant, site, code, subject and scope, with all its evidence. */
  predicate HasRow(s: Store, a: Anchor, c: Candidate, id: EventId) {
    && id in s.events
    && var e := s.events[id];
       && e.status == Recorded && e.tenant == a.tenant && e.site == a.site && e.code == c.code && e.subject == c.subject
       && (forall k :: k in e.scope ==> k in c.scope && c.scope[k] == Some(e.scope[k]))
       && (forall k :: k in c.scope && c.scope[k].Some? ==> k in e.scope)
       && (forall p :: p in c.evidence ==> Ref(id, CheckpointRef, p.source, p.relation) in s.refs)
  }

  lemma PointHasRow(runs: Runs, s: Store, a: Anchor, c: Candidate, row: Event, level: ScopeValidation)
    requires Inv(s) && row.status == Recorded && row.key.None? && row.scope == NormalizedScope(c.scope)
    requires row.tenant == a.tenant && row.site == a.site && row.code == c.code && row.subject == c.subject
    ensures var r := PersistPointEvent(runs, s, a, c, row, level);
      r.Ok? ==> HasRow(r.value.0, a, c, PointEventId(a, c, row.scope))
  {
    var r, id := PersistPointEvent(runs, s, a, c, row, level), PointEventId(a, c, row.scope);
    if r.Ok? {
      PointIdsAreNotConditions(a, c, row.scope);
      hide PointEventId, InsertPointers, RowConstraints;
      var inserted := if Conflicts(s, id, row) then s else Insert(s, id, row);
      assert RowOk(id, inserted.events[id]);
      forall p | p in c.evidence
        ensures Ref(id, CheckpointRef, p.source, p.relation) in r.value.0.refs
      {
        EveryPointerIsLinked(runs, s.refs, id, inserted.events[id], c.evidence, {}, level, 0, p.source, p.relation);
        assert PointsAt(c.evidence, p.source, p.relation);
      }
    }
  }

  lemma RecordHasRow(runs: Runs, s: Store, a: Anchor, c: Candidate)
    requires Inv(s) && c.action == Record
    ensures var r := PersistOne(runs, s, a, c, false);
      r.Ok? ==> exists id: EventId :: !id.ConditionId? && HasRow(r.value.0, a, c, id)
  {
    var scope := NormalizedScope(c.scope);
    if RuleOf(c.code).kind == Point && TemplateKey in scope {
      var after := if c.occurredAfter.Some? then c.occurredAfter else a.previousAt;
      var row := PointRow(a, c, scope, Some(scope[TemplateKey]),
                          c.detectedAt.Or(a.currentAt), c.occurredBefore.Or(a.currentAt), after);
      PointHasRow(runs, s, a, c, row, Strict);
      PointIdsAreNotConditions(a, c, scope);
      hide HasRow, PersistPointEvent, PointEventId;
    }
  }

  ghost predicate AllHaveRows(s: Store, a: Anchor, cs: seq<Candidate>) {
    forall c :: c in cs && c.action == Record ==> exists id: EventId :: !id.ConditionId? && HasRow(s, a, c, id)
  }

  /** After a call that does not raise, every recorded candidate has a row of its own and its evidence is linked to it. */
  lemma {:induction false} RecordedCandidatesHaveRows(runs: Runs, s: Store, a: Anchor, cs: seq<Candidate>, t: Tally)
    requires Inv(s)
    ensures var r := PersistAll(runs, s, a, cs, t);
      r.Ok? ==> Later(s, r.value.0) && AllHaveRows(r.value.0, a, cs)
    decreases |cs|
  {
    hide HasRow, Inv, PersistOne, Counted;
    if cs == [] {
      NothingLater(s);
    } else {
      var c := cs[0];
      var one := PersistOne(runs, s, a, c, false);
      if one.Ok? {
        PersistOneStep(runs, s, a, c, false);
        StepIsLater(s, one.value.0, KeyOf(a, c));
        RecordedCandidatesHaveRows(runs, one.value.0, a, cs[1..], Counted(t, one.value.1, c));
        var r := PersistAll(runs, s, a, cs, t);
        if r.Ok? {
          LaterThrough(s, one.value.0, r.value.0);
          if c.action == Record {
            RecordHasRow(runs, s, a, c);
            var id: EventId :| !id.ConditionId? && HasRow(one.value.0, a, c, id);
            LaterHasRow(one.value.0, r.value.0, a, c, id);
          }
          assert cs == [c] + cs[1..];
        }
      }
    }
  }

  /** Rows of point events and evidence only accumulate. */
  ghost predicate Later(s: Store, s': Store) {
    && Inv(s') && s.refs <= s'.refs
    && forall id :: id in s.events && !id.ConditionId? ==> id in s'.events && s'.events[id] == s.events[id]
  }

  lemma NothingLater(s: Store)
    requires Inv(s)
    ensures Later(s, s)
  {
  }

  lemma StepIsLater(s: Store, s': Store, key: ConditionKey)
    requires Step(s, s', key)
    ensures Inv(s') && Later(s, s')
  {
  }

  lemma LaterThrough(s: Store, s': Store, s'': Store)
    requires Later(s, s') && Later(s', s'')
    ensures Later(s, s'')
  {
  }

  lemma LaterHasRow(s: Store, s': Store, a: Anchor, c: Candidate, id: EventId)
    requires Later(s, s') && HasRow(s, a, c, id) && !id.ConditionId?
    ensures HasRow(s', a, c, id)
  {
  }

  // ---------------------------------------------------------------- the tallies

  ghost function Closings(s: Store): set<EventId> {
    set id | id in s.events && s.events[id].status == Resolved
  }

  /** How many of the candidates changed the event table. */
  ghost function Writes(runs: Runs, s: Store, a: Anchor, cs: seq<Candidate>): nat
    decreases |cs|
  {
    if cs == [] then 0
    else
      match PersistOne(runs, s, a, cs[0], false)
      case Err(_) => 0
      case Ok((s', _)) => (if s'.events != s.events then 1 else 0) + Writes(runs, s', a, cs[1..])
  }

  lemma OneTally(s: Store, s': Store, a: Anchor, c: Candidate, o: Outcome, t: Tally)
    requires OutcomeFits(s, s', a, c, o)
    ensures var t' := Counted(t, o, c);
      && t'.created - t.created == |s'.events| - |s.events|
      && t'.resolved - t.resolved == |Closings(s')| - |Closings(s)|
      && (t'.created + t'.updated + t'.resolved) - (t.created + t.updated + t.resolved) == if s'.events != s.events then 1 else 0
  {
    match o
    case Created(id) =>
      assert Closings(s') == Closings(s);
    case Updated(id) =>
      if c.action == Resolve {
        assert Closings(s') == Closings(s) + {id};
        assert id !in Closings(s);
      } else {
        assert Closings(s') == Closings(s);
      }
    case Ignored =>
      assert Closings(s') == Closings(s);
  }

  /**
    Of a call that does not raise, `created` is the number of rows added, `resolved` the number of rows
    closed, and the three tallies together the number of candidates that changed the table.
  */
  lemma {:induction false} TalliesCountRows(runs: Runs, s: Store, a: Anchor, cs: seq<Candidate>, t: Tally)
    ensures var r := PersistAll(runs, s, a, cs, t);
      r.Ok? ==>
        var (s', t') := r.value;
        && t'.created - t.created == |s'.events| - |s.events|
        && t'.resolved - t.resolved == |Closings(s')| - |Closings(s)|
        && (t'.created + t'.updated + t'.resolved) - (t.created + t.updated + t.resolved) == Writes(runs, s, a, cs)
    decreases |cs|
  {
    if cs != [] {
      hide PersistOne, Counted, OutcomeFits, Closings;
      var one := PersistOne(runs, s, a, cs[0], false);
      if one.Ok? {
        PersistOneFits(runs, s, a, cs[0], false);
        OneTally(s, one.value.0, a, cs[0], one.value.1, t);
        TalliesCountRows(runs, one.value.0, a, cs[1..], Counted(t, one.value.1, cs[0]));
      }
    }
  }

  // ---------------------------------------------------------------- when a condition moves

  /** Some pointer, only a supporting one if asked, names a checkpoint the row is not linked to. */
  ghost predicate BringsNew(refs: set<Ref>, id: EventId, ps: seq<Pointer>, supportingOnly: bool) {
    exists i :: 0 <= i < |ps| && ps[i].source !in Linked(refs, id)
      && (supportingOnly ==> ps[i].relation == TriggerAfter || ps[i].relation == Relation.Supporting)
  }

  lemma InsertedIff(runs: Runs, s: Store, tenant: Id, site: Id, id: EventId, ps: seq<Pointer>)
    ensures var r := InsertEvidence(runs, s, tenant, site, id, ps, true, Strict);
      r.Ok? ==> (r.value.1 > 0 <==> exists x :: x in Sources(ps) && x !in Linked(s.refs, id))
  {
    var r := InsertEvidence(runs, s, tenant, site, id, ps, true, Strict);
    hide InsertPointers;
    if r.Ok? {
      SkippingInsert(runs, s.refs, id, s.events[id], ps, {}, Strict, 0);
      hide InsertEvidence, Sources, Linked;
      NonEmptyDifference(Sources(ps), Linked(s.refs, id));
    }
  }

  lemma NonEmptyDifference<T>(a: set<T>, b: set<T>)
    ensures |a - b| > 0 <==> exists x :: x in a && x !in b
  {
    if x :| x in a && x !in b {
      assert x in a - b;
    } else {
      assert a - b == {};
    }
  }

  lemma SupportMoves(runs: Runs, s: Store, a: Anchor, c: Candidate, id: EventId)
    requires id in s.events
    ensures var r := SupportActive(runs, s, a, c, id);
      r.Ok? ==> (r.value.1.Updated? <==> BringsNew(s.refs, id, c.evidence, true)) && !r.value.1.Created?
  {
    InsertedIff(runs, s, a.tenant, a.site, id, AsSupport(c.evidence));
    AsSupportShape(c.evidence);
    hide InsertEvidence, AsSupport, Linked;
    if exists x :: x in Sources(AsSupport(c.evidence)) && x !in Linked(s.refs, id) {
      var x :| x in SupportingSources(c.evidence) && x !in Linked(s.refs, id);
      var i :| 0 <= i < |c.evidence| && Supports(c.evidence[i].relation) && c.evidence[i].source == x;
      assert BringsNew(s.refs, id, c.evidence, true);
    }
    if BringsNew(s.refs, id, c.evidence, true) {
      var i :| 0 <= i < |c.evidence| && c.evidence[i].source !in Linked(s.refs, id)
        && (c.evidence[i].relation == TriggerAfter || c.evidence[i].relation == Relation.Supporting);
      assert c.evidence[i].source in SupportingSources(c.evidence);
    }
  }

  lemma CloseMoves(runs: Runs, s: Store, a: Anchor, c: Candidate, id: EventId)
    requires id in s.events
    ensures var r := CloseActive(runs, s, a, c, id);
      r.Ok? ==>
        && !r.value.1.Created?
        && (r.value.1.Updated? <==> s.events[id].detectedAt <= StatedAt(a, c) && BringsNew(s.refs, id, c.evidence, false))
  {
    InsertedIff(runs, s, a.tenant, a.site, id, c.evidence);
    hide InsertEvidence, Linked;
    if BringsNew(s.refs, id, c.evidence, false) {
      var i :| 0 <= i < |c.evidence| && c.evidence[i].source !in Linked(s.refs, id);
      assert c.evidence[i].source in Sources(c.evidence);
    }
    if exists x :: x in Sources(c.evidence) && x !in Linked(s.refs, id) {
      var x :| x in Sources(c.evidence) && x !in Linked(s.refs, id);
      var i :| 0 <= i < |c.evidence| && c.evidence[i].source == x;
      assert BringsNew(s.refs, id, c.evidence, false);
    }
  }

  /** The active row of the candidate's tenant, site, code, subject and scope. */
  predicate IsOpen(s: Store, a: Anchor, c: Candidate, id: EventId) {
    && id in s.events && id.ConditionId? && s.events[id].status == Active
    && s.events[id].tenant == a.tenant && s.events[id].site == a.site
    && s.events[id].code == c.code && s.events[id].subject == c.subject && s.events[id].scope == NormalizedScope(c.scope)
  }

  lemma OpenIsActive(s: Store, a: Anchor, c: Candidate, id: EventId)
    requires Inv(s)
    ensures IsOpen(s, a, c, id) <==> IsActive(s, id, KeyOf(a, c))
  {
    hide NormalizedScope;
    if id in s.events {
      assert RowOk(id, s.events[id]);
    }
  }

  /**
    A condition candidate that does not raise: with an open row, support updates it exactly when a
    triggering or supporting pointer names a checkpoint it is not linked to, a recovery closes it exactly
    when it is not older than the row and names such a checkpoint; without one, an upsert opens a row, and
    support and recovery do nothing.
  */
  lemma ConditionMovesIff(runs: Runs, s: Store, a: Anchor, c: Candidate, id: EventId)
    requires Inv(s) && (c.action == Upsert || c.action == Action.Support || c.action == Resolve)
    requires PersistOne(runs, s, a, c, false).Ok?
    ensures var o := PersistOne(runs, s, a, c, false).value.1;
      && (IsOpen(s, a, c, id) ==>
            && !o.Created?
            && (o.Updated? <==>
                  if c.action == Resolve then s.events[id].detectedAt <= StatedAt(a, c) && BringsNew(s.refs, id, c.evidence, false)
                  else BringsNew(s.refs, id, c.evidence, true)))
      && ((forall x :: !IsOpen(s, a, c, x)) ==> if c.action == Upsert then o.Created? else o.Ignored?)
  {
    hide IsOpen, SupportActive, CloseActive, BringsNew, Inv, KeyOf, NormalizedScope, InsertEvidence, RowConstraints;
    OpenIsActive(s, a, c, id);
    forall x
      ensures IsOpen(s, a, c, x) <==> IsActive(s, x, KeyOf(a, c))
    {
      OpenIsActive(s, a, c, x);
    }
    var active := FindActive(s, KeyOf(a, c));
    if IsOpen(s, a, c, id) {
      ActiveIsFound(s, id, KeyOf(a, c));
      SupportMoves(runs, s, a, c, id);
      CloseMoves(runs, s, a, c, id);
    } else {
      assert (forall x :: !IsOpen(s, a, c, x)) ==> active.None?;
    }
  }

  lemma ActiveIsFound(s: Store, id: EventId, key: ConditionKey)
    requires Inv(s) && IsActive(s, id, key)
    ensures FindActive(s, key) == Some(id)
  {
  }

  /** What refuses a pointer. */
  predicate PointersError(error: EventError) {
    error == UnsupportedRelation || error == UnsupportedEvidenceKind || error == EvidenceOwnership
    || error == InvalidScope || error == ScopeMismatch || error == MissingSpecificEvidence
  }

  lemma {:induction false} PointersRaise(runs: Runs, refs: set<Ref>, id: EventId, e: Event, ps: seq<Pointer>,
                                         seen: set<(Id, Relation)>, skip: bool, level: ScopeValidation, n: nat)
    ensures var r := InsertPointers(runs, refs, id, e, ps, seen, skip, level, n); r.Err? ==> PointersError(r.error)
    decreases |ps|
  {
    if ps != [] {
      var p, rest := ps[0], ps[1..];
      var seen' := seen + {(p.source, p.relation)};
      PointersRaise(runs, refs, id, e, rest, seen, skip, level, n);
      PointersRaise(runs, refs, id, e, rest, seen', skip, level, n);
      if p.source in runs {
        var isNew := Ref(id, CheckpointRef, p.source, p.relation) !in refs;
        PointersRaise(runs, Link(runs, refs, id, e, p), id, e, rest, seen', skip, level, if isNew then n + 1 else n);
      }
    }
  }

  lemma EvidenceRaises(runs: Runs, tenant: Id, site: Id, level: ScopeValidation)
    ensures forall s: Store, id: EventId, ps: seq<Pointer>, skip: bool ::
      var r := InsertEvidence(runs, s, tenant, site, id, ps, skip, level); r.Err? ==> r.error == EventOwnership || PointersError(r.error)
  {
    forall s: Store, id: EventId, ps: seq<Pointer>, skip: bool
      ensures var r := InsertEvidence(runs, s, tenant, site, id, ps, skip, level);
        r.Err? ==> r.error == EventOwnership || PointersError(r.error)
    {
      if id in s.events {
        PointersRaise(runs, s.refs, id, s.events[id], ps, {}, skip, level, 0);
      }
    }
  }

  predicate IsConditionCode(code: Code) {
    code == JsErrorStarted || code == GptExpectedSlotMissing
  }

  /** A candidate is of the wrong kind exactly when it records a condition or opens, supports or closes a point. */
  lemma WrongKindIff(runs: Runs, s: Store, a: Anchor, c: Candidate)
    ensures PersistOne(runs, s, a, c, false) == Err(WrongKind) <==>
      match c.action
      case Record => IsConditionCode(c.code)
      case Pending => false
      case _ => !IsConditionCode(c.code)
  {
    EvidenceRaises(runs, a.tenant, a.site, Strict);
    hide InsertEvidence, RowConstraints, FindActive;
  }

  /** A diagnostic candidate is refused as such unless it records a point; then it needs a time of its own or of the run. */
  lemma DiagnosticRefusedIff(runs: Runs, s: Store, a: Anchor, c: Candidate, observedAt: Option<Time>)
    ensures PersistDiagnosticOne(runs, s, a, c, observedAt) == Err(WrongKind) <==> c.action != Record || IsConditionCode(c.code)
    ensures PersistDiagnosticOne(runs, s, a, c, observedAt) == Err(MissingObservationTime) <==>
      c.action == Record && !IsConditionCode(c.code) && c.detectedAt.None? && observedAt.None?
  {
    EvidenceRaises(runs, a.tenant, a.site, SourceLevel);
    hide InsertEvidence, RowConstraints;
  }

  // ---------------------------------------------------------------- when a candidate raises

  /** An event of which only what evidence is checked against is the candidate's. */
  function Subject(a: Anchor, c: Candidate): Event {
    Event(a.tenant, a.site, c.code, None, 0, None, None, None, 0, Info, Recorded, None,
          NormalizedScope(c.scope), c.subject, NO_PROGRESS, 0)
  }

  predicate AllAcceptable(runs: Runs, a: Anchor, c: Candidate) {
    forall i :: 0 <= i < |c.evidence| ==> Acceptable(runs, Subject(a, c), c.evidence[i], Strict)
  }

  lemma AcceptedForSubject(runs: Runs, s: Store, a: Anchor, c: Candidate, id: EventId)
    requires id in s.events && SameSubject(s.events[id], Subject(a, c))
    ensures InsertEvidence(runs, s, a.tenant, a.site, id, c.evidence, false, Strict).Ok? <==> AllAcceptable(runs, a, c)
  {
    EvidenceAcceptedIff(runs, s.refs, id, s.events[id], c.evidence, {}, Strict, 0);
    forall i | 0 <= i < |c.evidence|
      ensures Acceptable(runs, s.events[id], c.evidence[i], Strict) <==> Acceptable(runs, Subject(a, c), c.evidence[i], Strict)
    {
    }
    hide Acceptable, InsertPointers;
  }

  /** The bounds of when the recorded transition happened, as the row will have them. */
  predicate TimesOrdered(after: Option<Time>, before: Time) {
    after.Some? ==> after.value <= before
  }

  /**
    Recording succeeds exactly for a point code, a scope with a template, bounds in order, evidence that is
    acceptable pointer by pointer, and a row id that is free or belongs to the same site.
  */
  lemma RecordSucceedsIff(runs: Runs, s: Store, a: Anchor, c: Candidate)
    requires Inv(s) && c.action == Record
    ensures PersistOne(runs, s, a, c, false).Ok? <==>
      && c.code != JsErrorStarted && c.code != GptExpectedSlotMissing
      && TemplateKey in c.scope && c.scope[TemplateKey].Some?
      && TimesOrdered(if c.occurredAfter.Some? then c.occurredAfter else a.previousAt,
                      if c.occurredBefore.Some? then c.occurredBefore.value else a.currentAt)
      && AllAcceptable(runs, a, c)
      && var id := PointEventId(a, c, NormalizedScope(c.scope));
         (id in s.events ==> s.events[id].site == a.site)
  {
    var scope := NormalizedScope(c.scope);
    var id := PointEventId(a, c, scope);
    PointIdsAreNotConditions(a, c, scope);
    hide PointEventId, InsertPointers, AllAcceptable;
    if RuleOf(c.code).kind == Point && TemplateKey in scope {
      var after := if c.occurredAfter.Some? then c.occurredAfter else a.previousAt;
      var row := PointRow(a, c, scope, Some(scope[TemplateKey]),
                          c.detectedAt.Or(a.currentAt), c.occurredBefore.Or(a.currentAt), after);
      var inserted := if Conflicts(s, id, row) then s else Insert(s, id, row);
      assert RowConstraints(row) ==> RowOk(id, inserted.events[id]);
      if RowConstraints(row) && inserted.events[id].site == a.site {
        AcceptedForSubject(runs, inserted, a, c, id);
      }
    }
  }

  /**
    Opening succeeds, where no row is open and the id is free, exactly for a condition code, a scope with a
    template, bounds in order and acceptable evidence.
  */
  lemma OpeningSucceedsIff(runs: Runs, s: Store, a: Anchor, c: Candidate)
    requires Inv(s) && c.action == Upsert && ConditionEventId(a, c) !in s.events && forall x :: !IsOpen(s, a, c, x)
    ensures PersistOne(runs, s, a, c, false).Ok? <==>
      && (c.code == JsErrorStarted || c.code == GptExpectedSlotMissing)
      && TemplateKey in c.scope && c.scope[TemplateKey].Some?
      && TimesOrdered(c.occurredAfter, if c.occurredBefore.Some? then c.occurredBefore.value else StatedAt(a, c))
      && AllAcceptable(runs, a, c)
  {
    forall x
      ensures !IsActive(s, x, KeyOf(a, c))
    {
      OpenIsActive(s, a, c, x);
    }
    hide ConditionEventId, InsertPointers, AllAcceptable, KeyOf, IsOpen;
    var scope, id := NormalizedScope(c.scope), ConditionEventId(a, c);
    if RuleOf(c.code).kind == Condition && TemplateKey in scope {
      var row := ConditionRow(a, c, scope[TemplateKey]);
      assert !Conflicts(s, id, row);
      AcceptedForSubject(runs, Insert(s, id, row), a, c, id);
    }
  }
}
