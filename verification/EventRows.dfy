/** Which candidates share a row, what each row stores, and what the tallies of a call count. */
module EventRows {
  import opened Contracts
  import opened Lifecycle
  import opened EventStore
  import opened EventInvariants
  import opened EventHistory
  import opened EventTheorems

  // ---------------------------------------------------------------- which candidates share a row

  /** How often a checkpoint is named with a relation. */
  function Mentions(evidence: seq<Pointer>, source: Id, relation: Relation): nat {
    if evidence == [] then 0
    else (if evidence[0].source == source && evidence[0].relation == relation then 1 else 0)
         + Mentions(evidence[1..], source, relation)
  }

  /** A transition between two checkpoints, one pointer each. */
  predicate IsTransition(c: Candidate) {
    (c.code == DependencyAdded || c.code == DependencyRemoved || c.code == CanonicalChanged) && |c.evidence| == 2
  }

  /** The checkpoint the first of two pointers with this relation names, else the one the input falls back to. */
  function FirstOfTwo(evidence: seq<Pointer>, relation: Relation, fallback: Option<Id>): Option<Id>
    requires |evidence| == 2
  {
    if evidence[0].relation == relation then Some(evidence[0].source)
    else if evidence[1].relation == relation then Some(evidence[1].source)
    else fallback
  }

  lemma {:induction false} LinksAreMentions(evidence: seq<Pointer>, source: Id, relation: Relation)
    ensures Links(evidence)[(source, relation)] == Mentions(evidence, source, relation)
  {
    if evidence != [] {
      LinksAreMentions(evidence[1..], source, relation);
    }
  }

  lemma {:induction false} TriggersAreMentions(evidence: seq<Pointer>, source: Id)
    ensures TriggersOf(evidence)[source] == Mentions(evidence, source, TriggerAfter)
  {
    if evidence != [] {
      TriggersAreMentions(evidence[1..], source);
    }
  }

  lemma Differ<T>(a: multiset<T>, b: multiset<T>) returns (x: T)
    requires a != b
    ensures a[x] != b[x]
  {
    x :| a[x] != b[x];
  }

  lemma FirstSourceOfTwo(evidence: seq<Pointer>, relation: Relation, fallback: Option<Id>)
    requires |evidence| == 2
    ensures FirstSource(evidence, relation, fallback) == FirstOfTwo(evidence, relation, fallback)
  {
    assert evidence[1..][1..] == [];
    assert FirstSource(evidence[1..], relation, fallback)
        == if evidence[1].relation == relation then Some(evidence[1].source) else FirstSource([], relation, fallback);
  }

  predicate SameMentions(a: seq<Pointer>, b: seq<Pointer>, source: Id, relation: Relation) {
    Mentions(a, source, relation) == Mentions(b, source, relation)
  }

  lemma SameLinksIff(a: seq<Pointer>, b: seq<Pointer>)
    ensures Links(a) == Links(b) <==> forall source, relation :: SameMentions(a, b, source, relation)
  {
    if Links(a) == Links(b) {
      forall source, relation
        ensures SameMentions(a, b, source, relation)
      {
        LinksAreMentions(a, source, relation);
        LinksAreMentions(b, source, relation);
      }
    } else {
      var x := Differ(Links(a), Links(b));
      LinksAreMentions(a, x.0, x.1);
      LinksAreMentions(b, x.0, x.1);
      assert !SameMentions(a, b, x.0, x.1);
    }
  }

  lemma SameTriggersIff(a: seq<Pointer>, b: seq<Pointer>)
    ensures TriggersOf(a) == TriggersOf(b) <==> forall source :: SameMentions(a, b, source, TriggerAfter)
  {
    if TriggersOf(a) == TriggersOf(b) {
      forall source
        ensures SameMentions(a, b, source, TriggerAfter)
      {
        TriggersAreMentions(a, source);
        TriggersAreMentions(b, source);
      }
    } else {
      var x := Differ(TriggersOf(a), TriggersOf(b));
      TriggersAreMentions(a, x);
      TriggersAreMentions(b, x);
      assert !SameMentions(a, b, x, TriggerAfter);
    }
  }

  lemma PointIdParts(a: Anchor, c: Candidate, x: Scope)
    ensures IsTransition(c) ==>
      var after := FirstOfTwo(c.evidence, After, Some(a.currentRun));
      && after.Some?
      && PointEventId(a, c, x) ==
         TransitionId(a.tenant, FirstOfTwo(c.evidence, Before, a.previousRun), after.value, c.code, c.subject, x)
    ensures !IsTransition(c) ==> PointEventId(a, c, x) == EvidenceSetId(a.tenant, c.code, c.subject, x, Links(c.evidence))
  {
    hide FirstSource, Links;
    if IsTransition(c) {
      FirstSourceOfTwo(c.evidence, Before, a.previousRun);
      FirstSourceOfTwo(c.evidence, After, Some(a.currentRun));
    }
  }

  /**
    Two recorded candidates share a row exactly when tenant, code, subject and scope agree and so does their
    evidence: for a transition its two checkpoints, for any other the pointers as a bag.
  */
  lemma PointRowsSharedIff(a: Anchor, c: Candidate, x: Scope, b: Anchor, d: Candidate, y: Scope)
    ensures PointEventId(a, c, x) == PointEventId(b, d, y) <==>
      && a.tenant == b.tenant && c.code == d.code && c.subject == d.subject && x == y
      && (IsTransition(c) <==> IsTransition(d))
      && if IsTransition(c) && IsTransition(d) then
           && FirstOfTwo(c.evidence, Before, a.previousRun) == FirstOfTwo(d.evidence, Before, b.previousRun)
           && FirstOfTwo(c.evidence, After, Some(a.currentRun)) == FirstOfTwo(d.evidence, After, Some(b.currentRun))
         else forall source, relation :: SameMentions(c.evidence, d.evidence, source, relation)
  {
    hide PointEventId, IsTransition, FirstOfTwo, Links, SameMentions;
    PointIdParts(a, c, x);
    PointIdParts(b, d, y);
    SameLinksIff(c.evidence, d.evidence);
  }

  /**
    Two condition candidates get the same row id exactly when tenant, site, code, subject and normalized
    scope agree, and so do their trigger checkpoints as a bag and their upper time bound.
  */
  lemma ConditionRowsSharedIff(a: Anchor, c: Candidate, b: Anchor, d: Candidate)
    ensures ConditionEventId(a, c) == ConditionEventId(b, d) <==>
      && a.tenant == b.tenant && a.site == b.site && c.code == d.code && c.subject == d.subject
      && NormalizedScope(c.scope) == NormalizedScope(d.scope) && c.occurredBefore == d.occurredBefore
      && forall source :: SameMentions(c.evidence, d.evidence, source, TriggerAfter)
  {
    hide TriggersOf, NormalizedScope, SameMentions;
    SameTriggersIff(c.evidence, d.evidence);
  }

  /** Over every run, a row has the tenant, code, subject and scope its id was made of, a condition also its site. */
  lemma RowsMatchTheirIds(runs: Runs, calls: seq<Call>)
    ensures var s := RunFrom(runs, START, calls).store;
      forall id :: id in s.events ==>
        var e := s.events[id];
        match id
        case TransitionId(tenant, _, _, code, subject, scope) =>
          e.tenant == tenant && e.code == code && e.subject == subject && e.scope == scope && e.status == Recorded
        case EvidenceSetId(tenant, code, subject, scope, _) =>
          e.tenant == tenant && e.code == code && e.subject == subject && e.scope == scope && e.status == Recorded
        case ConditionId(key, _, _) =>
          && e.tenant == key.tenant && e.site == key.site && e.code == key.code && e.subject == key.subject && e.scope == key.scope
          && e.status != Recorded && e.key == Some(key)
  {
    RunKeeps(runs, START, calls);
    var s := RunFrom(runs, START, calls).store;
    forall id | id in s.events
      ensures RowOk(id, s.events[id])
    {
    }
  }

  // ---------------------------------------------------------------- what each row stores

  /** Severity as proposed, else the code's own. */
  function StatedSeverity(c: Candidate): Severity {
    match c.severity
    case Some(severity) => severity
    case None =>
      match c.code
      case DependencyAdded => Low
      case BrowserSourceRecovered => Low
      case BrowserSourceDegraded => High
      case GptExpectedSlotMissing => High
      case _ => Medium
  }

  function StatedAt(a: Anchor, c: Candidate): Time {
    match c.detectedAt
    case Some(t) => t
    case None => a.currentAt
  }

  /** What any new row takes over from its candidate. */
  predicate TakesOver(e: Event, a: Anchor, c: Candidate) {
    && e.tenant == a.tenant && e.site == a.site && e.code == c.code && e.subject == c.subject
    && (forall k :: k in e.scope ==> k in c.scope && c.scope[k] == Some(e.scope[k]))
    && (forall k :: k in c.scope && c.scope[k].Some? ==> k in e.scope)
    && e.severity == StatedSeverity(c) && e.detectedAt == StatedAt(a, c) && e.endedAt.None?
    && TemplateKey in e.scope && e.template == Some(e.scope[TemplateKey])
    && e.occurredBefore == Some(e.startedAt)
  }

  /** A recorded transition falls back to the times of the compared checkpoints. */
  predicate RecordedRow(e: Event, a: Anchor, c: Candidate) {
    && TakesOver(e, a, c) && e.status == Recorded && e.key.None?
    && e.startedAt == (if c.occurredBefore.Some? then c.occurredBefore.value else a.currentAt)
    && e.occurredAfter == (if c.occurredAfter.Some? then c.occurredAfter else a.previousAt)
  }

  /** A condition opens with its candidate's counts and as many supporters as its evidence names. */
  predicate OpenedRow(e: Event, a: Anchor, c: Candidate) {
    && TakesOver(e, a, c) && e.status == Active
    && e.startedAt == (if c.occurredBefore.Some? then c.occurredBefore.value else StatedAt(a, c))
    && e.occurredAfter == c.occurredAfter
    && e.progress.latest == Some(StatedAt(a, c)) && e.progress.affected == c.affectedUrls && e.progress.valid == c.validUrls
    && e.progress.blast == (if c.affectedUrls >= 2 then 2 else 1)
    && e.progress.resolvedAfter.None? && e.progress.resolvedBefore.None?
  }

  /** Support raises the latest time, the counts and the severity, and rewrites nothing else. */
  predicate SupportedRow(e: Event, e': Event, a: Anchor, c: Candidate) {
    && e'.(progress := e.progress, severity := e.severity) == e
    && e'.progress.resolvedAfter == e.progress.resolvedAfter && e'.progress.resolvedBefore == e.progress.resolvedBefore
    && e'.progress.supporting > e.progress.supporting
    && (e.progress.latest.Some? ==> e'.progress.latest == Some(Max(e.progress.latest.value, StatedAt(a, c))))
    && e'.progress.affected == Max(e.progress.affected, c.affectedUrls)
    && e'.progress.valid == Max(e.progress.valid, c.validUrls)
    && Rank(e'.severity) == Max(Rank(e.severity), Rank(StatedSeverity(c)))
  }

  /** Closing sets the end, the bounds of the recovery and the status, and keeps counts and severity. */
  predicate ClosedRow(e: Event, e': Event, a: Anchor, c: Candidate) {
    && e'.(progress := e.progress, endedAt := e.endedAt, status := e.status) == e
    && e'.status == Resolved && e'.endedAt == Some(StatedAt(a, c)) && e.detectedAt <= StatedAt(a, c)
    && e'.progress.(latest := e.progress.latest, resolvedAfter := e.progress.resolvedAfter,
                    resolvedBefore := e.progress.resolvedBefore) == e.progress
    && e'.progress.latest == Some(StatedAt(a, c)) && e'.progress.resolvedAfter == c.occurredAfter
    && e'.progress.resolvedBefore == Some(if c.occurredBefore.Some? then c.occurredBefore.value else StatedAt(a, c))
  }

  /** What the outcome of one candidate says about the table. */
  ghost predicate OutcomeFits(s: Store, s': Store, a: Anchor, c: Candidate, o: Outcome) {
    match o
    case Created(id) =>
      && id !in s.events && id in s'.events && s'.events == s.events[id := s'.events[id]]
      && if c.action == Record then RecordedRow(s'.events[id], a, c) else c.action == Upsert && OpenedRow(s'.events[id], a, c)
    case Updated(id) =>
      && id in s.events && id in s'.events && s'.events == s.events[id := s'.events[id]]
      && s.events[id].status == Active
      && (if c.action == Resolve then ClosedRow(s.events[id], s'.events[id], a, c)
          else (c.action == Upsert || c.action == Action.Support) && SupportedRow(s.events[id], s'.events[id], a, c))
    case Ignored => s'.events == s.events
  }

  lemma SeverityIsStated(c: Candidate)
    ensures SeverityOf(c) == StatedSeverity(c)
  {
  }

  lemma JoinOfRanks(a: Severity, b: Severity)
    ensures Rank(HigherSeverity(a, b)) == Max(Rank(a), Rank(b))
  {
  }

  lemma PointFits(runs: Runs, s: Store, a: Anchor, c: Candidate)
    requires c.action == Record
    ensures var r := PersistPoint(runs, s, a, c); r.Ok? ==> OutcomeFits(s, r.value.0, a, c, r.value.1)
  {
    hide InsertEvidence, PointEventId, StatedSeverity, SeverityOf, RowConstraints;
    SeverityIsStated(c);
  }

  lemma SupportFits(runs: Runs, s: Store, a: Anchor, c: Candidate, id: EventId)
    requires id in s.events && s.events[id].status == Active && (c.action == Upsert || c.action == Action.Support)
    ensures var r := SupportActive(runs, s, a, c, id); r.Ok? ==> OutcomeFits(s, r.value.0, a, c, r.value.1)
  {
    hide InsertEvidence, AsSupport, StatedSeverity, SeverityOf, HigherSeverity, Rank, BlastRadius;
    SeverityIsStated(c);
    JoinOfRanks(s.events[id].severity, SeverityOf(c));
    InsertEvidenceGrow(runs, s, a.tenant, a.site, id, AsSupport(c.evidence), true, Strict);
  }

  lemma CloseFits(runs: Runs, s: Store, a: Anchor, c: Candidate, id: EventId)
    requires id in s.events && s.events[id].status == Active && c.action == Resolve
    ensures var r := CloseActive(runs, s, a, c, id); r.Ok? ==> OutcomeFits(s, r.value.0, a, c, r.value.1)
  {
    hide InsertEvidence;
  }

  lemma OpenedFits(a: Anchor, c: Candidate)
    requires TemplateKey in NormalizedScope(c.scope)
    ensures OpenedRow(ConditionRow(a, c, NormalizedScope(c.scope)[TemplateKey]), a, c)
  {
    hide StatedSeverity, SeverityOf;
    SeverityIsStated(c);
  }

  lemma ConditionFits(runs: Runs, s: Store, a: Anchor, c: Candidate, firstRead: Option<EventId>)
    requires c.action == Upsert || c.action == Action.Support
    requires firstRead.Some? ==> IsActive(s, firstRead.value, KeyOf(a, c))
    ensures var r := PersistConditionFrom(runs, s, a, c, firstRead); r.Ok? ==> OutcomeFits(s, r.value.0, a, c, r.value.1)
  {
    hide InsertEvidence, ConditionEventId, ConditionRow, SupportActive, OpenedRow, SupportedRow, KeyOf, NormalizedScope, RowConstraints;
    if firstRead.Some? {
      SupportFits(runs, s, a, c, firstRead.value);
    } else if c.action == Upsert && TemplateKey in NormalizedScope(c.scope) {
      OpenedFits(a, c);
      StoredOpened(ConditionRow(a, c, NormalizedScope(c.scope)[TemplateKey]), a, c, s.serial);
      if FindActive(s, KeyOf(a, c)).Some? {
        SupportFits(runs, s, a, c, FindActive(s, KeyOf(a, c)).value);
      }
    }
  }

  lemma StoredOpened(e: Event, a: Anchor, c: Candidate, serial: nat)
    requires OpenedRow(e, a, c)
    ensures OpenedRow(e.(serial := serial), a, c)
  {
  }

  /**
    One candidate that does not raise creates one row with its own values, or supports or closes the active
    row, rewriting only what support or closing may, or leaves the table as it is.
  */
  lemma PersistOneFits(runs: Runs, s: Store, a: Anchor, c: Candidate, raced: bool)
    ensures var r := PersistOne(runs, s, a, c, raced); r.Ok? ==> OutcomeFits(s, r.value.0, a, c, r.value.1)
  {
    hide OutcomeFits, PersistPoint, PersistConditionFrom, CloseActive, KeyOf;
    var active := FindActive(s, KeyOf(a, c));
    NothingFits(s, a, c);
    if c.action == Record {
      PointFits(runs, s, a, c);
    } else if c.action == Resolve {
      if active.Some? {
        CloseFits(runs, s, a, c, active.value);
      }
    } else if c.action != Pending {
      ConditionFits(runs, s, a, c, if raced then None else active);
    }
  }

  lemma NothingFits(s: Store, a: Anchor, c: Candidate)
    ensures OutcomeFits(s, s, a, c, Ignored)
  {
  }
}
