/**
  What one transaction of the event repository does to the event table and the evidence table,
  as functions on their contents. A failed transaction is an `Err`; the caller rolls back.
*/
module EventStore {
  import opened Contracts
  import opened Lifecycle

  datatype EventStatus = Recorded | Active | Resolved

  datatype Progress = Progress(
    latest: Option<Time>,
    supporting: nat,
    affected: nat,
    valid: nat,
    blast: nat,
    resolvedAfter: Option<Time>,
    resolvedBefore: Option<Time>)

  const NO_PROGRESS := Progress(None, 0, 0, 0, 0, None, None)

  datatype Event = Event(
    tenant: Id,
    site: Id,
    code: Code,
    template: Option<Id>,
    startedAt: Time,
    endedAt: Option<Time>,
    occurredAfter: Option<Time>,
    occurredBefore: Option<Time>,
    detectedAt: Time,
    severity: Severity,
    status: EventStatus,
    key: Option<ConditionKey>,
    scope: Scope,
    subject: Name,
    progress: Progress,
    serial: nat)

  /** The deterministic row ids: each names exactly the parts the source hashes. */
  datatype EventId =
    | TransitionId(tenant: Id, before: Option<Id>, after: Id, code: Code, subject: Name, scope: Scope)
    | EvidenceSetId(tenant: Id, code: Code, subject: Name, scope: Scope, links: multiset<(Id, Relation)>)
    | ConditionId(key: ConditionKey, triggers: multiset<Id>, occurredBefore: Option<Time>)

  datatype RefKind = CheckpointRef | SpecificRef

  datatype Ref = Ref(event: EventId, kind: RefKind, source: Id, relation: Relation)

  /** A stored checkpoint run and the specific evidence rows persisted with it. */
  datatype RunRow = RunRow(
    tenant: Id,
    site: Id,
    template: Id,
    scenario: Id,
    url: Id,
    jsErrors: set<Name>,
    gptSlots: set<Name>,
    hasSeo: bool,
    dependencies: set<Name>)

  type Runs = map<Id, RunRow>

  /** `serial` orders rows by creation. */
  datatype Store = Store(events: map<EventId, Event>, refs: set<Ref>, serial: nat)

  const EMPTY := Store(map[], {}, 0)

  /** The parts of an evaluation input that persistence falls back to. */
  datatype Anchor = Anchor(
    tenant: Id, site: Id,
    previousRun: Option<Id>, currentRun: Id,
    previousAt: Option<Time>, currentAt: Time)

  datatype ScopeValidation = Strict | SourceLevel

  datatype Outcome = Created(id: EventId) | Updated(id: EventId) | Ignored

  // ---------------------------------------------------------------- evidence

  predicate Supports(relation: Relation) {
    relation == TriggerAfter || relation == Relation.Supporting
  }

  function ScopeError(scope: Scope, run: RunRow, level: ScopeValidation): Option<EventError> {
    match level
    case Strict =>
      if TemplateKey !in scope || ScenarioKey !in scope then Some(InvalidScope)
      else if scope[TemplateKey] != run.template || scope[ScenarioKey] != run.scenario then Some(ScopeMismatch)
      else if UrlKey in scope && scope[UrlKey] != run.url then Some(ScopeMismatch)
      else None
    case SourceLevel =>
      if exists k :: k in scope && k.OtherKey? then Some(InvalidScope)
      else if SiteKey !in scope then Some(InvalidScope)
      else if scope[SiteKey] != run.site then Some(ScopeMismatch)
      else if TemplateKey in scope && scope[TemplateKey] != run.template then Some(ScopeMismatch)
      else if ScenarioKey in scope && scope[ScenarioKey] != run.scenario then Some(ScopeMismatch)
      else if UrlKey in scope && scope[UrlKey] != run.url then Some(ScopeMismatch)
      else None
  }

  predicate HasSpecific(event: Event, run: RunRow) {
    match event.code
    case JsErrorStarted => event.subject in run.jsErrors
    case GptExpectedSlotMissing => event.subject in run.gptSlots
    case NoindexAdded => run.hasSeo
    case CanonicalChanged => run.hasSeo
    case DependencyAdded => event.subject in run.dependencies
    case DependencyRemoved => event.subject in run.dependencies
    case _ => false
  }

  predicate NeedsSpecific(code: Code, relation: Relation) {
    match code
    case JsErrorStarted => relation != TriggerBefore && relation != Recovery
    case GptExpectedSlotMissing => true
    case NoindexAdded => true
    case CanonicalChanged => true
    case _ => false
  }

  /** A checkpoint counts as linked whatever its relation. */
  predicate IsLinked(refs: set<Ref>, id: EventId, source: Id) {
    exists r :: r in refs && r.event == id && r.kind == CheckpointRef && r.source == source
  }

  function PointerError(runs: Runs, event: Event, p: Pointer, level: ScopeValidation): Option<EventError> {
    if p.source !in runs || runs[p.source].tenant != event.tenant || runs[p.source].site != event.site
    then Some(EvidenceOwnership)
    else ScopeError(event.scope, runs[p.source], level)
  }

  function Link(runs: Runs, refs: set<Ref>, id: EventId, event: Event, p: Pointer): set<Ref>
    requires p.source in runs
  {
    refs
    + {Ref(id, CheckpointRef, p.source, p.relation)}
    + if HasSpecific(event, runs[p.source]) then {Ref(id, SpecificRef, p.source, p.relation)} else {}
  }

  function InsertPointers(runs: Runs, refs: set<Ref>, id: EventId, event: Event, pointers: seq<Pointer>,
                          seen: set<(Id, Relation)>, skipLinked: bool, level: ScopeValidation, count: nat)
    : Result<(set<Ref>, nat)>
    decreases |pointers|
  {
    if pointers == [] then Ok((refs, count))
    else
      var p, rest := pointers[0], pointers[1..];
      if p.relation == OtherRelation then Err(UnsupportedRelation)
      else if p.kind != CheckpointRun then Err(UnsupportedEvidenceKind)
      else if (p.source, p.relation) in seen then
        InsertPointers(runs, refs, id, event, rest, seen, skipLinked, level, count)
      else
        var seen' := seen + {(p.source, p.relation)};
        if PointerError(runs, event, p, level).Some? then Err(PointerError(runs, event, p, level).value)
        else if skipLinked && IsLinked(refs, id, p.source) then
          InsertPointers(runs, refs, id, event, rest, seen', skipLinked, level, count)
        else if NeedsSpecific(event.code, p.relation) && !HasSpecific(event, runs[p.source]) then
          Err(MissingSpecificEvidence)
        else
          var isNew := Ref(id, CheckpointRef, p.source, p.relation) !in refs;
          InsertPointers(runs, Link(runs, refs, id, event, p), id, event, rest, seen', skipLinked, level,
                         if isNew then count + 1 else count)
  }

  function InsertEvidence(runs: Runs, s: Store, tenant: Id, site: Id, id: EventId, pointers: seq<Pointer>,
                          skipLinked: bool, level: ScopeValidation): Result<(set<Ref>, nat)>
  {
    if id !in s.events || s.events[id].tenant != tenant || s.events[id].site != site then Err(EventOwnership)
    else InsertPointers(runs, s.refs, id, s.events[id], pointers, {}, skipLinked, level, 0)
  }

  // ---------------------------------------------------------------- table constraints

  /** The CHECK constraints of the event table. */
  predicate RowConstraints(e: Event) {
    && (e.status == Recorded <==> e.key.None?)
    && (e.status == Active ==> e.endedAt.None?)
    && (e.status == Resolved ==> e.endedAt.Some?)
    && (e.occurredAfter.Some? && e.occurredBefore.Some? ==> e.occurredBefore.value >= e.occurredAfter.value)
  }

  predicate IsActive(s: Store, id: EventId, key: ConditionKey) {
    id in s.events && s.events[id].status == Active && s.events[id].key == Some(key)
  }

  ghost function FindActive(s: Store, key: ConditionKey): Option<EventId> {
    if exists id :: IsActive(s, id, key) then
      var id :| IsActive(s, id, key); Some(id)
    else None
  }

  predicate Conflicts(s: Store, id: EventId, e: Event) {
    id in s.events || (e.status == Active && e.key.Some? && exists other :: other in s.events && IsActive(s, other, e.key.value))
  }

  function Insert(s: Store, id: EventId, e: Event): Store {
    Store(s.events[id := e.(serial := s.serial)], s.refs, s.serial + 1)
  }

  // ---------------------------------------------------------------- point events

  function FirstSource(evidence: seq<Pointer>, relation: Relation, default: Option<Id>): Option<Id> {
    if evidence == [] then default
    else if evidence[0].relation == relation then Some(evidence[0].source)
    else FirstSource(evidence[1..], relation, default)
  }

  function Links(evidence: seq<Pointer>): multiset<(Id, Relation)> {
    if evidence == [] then multiset{}
    else multiset{(evidence[0].source, evidence[0].relation)} + Links(evidence[1..])
  }

  function PointEventId(a: Anchor, c: Candidate, scope: Scope): EventId {
    if RuleOf(c.code).version == E1 && |c.evidence| == 2 then
      TransitionId(a.tenant,
                   FirstSource(c.evidence, Before, a.previousRun),
                   FirstSource(c.evidence, After, Some(a.currentRun)).Or(a.currentRun),
                   c.code, c.subject, scope)
    else
      EvidenceSetId(a.tenant, c.code, c.subject, scope, Links(c.evidence))
  }

  function SeverityOf(c: Candidate): Severity {
    c.severity.Or(RuleOf(c.code).defaultSeverity)
  }

  function PointRow(a: Anchor, c: Candidate, scope: Scope, template: Option<Id>,
                    detectedAt: Time, occurredBefore: Time, occurredAfter: Option<Time>): Event
  {
    Event(a.tenant, a.site, c.code, template, occurredBefore, None, occurredAfter, Some(occurredBefore),
          detectedAt, SeverityOf(c), Recorded, None, scope, c.subject, NO_PROGRESS, 0)
  }

  function PersistPointEvent(runs: Runs, s: Store, a: Anchor, c: Candidate, row: Event, level: ScopeValidation)
    : Result<(Store, Outcome)>
  {
    if !RowConstraints(row) then Err(CheckViolation)
    else
      var id := PointEventId(a, c, row.scope);
      var created := !Conflicts(s, id, row);
      var inserted := if created then Insert(s, id, row) else s;
      var (refs, _) :- InsertEvidence(runs, inserted, a.tenant, a.site, id, c.evidence, false, level);
      Ok((inserted.(refs := refs), if created then Created(id) else Ignored))
  }

  function PersistPoint(runs: Runs, s: Store, a: Anchor, c: Candidate): Result<(Store, Outcome)> {
    var scope := NormalizedScope(c.scope);
    if TemplateKey !in scope then Err(InvalidScope)
    else
      var after := if c.occurredAfter.Some? then c.occurredAfter else a.previousAt;
      var row := PointRow(a, c, scope, Some(scope[TemplateKey]),
                          c.detectedAt.Or(a.currentAt), c.occurredBefore.Or(a.currentAt), after);
      PersistPointEvent(runs, s, a, c, row, Strict)
  }

  /** A diagnostic event is scoped to the site and has no predecessor. */
  function PersistDiagnosticOne(runs: Runs, s: Store, a: Anchor, c: Candidate, observedAt: Option<Time>)
    : Result<(Store, Outcome)>
  {
    if RuleOf(c.code).kind != Point || c.action != Record then Err(WrongKind)
    else if c.detectedAt.None? && observedAt.None? then Err(MissingObservationTime)
    else
      var observed := if c.detectedAt.Some? then c.detectedAt.value else observedAt.value;
      var row := PointRow(a, c, NormalizedScope(c.scope), None, observed, c.occurredBefore.Or(observed), c.occurredAfter);
      PersistPointEvent(runs, s, a, c, row, SourceLevel)
  }

  // ---------------------------------------------------------------- condition events

  function KeyOf(a: Anchor, c: Candidate): ConditionKey {
    ConditionKey(a.tenant, a.site, c.code, c.subject, NormalizedScope(c.scope))
  }

  function TriggersOf(evidence: seq<Pointer>): multiset<Id> {
    if evidence == [] then multiset{}
    else
      (if evidence[0].relation == TriggerAfter then multiset{evidence[0].source} else multiset{})
      + TriggersOf(evidence[1..])
  }

  function ConditionEventId(a: Anchor, c: Candidate): EventId {
    ConditionId(KeyOf(a, c), TriggersOf(c.evidence), c.occurredBefore)
  }

  function BlastRadius(c: Candidate): nat {
    if c.affectedUrls >= 2 then 2 else 1
  }

  function SupportingSources(evidence: seq<Pointer>): set<Id> {
    set i | 0 <= i < |evidence| && Supports(evidence[i].relation) :: evidence[i].source
  }

  function ConditionRow(a: Anchor, c: Candidate, template: Id): Event {
    var detectedAt := c.detectedAt.Or(a.currentAt);
    var occurredBefore := c.occurredBefore.Or(detectedAt);
    Event(a.tenant, a.site, c.code, Some(template), occurredBefore, None, c.occurredAfter, Some(occurredBefore),
          detectedAt, SeverityOf(c), Active, Some(KeyOf(a, c)), NormalizedScope(c.scope), c.subject,
          Progress(Some(detectedAt), |SupportingSources(c.evidence)|, c.affectedUrls, c.validUrls,
                   BlastRadius(c), None, None),
          0)
  }

  function AsSupport(evidence: seq<Pointer>): seq<Pointer> {
    if evidence == [] then []
    else (if Supports(evidence[0].relation) then [At(evidence[0].source, Relation.Supporting)] else [])
         + AsSupport(evidence[1..])
  }

  function Max(x: int, y: int): int {
    if x >= y then x else y
  }

  function Supported(e: Event, a: Anchor, c: Candidate, inserted: nat): Event {
    var latest := c.detectedAt.Or(a.currentAt);
    e.(progress := e.progress.(
         latest := Some(Max(e.progress.latest.Or(latest), latest)),
         supporting := e.progress.supporting + inserted,
         affected := Max(e.progress.affected, c.affectedUrls),
         valid := Max(e.progress.valid, c.validUrls),
         blast := Max(e.progress.blast, BlastRadius(c))),
       severity := HigherSeverity(e.severity, SeverityOf(c)))
  }

  function SupportActive(runs: Runs, s: Store, a: Anchor, c: Candidate, id: EventId): Result<(Store, Outcome)> {
    var (refs, inserted) :- InsertEvidence(runs, s, a.tenant, a.site, id, AsSupport(c.evidence), true, Strict);
    if inserted == 0 || id !in s.events then Ok((s, Ignored))
    else Ok((Store(s.events[id := Supported(s.events[id], a, c, inserted)], refs, s.serial), Updated(id)))
  }

  /**
    `firstRead` is what the first select of the active row returned. A creator that lost a race
    runs with `None` against a store where another transaction has meanwhile inserted the row.
  */
  ghost function PersistConditionFrom(runs: Runs, s: Store, a: Anchor, c: Candidate, firstRead: Option<EventId>)
    : Result<(Store, Outcome)>
  {
    if firstRead.Some? then SupportActive(runs, s, a, c, firstRead.value)
    else if c.action == Support then Ok((s, Ignored))
    else if TemplateKey !in NormalizedScope(c.scope) then Err(InvalidScope)
    else
      var id := ConditionEventId(a, c);
      var row := ConditionRow(a, c, NormalizedScope(c.scope)[TemplateKey]);
      if !RowConstraints(row) then Err(CheckViolation)
      else if !Conflicts(s, id, row) then
        var inserted := Insert(s, id, row);
        var (refs, _) :- InsertEvidence(runs, inserted, a.tenant, a.site, id, c.evidence, false, Strict);
        Ok((inserted.(refs := refs), Created(id)))
      else
        match FindActive(s, KeyOf(a, c))
        case None => Err(ActiveConflict)
        case Some(active) => SupportActive(runs, s, a, c, active)
  }

  function Closed(e: Event, a: Anchor, c: Candidate): Event {
    var detectedAt := c.detectedAt.Or(a.currentAt);
    e.(progress := e.progress.(
         latest := Some(detectedAt),
         resolvedAfter := c.occurredAfter,
         resolvedBefore := Some(c.occurredBefore.Or(detectedAt))),
       endedAt := Some(detectedAt),
       status := Resolved)
  }

  function CloseActive(runs: Runs, s: Store, a: Anchor, c: Candidate, id: EventId): Result<(Store, Outcome)>
    requires id in s.events
  {
    if c.detectedAt.Or(a.currentAt) < s.events[id].detectedAt then Ok((s, Ignored))
    else
      var (refs, inserted) :- InsertEvidence(runs, s, a.tenant, a.site, id, c.evidence, true, Strict);
      if inserted == 0 then Ok((s, Ignored))
      else Ok((Store(s.events[id := Closed(s.events[id], a, c)], refs, s.serial), Updated(id)))
  }

  ghost function ResolveCondition(runs: Runs, s: Store, a: Anchor, c: Candidate): Result<(Store, Outcome)> {
    match FindActive(s, KeyOf(a, c))
    case None => Ok((s, Ignored))
    case Some(active) => CloseActive(runs, s, a, c, active)
  }

  // ---------------------------------------------------------------- one candidate, one call

  /** `raced`: the first select of this candidate ran before a competing creator committed. */
  ghost function PersistOne(runs: Runs, s: Store, a: Anchor, c: Candidate, raced: bool): Result<(Store, Outcome)> {
    if c.action == Pending then Ok((s, Ignored))
    else if c.action == Record then
      if RuleOf(c.code).kind != Point then Err(WrongKind) else PersistPoint(runs, s, a, c)
    else if RuleOf(c.code).kind != Condition then Err(WrongKind)
    else if c.action == Resolve then ResolveCondition(runs, s, a, c)
    else PersistConditionFrom(runs, s, a, c, if raced then None else FindActive(s, KeyOf(a, c)))
  }

  datatype Tally = Tally(created: nat, updated: nat, resolved: nat)

  function Counted(t: Tally, o: Outcome, c: Candidate): Tally {
    match o
    case Created(_) => t.(created := t.created + 1)
    case Updated(_) =>
      if c.action == Resolve then t.(resolved := t.resolved + 1) else t.(updated := t.updated + 1)
    case Ignored => t
  }

  ghost function PersistAll(runs: Runs, s: Store, a: Anchor, cs: seq<Candidate>, t: Tally): Result<(Store, Tally)>
    decreases |cs|
  {
    if cs == [] then Ok((s, t))
    else
      var (s', o) :- PersistOne(runs, s, a, cs[0], false);
      PersistAll(runs, s', a, cs[1..], Counted(t, o, cs[0]))
  }

  function PersistDiagnosticAll(runs: Runs, s: Store, a: Anchor, observedAt: Option<Time>, cs: seq<Candidate>, t: Tally)
    : Result<(Store, Tally)>
    decreases |cs|
  {
    if cs == [] then Ok((s, t))
    else
      var (s', o) :- PersistDiagnosticOne(runs, s, a, cs[0], observedAt);
      PersistDiagnosticAll(runs, s', a, observedAt, cs[1..], Counted(t, o, cs[0]))
  }

  const NOTHING := Tally(0, 0, 0)

  /** A raised error rolls the whole call back. */
  ghost function Transact(runs: Runs, s: Store, a: Anchor, cs: seq<Candidate>): Store {
    match PersistAll(runs, s, a, cs, NOTHING)
    case Ok(done) => done.0
    case Err(_) => s
  }
}
