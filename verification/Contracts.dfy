/**
  The records the evaluator hands to the event repository, and the rule table.

  Identifiers are opaque: an `Id` is a uuid, a `Name` is a text such as a fingerprint or a stable
  key (ordered as texts are), a `Time` is an instant in microseconds. Values the source obtains by
  hashing (sha256 keys, uuid5 ids) are the hashed parts themselves, so distinct parts give distinct
  values.
*/
module Contracts {
  type Id = int
  type Name = int
  type Time = int

  datatype Option<+T> = None | Some(value: T) {
    function Or(default: T): T {
      if Some? then value else default
    }
  }

  /** Why a transaction raised and was rolled back. */
  datatype EventError =
    | WrongKind
    | EventOwnership
    | EvidenceOwnership
    | UnsupportedRelation
    | UnsupportedEvidenceKind
    | InvalidScope
    | ScopeMismatch
    | MissingSpecificEvidence
    | ActiveConflict
    | CheckViolation
    | MissingObservationTime
    | SeverityCounts

  datatype Result<+T> = Ok(value: T) | Err(error: EventError) {
    predicate IsFailure() {
      Err?
    }

    function PropagateFailure<U>(): Result<U>
      requires Err?
    {
      Err(error)
    }

    function Extract(): T
      requires Ok?
    {
      value
    }
  }

  datatype Code =
    | DependencyAdded
    | DependencyRemoved
    | JsErrorStarted
    | BrowserSourceDegraded
    | BrowserAccessChallengeSuspected
    | BrowserSourceRecovered
    | NoindexAdded
    | CanonicalChanged
    | GptExpectedSlotMissing

  datatype RuleKind = Point | Condition

  datatype RuleVersion = E1 | E2 | E26

  datatype SeverityPolicy = FixedDefault | NoindexScope | AffectedUrlCount

  datatype Severity = Info | Low | Medium | High | Critical

  datatype Rule = Rule(
    code: Code,
    kind: RuleKind,
    defaultSeverity: Severity,
    policy: SeverityPolicy,
    version: RuleVersion,
    minValidUrls: nat,
    minAffectedUrls: nat,
    criticalMinAffectedUrls: Option<nat>)

  function RuleOf(code: Code): Rule {
    match code
    case DependencyAdded => Rule(code, Point, Low, FixedDefault, E1, 1, 1, None)
    case DependencyRemoved => Rule(code, Point, Medium, FixedDefault, E1, 1, 1, None)
    case JsErrorStarted => Rule(code, Condition, Medium, FixedDefault, E2, 1, 1, None)
    case BrowserSourceDegraded => Rule(code, Point, High, FixedDefault, E26, 1, 1, None)
    case BrowserAccessChallengeSuspected => Rule(code, Point, Medium, FixedDefault, E26, 1, 1, None)
    case BrowserSourceRecovered => Rule(code, Point, Low, FixedDefault, E26, 1, 1, None)
    case NoindexAdded => Rule(code, Point, Medium, NoindexScope, E2, 2, 2, Some(2))
    case CanonicalChanged => Rule(code, Point, Medium, FixedDefault, E1, 1, 1, None)
    case GptExpectedSlotMissing => Rule(code, Condition, High, AffectedUrlCount, E2, 2, 2, Some(3))
  }

  datatype Relation =
    | Before
    | After
    | TriggerBefore
    | TriggerAfter
    | Supporting
    | Recovery
    | OtherRelation

  datatype EvidenceKind = CheckpointRun | PublicConfigSnapshot

  datatype Pointer = Pointer(source: Id, relation: Relation, kind: EvidenceKind)

  function At(source: Id, relation: Relation): Pointer {
    Pointer(source, relation, CheckpointRun)
  }

  datatype ScopeKey = TemplateKey | ScenarioKey | UrlKey | SiteKey | OtherKey(name: Name)

  /** A candidate's scope may carry null entries; a stored scope never does. */
  type RawScope = map<ScopeKey, Option<Id>>
  type Scope = map<ScopeKey, Id>

  datatype Action = Record | Upsert | Support | Resolve | Pending

  datatype Candidate = Candidate(
    code: Code,
    subject: Name,
    action: Action,
    severity: Option<Severity>,
    scope: RawScope,
    occurredAfter: Option<Time>,
    occurredBefore: Option<Time>,
    detectedAt: Option<Time>,
    evidence: seq<Pointer>,
    affectedUrls: nat,
    validUrls: nat)

  datatype RunStatus =
    | PendingRun
    | RunningRun
    | Complete
    | Partial
    | SiteError
    | BrowserError
    | Timeout
    | Blocked
    | Skipped

  /** One normalized component of a checkpoint: its normalizer and the identities it lists. */
  datatype Component = Component(normalizer: Name, items: set<Name>)

  datatype ComponentName = ScriptsPart | NetworkPart | JavascriptPart | SeoPart

  type PageState = map<ComponentName, Component>

  datatype SelectionScope = ExactMonitoredUrl | OtherSelection

  datatype Prior = Prior(run: Id, observedAt: Time, status: RunStatus, state: PageState)

  datatype EvaluationInput = EvaluationInput(
    tenant: Id,
    site: Id,
    url: Id,
    template: Id,
    scenario: Id,
    previousRun: Id,
    currentRun: Id,
    previousAt: Time,
    currentAt: Time,
    previousStatus: RunStatus,
    currentStatus: RunStatus,
    selection: SelectionScope,
    previousState: PageState,
    currentState: PageState,
    previousSlots: map<Name, bool>,
    currentSlots: map<Name, bool>,
    prior: Option<Prior>)
}
