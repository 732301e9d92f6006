/** Severity lattice, scope normalization and condition identity. */
module Lifecycle {
  import opened Contracts

  function Rank(s: Severity): nat {
    match s
    case Info => 0
    case Low => 1
    case Medium => 2
    case High => 3
    case Critical => 4
  }

  function HigherSeverity(current: Severity, proposed: Severity): Severity {
    if Rank(proposed) > Rank(current) then proposed else current
  }

  function SeverityFor(rule: Rule, affected: int, valid: int): Result<Severity> {
    if affected < 0 || valid < 0 || affected > valid then Err(SeverityCounts)
    else
      match rule.policy
      case NoindexScope => Ok(if affected >= rule.minAffectedUrls then Critical else Medium)
      case AffectedUrlCount =>
        if rule.criticalMinAffectedUrls.Some?
           && affected >= rule.criticalMinAffectedUrls.value
           && affected == valid
        then Ok(Critical)
        else Ok(rule.defaultSeverity)
      case FixedDefault => Ok(rule.defaultSeverity)
  }

  function NormalizedScope(raw: RawScope): Scope {
    map k | k in raw && raw[k].Some? :: raw[k].value
  }

  function Raw(scope: Scope): RawScope {
    map k | k in scope :: Some(scope[k])
  }

  datatype ConditionKey = ConditionKey(tenant: Id, site: Id, code: Code, subject: Name, scope: Scope)

  /** `condition_key` normalizes the scope once more; that second pass changes nothing. */
  lemma NormalizationIsIdempotent(raw: RawScope)
    ensures NormalizedScope(Raw(NormalizedScope(raw))) == NormalizedScope(raw)
    ensures forall k :: k in NormalizedScope(raw) <==> k in raw && raw[k].Some?
    ensures forall k :: k in NormalizedScope(raw) ==> raw[k] == Some(NormalizedScope(raw)[k])
  {
    var once := NormalizedScope(raw);
    var twice := NormalizedScope(Raw(once));
    assert forall k :: k in twice <==> k in once;
  }

  /** Raising a severity is a join: the least severity above both arguments. */
  lemma HigherSeverityIsJoin(a: Severity, b: Severity, c: Severity)
    ensures Rank(HigherSeverity(a, b)) <= Rank(c) <==> Rank(a) <= Rank(c) && Rank(b) <= Rank(c)
    ensures HigherSeverity(a, b) == HigherSeverity(b, a)
    ensures HigherSeverity(HigherSeverity(a, b), c) == HigherSeverity(a, HigherSeverity(b, c))
  {
    RankIsInjective(a, b);
    RankIsInjective(HigherSeverity(HigherSeverity(a, b), c), HigherSeverity(a, HigherSeverity(b, c)));
  }

  const LADDER := [Info, Low, Medium, High, Critical]

  /** Of two severities the one further up the ladder is kept. */
  lemma HigherSeverityIsFurtherUp(i: nat, j: nat)
    requires i < |LADDER| && j < |LADDER|
    ensures HigherSeverity(LADDER[i], LADDER[j]) == LADDER[if i >= j then i else j]
  {
    assert Rank(LADDER[i]) == i && Rank(LADDER[j]) == j;
  }

  lemma RankIsInjective(a: Severity, b: Severity)
    ensures Rank(a) == Rank(b) ==> a == b
  {
  }
}
