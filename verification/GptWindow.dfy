/** Aggregation of expected ad slots over the checkpoints of one window. */
module GptWindow {
  import opened Contracts
  import opened Lifecycle
  import opened WindowGroups
  import Names

  function PointersOf(v: EvaluationInput, action: Action, subject: Name): seq<Pointer> {
    if action == Resolve then [At(v.currentRun, Recovery)]
    else if action == Support then [At(v.currentRun, Relation.Supporting)]
    else
      (if subject in v.previousSlots && v.previousSlots[subject] then [At(v.previousRun, TriggerBefore)] else [])
      + [At(v.currentRun, TriggerAfter)]
  }

  function Pointers(vs: seq<EvaluationInput>, action: Action, subject: Name): seq<Pointer> {
    if vs == [] then [] else Pointers(vs[..|vs| - 1], action, subject) + PointersOf(vs[|vs| - 1], action, subject)
  }

  function GroupScope(key: GroupKey): RawScope {
    map[ScenarioKey := Some(key.scenario), TemplateKey := Some(key.template)]
  }

  const RULE := RuleOf(GptExpectedSlotMissing)

  function Degraded(key: GroupKey, affected: seq<EvaluationInput>, transitions: seq<EvaluationInput>, valid: nat, severity: Severity)
    : Candidate
    requires affected != []
  {
    var action := if |transitions| >= RULE.minAffectedUrls then Upsert else Action.Support;
    var triggers := if |transitions| >= RULE.minAffectedUrls then transitions else affected;
    Candidate(GptExpectedSlotMissing, key.subject, action, Some(severity), GroupScope(key),
              Some(Earliest(triggers)), Some(LatestAt(triggers)), Some(LatestAt(affected)),
              Pointers(affected, action, key.subject), |affected|, valid)
  }

  function Recovered(key: GroupKey, healthy: seq<EvaluationInput>, valid: nat): Candidate
    requires healthy != []
  {
    Candidate(GptExpectedSlotMissing, key.subject, Resolve, Some(RULE.defaultSeverity), GroupScope(key),
              Some(Earliest(healthy)), Some(LatestAt(healthy)), Some(LatestAt(healthy)),
              Pointers(healthy, Resolve, key.subject), 0, valid)
  }

  /** The two branches; the severity raises when more are affected than valid. */
  function Verdict(key: GroupKey, valid: nat, affected: seq<EvaluationInput>, healthy: seq<EvaluationInput>,
                   transitions: seq<EvaluationInput>): Result<seq<Candidate>>
  {
    if |affected| >= RULE.minAffectedUrls && valid >= RULE.minValidUrls then
      var severity :- SeverityFor(RULE, |affected|, valid);
      Ok([Degraded(key, affected, transitions, valid, severity)])
    else if affected == [] && |healthy| >= RULE.minValidUrls && valid >= RULE.minValidUrls then
      Ok([Recovered(key, healthy, valid)])
    else Ok([])
  }

  /** What one group of observations yields. */
  function GroupCandidate(key: GroupKey, observations: seq<EvaluationInput>): Result<seq<Candidate>> {
    var affected := Where(observations, IsMissing(key.subject));
    Verdict(key, |Urls(observations)|, affected, Where(observations, IsPresent(key.subject)),
            Where(affected, WentMissing(key.subject)))
  }

  /** The candidates of the groups in the order in which the groups first occurred. */
  function Collected(values: seq<EvaluationInput>, keys: seq<GroupKey>): Result<seq<Candidate>> {
    if keys == [] then Ok([])
    else
      var before :- Collected(values, keys[..|keys| - 1]);
      var last := keys[|keys| - 1];
      var own :- GroupCandidate(last, Where(values, InGroup(last)));
      Ok(before + own)
  }

  predicate NoRepeats(keys: seq<GroupKey>) {
    forall i, j :: 0 <= i < j < |keys| ==> keys[i] != keys[j]
  }

  // ---------------------------------------------------------------- the loops

  type Grouped = map<GroupKey, seq<EvaluationInput>>

  function Observations(grouped: Grouped, key: GroupKey): seq<EvaluationInput> {
    if key in grouped then grouped[key] else []
  }

  /** The groups hold the values so far, of the value under way those slots no longer in `rest`. */
  ghost predicate GroupsHold(grouped: Grouped, order: seq<GroupKey>, done: seq<EvaluationInput>,
                             current: Option<EvaluationInput>, rest: set<Name>) {
    && NoRepeats(order)
    && (forall key :: key in order <==> key in grouped)
    && (forall key :: key in grouped ==> grouped[key] != [])
    && (forall key :: Observations(grouped, key) ==
          Where(done, InGroup(key))
          + if current.Some? && Holds(InGroup(key), current.value) && key.subject !in rest then [current.value] else [])
  }

  /** Groups come in the order of their first checkpoints; those of one checkpoint stand side by side. */
  ghost predicate FirstCome(order: seq<GroupKey>, vs: seq<EvaluationInput>) {
    forall i, j :: 0 <= i < j < |order| ==> FirstAt(vs, InGroup(order[i])) <= FirstAt(vs, InGroup(order[j]))
  }

  lemma FirstComeLater(order: seq<GroupKey>, vs: seq<EvaluationInput>, v: EvaluationInput)
    requires FirstCome(order, vs) && forall key :: key in order ==> FirstAt(vs, InGroup(key)) < |vs|
    ensures FirstCome(order, vs + [v]) && forall key :: key in order ==> FirstAt(vs + [v], InGroup(key)) <= |vs|
  {
    hide FirstAt;
    forall key | key in order
      ensures FirstAt(vs + [v], InGroup(key)) == FirstAt(vs, InGroup(key))
    {
      FirstAtLater(vs, v, InGroup(key));
    }
  }

  lemma FirstComeAdds(order: seq<GroupKey>, vs: seq<EvaluationInput>, key: GroupKey)
    requires FirstCome(order, vs) && forall k :: k in order ==> FirstAt(vs, InGroup(k)) <= FirstAt(vs, InGroup(key))
    ensures FirstCome(order + [key], vs)
  {
    hide FirstAt;
  }

  lemma GroupsAdd(grouped: Grouped, order: seq<GroupKey>, done: seq<EvaluationInput>, v: EvaluationInput, rest: set<Name>, subject: Name)
    requires GroupsHold(grouped, order, done, Some(v), rest) && subject in rest && subject in v.currentSlots
    ensures var key := GroupKey(v.template, v.scenario, subject);
      GroupsHold(grouped[key := Observations(grouped, key) + [v]], if key in grouped then order else order + [key],
                 done, Some(v), rest - {subject})
  {
    hide Where;
    var key := GroupKey(v.template, v.scenario, subject);
    var grouped' := grouped[key := Observations(grouped, key) + [v]];
    forall k
      ensures Observations(grouped', k) ==
        Where(done, InGroup(k)) + if Holds(InGroup(k), v) && k.subject !in rest - {subject} then [v] else []
    {
      if k == key {
        assert Observations(grouped, key) == Where(done, InGroup(key));
      } else if Holds(InGroup(k), v) {
        assert k.subject != subject;
      }
    }
  }

  lemma GroupsClose(grouped: Grouped, order: seq<GroupKey>, done: seq<EvaluationInput>, v: EvaluationInput)
    requires GroupsHold(grouped, order, done, Some(v), {})
    ensures GroupsHold(grouped, order, done + [v], None, {})
  {
    forall key
      ensures Observations(grouped, key) == Where(done + [v], InGroup(key))
    {
      assert (done + [v])[..|done|] == done;
    }
  }

  /** The groups in the order in which they first occur, each with its checkpoints in theirs. */
  method GroupValues(values: seq<EvaluationInput>) returns (grouped: Grouped, order: seq<GroupKey>)
    ensures GroupsHold(grouped, order, values, None, {}) && FirstCome(order, values)
  {
    grouped := map[];
    order := [];
    for i := 0 to |values|
      invariant GroupsHold(grouped, order, values[..i], None, {}) && FirstCome(order, values[..i])
    {
      hide GroupsHold;
      grouped, order := GroupValue(grouped, order, values[..i], values[i]);
      assert values[..i + 1] == values[..i] + [values[i]];
    }
    assert values[..|values|] == values;
  }

  method GroupValue(groupedBefore: Grouped, orderBefore: seq<GroupKey>, ghost done: seq<EvaluationInput>, value: EvaluationInput)
    returns (grouped: Grouped, order: seq<GroupKey>)
    requires GroupsHold(groupedBefore, orderBefore, done, None, {}) && FirstCome(orderBefore, done)
    ensures GroupsHold(grouped, order, done + [value], None, {}) && FirstCome(order, done + [value])
  {
    GroupsListed(groupedBefore, orderBefore, done);
    FirstComeLater(orderBefore, done, value);
    hide GroupsHold, FirstCome, FirstAt;
    grouped, order := groupedBefore, orderBefore;
    var rest := value.currentSlots.Keys;
    GroupsOpen(grouped, order, done, value);
    while rest != {}
      invariant rest <= value.currentSlots.Keys
      invariant GroupsHold(grouped, order, done, Some(value), rest)
      invariant FirstCome(order, done + [value])
      invariant forall key :: key in order ==> FirstAt(done + [value], InGroup(key)) <= |done|
      invariant forall key :: key in grouped <==> key in order
    {
      ghost var _ := Names.Member(rest);
      var subject :| subject in rest;
      var key := GroupKey(value.template, value.scenario, subject);
      GroupsAdd(grouped, order, done, value, rest, subject);
      if key in grouped {
        grouped := grouped[key := grouped[key] + [value]];
      } else {
        assert Observations(grouped, key) + [value] == [value];
        NewGroupIsLast(grouped, order, done, value, rest, key);
        FirstComeAdds(order, done + [value], key);
        order := order + [key];
        grouped := grouped[key := [value]];
      }
      rest := rest - {subject};
    }
    GroupsClose(grouped, order, done, value);
  }

  lemma GroupsListed(grouped: Grouped, order: seq<GroupKey>, done: seq<EvaluationInput>)
    requires GroupsHold(grouped, order, done, None, {})
    ensures forall key :: key in grouped <==> key in order
    ensures forall key :: key in order ==> FirstAt(done, InGroup(key)) < |done|
  {
    hide Where, FirstAt;
    forall key | key in order
      ensures FirstAt(done, InGroup(key)) < |done|
    {
      FirstAtIsFirst(done, InGroup(key));
      assert Observations(grouped, key) == Where(done, InGroup(key)) + [];
    }
  }

  lemma NewGroupIsLast(grouped: Grouped, order: seq<GroupKey>, done: seq<EvaluationInput>, v: EvaluationInput, rest: set<Name>, key: GroupKey)
    requires GroupsHold(grouped, order, done, Some(v), rest) && key !in grouped && Holds(InGroup(key), v)
    ensures FirstAt(done + [v], InGroup(key)) == |done|
  {
    hide Where, FirstAt;
    FirstAtIsFirst(done, InGroup(key));
    FirstAtLater(done, v, InGroup(key));
    assert Observations(grouped, key) == [];
  }

  method GptWindowCandidates(values: seq<EvaluationInput>) returns (r: Result<seq<Candidate>>, order: seq<GroupKey>)
    ensures NoRepeats(order) && forall key :: key in order <==> Where(values, InGroup(key)) != []
    ensures FirstCome(order, values)
    ensures r == Collected(values, order)
  {
    var grouped;
    grouped, order := GroupValues(values);
    GroupsDone(grouped, order, values);
    hide GroupsHold, GroupCandidate, Where, FirstCome;
    var out: seq<Candidate> := [];
    for i := 0 to |order|
      invariant Collected(values, order[..i]) == Ok(out)
    {
      assert order[..i + 1][..i] == order[..i] && order[i] in order;
      var own := FromGroup(order[i], grouped[order[i]]);
      if own.Err? {
        StopsAtError(values, order, i);
        return Err(own.error), order;
      }
      out := out + own.value;
    }
    assert order[..|order|] == order;
    return Ok(out), order;
  }

  lemma GroupsOpen(grouped: Grouped, order: seq<GroupKey>, done: seq<EvaluationInput>, v: EvaluationInput)
    requires GroupsHold(grouped, order, done, None, {})
    ensures GroupsHold(grouped, order, done, Some(v), v.currentSlots.Keys)
  {
    hide Where;
  }

  lemma GroupsDone(grouped: Grouped, order: seq<GroupKey>, values: seq<EvaluationInput>)
    requires GroupsHold(grouped, order, values, None, {})
    ensures NoRepeats(order) && forall key :: key in order <==> Where(values, InGroup(key)) != []
    ensures forall key :: key in order ==> key in grouped && grouped[key] == Where(values, InGroup(key))
  {
    hide Where;
    forall key
      ensures Observations(grouped, key) == Where(values, InGroup(key))
    {
    }
  }

  lemma {:induction false} StopsAtError(values: seq<EvaluationInput>, keys: seq<GroupKey>, i: nat)
    requires i < |keys| && Collected(values, keys[..i]).Ok?
    requires GroupCandidate(keys[i], Where(values, InGroup(keys[i]))).Err?
    ensures Collected(values, keys) == Err(GroupCandidate(keys[i], Where(values, InGroup(keys[i]))).error)
    decreases |keys|
  {
    hide GroupCandidate, Where;
    var before := keys[..|keys| - 1];
    if i < |before| {
      assert before[..i] == keys[..i];
      StopsAtError(values, before, i);
    } else {
      assert keys[..i] == before;
    }
  }

  /** One group: counts, filtered lists and the two branches. */
  method FromGroup(key: GroupKey, observations: seq<EvaluationInput>) returns (r: Result<seq<Candidate>>)
    ensures r == GroupCandidate(key, observations)
  {
    var validCount := |Urls(observations)|;
    var affected := Select(observations, IsMissing(key.subject));
    var healthy := Select(observations, IsPresent(key.subject));
    var transitions := Select(affected, WentMissing(key.subject));
    if |affected| >= RULE.minAffectedUrls && validCount >= RULE.minValidUrls {
      var severity := SeverityFor(RULE, |affected|, validCount);
      if severity.Err? {
        return Err(severity.error);
      }
      return Ok([Degraded(key, affected, transitions, validCount, severity.value)]);
    }
    if affected == [] && |healthy| >= RULE.minValidUrls && validCount >= RULE.minValidUrls {
      return Ok([Recovered(key, healthy, validCount)]);
    }
    return Ok([]);
  }
}
