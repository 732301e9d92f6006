/** What the aggregation of one window promises, and that the order of its checkpoints does not matter. */
module GptTheorems {
  import opened Contracts
  import opened Lifecycle
  import opened WindowGroups
  import opened GptWindow
  import Names

  /** One run per URL and scenario, as the table of runs requires of a window. */
  predicate OneRunPerUrl(vs: seq<EvaluationInput>) {
    forall i, j :: 0 <= i < j < |vs| && vs[i].scenario == vs[j].scenario ==> vs[i].url != vs[j].url
  }

  // ---------------------------------------------------------------- affected within valid

  lemma {:induction false} DistinctUrls(values: seq<EvaluationInput>, key: GroupKey)
    requires OneRunPerUrl(values)
    ensures |Urls(Where(values, InGroup(key)))| == |Where(values, InGroup(key))|
  {
    if values != [] {
      var before, last := values[..|values| - 1], values[|values| - 1];
      DistinctUrls(before, key);
      var kept := Where(before, InGroup(key));
      if Holds(InGroup(key), last) {
        WhereMembers(before, InGroup(key));
        forall v | v in kept
          ensures v.url != last.url
        {
          var i :| 0 <= i < |before| && before[i] == v;
          assert values[i] == v;
        }
        UrlsOfAppend(kept, last);
      } else {
        assert Where(values, InGroup(key)) == kept;
      }
    }
  }

  lemma UrlsOfAppend(vs: seq<EvaluationInput>, v: EvaluationInput)
    requires forall x :: x in vs ==> x.url != v.url
    ensures |Urls(vs + [v])| == |Urls(vs)| + 1
  {
    assert Urls(vs + [v]) == Urls(vs) + {v.url};
    assert v.url !in Urls(vs);
  }

  /** With one run per URL and scenario no group counts more affected than valid URLs: nothing raises. */
  lemma AffectedWithinValid(values: seq<EvaluationInput>, key: GroupKey)
    requires OneRunPerUrl(values)
    ensures var observations := Where(values, InGroup(key));
      && |Where(observations, IsMissing(key.subject))| <= |Urls(observations)|
      && GroupCandidate(key, observations).Ok?
  {
    var observations := Where(values, InGroup(key));
    DistinctUrls(values, key);
    WhereMembers(observations, IsMissing(key.subject));
    hide Where, Urls;
  }

  lemma {:induction false} CollectionSucceeds(values: seq<EvaluationInput>, keys: seq<GroupKey>)
    requires OneRunPerUrl(values)
    ensures Collected(values, keys).Ok?
  {
    if keys != [] {
      CollectionSucceeds(values, keys[..|keys| - 1]);
      AffectedWithinValid(values, keys[|keys| - 1]);
      hide GroupCandidate;
    }
  }

  // ---------------------------------------------------------------- one candidate per group

  predicate IsFor(c: Candidate, key: GroupKey) {
    c.code == GptExpectedSlotMissing && c.subject == key.subject && c.scope == GroupScope(key)
  }

  lemma ScopeNamesGroup(a: GroupKey, b: GroupKey)
    requires a.subject == b.subject && GroupScope(a) == GroupScope(b)
    ensures a == b
  {
    assert GroupScope(a)[TemplateKey] == GroupScope(b)[TemplateKey];
    assert GroupScope(a)[ScenarioKey] == GroupScope(b)[ScenarioKey];
  }

  lemma GroupYieldsAtMostOne(key: GroupKey, observations: seq<EvaluationInput>)
    requires GroupCandidate(key, observations).Ok?
    ensures |GroupCandidate(key, observations).value| <= 1
    ensures forall c :: c in GroupCandidate(key, observations).value ==> IsFor(c, key)
  {
  }

  /** Each candidate belongs to one of the groups, and no two to the same one. */
  predicate OnePerGroup(out: seq<Candidate>, keys: seq<GroupKey>) {
    && (forall c :: c in out ==> exists key :: key in keys && IsFor(c, key))
    && (forall i, j :: 0 <= i < j < |out| ==> out[i].subject != out[j].subject || out[i].scope != out[j].scope)
  }

  lemma OnePerGroupExtends(out: seq<Candidate>, keys: seq<GroupKey>, key: GroupKey, own: seq<Candidate>)
    requires OnePerGroup(out, keys) && key !in keys && |own| <= 1 && forall c :: c in own ==> IsFor(c, key)
    ensures OnePerGroup(out + own, keys + [key])
  {
    var all, wide := out + own, keys + [key];
    assert forall k :: k in keys ==> k in wide;
    assert key in wide;
    forall c | c in all
      ensures exists k :: k in wide && IsFor(c, k)
    {
      if c in out {
        var k :| k in keys && IsFor(c, k);
        assert k in wide;
      }
    }
    forall i, j | 0 <= i < j < |all|
      ensures all[i].subject != all[j].subject || all[i].scope != all[j].scope
    {
      if j >= |out| {
        assert all[i] in out && own[0] in own;
        var k :| k in keys && IsFor(all[i], k);
        if all[i].subject == all[j].subject && all[i].scope == all[j].scope {
          ScopeNamesGroup(k, key);
        }
      }
    }
  }

  /** A window never yields two candidates for one template, scenario and slot, so it never both degrades and resolves it. */
  lemma {:induction false} AtMostOneCandidatePerGroup(values: seq<EvaluationInput>, keys: seq<GroupKey>)
    requires NoRepeats(keys) && Collected(values, keys).Ok?
    ensures OnePerGroup(Collected(values, keys).value, keys)
  {
    if keys != [] {
      var before, last := keys[..|keys| - 1], keys[|keys| - 1];
      AtMostOneCandidatePerGroup(values, before);
      GroupYieldsAtMostOne(last, Where(values, InGroup(last)));
      assert before + [last] == keys;
      OnePerGroupExtends(Collected(values, before).value, before, last, GroupCandidate(last, Where(values, InGroup(last))).value);
    }
  }

  lemma CandidateShape(key: GroupKey, observations: seq<EvaluationInput>)
    requires GroupCandidate(key, observations).Ok? && GroupCandidate(key, observations).value != []
    ensures var c := GroupCandidate(key, observations).value[0];
      var missing, present := Where(observations, IsMissing(key.subject)), Where(observations, IsPresent(key.subject));
      if c.action == Resolve then present != [] && c == Recovered(key, present, |Urls(observations)|)
      else
        var went := Where(missing, WentMissing(key.subject));
        && missing != [] && c.severity.Some?
        && c == Degraded(key, missing, went, |Urls(observations)|, c.severity.value)
  {
    hide Urls, LatestAt, Earliest, Pointers, GroupScope, Where, SeverityFor;
  }

  lemma {:induction false} PointersMembers(vs: seq<EvaluationInput>, action: Action, subject: Name, x: Pointer)
    ensures x in Pointers(vs, action, subject) <==> exists v :: v in vs && x in PointersOf(v, action, subject)
  {
    if vs != [] {
      var before, last := vs[..|vs| - 1], vs[|vs| - 1];
      assert vs == before + [last] && last in vs;
      PointersMembers(before, action, subject, x);
      hide PointersOf;
      if exists v :: v in vs && x in PointersOf(v, action, subject) {
        var v :| v in vs && x in PointersOf(v, action, subject);
        assert v == last || v in before;
      }
      if x in Pointers(before, action, subject) {
        var v :| v in before && x in PointersOf(v, action, subject);
        assert v in vs;
      }
    }
  }

  /**
    The evidence names the current checkpoint of every missing page, or of every healthy one, with the
    relation of the action, and the predecessor only of a page that went missing when the condition opens.
  */
  lemma CandidateEvidence(key: GroupKey, observations: seq<EvaluationInput>, run: Id, relation: Relation)
    requires GroupCandidate(key, observations).Ok? && GroupCandidate(key, observations).value != []
    ensures var c := GroupCandidate(key, observations).value[0];
      At(run, relation) in c.evidence <==>
        exists v :: v in observations && EvidenceFor(c.action, key.subject, v, run, relation)
  {
    var c := GroupCandidate(key, observations).value[0];
    CandidateShape(key, observations);
    EvidenceIsPointers(key, observations, c);
    hide GroupCandidate, Urls, Degraded, Recovered, Where, EvidenceFor, PointersOf, Pointers;
    var test := if c.action == Resolve then IsPresent(key.subject) else IsMissing(key.subject);
    var chosen := Where(observations, test);
    WhereMembers(observations, test);
    PointersMembers(chosen, c.action, key.subject, At(run, relation));
    forall v
      ensures v in observations && EvidenceFor(c.action, key.subject, v, run, relation)
         <==> v in chosen && At(run, relation) in PointersOf(v, c.action, key.subject)
    {
      PointersMeaning(c.action, key.subject, v, run, relation);
    }
  }

  lemma EvidenceIsPointers(key: GroupKey, observations: seq<EvaluationInput>, c: Candidate)
    requires
      var missing, present := Where(observations, IsMissing(key.subject)), Where(observations, IsPresent(key.subject));
      if c.action == Resolve then present != [] && c == Recovered(key, present, |Urls(observations)|)
      else
        var went := Where(missing, WentMissing(key.subject));
        missing != [] && c.severity.Some? && c == Degraded(key, missing, went, |Urls(observations)|, c.severity.value)
    ensures c.action == Resolve || c.action == Upsert || c.action == Action.Support
    ensures c.evidence ==
      Pointers(Where(observations, if c.action == Resolve then IsPresent(key.subject) else IsMissing(key.subject)), c.action, key.subject)
  {
    hide Where, Pointers, Earliest, LatestAt, GroupScope, Urls;
  }

  lemma PointersMeaning(action: Action, subject: Name, v: EvaluationInput, run: Id, relation: Relation)
    requires action == Resolve || action == Upsert || action == Action.Support
    ensures EvidenceFor(action, subject, v, run, relation) <==>
      && Holds(if action == Resolve then IsPresent(subject) else IsMissing(subject), v)
      && At(run, relation) in PointersOf(v, action, subject)
  {
  }

  predicate EvidenceFor(action: Action, subject: Name, v: EvaluationInput, run: Id, relation: Relation) {
    match action
    case Resolve => Holds(IsPresent(subject), v) && run == v.currentRun && relation == Recovery
    case Support => Holds(IsMissing(subject), v) && run == v.currentRun && relation == Relation.Supporting
    case _ =>
      || (Holds(IsMissing(subject), v) && run == v.currentRun && relation == TriggerAfter)
      || (Holds(WentMissing(subject), v) && run == v.previousRun && relation == TriggerBefore)
  }

  // ---------------------------------------------------------------- the order of the window does not matter

  /** Equal but for the order of the evidence. */
  predicate Alike(a: Candidate, b: Candidate) {
    a.(evidence := []) == b.(evidence := []) && multiset(a.evidence) == multiset(b.evidence)
  }

  predicate ResultsAlike(a: Result<seq<Candidate>>, b: Result<seq<Candidate>>) {
    match (a, b)
    case (Ok(x), Ok(y)) => |x| == |y| && forall i :: 0 <= i < |x| ==> Alike(x[i], y[i])
    case (Err(x), Err(y)) => x == y
    case _ => false
  }

  lemma {:induction false} PointersJoin(a: seq<EvaluationInput>, b: seq<EvaluationInput>, action: Action, subject: Name)
    ensures Pointers(a + b, action, subject) == Pointers(a, action, subject) + Pointers(b, action, subject)
  {
    hide PointersOf, Pointers;
    PointersStep(b, action, subject);
    if b == [] {
      assert a + b == a;
      assert Pointers(a, action, subject) + [] == Pointers(a, action, subject);
    } else {
      var before, last := b[..|b| - 1], b[|b| - 1];
      PointersJoin(a, before, action, subject);
      LastOfJoin(a, b);
      PointersStep(a + b, action, subject);
      Regroup(Pointers(a, action, subject), Pointers(before, action, subject), PointersOf(last, action, subject));
    }
  }

  lemma PointersStep(vs: seq<EvaluationInput>, action: Action, subject: Name)
    ensures Pointers(vs, action, subject) ==
      if vs == [] then [] else Pointers(vs[..|vs| - 1], action, subject) + PointersOf(vs[|vs| - 1], action, subject)
  {
  }

  lemma LastOfJoin<T>(a: seq<T>, b: seq<T>)
    requires b != []
    ensures (a + b)[..|a + b| - 1] == a + b[..|b| - 1] && (a + b)[|a + b| - 1] == b[|b| - 1]
  {
  }

  lemma Regroup<T>(x: seq<T>, y: seq<T>, z: seq<T>)
    ensures (x + y) + z == x + (y + z)
  {
  }

  lemma PointersAround(front: seq<EvaluationInput>, v: EvaluationInput, back: seq<EvaluationInput>, action: Action, subject: Name)
    ensures multiset(Pointers(front + [v] + back, action, subject))
         == multiset(Pointers(front + back, action, subject)) + multiset(Pointers([v], action, subject))
    ensures Pointers(front + [], action, subject) == Pointers(front, action, subject)
  {
    assert front + [] == front;
    PointersJoin(front, back, action, subject);
    PointersJoin(front, [v], action, subject);
    PointersJoin(front + [v], back, action, subject);
  }

  lemma {:induction false} PointersPermute(a: seq<EvaluationInput>, b: seq<EvaluationInput>, action: Action, subject: Name)
    requires multiset(a) == multiset(b)
    ensures multiset(Pointers(a, action, subject)) == multiset(Pointers(b, action, subject))
    decreases |a|
  {
    if a == [] {
      assert |b| == |multiset(b)| == 0;
    } else {
      hide Pointers, PointersOf;
      var before, last := a[..|a| - 1], a[|a| - 1];
      var front, back := TakeOut(a, b);
      PointersPermute(before, front + back, action, subject);
      PointersAround(front, last, back, action, subject);
      PointersAround(before, last, [], action, subject);
    }
  }

  lemma UrlsPermute(a: seq<EvaluationInput>, b: seq<EvaluationInput>)
    requires multiset(a) == multiset(b)
    ensures Urls(a) == Urls(b)
  {
    SameMembers(a, b);
  }

  lemma DegradedPermutes(key: GroupKey, a: seq<EvaluationInput>, b: seq<EvaluationInput>,
                         went: seq<EvaluationInput>, went': seq<EvaluationInput>, valid: nat, severity: Severity)
    requires multiset(a) == multiset(b) && |a| == |b| && a != []
    requires multiset(went) == multiset(went') && |went| == |went'|
    ensures b != [] && Alike(Degraded(key, a, went, valid, severity), Degraded(key, b, went', valid, severity))
  {
    TimesPermute(a, b);
    PointersPermute(a, b, Upsert, key.subject);
    PointersPermute(a, b, Action.Support, key.subject);
    if went != [] {
      TimesPermute(went, went');
    }
    hide Earliest, LatestAt, Pointers, GroupScope;
  }

  lemma RecoveredPermutes(key: GroupKey, a: seq<EvaluationInput>, b: seq<EvaluationInput>, valid: nat)
    requires multiset(a) == multiset(b) && a != []
    ensures b != [] && Alike(Recovered(key, a, valid), Recovered(key, b, valid))
  {
    TimesPermute(a, b);
    PointersPermute(a, b, Resolve, key.subject);
    hide Earliest, LatestAt, Pointers, GroupScope;
  }

  lemma VerdictPermutes(key: GroupKey, valid: nat,
                        a: seq<EvaluationInput>, b: seq<EvaluationInput>,
                        present: seq<EvaluationInput>, present': seq<EvaluationInput>,
                        went: seq<EvaluationInput>, went': seq<EvaluationInput>)
    requires multiset(a) == multiset(b) && |a| == |b|
    requires multiset(present) == multiset(present') && |present| == |present'|
    requires multiset(went) == multiset(went') && |went| == |went'|
    ensures ResultsAlike(Verdict(key, valid, a, present, went), Verdict(key, valid, b, present', went'))
  {
    hide Alike, Degraded, Recovered;
    if |a| >= 2 && valid >= 2 {
      hide SeverityFor;
      var severity := SeverityFor(RULE, |a|, valid);
      if severity.Ok? {
        DegradedPermutes(key, a, b, went, went', valid, severity.value);
      }
    } else if a == [] && |present| >= 2 && valid >= 2 {
      RecoveredPermutes(key, present, present', valid);
    }
  }

  lemma GroupPermutes(key: GroupKey, a: seq<EvaluationInput>, b: seq<EvaluationInput>)
    requires multiset(a) == multiset(b)
    ensures ResultsAlike(GroupCandidate(key, a), GroupCandidate(key, b))
  {
    UrlsPermute(a, b);
    WherePermutes(a, b, IsMissing(key.subject));
    WherePermutes(a, b, IsPresent(key.subject));
    var missing, missing' := Where(a, IsMissing(key.subject)), Where(b, IsMissing(key.subject));
    WherePermutes(missing, missing', WentMissing(key.subject));
    hide Where, Urls, Verdict, ResultsAlike;
    VerdictPermutes(key, |Urls(a)|, missing, missing', Where(a, IsPresent(key.subject)), Where(b, IsPresent(key.subject)),
                    Where(missing, WentMissing(key.subject)), Where(missing', WentMissing(key.subject)));
  }

  /**
    Reading the window's checkpoints in another order gives the same groups, and for each of them the
    same candidate up to the order of its evidence.
  */
  lemma OrderDoesNotMatter(a: seq<EvaluationInput>, b: seq<EvaluationInput>, key: GroupKey)
    requires multiset(a) == multiset(b)
    ensures Where(a, InGroup(key)) != [] <==> Where(b, InGroup(key)) != []
    ensures ResultsAlike(GroupCandidate(key, Where(a, InGroup(key))), GroupCandidate(key, Where(b, InGroup(key))))
  {
    WherePermutes(a, b, InGroup(key));
    hide GroupCandidate;
    GroupPermutes(key, Where(a, InGroup(key)), Where(b, InGroup(key)));
  }
}
