/** The recoveries the evaluators build never support, so runs of evaluated candidates count right. */
module EvaluatedRecoveries {
  import opened Contracts
  import opened EventStore
  import opened EventInvariants
  import opened EventHistory
  import opened EventTheorems
  import Evaluator
  import GptTheorems
  import GptWindow
  import WindowEvaluation
  import WindowGroups

  lemma JavascriptRecoveriesAreClean(v: EvaluationInput, c: Candidate)
    requires c in Evaluator.Evaluate(v)
    ensures CleanRecovery(c)
  {
    Evaluator.CandidatesSpeak(v);
    var i :| 0 <= i < |Evaluator.JsCandidates(v)| && Evaluator.JsCandidates(v)[i] == c;
    assert Evaluator.Speaks(v, c.subject, c);
  }

  lemma SlotRecoveriesAreClean(key: WindowGroups.GroupKey, observations: seq<EvaluationInput>, c: Candidate)
    requires GptWindow.GroupCandidate(key, observations).Ok? && c in GptWindow.GroupCandidate(key, observations).value
    ensures CleanRecovery(c)
  {
    GptTheorems.GroupYieldsAtMostOne(key, observations);
    assert c == GptWindow.GroupCandidate(key, observations).value[0];
    forall p | p in c.evidence && c.action == Resolve
      ensures p.relation == Recovery
    {
      GptTheorems.CandidateShape(key, observations);
      var present := WindowGroups.Where(observations, WindowGroups.IsPresent(key.subject));
      GptTheorems.PointersMembers(present, Resolve, key.subject, p);
    }
  }

  lemma {:induction false} WindowRecoveriesAreClean(values: seq<EvaluationInput>, keys: seq<WindowGroups.GroupKey>, c: Candidate)
    requires GptWindow.Collected(values, keys).Ok? && c in GptWindow.Collected(values, keys).value
    ensures CleanRecovery(c)
  {
    if keys != [] {
      hide GptWindow.GroupCandidate, CleanRecovery;
      var before, last := keys[..|keys| - 1], keys[|keys| - 1];
      var observations := WindowGroups.Where(values, WindowGroups.InGroup(last));
      if c in GptWindow.Collected(values, before).value {
        WindowRecoveriesAreClean(values, before, c);
      } else {
        SlotRecoveriesAreClean(last, observations, c);
      }
    }
  }

  lemma {:induction false} PagesAreRecorded(vs: seq<EvaluationInput>, c: Candidate)
    requires WindowEvaluation.ForPages(vs).Ok? && c in WindowEvaluation.ForPages(vs).value
    ensures c.action == Record
  {
    if vs != [] && c in WindowEvaluation.ForPages(vs[..|vs| - 1]).value {
      PagesAreRecorded(vs[..|vs| - 1], c);
    }
  }

  lemma {:induction false} NoindexIsRecorded(values: seq<EvaluationInput>, order: seq<WindowGroups.PageGroup>, c: Candidate)
    requires WindowEvaluation.NoindexOf(values, order).Ok? && c in WindowEvaluation.NoindexOf(values, order).value
    ensures c.action == Record
  {
    if order != [] {
      var before, last := order[..|order| - 1], order[|order| - 1];
      if c in WindowEvaluation.NoindexOf(values, before).value {
        NoindexIsRecorded(values, before, c);
      } else {
        PagesResultIsRecorded(values, last, c);
      }
    }
  }

  lemma PagesResultIsRecorded(values: seq<EvaluationInput>, pages: WindowGroups.PageGroup, c: Candidate)
    requires
      var own := WindowEvaluation.PagesResult(pages, WindowGroups.Where(values, WindowGroups.GainedOn(pages)),
                                              |WindowGroups.Where(values, WindowGroups.OnPages(pages))|);
      own.Ok? && c in own.value
    ensures c.action == Record
  {
    var affected := WindowGroups.Where(values, WindowGroups.GainedOn(pages));
    if WindowEvaluation.ForPages(affected).Ok? && c in WindowEvaluation.ForPages(affected).value {
      PagesAreRecorded(affected, c);
    }
  }

  // ---------------------------------------------------------------- runs of evaluated candidates

  /** Some evaluation of a checkpoint or of a window yields the candidate. */
  ghost predicate Evaluated(c: Candidate) {
    || (exists v :: c in Evaluator.Evaluate(v))
    || (exists values, keys :: GptWindow.Collected(values, keys).Ok? && c in GptWindow.Collected(values, keys).value)
    || (exists values, order :: WindowEvaluation.NoindexOf(values, order).Ok? && c in WindowEvaluation.NoindexOf(values, order).value)
  }

  lemma EvaluatedIsClean(c: Candidate)
    requires Evaluated(c)
    ensures CleanRecovery(c)
  {
    if v :| c in Evaluator.Evaluate(v) {
      JavascriptRecoveriesAreClean(v, c);
    } else if values, keys :| GptWindow.Collected(values, keys).Ok? && c in GptWindow.Collected(values, keys).value {
      WindowRecoveriesAreClean(values, keys, c);
    } else {
      var values, order :|
        WindowEvaluation.NoindexOf(values, order).Ok? && c in WindowEvaluation.NoindexOf(values, order).value;
      NoindexIsRecorded(values, order, c);
    }
  }

  /** As long as the scheduled calls carry what the evaluators yield, every counter is the size of its set. */
  lemma EvaluatedRunsCountRight(runs: Runs, calls: seq<Call>)
    requires forall call :: call in calls && call.Scheduled? ==> forall item :: item in call.items ==> Evaluated(item.candidate)
    ensures var s := RunFrom(runs, START, calls).store;
      forall id: EventId :: id in s.events && id.ConditionId? ==>
        s.events[id].progress.supporting == |Supporters(s.refs, id)|
  {
    hide Evaluated, CleanRecovery;
    forall call | call in calls
      ensures Clean(call)
    {
      if call.Scheduled? {
        forall item | item in call.items
          ensures CleanRecovery(item.candidate)
        {
          EvaluatedIsClean(item.candidate);
        }
      }
    }
    CounterIsSupporters(runs, calls);
  }
}
