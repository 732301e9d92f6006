/** What the candidates of a window say, read off its checkpoints one by one. */
module WindowMeaning {
  import opened Contracts
  import opened Lifecycle
  import opened WindowGroups
  import opened GptWindow
  import opened GptTheorems
  import opened WindowEvaluation

  // ---------------------------------------------------------------- counting checkpoints

  ghost function CountIf(vs: seq<EvaluationInput>, test: EvaluationInput -> bool): nat {
    if vs == [] then 0 else CountIf(vs[..|vs| - 1], test) + if test(vs[|vs| - 1]) then 1 else 0
  }

  lemma {:induction false} WhereCount(vs: seq<EvaluationInput>, t: Test, test: EvaluationInput -> bool)
    requires forall v :: Holds(t, v) <==> test(v)
    ensures |Where(vs, t)| == CountIf(vs, test)
  {
    if vs != [] {
      WhereCount(vs[..|vs| - 1], t, test);
    }
  }

  lemma {:induction false} WhereWhereCount(vs: seq<EvaluationInput>, t: Test, u: Test, test: EvaluationInput -> bool)
    requires forall v :: Holds(t, v) && Holds(u, v) <==> test(v)
    ensures |Where(Where(vs, t), u)| == CountIf(vs, test)
  {
    if vs != [] {
      var before, last := vs[..|vs| - 1], vs[|vs| - 1];
      WhereWhereCount(before, t, u, test);
      if Holds(t, last) {
        var kept := Where(before, t);
        assert (kept + [last])[..|kept|] == kept;
      } else {
        assert Where(vs, t) == Where(before, t);
      }
    }
  }

  // ---------------------------------------------------------------- slots

  /** The page belongs to the group and was checked for the slot. */
  predicate Checked(v: EvaluationInput, key: GroupKey) {
    v.template == key.template && v.scenario == key.scenario && key.subject in v.currentSlots
  }

  predicate Missing(v: EvaluationInput, key: GroupKey) {
    Checked(v, key) && v.currentSlots[key.subject] == false
  }

  predicate Healthy(v: EvaluationInput, key: GroupKey) {
    Checked(v, key) && v.currentSlots[key.subject] == true
  }

  /** Missing now and present at the checkpoint before. */
  predicate JustMissing(v: EvaluationInput, key: GroupKey) {
    Missing(v, key) && key.subject in v.previousSlots && v.previousSlots[key.subject] == true
  }

  /** The pages a candidate of this action is triggered by. */
  predicate TriggeredBy(action: Action, v: EvaluationInput, key: GroupKey) {
    match action
    case Resolve => Healthy(v, key)
    case Upsert => JustMissing(v, key)
    case _ => Missing(v, key)
  }

  /** The pages a candidate of this action concerns. */
  predicate Concerns(action: Action, v: EvaluationInput, key: GroupKey) {
    if action == Resolve then Healthy(v, key) else Missing(v, key)
  }

  /** The evidence one page contributes. */
  predicate Contributes(action: Action, v: EvaluationInput, key: GroupKey, run: Id, relation: Relation) {
    match action
    case Resolve => Healthy(v, key) && run == v.currentRun && relation == Recovery
    case Upsert =>
      || (Missing(v, key) && run == v.currentRun && relation == TriggerAfter)
      || (JustMissing(v, key) && run == v.previousRun && relation == TriggerBefore)
    case _ => Missing(v, key) && run == v.currentRun && relation == Relation.Supporting
  }

  /** Occurrence from the earliest to the latest triggering page, detection at the latest page concerned. */
  ghost predicate TimesFit(c: Candidate, vs: seq<EvaluationInput>, key: GroupKey) {
    && c.occurredAfter.Some? && c.occurredBefore.Some? && c.detectedAt.Some?
    && (forall v :: v in vs && TriggeredBy(c.action, v, key) ==>
          c.occurredAfter.value <= v.previousAt && v.currentAt <= c.occurredBefore.value)
    && (exists v :: v in vs && TriggeredBy(c.action, v, key) && v.previousAt == c.occurredAfter.value)
    && (exists v :: v in vs && TriggeredBy(c.action, v, key) && v.currentAt == c.occurredBefore.value)
    && (forall v :: v in vs && Concerns(c.action, v, key) ==> v.currentAt <= c.detectedAt.value)
    && (exists v :: v in vs && Concerns(c.action, v, key) && v.currentAt == c.detectedAt.value)
  }

  function SlotCandidates(vs: seq<EvaluationInput>, key: GroupKey): Result<seq<Candidate>> {
    GroupCandidate(key, Where(vs, InGroup(key)))
  }

  ghost function MissingCount(vs: seq<EvaluationInput>, key: GroupKey): nat {
    CountIf(vs, v => Missing(v, key))
  }

  ghost function HealthyCount(vs: seq<EvaluationInput>, key: GroupKey): nat {
    CountIf(vs, v => Healthy(v, key))
  }

  ghost function JustMissingCount(vs: seq<EvaluationInput>, key: GroupKey): nat {
    CountIf(vs, v => JustMissing(v, key))
  }

  function CheckedUrls(vs: seq<EvaluationInput>, key: GroupKey): set<Id> {
    set v | v in vs && Checked(v, key) :: v.url
  }

  lemma SlotCounts(vs: seq<EvaluationInput>, key: GroupKey)
    ensures var observations := Where(vs, InGroup(key));
      && |Where(observations, IsMissing(key.subject))| == MissingCount(vs, key)
      && |Where(observations, IsPresent(key.subject))| == HealthyCount(vs, key)
      && |Where(Where(observations, IsMissing(key.subject)), WentMissing(key.subject))| == JustMissingCount(vs, key)
      && Urls(observations) == CheckedUrls(vs, key)
  {
    var observations := Where(vs, InGroup(key));
    WhereWhereCount(vs, InGroup(key), IsMissing(key.subject), v => Missing(v, key));
    WhereWhereCount(vs, InGroup(key), IsPresent(key.subject), v => Healthy(v, key));
    WhereMembers(vs, InGroup(key));
    WhereOfMissing(observations, key.subject);
    WhereWhereCount(vs, InGroup(key), WentMissing(key.subject), v => JustMissing(v, key));
    hide Where;
    assert forall v :: v in observations <==> v in vs && Checked(v, key);
  }

  lemma {:induction false} WhereOfMissing(vs: seq<EvaluationInput>, subject: Name)
    ensures Where(Where(vs, IsMissing(subject)), WentMissing(subject)) == Where(vs, WentMissing(subject))
  {
    if vs != [] {
      var before, last := vs[..|vs| - 1], vs[|vs| - 1];
      WhereOfMissing(before, subject);
      if Holds(IsMissing(subject), last) {
        var kept := Where(before, IsMissing(subject));
        assert (kept + [last])[..|kept|] == kept;
      } else {
        assert Where(vs, IsMissing(subject)) == Where(before, IsMissing(subject));
      }
    }
  }

  /**
    A group has a candidate exactly when at least two of its checked URLs are valid and either two pages
    miss the slot or none does and two have it; what the candidate counts, says and how severe it is.
  */
  lemma SlotCandidateIff(vs: seq<EvaluationInput>, key: GroupKey)
    requires SlotCandidates(vs, key).Ok?
    ensures var out, missing, valid := SlotCandidates(vs, key).value, MissingCount(vs, key), |CheckedUrls(vs, key)|;
      && (out != [] <==> valid >= 2 && (missing >= 2 || (missing == 0 && HealthyCount(vs, key) >= 2)))
      && (out != [] ==>
            var c := out[0];
            && |out| == 1 && c.code == GptExpectedSlotMissing && c.subject == key.subject
            && c.scope == map[TemplateKey := Some(key.template), ScenarioKey := Some(key.scenario)]
            && c.affectedUrls == missing && c.validUrls == valid
            && c.action == (if missing == 0 then Resolve else if JustMissingCount(vs, key) >= 2 then Upsert else Action.Support)
            && c.severity == Some(if missing >= 3 && missing == valid then Critical else High))
  {
    SlotCounts(vs, key);
    hide Where, Urls, LatestAt, Earliest, Pointers, MissingCount, HealthyCount, JustMissingCount, CheckedUrls;
  }

  lemma ContributionOfPage(vs: seq<EvaluationInput>, key: GroupKey, action: Action, v: EvaluationInput, run: Id, relation: Relation)
    requires action == Resolve || action == Upsert || action == Action.Support
    ensures v in Where(vs, InGroup(key)) && EvidenceFor(action, key.subject, v, run, relation)
       <==> v in vs && Contributes(action, v, key, run, relation)
  {
    WhereMembers(vs, InGroup(key));
    hide Where;
  }

  /** The evidence of the candidate is what its pages contribute. */
  lemma SlotEvidenceIff(vs: seq<EvaluationInput>, key: GroupKey, run: Id, relation: Relation)
    requires SlotCandidates(vs, key).Ok? && SlotCandidates(vs, key).value != []
    ensures var c := SlotCandidates(vs, key).value[0];
      At(run, relation) in c.evidence <==> exists v :: v in vs && Contributes(c.action, v, key, run, relation)
  {
    hide Where, GroupCandidate, EvidenceFor, Contributes;
    var observations := Where(vs, InGroup(key));
    var c := SlotCandidates(vs, key).value[0];
    CandidateEvidence(key, observations, run, relation);
    ActionOf(key, observations);
    forall v
      ensures v in observations && EvidenceFor(c.action, key.subject, v, run, relation)
         <==> v in vs && Contributes(c.action, v, key, run, relation)
    {
      ContributionOfPage(vs, key, c.action, v, run, relation);
    }
  }

  lemma ActionOf(key: GroupKey, observations: seq<EvaluationInput>)
    requires GroupCandidate(key, observations).Ok? && GroupCandidate(key, observations).value != []
    ensures var action := GroupCandidate(key, observations).value[0].action;
      action == Resolve || action == Upsert || action == Action.Support
  {
    hide Where, Urls, LatestAt, Earliest, Pointers, GroupScope;
  }

  lemma TimesOfPages(c: Candidate, vs: seq<EvaluationInput>, key: GroupKey, triggers: seq<EvaluationInput>, concerned: seq<EvaluationInput>)
    requires triggers != [] && concerned != []
    requires forall v :: v in triggers <==> v in vs && TriggeredBy(c.action, v, key)
    requires forall v :: v in concerned <==> v in vs && Concerns(c.action, v, key)
    requires c.occurredAfter == Some(Earliest(triggers)) && c.occurredBefore == Some(LatestAt(triggers))
    requires c.detectedAt == Some(LatestAt(concerned))
    ensures TimesFit(c, vs, key)
  {
    EarliestIsLeast(triggers);
    LatestAtIsGreatest(triggers);
    LatestAtIsGreatest(concerned);
    hide Earliest, LatestAt, TriggeredBy, Concerns;
  }

  lemma PagesOfGroup(vs: seq<EvaluationInput>, key: GroupKey)
    ensures var observations := Where(vs, InGroup(key));
      var missing := Where(observations, IsMissing(key.subject));
      && (forall v :: v in missing <==> v in vs && Missing(v, key))
      && (forall v :: v in Where(observations, IsPresent(key.subject)) <==> v in vs && Healthy(v, key))
      && (forall v :: v in Where(missing, WentMissing(key.subject)) <==> v in vs && JustMissing(v, key))
  {
    var observations := Where(vs, InGroup(key));
    var missing := Where(observations, IsMissing(key.subject));
    WhereMembers(vs, InGroup(key));
    WhereMembers(observations, IsMissing(key.subject));
    WhereMembers(observations, IsPresent(key.subject));
    WhereMembers(missing, WentMissing(key.subject));
    hide Where;
  }

  /** Its times are exactly those of its pages. */
  lemma SlotTimesFit(vs: seq<EvaluationInput>, key: GroupKey)
    requires SlotCandidates(vs, key).Ok? && SlotCandidates(vs, key).value != []
    ensures TimesFit(SlotCandidates(vs, key).value[0], vs, key)
  {
    hide Where, GroupCandidate, TimesFit, Earliest, LatestAt, Pointers, Urls, Missing, Healthy, JustMissing;
    var observations := Where(vs, InGroup(key));
    var c := SlotCandidates(vs, key).value[0];
    var missing, present := Where(observations, IsMissing(key.subject)), Where(observations, IsPresent(key.subject));
    var went := Where(missing, WentMissing(key.subject));
    CandidateShape(key, observations);
    PagesOfGroup(vs, key);
    if c.action == Resolve {
      TimesOfPages(c, vs, key, present, present);
    } else {
      TimesOfPages(c, vs, key, if |went| >= 2 then went else missing, missing);
    }
  }

  // ---------------------------------------------------------------- noindex

  /** The page gained the noindex directive between its two checkpoints. */
  predicate Gained(v: EvaluationInput) {
    && SeoPart in v.previousState && NOINDEX !in v.previousState[SeoPart].items
    && SeoPart in v.currentState && NOINDEX in v.currentState[SeoPart].items
  }

  predicate OnPagesOf(v: EvaluationInput, pages: PageGroup) {
    v.template == pages.template && v.scenario == pages.scenario
  }

  ghost function GainedCount(vs: seq<EvaluationInput>, pages: PageGroup): nat {
    CountIf(vs, v => Gained(v) && OnPagesOf(v, pages))
  }

  ghost function PagesCount(vs: seq<EvaluationInput>, pages: PageGroup): nat {
    CountIf(vs, v => OnPagesOf(v, pages))
  }

  function NoindexCandidates(vs: seq<EvaluationInput>, pages: PageGroup): Result<seq<Candidate>> {
    PagesResult(pages, Where(vs, GainedOn(pages)), |Where(vs, OnPages(pages))|)
  }

  /** The one candidate for two or more affected pages of a template. */
  ghost predicate ForTemplateFits(c: Candidate, vs: seq<EvaluationInput>, pages: PageGroup) {
    && c.code == NoindexAdded && c.action == Record && c.subject == RENDERED_TEMPLATE && c.severity == Some(Critical)
    && c.scope == map[TemplateKey := Some(pages.template), ScenarioKey := Some(pages.scenario)]
    && c.affectedUrls == GainedCount(vs, pages) && c.validUrls == PagesCount(vs, pages)
    && c.occurredAfter.Some? && c.occurredBefore.Some? && c.detectedAt == c.occurredBefore
    && (forall v :: v in vs && Gained(v) && OnPagesOf(v, pages) ==>
          c.occurredAfter.value <= v.previousAt && v.currentAt <= c.occurredBefore.value)
    && (exists v :: v in vs && Gained(v) && OnPagesOf(v, pages) && v.previousAt == c.occurredAfter.value)
    && (exists v :: v in vs && Gained(v) && OnPagesOf(v, pages) && v.currentAt == c.occurredBefore.value)
  }

  /** The candidate of one affected page reported by itself. */
  predicate ForPageFits(c: Candidate, v: EvaluationInput) {
    && c.code == NoindexAdded && c.action == Record && c.subject == RENDERED_PAGE && c.severity == Some(Medium)
    && c.scope == map[TemplateKey := Some(v.template), ScenarioKey := Some(v.scenario), UrlKey := Some(v.url)]
    && c.affectedUrls == 1 && c.validUrls == 1
    && c.occurredAfter == Some(v.previousAt) && c.occurredBefore == Some(v.currentAt) && c.detectedAt == Some(v.currentAt)
    && c.evidence == [At(v.previousRun, Before), At(v.currentRun, After)]
  }

  lemma NoindexCounts(vs: seq<EvaluationInput>, pages: PageGroup)
    ensures |Where(vs, GainedOn(pages))| == GainedCount(vs, pages) && |Where(vs, OnPages(pages))| == PagesCount(vs, pages)
    ensures forall v :: v in Where(vs, GainedOn(pages)) <==> v in vs && Gained(v) && OnPagesOf(v, pages)
  {
    WhereCount(vs, GainedOn(pages), v => Gained(v) && OnPagesOf(v, pages));
    WhereCount(vs, OnPages(pages), v => OnPagesOf(v, pages));
    WhereMembers(vs, GainedOn(pages));
    hide Where;
  }

  lemma PageFits(v: EvaluationInput)
    ensures SeverityFor(WindowEvaluation.RULE, 1, 1).Ok?
    ensures ForPageFits(ForPage(v, SeverityFor(WindowEvaluation.RULE, 1, 1).value), v)
  {
  }

  lemma {:induction false} EachPageFits(vs: seq<EvaluationInput>)
    ensures ForPages(vs).Ok? && |ForPages(vs).value| == |vs|
    ensures forall i :: 0 <= i < |vs| ==> ForPageFits(ForPages(vs).value[i], vs[i])
  {
    hide ForPageFits, ForPage;
    if vs != [] {
      EachPageFits(vs[..|vs| - 1]);
      PageFits(vs[|vs| - 1]);
    }
  }

  /**
    Two or more pages of a template and scenario that gained noindex make one critical candidate for the
    template; a single one makes a medium candidate for its own page, and none makes none.
  */
  lemma NoindexCandidatesFit(vs: seq<EvaluationInput>, pages: PageGroup)
    ensures NoindexCandidates(vs, pages).Ok?
    ensures var out := NoindexCandidates(vs, pages).value;
      if GainedCount(vs, pages) >= 2 then |out| == 1 && ForTemplateFits(out[0], vs, pages)
      else if GainedCount(vs, pages) == 1 then
        |out| == 1 && exists v :: v in vs && Gained(v) && OnPagesOf(v, pages) && ForPageFits(out[0], v)
      else out == []
  {
    var affected := Where(vs, GainedOn(pages));
    NoindexCounts(vs, pages);
    GroupSucceeds(vs, pages);
    GainedWithinPages(vs, pages);
    EachPageFits(affected);
    hide Where, GainedCount, PagesCount, ForPages, Gained, OnPagesOf, ForPageFits, Pairs, Earliest, LatestAt;
    if |affected| >= 2 {
      EarliestIsLeast(affected);
      LatestAtIsGreatest(affected);
    } else if |affected| == 1 {
      assert affected[0] in affected;
    }
  }

  lemma {:induction false} PairsMembers(vs: seq<EvaluationInput>, run: Id, relation: Relation)
    ensures At(run, relation) in Pairs(vs) <==>
      exists v :: v in vs && ((run == v.previousRun && relation == Before) || (run == v.currentRun && relation == After))
  {
    if vs != [] {
      var before, last := vs[..|vs| - 1], vs[|vs| - 1];
      PairsMembers(before, run, relation);
      assert vs == before + [last];
      assert forall v :: v in vs <==> v in before || v == last;
      assert At(run, relation) in PairOf(last) <==>
        (run == last.previousRun && relation == Before) || (run == last.currentRun && relation == After);
    }
  }

  /** Over all groups, a checkpoint is evidence exactly when a page that gained noindex has it before or after. */
  lemma NoindexEvidenceIff(vs: seq<EvaluationInput>, order: seq<PageGroup>, run: Id, relation: Relation)
    requires ListsGained(vs, order)
    ensures NoindexOf(vs, order).Ok?
    ensures At(run, relation) in AllEvidence(NoindexOf(vs, order).value) <==>
      exists v :: v in vs && Gained(v)
        && ((run == v.previousRun && relation == Before) || (run == v.currentRun && relation == After))
  {
    EachAffectedPageIsReportedOnce(vs, order);
    hide Where, NoindexOf, ListsGained, AllEvidence, Pairs, Gained;
    GainedMembers(vs);
    var gained := Where(vs, GainedNoindex);
    PairsMembers(gained, run, relation);
    InBag(Pairs(gained), At(run, relation));
  }

  lemma GainedMembers(vs: seq<EvaluationInput>)
    ensures forall v :: v in Where(vs, GainedNoindex) <==> v in vs && Gained(v)
  {
    WhereMembers(vs, GainedNoindex);
    hide Where;
  }

  lemma InBag<T>(s: seq<T>, x: T)
    ensures x in multiset(s) <==> x in s
  {
  }
}
