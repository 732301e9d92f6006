/** Pages that gained noindex within a window, and the evaluation of a whole window. */
module WindowEvaluation {
  import opened Contracts
  import opened Lifecycle
  import opened WindowGroups
  import Evaluator
  import GptWindow
  import GptTheorems

  const RULE := RuleOf(NoindexAdded)

  /** The subjects "rendered-template" and "rendered-page". */
  const RENDERED_TEMPLATE: Name := 1
  const RENDERED_PAGE: Name := 2

  // ---------------------------------------------------------------- noindex

  function PairOf(v: EvaluationInput): seq<Pointer> {
    [At(v.previousRun, Before), At(v.currentRun, After)]
  }

  function Pairs(vs: seq<EvaluationInput>): seq<Pointer> {
    if vs == [] then [] else Pairs(vs[..|vs| - 1]) + PairOf(vs[|vs| - 1])
  }

  function ForTemplate(pages: PageGroup, affected: seq<EvaluationInput>, valid: nat, severity: Severity): Candidate
    requires affected != []
  {
    Candidate(NoindexAdded, RENDERED_TEMPLATE, Record, Some(severity),
              map[ScenarioKey := Some(pages.scenario), TemplateKey := Some(pages.template)],
              Some(Earliest(affected)), Some(LatestAt(affected)), Some(LatestAt(affected)),
              Pairs(affected), |affected|, valid)
  }

  function ForPage(v: EvaluationInput, severity: Severity): Candidate {
    Candidate(NoindexAdded, RENDERED_PAGE, Record, Some(severity), Evaluator.ExactScope(v),
              Some(v.previousAt), Some(v.currentAt), Some(v.currentAt), PairOf(v), 1, 1)
  }

  function ForPages(vs: seq<EvaluationInput>): Result<seq<Candidate>> {
    if vs == [] then Ok([])
    else
      var before :- ForPages(vs[..|vs| - 1]);
      var severity :- SeverityFor(RULE, 1, 1);
      Ok(before + [ForPage(vs[|vs| - 1], severity)])
  }

  /** One group of pages: together when enough of them are affected, else each for itself. */
  function PagesResult(pages: PageGroup, affected: seq<EvaluationInput>, valid: nat): Result<seq<Candidate>> {
    if affected != [] && |affected| >= RULE.minAffectedUrls && valid >= RULE.minValidUrls then
      var severity :- SeverityFor(RULE, |affected|, valid);
      Ok([ForTemplate(pages, affected, valid, severity)])
    else ForPages(affected)
  }

  function NoindexOf(values: seq<EvaluationInput>, order: seq<PageGroup>): Result<seq<Candidate>> {
    if order == [] then Ok([])
    else
      var before :- NoindexOf(values, order[..|order| - 1]);
      var last := order[|order| - 1];
      var own :- PagesResult(last, Where(values, GainedOn(last)), |Where(values, OnPages(last))|);
      Ok(before + own)
  }

  predicate Distinct(order: seq<PageGroup>) {
    forall i, j :: 0 <= i < j < |order| ==> order[i] != order[j]
  }

  ghost predicate ListsGained(values: seq<EvaluationInput>, order: seq<PageGroup>) {
    Distinct(order) && forall pages :: pages in order <==> Where(values, GainedOn(pages)) != []
  }

  /** Groups come in the order of their first affected pages. */
  ghost predicate FirstCome(order: seq<PageGroup>, vs: seq<EvaluationInput>) {
    forall i, j :: 0 <= i < j < |order| ==> FirstAt(vs, GainedOn(order[i])) < FirstAt(vs, GainedOn(order[j]))
  }

  /** The groups of affected pages in the order in which they first occur. */
  method GainedGroups(values: seq<EvaluationInput>) returns (order: seq<PageGroup>)
    ensures ListsGained(values, order) && FirstCome(order, values)
  {
    order := [];
    for i := 0 to |values|
      invariant ListsGained(values[..i], order) && FirstCome(order, values[..i])
    {
      assert values[..i + 1] == values[..i] + [values[i]];
      GroupAdded(values[..i], order, values[i]);
      FirstComeAdded(values[..i], order, values[i]);
      if GainsNoindex(values[i]) && PagesOf(values[i]) !in order {
        order := order + [PagesOf(values[i])];
      }
    }
    assert values[..|values|] == values;
  }

  lemma GroupAdded(done: seq<EvaluationInput>, order: seq<PageGroup>, v: EvaluationInput)
    requires ListsGained(done, order)
    ensures var pages := PagesOf(v);
      ListsGained(done + [v], if GainsNoindex(v) && pages !in order then order + [pages] else order)
  {
    assert (done + [v])[..|done|] == done;
    forall pages
      ensures Where(done + [v], GainedOn(pages)) ==
        Where(done, GainedOn(pages)) + if GainsNoindex(v) && PagesOf(v) == pages then [v] else []
    {
    }
    hide Where, GainsNoindex;
  }

  lemma FirstComeAdded(done: seq<EvaluationInput>, order: seq<PageGroup>, v: EvaluationInput)
    requires ListsGained(done, order) && FirstCome(order, done)
    ensures var pages := PagesOf(v);
      FirstCome(if GainsNoindex(v) && pages !in order then order + [pages] else order, done + [v])
  {
    hide FirstAt, Where, GainsNoindex;
    forall pages
      ensures pages in order ==> FirstAt(done + [v], GainedOn(pages)) == FirstAt(done, GainedOn(pages)) < |done|
      ensures pages !in order && GainsNoindex(v) && pages == PagesOf(v) ==> FirstAt(done + [v], GainedOn(pages)) == |done|
    {
      FirstAtIsFirst(done, GainedOn(pages));
      FirstAtLater(done, v, GainedOn(pages));
    }
  }

  method NoindexWindowCandidates(values: seq<EvaluationInput>) returns (r: Result<seq<Candidate>>, order: seq<PageGroup>)
    ensures ListsGained(values, order) && FirstCome(order, values) && r == NoindexOf(values, order)
  {
    order := GainedGroups(values);
    hide ListsGained, FirstCome, Where, PagesResult;
    var out: seq<Candidate> := [];
    for i := 0 to |order|
      invariant NoindexOf(values, order[..i]) == Ok(out)
    {
      assert order[..i + 1][..i] == order[..i];
      var affected := Select(values, GainedOn(order[i]));
      var runs := Select(values, OnPages(order[i]));
      var own := PagesResult(order[i], affected, |runs|);
      GroupSucceeds(values, order[i]);
      out := out + own.value;
    }
    assert order[..|order|] == order;
    return Ok(out), order;
  }

  /** The rule never rejects its counts: a group has no more affected pages than runs. */
  lemma GroupSucceeds(values: seq<EvaluationInput>, pages: PageGroup)
    ensures PagesResult(pages, Where(values, GainedOn(pages)), |Where(values, OnPages(pages))|).Ok?
  {
    GainedWithinPages(values, pages);
    PagesSucceed(Where(values, GainedOn(pages)));
  }

  lemma {:induction false} GainedWithinPages(values: seq<EvaluationInput>, pages: PageGroup)
    ensures |Where(values, GainedOn(pages))| <= |Where(values, OnPages(pages))|
  {
    if values != [] {
      GainedWithinPages(values[..|values| - 1], pages);
    }
  }

  lemma {:induction false} PagesSucceed(vs: seq<EvaluationInput>)
    ensures ForPages(vs).Ok?
  {
    if vs != [] {
      PagesSucceed(vs[..|vs| - 1]);
    }
  }

  // ---------------------------------------------------------------- each affected page is reported once

  function AllEvidence(cs: seq<Candidate>): multiset<Pointer> {
    if cs == [] then multiset{} else AllEvidence(cs[..|cs| - 1]) + multiset(cs[|cs| - 1].evidence)
  }

  lemma {:induction false} EvidenceJoins(a: seq<Candidate>, b: seq<Candidate>)
    ensures AllEvidence(a + b) == AllEvidence(a) + AllEvidence(b)
  {
    hide AllEvidence;
    EvidenceStep(b);
    if b == [] {
      assert a + b == a;
    } else {
      var before := b[..|b| - 1];
      EvidenceJoins(a, before);
      EvidenceStep(a + b);
      assert (a + b)[..|a + b| - 1] == a + before && (a + b)[|a + b| - 1] == b[|b| - 1];
      Regroup(AllEvidence(a), AllEvidence(before), multiset{}, multiset(b[|b| - 1].evidence));
    }
  }

  lemma EvidenceStep(cs: seq<Candidate>)
    ensures AllEvidence(cs) ==
      if cs == [] then multiset{} else AllEvidence(cs[..|cs| - 1]) + multiset(cs[|cs| - 1].evidence)
  {
  }

  lemma {:induction false} PagesEvidence(vs: seq<EvaluationInput>)
    requires ForPages(vs).Ok?
    ensures AllEvidence(ForPages(vs).value) == multiset(Pairs(vs))
  {
    if vs != [] {
      var before, last := vs[..|vs| - 1], vs[|vs| - 1];
      PagesEvidence(before);
      var c := ForPage(last, SeverityFor(RULE, 1, 1).value);
      EvidenceJoins(ForPages(before).value, [c]);
      SingleEvidence(c);
      assert multiset(Pairs(vs)) == multiset(Pairs(before)) + multiset(PairOf(last));
    }
  }

  lemma SingleEvidence(c: Candidate)
    ensures AllEvidence([c]) == multiset(c.evidence)
  {
    assert [c][..0] == [];
    assert AllEvidence([c]) == AllEvidence([]) + multiset(c.evidence);
  }

  lemma GroupEvidence(pages: PageGroup, affected: seq<EvaluationInput>, valid: nat)
    requires PagesResult(pages, affected, valid).Ok?
    ensures AllEvidence(PagesResult(pages, affected, valid).value) == multiset(Pairs(affected))
  {
    if affected != [] && |affected| >= RULE.minAffectedUrls && valid >= RULE.minValidUrls {
      SingleEvidence(ForTemplate(pages, affected, valid, SeverityFor(RULE, |affected|, valid).value));
    } else {
      PagesEvidence(affected);
    }
  }

  /** The evidence of the groups listed. */
  function Gathered(values: seq<EvaluationInput>, order: seq<PageGroup>): multiset<Pointer> {
    if order == [] then multiset{}
    else Gathered(values, order[..|order| - 1]) + multiset(Pairs(Where(values, GainedOn(order[|order| - 1]))))
  }

  lemma {:induction false} NoindexIsGathered(values: seq<EvaluationInput>, order: seq<PageGroup>)
    ensures NoindexOf(values, order).Ok?
    ensures AllEvidence(NoindexOf(values, order).value) == Gathered(values, order)
  {
    if order != [] {
      var before, last := order[..|order| - 1], order[|order| - 1];
      NoindexIsGathered(values, before);
      GroupSucceeds(values, last);
      var affected, valid := Where(values, GainedOn(last)), |Where(values, OnPages(last))|;
      GroupEvidence(last, affected, valid);
      hide PagesResult, Where;
      EvidenceJoins(NoindexOf(values, before).value, PagesResult(last, affected, valid).value);
    }
  }

  lemma {:induction false} GatheredOfNone(order: seq<PageGroup>)
    ensures Gathered([], order) == multiset{}
  {
    if order != [] {
      GatheredOfNone(order[..|order| - 1]);
      assert Pairs([]) == [];
    }
  }

  /** What one checkpoint adds to the evidence of groups it belongs to. */
  function Share(v: EvaluationInput, counted: bool): multiset<Pointer> {
    if GainsNoindex(v) && counted then multiset(PairOf(v)) else multiset{}
  }

  /** What the evidence of the groups listed has in all, split at the last group. */
  lemma GatheredSplit(values: seq<EvaluationInput>, order: seq<PageGroup>)
    requires order != []
    ensures Gathered(values, order)
         == Gathered(values, order[..|order| - 1]) + multiset(Pairs(Where(values, GainedOn(order[|order| - 1]))))
  {
  }

  lemma {:induction false} GatheredStep(values: seq<EvaluationInput>, order: seq<PageGroup>)
    requires values != [] && Distinct(order)
    ensures var v := values[|values| - 1];
      Gathered(values, order) == Gathered(values[..|values| - 1], order) + Share(v, PagesOf(v) in order)
    decreases |order|
  {
    var v, rest := values[|values| - 1], values[..|values| - 1];
    hide Where, Pairs, Share, PairOf, PagesOf, GainsNoindex;
    if order == [] {
      NoShare(v);
    } else {
      var before, last := order[..|order| - 1], order[|order| - 1];
      GatheredStep(values, before);
      LastApart(order, PagesOf(v));
      PairsOfGroupStep(values, last);
      SharesAdd(v, PagesOf(v) in before, PagesOf(v) == last);
      GatheredSplit(values, order);
      GatheredSplit(rest, order);
      hide Gathered;
      Regroup(Gathered(rest, before), Share(v, PagesOf(v) in before),
              multiset(Pairs(Where(rest, GainedOn(last)))), Share(v, PagesOf(v) == last));
    }
  }

  lemma PairsOfGroupStep(values: seq<EvaluationInput>, pages: PageGroup)
    requires values != []
    ensures var v := values[|values| - 1];
      multiset(Pairs(Where(values, GainedOn(pages))))
      == multiset(Pairs(Where(values[..|values| - 1], GainedOn(pages)))) + Share(v, PagesOf(v) == pages)
  {
    PairsStep(values, GainedOn(pages), PagesOf(values[|values| - 1]) == pages);
  }

  lemma LastApart(order: seq<PageGroup>, pages: PageGroup)
    requires order != [] && Distinct(order)
    ensures var before, last := order[..|order| - 1], order[|order| - 1];
      last !in before && (pages in order <==> pages in before || pages == last)
  {
    assert order == order[..|order| - 1] + [order[|order| - 1]];
  }

  lemma Regroup<T>(a: multiset<T>, b: multiset<T>, c: multiset<T>, d: multiset<T>)
    ensures (a + b) + (c + d) == (a + c) + (b + d)
  {
  }

  lemma NoShare(v: EvaluationInput)
    ensures Share(v, false) == multiset{}
  {
  }

  lemma SharesAdd(v: EvaluationInput, a: bool, b: bool)
    requires !(a && b)
    ensures Share(v, a) + Share(v, b) == Share(v, a || b)
  {
  }

  lemma PairsStep(values: seq<EvaluationInput>, test: Test, counted: bool)
    requires values != [] && (Holds(test, values[|values| - 1]) <==> GainsNoindex(values[|values| - 1]) && counted)
    ensures multiset(Pairs(Where(values, test)))
         == multiset(Pairs(Where(values[..|values| - 1], test))) + Share(values[|values| - 1], counted)
  {
    hide GainsNoindex, PairOf, Holds;
    var v, kept := values[|values| - 1], Where(values[..|values| - 1], test);
    if Holds(test, v) {
      assert (kept + [v])[..|kept|] == kept;
    } else {
      assert Where(values, test) == kept;
    }
  }

  lemma {:induction false} GatheredIsAllGained(values: seq<EvaluationInput>, order: seq<PageGroup>)
    requires Distinct(order) && forall v :: v in values && GainsNoindex(v) ==> PagesOf(v) in order
    ensures Gathered(values, order) == multiset(Pairs(Where(values, GainedNoindex)))
    decreases |values|
  {
    hide Gathered, PairOf, GainsNoindex, PagesOf;
    if values == [] {
      GatheredOfNone(order);
      assert Pairs([]) == [];
    } else {
      var rest, v := values[..|values| - 1], values[|values| - 1];
      assert v in values;
      forall x | x in rest
        ensures x in values
      {
      }
      GatheredIsAllGained(rest, order);
      GatheredStep(values, order);
      PairsStep(values, GainedNoindex, true);
      hide Where, Pairs;
      assert Share(v, PagesOf(v) in order) == Share(v, true);
    }
  }

  lemma GainedIsListed(values: seq<EvaluationInput>, v: EvaluationInput)
    requires v in values && GainsNoindex(v)
    ensures Where(values, GainedOn(PagesOf(v))) != []
  {
    WhereMembers(values, GainedOn(PagesOf(v)));
    hide Where;
    assert v in Where(values, GainedOn(PagesOf(v)));
  }

  /**
    Whether pages are reported together or one by one, the evidence of all noindex candidates is the
    before and after checkpoint of every affected page, each exactly as often as the page occurs.
  */
  lemma EachAffectedPageIsReportedOnce(values: seq<EvaluationInput>, order: seq<PageGroup>)
    requires ListsGained(values, order)
    ensures NoindexOf(values, order).Ok?
    ensures AllEvidence(NoindexOf(values, order).value) == multiset(Pairs(Where(values, GainedNoindex)))
  {
    hide NoindexOf, AllEvidence, Gathered, Pairs, GainsNoindex, Distinct, PagesOf;
    forall v | v in values && GainsNoindex(v)
      ensures PagesOf(v) in order
    {
      GainedIsListed(values, v);
    }
    hide Where;
    NoindexIsGathered(values, order);
    GatheredIsAllGained(values, order);
  }

  /** A group of at least two affected pages is critical and reported once; any other page is medium. */
  lemma NoindexSeverity(pages: PageGroup, affected: seq<EvaluationInput>, valid: nat)
    requires |affected| <= valid && PagesResult(pages, affected, valid).Ok?
    ensures var out := PagesResult(pages, affected, valid).value;
      if |affected| >= 2 then
        |out| == 1 && out[0].severity == Some(Critical) && out[0].affectedUrls == |affected| && out[0].validUrls == valid
      else |out| == |affected| && forall c :: c in out ==> c.severity == Some(Medium) && c.affectedUrls == 1
  {
    if |affected| < 2 {
      if |affected| == 1 {
        assert affected[..0] == [] && ForPages([]) == Ok([]);
      }
    }
  }

  // ---------------------------------------------------------------- the whole window

  /** A checkpoint with whether its window had completed. */
  datatype WindowInput = WindowInput(value: EvaluationInput, complete: bool)

  datatype WindowResult = EmptyWindow | IncompleteWindow | NoValidRuns | Evaluated(candidates: Result<seq<Candidate>>)

  predicate Usable(v: EvaluationInput) {
    Evaluator.InvalidReason(v).None? && Evaluator.PartSkips(v, Evaluator.PARTS) == []
  }

  function UsableOf(values: seq<WindowInput>): seq<EvaluationInput> {
    if values == [] then []
    else
      var last := values[|values| - 1].value;
      UsableOf(values[..|values| - 1]) + if Usable(last) then [last] else []
  }

  function Together(a: Result<seq<Candidate>>, b: Result<seq<Candidate>>): Result<seq<Candidate>> {
    var x :- a;
    var y :- b;
    Ok(x + y)
  }

  /** What the evaluation of a window returns, with the groups in the order in which they occurred. */
  ghost predicate Evaluates(values: seq<WindowInput>, r: WindowResult, pages: seq<PageGroup>, slots: seq<GroupKey>) {
    && (r == EmptyWindow <==> values == [])
    && (r == IncompleteWindow <==> exists v :: v in values && !v.complete)
    && (r == NoValidRuns <==> values != [] && (forall v :: v in values ==> v.complete) && UsableOf(values) == [])
    && (r.Evaluated? ==>
          && ListsGained(UsableOf(values), pages) && FirstCome(pages, UsableOf(values))
          && GptWindow.NoRepeats(slots) && GptWindow.FirstCome(slots, UsableOf(values))
          && (forall key :: key in slots <==> Where(UsableOf(values), InGroup(key)) != [])
          && r.candidates == Together(NoindexOf(UsableOf(values), pages), GptWindow.Collected(UsableOf(values), slots)))
  }

  method EvaluateWindow(values: seq<WindowInput>) returns (r: WindowResult, pages: seq<PageGroup>, slots: seq<GroupKey>)
    ensures Evaluates(values, r, pages, slots)
  {
    pages, slots := [], [];
    if values == [] {
      return EmptyWindow, pages, slots;
    }
    var complete := AllComplete(values);
    if !complete {
      return IncompleteWindow, pages, slots;
    }
    var usable := SelectUsable(values);
    if usable == [] {
      return NoValidRuns, pages, slots;
    }
    hide UsableOf, Where, ListsGained, NoindexOf, GptWindow.Collected, GptWindow.NoRepeats, FirstCome, GptWindow.FirstCome;
    var noindex, gpt;
    noindex, pages := NoindexWindowCandidates(usable);
    gpt, slots := GptWindow.GptWindowCandidates(usable);
    if noindex.Err? {
      return Evaluated(Err(noindex.error)), pages, slots;
    }
    if gpt.Err? {
      return Evaluated(Err(gpt.error)), pages, slots;
    }
    return Evaluated(Ok(noindex.value + gpt.value)), pages, slots;
  }

  method AllComplete(values: seq<WindowInput>) returns (complete: bool)
    ensures complete <==> forall v :: v in values ==> v.complete
  {
    for i := 0 to |values|
      invariant forall k :: 0 <= k < i ==> values[k].complete
    {
      if !values[i].complete {
        assert values[i] in values;
        return false;
      }
    }
    return true;
  }

  method SelectUsable(values: seq<WindowInput>) returns (usable: seq<EvaluationInput>)
    ensures usable == UsableOf(values)
  {
    usable := [];
    for i := 0 to |values|
      invariant usable == UsableOf(values[..i])
    {
      assert values[..i + 1][..i] == values[..i];
      var skips := Evaluator.ComponentSkipReasons(values[i].value, Evaluator.PARTS);
      if Evaluator.InvalidReason(values[i].value).None? && skips == [] {
        usable := usable + [values[i].value];
      }
    }
    assert values[..|values|] == values;
  }

  /** A checkpoint is used exactly when both sides are valid, in order, and every component compares. */
  lemma UsedExactly(v: EvaluationInput)
    ensures Usable(v) <==> Evaluator.Usable(v) && forall p: ComponentName :: Evaluator.SamePart(v, p)
  {
    Evaluator.SkipReasonsAreExact(v, ScriptsPart);
    hide Evaluator.PartSkips, Evaluator.InvalidReason;
  }

  /** Each checkpoint of the window is used as often as it occurs, if it is usable, and in the order of the window. */
  lemma UsedCheckpoints(values: seq<WindowInput>, v: EvaluationInput)
    ensures multiset(UsableOf(values))[v] ==
      if Evaluator.Usable(v) && (forall p: ComponentName :: Evaluator.SamePart(v, p))
      then multiset(values)[WindowInput(v, true)] + multiset(values)[WindowInput(v, false)] else 0
  {
    UsedExactly(v);
    UsableCounts(values, v);
    hide Usable, UsableOf, Evaluator.Usable, Evaluator.SamePart;
  }

  lemma {:induction false} UsableCounts(values: seq<WindowInput>, v: EvaluationInput)
    ensures multiset(UsableOf(values))[v] ==
      if Usable(v) then multiset(values)[WindowInput(v, true)] + multiset(values)[WindowInput(v, false)] else 0
  {
    if values != [] {
      hide Usable;
      UsableCounts(values[..|values| - 1], v);
      assert values == values[..|values| - 1] + [values[|values| - 1]];
    }
  }

  /** With one run per URL and scenario a complete window is evaluated without raising, from its valid runs alone. */
  lemma CompleteWindowSucceeds(values: seq<WindowInput>, pages: seq<PageGroup>, slots: seq<GroupKey>)
    requires GptTheorems.OneRunPerUrl(UsableOf(values)) && ListsGained(UsableOf(values), pages)
    ensures Together(NoindexOf(UsableOf(values), pages), GptWindow.Collected(UsableOf(values), slots)).Ok?
  {
    EachAffectedPageIsReportedOnce(UsableOf(values), pages);
    GptTheorems.CollectionSucceeds(UsableOf(values), slots);
  }
}
