/** The JavaScript-error part of the checkpoint evaluator. */
module Evaluator {
  import opened Contracts
  import opened EventStore
  import opened Names

  datatype Skip =
    | NonExactUrlLineage
    | InvalidCheckpointStatus
    | UnorderedObservationTime
    | MissingState(part: ComponentName)
    | IncompatibleNormalizer(part: ComponentName)

  predicate ValidStatus(status: RunStatus) {
    status == Complete || status == Partial
  }

  function InvalidReason(v: EvaluationInput): Option<Skip> {
    if v.selection != ExactMonitoredUrl then Some(NonExactUrlLineage)
    else if !ValidStatus(v.previousStatus) || !ValidStatus(v.currentStatus) then Some(InvalidCheckpointStatus)
    else if v.currentAt <= v.previousAt then Some(UnorderedObservationTime)
    else None
  }

  const PARTS := [ScriptsPart, NetworkPart, JavascriptPart, SeoPart]

  predicate Comparable(before: PageState, after: PageState, part: ComponentName) {
    part in before && part in after && before[part].normalizer == after[part].normalizer
  }

  function PartSkip(v: EvaluationInput, part: ComponentName): seq<Skip> {
    if part !in v.previousState || part !in v.currentState then [MissingState(part)]
    else if !Comparable(v.previousState, v.currentState, part) then [IncompatibleNormalizer(part)]
    else []
  }

  function PartSkips(v: EvaluationInput, parts: seq<ComponentName>): seq<Skip> {
    if parts == [] then [] else PartSkips(v, parts[..|parts| - 1]) + PartSkip(v, parts[|parts| - 1])
  }

  function Items(state: PageState, part: ComponentName): set<Name> {
    if part in state then state[part].items else {}
  }

  function PriorErrors(v: EvaluationInput): set<Name> {
    if v.prior.Some? then Items(v.prior.value.state, JavascriptPart) else {}
  }

  predicate PriorComparable(v: EvaluationInput) {
    && v.prior.Some?
    && ValidStatus(v.prior.value.status)
    && v.prior.value.observedAt < v.previousAt
    && Comparable(v.prior.value.state, v.previousState, JavascriptPart)
  }

  function ExactScope(v: EvaluationInput): RawScope {
    map[ScenarioKey := Some(v.scenario), TemplateKey := Some(v.template), UrlKey := Some(v.url)]
  }

  function JsCandidate(v: EvaluationInput, f: Name, action: Action, after: Time, before: Time, evidence: seq<Pointer>): Candidate {
    Candidate(JsErrorStarted, f, action, Some(RuleOf(JsErrorStarted).defaultSeverity), ExactScope(v),
              Some(after), Some(before), Some(v.currentAt), evidence, 1, 1)
  }

  function Unconfirmed(v: EvaluationInput, f: Name): Candidate {
    JsCandidate(v, f, Pending, v.previousAt, v.currentAt, [At(v.previousRun, Before), At(v.currentRun, After)])
  }

  function Confirmed(v: EvaluationInput, f: Name): Candidate {
    if PriorComparable(v) && f !in PriorErrors(v) then
      JsCandidate(v, f, Upsert, v.prior.value.observedAt, v.previousAt,
                  [At(v.prior.value.run, TriggerBefore), At(v.previousRun, TriggerAfter),
                   At(v.currentRun, Relation.Supporting)])
    else
      JsCandidate(v, f, Support, v.previousAt, v.currentAt, [At(v.currentRun, Relation.Supporting)])
  }

  function Gone(v: EvaluationInput, f: Name): Candidate {
    JsCandidate(v, f, Resolve, v.previousAt, v.currentAt, [At(v.currentRun, Recovery)])
  }

  datatype Change = Appeared | Kept | Went

  function Tell(v: EvaluationInput, change: Change, f: Name): Candidate {
    match change
    case Appeared => Unconfirmed(v, f)
    case Kept => Confirmed(v, f)
    case Went => Gone(v, f)
  }

  function TellAll(v: EvaluationInput, change: Change, names: seq<Name>): seq<Candidate> {
    if names == [] then []
    else TellAll(v, change, names[..|names| - 1]) + [Tell(v, change, names[|names| - 1])]
  }

  ghost function Changed(v: EvaluationInput, change: Change): seq<Name> {
    var previous, current := Items(v.previousState, JavascriptPart), Items(v.currentState, JavascriptPart);
    match change
    case Appeared => Sorted(current - previous)
    case Kept => Sorted(current * previous)
    case Went => Sorted(previous - current)
  }

  ghost function JsCandidates(v: EvaluationInput): seq<Candidate> {
    TellAll(v, Appeared, Changed(v, Appeared)) + TellAll(v, Kept, Changed(v, Kept)) + TellAll(v, Went, Changed(v, Went))
  }

  ghost function Evaluate(v: EvaluationInput): seq<Candidate> {
    if InvalidReason(v).Some? || PartSkips(v, PARTS) != [] then [] else JsCandidates(v)
  }

  method ComponentSkipReasons(v: EvaluationInput, parts: seq<ComponentName>) returns (skips: seq<Skip>)
    ensures skips == PartSkips(v, parts)
  {
    skips := [];
    for i := 0 to |parts|
      invariant skips == PartSkips(v, parts[..i])
    {
      var p := parts[i];
      assert parts[..i + 1][..i] == parts[..i];
      if p !in v.previousState || p !in v.currentState {
        skips := skips + [MissingState(p)];
      } else if v.previousState[p].normalizer != v.currentState[p].normalizer {
        skips := skips + [IncompatibleNormalizer(p)];
      }
    }
    assert parts[..|parts|] == parts;
  }

  method EvaluateJavascript(v: EvaluationInput) returns (out: seq<Candidate>, skips: seq<Skip>)
    ensures out == Evaluate(v)
    ensures skips == if InvalidReason(v).Some? then [InvalidReason(v).value] else PartSkips(v, PARTS)
  {
    out := [];
    var reason := InvalidReason(v);
    if reason.Some? {
      return [], [reason.value];
    }
    skips := ComponentSkipReasons(v, PARTS);
    if skips == [] {
      out := AppendJsCandidates(v);
    }
  }

  method AppendJsCandidates(v: EvaluationInput) returns (out: seq<Candidate>)
    ensures out == JsCandidates(v)
  {
    hide Items, TellAll;
    var previous, current := Items(v.previousState, JavascriptPart), Items(v.currentState, JavascriptPart);
    var appeared := Sort(current - previous);
    out := AppendAppeared(v, [], appeared);
    var kept := Sort(current * previous);
    out := AppendKept(v, out, kept);
    var went := Sort(previous - current);
    out := AppendWent(v, out, went);
  }

  method AppendAppeared(v: EvaluationInput, before: seq<Candidate>, names: seq<Name>) returns (out: seq<Candidate>)
    ensures out == before + TellAll(v, Appeared, names)
  {
    out := before;
    for i := 0 to |names|
      invariant out == before + TellAll(v, Appeared, names[..i])
    {
      assert names[..i + 1][..i] == names[..i];
      out := out + [JsCandidate(v, names[i], Pending, v.previousAt, v.currentAt,
                                [At(v.previousRun, Before), At(v.currentRun, After)])];
    }
    assert names[..|names|] == names;
  }

  method AppendKept(v: EvaluationInput, before: seq<Candidate>, names: seq<Name>) returns (out: seq<Candidate>)
    ensures out == before + TellAll(v, Kept, names)
  {
    out := before;
    for i := 0 to |names|
      invariant out == before + TellAll(v, Kept, names[..i])
    {
      assert names[..i + 1][..i] == names[..i];
      if PriorComparable(v) && names[i] !in PriorErrors(v) {
        var prior := v.prior.value;
        out := out + [JsCandidate(v, names[i], Upsert, prior.observedAt, v.previousAt,
                                  [At(prior.run, TriggerBefore), At(v.previousRun, TriggerAfter),
                                   At(v.currentRun, Relation.Supporting)])];
      } else {
        out := out + [JsCandidate(v, names[i], Support, v.previousAt, v.currentAt,
                                  [At(v.currentRun, Relation.Supporting)])];
      }
    }
    assert names[..|names|] == names;
  }

  method AppendWent(v: EvaluationInput, before: seq<Candidate>, names: seq<Name>) returns (out: seq<Candidate>)
    ensures out == before + TellAll(v, Went, names)
  {
    out := before;
    for i := 0 to |names|
      invariant out == before + TellAll(v, Went, names[..i])
    {
      assert names[..i + 1][..i] == names[..i];
      out := out + [JsCandidate(v, names[i], Resolve, v.previousAt, v.currentAt, [At(v.currentRun, Recovery)])];
    }
    assert names[..|names|] == names;
  }

  function AnchorOf(v: EvaluationInput): Anchor {
    Anchor(v.tenant, v.site, Some(v.previousRun), v.currentRun, Some(v.previousAt), v.currentAt)
  }

  /** What a fingerprint's presence in the three checkpoints makes the evaluator say about it. */
  predicate Speaks(v: EvaluationInput, f: Name, c: Candidate) {
    var before, now := f in Items(v.previousState, JavascriptPart), f in Items(v.currentState, JavascriptPart);
    && (now && !before ==> c == Unconfirmed(v, f))
    && (now && before ==> c == Confirmed(v, f))
    && (!now && before ==> c == Gone(v, f))
    && (now || before)
  }

  lemma {:induction false} TellAllAt(v: EvaluationInput, change: Change, names: seq<Name>)
    ensures |TellAll(v, change, names)| == |names|
    ensures forall i :: 0 <= i < |names| ==> TellAll(v, change, names)[i] == Tell(v, change, names[i])
  {
    if names != [] {
      TellAllAt(v, change, names[..|names| - 1]);
    }
  }

  lemma CandidateAt(v: EvaluationInput, i: nat) returns (change: Change, k: nat)
    requires i < |JsCandidates(v)|
    ensures k < |Changed(v, change)| && JsCandidates(v)[i] == Tell(v, change, Changed(v, change)[k])
    ensures i == k + (if change == Appeared then 0 else if change == Kept then |Changed(v, Appeared)|
                      else |Changed(v, Appeared)| + |Changed(v, Kept)|)
  {
    TellAllAt(v, Appeared, Changed(v, Appeared));
    TellAllAt(v, Kept, Changed(v, Kept));
    TellAllAt(v, Went, Changed(v, Went));
    var a, b := |Changed(v, Appeared)|, |Changed(v, Kept)|;
    if i < a {
      change, k := Appeared, i;
    } else if i < a + b {
      change, k := Kept, i - a;
    } else {
      change, k := Went, i - a - b;
    }
  }

  /** Each candidate says what its fingerprint's presence calls for, and no two speak of the same one. */
  lemma CandidatesSpeak(v: EvaluationInput)
    ensures forall i :: 0 <= i < |JsCandidates(v)| ==> Speaks(v, JsCandidates(v)[i].subject, JsCandidates(v)[i])
    ensures forall i, j :: 0 <= i < j < |JsCandidates(v)| ==> JsCandidates(v)[i].subject != JsCandidates(v)[j].subject
  {
    var cs := JsCandidates(v);
    forall i | 0 <= i < |cs|
      ensures Speaks(v, cs[i].subject, cs[i])
    {
      var change, k := CandidateAt(v, i);
      assert Changed(v, change)[k] in Changed(v, change);
    }
    forall i, j | 0 <= i < j < |cs|
      ensures cs[i].subject != cs[j].subject
    {
      var ci, ki := CandidateAt(v, i);
      var cj, kj := CandidateAt(v, j);
      assert Changed(v, ci)[ki] in Changed(v, ci) && Changed(v, cj)[kj] in Changed(v, cj);
    }
  }

  /** First what has appeared, then what persists, then what has gone, fingerprints increasing. */
  lemma CandidatesAreSorted(v: EvaluationInput, i: nat, j: nat)
    requires i < j < |JsCandidates(v)|
    ensures var f, g := JsCandidates(v)[i].subject, JsCandidates(v)[j].subject;
      Stage(v, f) < Stage(v, g) || (Stage(v, f) == Stage(v, g) && f < g)
  {
    var a, k := CandidateAt(v, i);
    var b, l := CandidateAt(v, j);
    assert Changed(v, a)[k] in Changed(v, a) && Changed(v, b)[l] in Changed(v, b);
  }

  function Stage(v: EvaluationInput, f: Name): nat {
    if f !in Items(v.previousState, JavascriptPart) then 0 else if f in Items(v.currentState, JavascriptPart) then 1 else 2
  }

  /** Every fingerprint seen now or before has its candidate. */
  lemma EveryFingerprintSpoken(v: EvaluationInput, f: Name) returns (i: nat)
    requires f in Items(v.previousState, JavascriptPart) || f in Items(v.currentState, JavascriptPart)
    ensures i < |JsCandidates(v)| && JsCandidates(v)[i].subject == f
  {
    hide TellAll;
    TellAllAt(v, Appeared, Changed(v, Appeared));
    TellAllAt(v, Kept, Changed(v, Kept));
    TellAllAt(v, Went, Changed(v, Went));
    var a, b := |Changed(v, Appeared)|, |Changed(v, Kept)|;
    if f !in Items(v.previousState, JavascriptPart) {
      assert f in Changed(v, Appeared);
      var k :| 0 <= k < a && Changed(v, Appeared)[k] == f;
      i := k;
    } else if f in Items(v.currentState, JavascriptPart) {
      assert f in Changed(v, Kept);
      var k :| 0 <= k < b && Changed(v, Kept)[k] == f;
      i := a + k;
    } else {
      assert f in Changed(v, Went);
      var k :| 0 <= k < |Changed(v, Went)| && Changed(v, Went)[k] == f;
      i := a + b + k;
    }
  }

  // ---------------------------------------------------------------- candidates and skip reasons, spelled out

  predicate Listed(state: PageState, f: Name) {
    JavascriptPart in state && f in state[JavascriptPart].items
  }

  /** The checkpoint before the previous one is comparable with it and did not list the fingerprint. */
  predicate AbsentBefore(v: EvaluationInput, f: Name) {
    && v.prior.Some?
    && var p := v.prior.value;
       && (p.status == Complete || p.status == Partial) && p.observedAt < v.previousAt
       && JavascriptPart in p.state && JavascriptPart in v.previousState
       && p.state[JavascriptPart].normalizer == v.previousState[JavascriptPart].normalizer
       && f !in p.state[JavascriptPart].items
  }

  /** Action, time bounds and evidence of a candidate. */
  predicate Says(c: Candidate, action: Action, after: Time, before: Time, evidence: seq<Pointer>) {
    c.action == action && c.occurredAfter == Some(after) && c.occurredBefore == Some(before) && c.evidence == evidence
  }

  /**
    Every candidate is about one page's fingerprint, of medium severity: pending when it has just appeared,
    opening when it was absent before and has now been seen twice, supporting when it merely persists, and
    resolving when it has gone.
  */
  lemma CandidateIsSpelledOut(v: EvaluationInput, i: nat)
    requires i < |JsCandidates(v)|
    ensures var c := JsCandidates(v)[i]; var f := c.subject;
      && c.code == JsErrorStarted && c.severity == Some(Medium) && c.detectedAt == Some(v.currentAt)
      && c.affectedUrls == 1 && c.validUrls == 1
      && c.scope == map[TemplateKey := Some(v.template), ScenarioKey := Some(v.scenario), UrlKey := Some(v.url)]
      && (Listed(v.previousState, f) || Listed(v.currentState, f))
      && if !Listed(v.previousState, f) then
           Says(c, Pending, v.previousAt, v.currentAt, [At(v.previousRun, Before), At(v.currentRun, After)])
         else if !Listed(v.currentState, f) then
           Says(c, Resolve, v.previousAt, v.currentAt, [At(v.currentRun, Recovery)])
         else if AbsentBefore(v, f) then
           Says(c, Upsert, v.prior.value.observedAt, v.previousAt,
                [At(v.prior.value.run, TriggerBefore), At(v.previousRun, TriggerAfter), At(v.currentRun, Relation.Supporting)])
         else Says(c, Action.Support, v.previousAt, v.currentAt, [At(v.currentRun, Relation.Supporting)])
  {
    CandidatesSpeak(v);
    hide JsCandidates;
    assert Speaks(v, JsCandidates(v)[i].subject, JsCandidates(v)[i]);
  }

  /** Both checkpoints completed at least partly, in order, at exactly the monitored URL. */
  predicate Usable(v: EvaluationInput) {
    && v.selection == ExactMonitoredUrl
    && (v.previousStatus == Complete || v.previousStatus == Partial) && (v.currentStatus == Complete || v.currentStatus == Partial)
    && v.previousAt < v.currentAt
  }

  /** Each reason is given exactly when it holds; the first that makes the pair unusable is given alone. */
  lemma SkipReasonsAreExact(v: EvaluationInput, part: ComponentName)
    ensures InvalidReason(v).None? <==> Usable(v)
    ensures InvalidReason(v) == Some(NonExactUrlLineage) <==> v.selection != ExactMonitoredUrl
    ensures InvalidReason(v) == Some(UnorderedObservationTime) <==>
      v.currentAt <= v.previousAt && Usable(v.(previousAt := 0, currentAt := 1))
    ensures MissingState(part) in PartSkips(v, PARTS) <==> part !in v.previousState || part !in v.currentState
    ensures IncompatibleNormalizer(part) in PartSkips(v, PARTS) <==>
      part in v.previousState && part in v.currentState && v.previousState[part].normalizer != v.currentState[part].normalizer
    ensures PartSkips(v, PARTS) == [] <==>
      forall p: ComponentName :: SamePart(v, p)
    ensures Evaluate(v) == if Usable(v) && (forall p: ComponentName :: SamePart(v, p)) then JsCandidates(v) else []
  {
    hide PartSkips, JsCandidates;
    PartIsListed(part);
    NoSkips(v, PARTS);
    SkipMembers(v, PARTS, MissingState(part));
    SkipMembers(v, PARTS, IncompatibleNormalizer(part));
    forall p: ComponentName
      ensures p in PARTS
      ensures PartSkip(v, p) == [] <==> SamePart(v, p)
    {
      PartIsListed(p);
    }
  }

  /** The component is in both checkpoints, by one normalizer. */
  predicate SamePart(v: EvaluationInput, p: ComponentName) {
    p in v.previousState && p in v.currentState && v.previousState[p].normalizer == v.currentState[p].normalizer
  }

  lemma PartIsListed(part: ComponentName)
    ensures part in PARTS
  {
    match part
    case ScriptsPart => assert PARTS[0] == part;
    case NetworkPart => assert PARTS[1] == part;
    case JavascriptPart => assert PARTS[2] == part;
    case SeoPart => assert PARTS[3] == part;
  }

  lemma LastPart(parts: seq<ComponentName>, p: ComponentName)
    requires parts != []
    ensures p in parts <==> p in parts[..|parts| - 1] || p == parts[|parts| - 1]
  {
    assert parts == parts[..|parts| - 1] + [parts[|parts| - 1]];
  }

  lemma {:induction false} NoSkips(v: EvaluationInput, parts: seq<ComponentName>)
    ensures PartSkips(v, parts) == [] <==> forall p :: p in parts ==> PartSkip(v, p) == []
  {
    hide PartSkip;
    if parts != [] {
      NoSkips(v, parts[..|parts| - 1]);
      forall p
        ensures p in parts <==> p in parts[..|parts| - 1] || p == parts[|parts| - 1]
      {
        LastPart(parts, p);
      }
    }
  }

  lemma {:induction false} SkipMembers(v: EvaluationInput, parts: seq<ComponentName>, x: Skip)
    requires x.MissingState? || x.IncompatibleNormalizer?
    ensures x in PartSkips(v, parts) <==> x.part in parts && x in PartSkip(v, x.part)
  {
    if parts != [] {
      SkipMembers(v, parts[..|parts| - 1], x);
      LastPart(parts, x.part);
    }
  }
}
