/** Requests of a page counted once per dependency and once per dependency and consent phase. */
module RequestTotals {
  import opened Contracts

  /** `errorLength` is the length of the error text; a URL without an identity is skipped. */
  datatype Observation = Observation(identity: Option<Name>, errorLength: Option<nat>, status: Option<int>, at: Option<int>)

  // ---------------------------------------------------------------- per dependency

  datatype Totals = Totals(requests: nat, failures: nat, s2: nat, s3: nat, s4: nat, s5: nat, statuses: multiset<int>)

  const NO_TOTALS := Totals(0, 0, 0, 0, 0, 0, multiset{})

  function One(b: bool): nat {
    if b then 1 else 0
  }

  function WithRequest(t: Totals, o: Observation): Totals {
    var counted := t.(requests := t.requests + 1,
                      failures := t.failures + One(o.errorLength.Some? && o.errorLength.value > 0));
    if o.status.None? then counted
    else
      var family := o.status.value / 100;
      counted.(s2 := t.s2 + One(family == 2), s3 := t.s3 + One(family == 3),
               s4 := t.s4 + One(family == 4), s5 := t.s5 + One(family == 5),
               statuses := t.statuses + multiset{o.status.value})
  }

  function NetworkOf(os: seq<Observation>, key: Name): Option<Totals> {
    if os == [] then None
    else
      var before, last := NetworkOf(os[..|os| - 1], key), os[|os| - 1];
      if last.identity == Some(key) then Some(WithRequest(before.Or(NO_TOTALS), last)) else before
  }

  method NormalizeNetwork(os: seq<Observation>) returns (aggregates: map<Name, Totals>)
    ensures forall key :: key in aggregates <==> NetworkOf(os, key).Some?
    ensures forall key :: key in aggregates ==> Some(aggregates[key]) == NetworkOf(os, key)
  {
    hide WithRequest;
    aggregates := map[];
    for i := 0 to |os|
      invariant forall key :: key in aggregates <==> NetworkOf(os[..i], key).Some?
      invariant forall key :: key in aggregates ==> Some(aggregates[key]) == NetworkOf(os[..i], key)
    {
      assert os[..i + 1][..i] == os[..i];
      var item := os[i];
      if item.identity.None? {
        continue;
      }
      var key := item.identity.value;
      if key !in aggregates {
        aggregates := aggregates[key := NO_TOTALS];
      }
      var state := CountRequest(aggregates[key], item);
      aggregates := aggregates[key := state];
    }
    assert os[..|os|] == os;
  }

  method CountRequest(before: Totals, item: Observation) returns (state: Totals)
    ensures state == WithRequest(before, item)
  {
    state := before.(requests := before.requests + 1);
    if item.errorLength.Some? && item.errorLength.value > 0 {
      state := state.(failures := state.failures + 1);
    }
    if item.status.Some? {
      var family := item.status.value / 100;
      if family == 2 {
        state := state.(s2 := state.s2 + 1);
      } else if family == 3 {
        state := state.(s3 := state.s3 + 1);
      } else if family == 4 {
        state := state.(s4 := state.s4 + 1);
      } else if family == 5 {
        state := state.(s5 := state.s5 + 1);
      }
      state := state.(statuses := state.statuses + multiset{item.status.value});
    }
  }

  // ---------------------------------------------------------------- per dependency and consent phase

  datatype Phase = PreConsent | PostAccept | PostReject

  datatype PhaseKey = PhaseKey(phase: Phase, key: Name)

  datatype PhaseTotals = PhaseTotals(requests: nat, errors: nat, first: Option<int>)

  function PostPhase(rejected: bool): Phase {
    if rejected then PostReject else PostAccept
  }

  function PhaseOf(o: Observation, boundary: Option<int>, rejected: bool): Phase {
    if boundary.Some? && o.at.Some? && o.at.value >= boundary.value then PostPhase(rejected) else PreConsent
  }

  predicate IsError(o: Observation) {
    o.errorLength.Some? || (o.status.Some? && o.status.value >= 400)
  }

  function Earlier(first: Option<int>, at: Option<int>): Option<int> {
    if at.Some? && (first.None? || at.value < first.value) then at else first
  }

  function WithPhaseRequest(t: PhaseTotals, o: Observation): PhaseTotals {
    PhaseTotals(t.requests + 1, t.errors + One(IsError(o)), Earlier(t.first, o.at))
  }

  function ConsentOf(os: seq<Observation>, boundary: Option<int>, rejected: bool, key: PhaseKey): Option<PhaseTotals> {
    if os == [] then None
    else
      var before, last := ConsentOf(os[..|os| - 1], boundary, rejected, key), os[|os| - 1];
      if last.identity == Some(key.key) && PhaseOf(last, boundary, rejected) == key.phase
      then Some(WithPhaseRequest(before.Or(PhaseTotals(0, 0, last.at)), last))
      else before
  }

  method SummarizeConsentDependencies(os: seq<Observation>, boundary: Option<int>, rejected: bool)
    returns (aggregates: map<PhaseKey, PhaseTotals>)
    ensures forall key :: key in aggregates <==> ConsentOf(os, boundary, rejected, key).Some?
    ensures forall key :: key in aggregates ==> Some(aggregates[key]) == ConsentOf(os, boundary, rejected, key)
  {
    hide WithPhaseRequest;
    aggregates := map[];
    var postPhase := if rejected then PostReject else PostAccept;
    for i := 0 to |os|
      invariant forall key :: key in aggregates <==> ConsentOf(os[..i], boundary, rejected, key).Some?
      invariant forall key :: key in aggregates ==> Some(aggregates[key]) == ConsentOf(os[..i], boundary, rejected, key)
    {
      assert os[..i + 1][..i] == os[..i];
      var o := os[i];
      if o.identity.None? {
        continue;
      }
      var phase := if boundary.Some? && o.at.Some? && o.at.value >= boundary.value then postPhase else PreConsent;
      var key := PhaseKey(phase, o.identity.value);
      if key !in aggregates {
        aggregates := aggregates[key := PhaseTotals(0, 0, o.at)];
      }
      var state := CountPhaseRequest(aggregates[key], o);
      aggregates := aggregates[key := state];
    }
    assert os[..|os|] == os;
  }

  method CountPhaseRequest(before: PhaseTotals, o: Observation) returns (state: PhaseTotals)
    ensures state == WithPhaseRequest(before, o)
  {
    state := before.(requests := before.requests + 1);
    if o.errorLength.Some? || (o.status.Some? && o.status.value >= 400) {
      state := state.(errors := state.errors + 1);
    }
    if o.at.Some? && (state.first.None? || o.at.value < state.first.value) {
      state := state.(first := o.at);
    }
  }

  // ---------------------------------------------------------------- what the totals count

  datatype Sort = AnyRequest | WithErrorText | StatusIn(low: int, high: int)

  predicate IsOf(o: Observation, sort: Sort) {
    match sort
    case AnyRequest => true
    case WithErrorText => o.errorLength.Some? && o.errorLength.value > 0
    case StatusIn(low, high) => o.status.Some? && low <= o.status.value < high
  }

  function Occurrences(os: seq<Observation>, key: Name, sort: Sort): nat {
    if os == [] then 0
    else
      var last := os[|os| - 1];
      Occurrences(os[..|os| - 1], key, sort) + One(last.identity == Some(key) && IsOf(last, sort))
  }

  /** Each total of a dependency is the number of its requests of that sort. */
  lemma {:induction false} TotalsAreOccurrences(os: seq<Observation>, key: Name, code: int)
    ensures var t := Whole(os, key);
      && (key in Identities(os) <==> NetworkOf(os, key).Some?)
      && t.requests == Occurrences(os, key, AnyRequest)
      && t.failures == Occurrences(os, key, WithErrorText)
      && t.s2 == Occurrences(os, key, StatusIn(200, 300)) && t.s3 == Occurrences(os, key, StatusIn(300, 400))
      && t.s4 == Occurrences(os, key, StatusIn(400, 500)) && t.s5 == Occurrences(os, key, StatusIn(500, 600))
      && t.statuses[code] == Occurrences(os, key, StatusIn(code, code + 1))
  {
    if os != [] {
      TotalsAreOccurrences(os[..|os| - 1], key, code);
      if os[|os| - 1].status.Some? {
        FamilyIsHundreds(os[|os| - 1].status.value);
      }
    }
  }

  function Identities(os: seq<Observation>): set<Name> {
    if os == [] then {}
    else Identities(os[..|os| - 1]) + if os[|os| - 1].identity.Some? then {os[|os| - 1].identity.value} else {}
  }

  // ---------------------------------------------------------------- conservation

  function Phased(os: seq<Observation>, boundary: Option<int>, rejected: bool, phase: Phase, key: Name): PhaseTotals {
    ConsentOf(os, boundary, rejected, PhaseKey(phase, key)).Or(PhaseTotals(0, 0, None))
  }

  function Whole(os: seq<Observation>, key: Name): Totals {
    NetworkOf(os, key).Or(NO_TOTALS)
  }

  /** The phases split each dependency's requests: nothing is lost and nothing counted twice. */
  lemma {:induction false} PhasesConserveRequests(os: seq<Observation>, boundary: Option<int>, rejected: bool, key: Name)
    ensures Phased(os, boundary, rejected, PreConsent, key).requests
          + Phased(os, boundary, rejected, PostPhase(rejected), key).requests == Whole(os, key).requests
    ensures Phased(os, boundary, rejected, PostPhase(!rejected), key) == PhaseTotals(0, 0, None)
  {
    if os != [] {
      PhasesConserveRequests(os[..|os| - 1], boundary, rejected, key);
    }
  }

  /** One request counts as an error in both summaries, or in neither. */
  predicate CountsAlike(o: Observation) {
    One(IsError(o)) == One(o.errorLength.Some? && o.errorLength.value > 0)
                       + One(o.status.Some? && 400 <= o.status.value < 600)
  }

  /** What the collectors record: a failure with a text and no status, or a status below 600 and no text. */
  predicate CollectorShaped(o: Observation) {
    || (o.status.None? && o.errorLength.Some? && o.errorLength.value > 0)
    || (o.errorLength.None? && o.status.Some? && o.status.value < 600)
  }

  /** Exactly when one request counts alike; what the collectors record always does. */
  lemma CountsAlikeIff(o: Observation)
    ensures CountsAlike(o) <==>
      match o.errorLength
      case None => o.status.None? || o.status.value < 600
      case Some(length) =>
        if length == 0 then o.status.Some? && 400 <= o.status.value < 600
        else o.status.None? || o.status.value < 400 || o.status.value >= 600
    ensures CollectorShaped(o) ==> CountsAlike(o)
  {
  }

  lemma FamilyIsHundreds(status: int)
    ensures status / 100 == 2 <==> 200 <= status < 300
    ensures status / 100 == 3 <==> 300 <= status < 400
    ensures status / 100 == 4 <==> 400 <= status < 500
    ensures status / 100 == 5 <==> 500 <= status < 600
  {
  }

  /** Errors over the phases are the failures plus the 4xx and 5xx responses of the dependency. */
  lemma {:induction false} PhasesConserveErrors(os: seq<Observation>, boundary: Option<int>, rejected: bool, key: Name)
    requires forall o :: o in os && o.identity == Some(key) ==> CountsAlike(o)
    ensures Phased(os, boundary, rejected, PreConsent, key).errors
          + Phased(os, boundary, rejected, PostPhase(rejected), key).errors
         == Whole(os, key).failures + Whole(os, key).s4 + Whole(os, key).s5
  {
    if os != [] {
      var before, last := os[..|os| - 1], os[|os| - 1];
      forall o | o in before
        ensures o in os
      {
      }
      PhasesConserveErrors(before, boundary, rejected, key);
      assert last in os;
      OneMoreError(Whole(before, key), last);
      hide IsError, CountsAlike, WithRequest;
    }
  }

  lemma OneMoreError(t: Totals, o: Observation)
    ensures CountsAlike(o) ==>
      var t' := WithRequest(t, o); t'.failures + t'.s4 + t'.s5 == t.failures + t.s4 + t.s5 + One(IsError(o))
  {
    if o.status.Some? {
      FamilyIsHundreds(o.status.value);
    }
  }

  /** The status families never count more responses than there were, nor responses more than requests. */
  lemma {:induction false} FamiliesWithinResponses(os: seq<Observation>, key: Name)
    ensures var t := Whole(os, key); t.s2 + t.s3 + t.s4 + t.s5 <= |t.statuses| <= t.requests
  {
    if os != [] {
      FamiliesWithinResponses(os[..|os| - 1], key);
    }
  }

  /** The first request of a phase is the earliest recorded one, and none only when none was recorded. */
  lemma {:induction false} FirstIsEarliest(os: seq<Observation>, boundary: Option<int>, rejected: bool, key: PhaseKey)
    ensures var first := ConsentOf(os, boundary, rejected, key).Or(PhaseTotals(0, 0, None)).first;
      && (forall o :: o in os && o.identity == Some(key.key) && PhaseOf(o, boundary, rejected) == key.phase && o.at.Some? ==>
            first.Some? && first.value <= o.at.value)
      && (first.Some? ==>
            exists o :: o in os && o.identity == Some(key.key) && PhaseOf(o, boundary, rejected) == key.phase && o.at == first)
  {
    if os != [] {
      var before, last := os[..|os| - 1], os[|os| - 1];
      assert os == before + [last] && last in os;
      FirstIsEarliest(before, boundary, rejected, key);
      var first := ConsentOf(before, boundary, rejected, key).Or(PhaseTotals(0, 0, None)).first;
      if first.Some? {
        var o :| o in before && o.identity == Some(key.key) && PhaseOf(o, boundary, rejected) == key.phase && o.at == first;
        assert o in os;
      }
    }
  }

  // ---------------------------------------------------------------- the two sides of the boundary

  /** Without a boundary, without a time, or earlier than the boundary. */
  predicate BeforeConsent(o: Observation, boundary: Option<int>) {
    boundary.None? || o.at.None? || o.at.value < boundary.value
  }

  /** A request of the dependency on one side of the boundary. */
  predicate OnSide(o: Observation, key: Name, boundary: Option<int>, before: bool) {
    o.identity == Some(key) && (BeforeConsent(o, boundary) <==> before)
  }

  /** The dependency's requests on one side, all or only those with an error text or a status from 400. */
  function SideCount(os: seq<Observation>, key: Name, boundary: Option<int>, before: bool, errors: bool): nat {
    if os == [] then 0
    else
      var o := os[|os| - 1];
      SideCount(os[..|os| - 1], key, boundary, before, errors)
      + One(OnSide(o, key, boundary, before)
            && (errors ==> o.errorLength.Some? || (o.status.Some? && o.status.value >= 400)))
  }

  /** The least recorded time of the dependency's requests on one side, if any was recorded. */
  predicate FirstOnSide(os: seq<Observation>, key: Name, boundary: Option<int>, before: bool, first: Option<int>) {
    && (forall o :: o in os && OnSide(o, key, boundary, before) && o.at.Some? ==> first.Some? && first.value <= o.at.value)
    && (first.Some? ==> exists o :: o in os && OnSide(o, key, boundary, before) && o.at == first)
  }

  /** The phase a side of the boundary is reported under. */
  function PhaseOfSide(before: bool, rejected: bool): Phase {
    if before then PreConsent else if rejected then PostReject else PostAccept
  }

  /**
    PRE_CONSENT holds exactly the dependency's requests before the boundary, the chosen path's phase exactly
    those from it on: how many, how many errors, the first time, and whether there is an aggregate at all.
  */
  lemma {:induction false} PhasesAreSides(os: seq<Observation>, boundary: Option<int>, rejected: bool, key: Name, before: bool)
    ensures var t := Phased(os, boundary, rejected, PhaseOfSide(before, rejected), key);
      && t.requests == SideCount(os, key, boundary, before, false)
      && t.errors == SideCount(os, key, boundary, before, true)
    ensures ConsentOf(os, boundary, rejected, PhaseKey(PhaseOfSide(before, rejected), key)).Some?
       <==> SideCount(os, key, boundary, before, false) > 0
  {
    if os != [] {
      PhasesAreSides(os[..|os| - 1], boundary, rejected, key, before);
    }
  }

  lemma FirstOfPhaseIsFirstOnSide(os: seq<Observation>, boundary: Option<int>, rejected: bool, key: Name, before: bool)
    ensures FirstOnSide(os, key, boundary, before, Phased(os, boundary, rejected, PhaseOfSide(before, rejected), key).first)
  {
    FirstIsEarliest(os, boundary, rejected, PhaseKey(PhaseOfSide(before, rejected), key));
  }
}
