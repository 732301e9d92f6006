/** Cumulative layout shift: the four-variable loop and the session windows it computes. */
module LayoutShift {
  const GAP := 1_000.0
  const SPAN := 5_000.0
  const MAX_CLS := 10_000.0

  datatype Sample = Sample(at: real, value: real)

  predicate NonNegative(s: seq<Sample>) {
    forall x :: x in s ==> x.value >= 0.0
  }

  function Max(a: real, b: real): real {
    if a >= b then a else b
  }

  // ---------------------------------------------------------------- Python's order on pairs

  predicate Before(a: Sample, b: Sample) {
    a.at < b.at || (a.at == b.at && a.value <= b.value)
  }

  predicate Sorted(s: seq<Sample>) {
    forall i, j :: 0 <= i < j < |s| ==> Before(s[i], s[j])
  }

  function Insert(s: seq<Sample>, x: Sample): seq<Sample> {
    if s == [] then [x]
    else if Before(x, s[0]) then [x] + s
    else [s[0]] + Insert(s[1..], x)
  }

  function Ascending(s: seq<Sample>): seq<Sample> {
    if s == [] then [] else Insert(Ascending(s[..|s| - 1]), s[|s| - 1])
  }

  lemma {:induction false} InsertAdds(s: seq<Sample>, x: Sample)
    ensures multiset(Insert(s, x)) == multiset(s) + multiset{x}
  {
    if s != [] && !Before(x, s[0]) {
      InsertAdds(s[1..], x);
      assert s == [s[0]] + s[1..];
    }
  }

  lemma {:induction false} InsertSorts(s: seq<Sample>, x: Sample)
    requires Sorted(s)
    ensures Sorted(Insert(s, x))
  {
    if s == [] {
    } else if Before(x, s[0]) {
      assert forall i :: 0 < i < |s| ==> Before(s[0], s[i]);
    } else {
      InsertSorts(s[1..], x);
      InsertAdds(s[1..], x);
      var t := Insert(s[1..], x);
      forall i | 0 <= i < |t|
        ensures Before(s[0], t[i])
      {
        assert t[i] in multiset(t);
        assert t[i] in s[1..] || t[i] == x;
      }
      Prepended(s[0], t);
    }
  }

  lemma Prepended(x: Sample, s: seq<Sample>)
    requires Sorted(s) && forall i :: 0 <= i < |s| ==> Before(x, s[i])
    ensures Sorted([x] + s)
  {
  }

  lemma {:induction false} AscendingSorts(s: seq<Sample>)
    ensures Sorted(Ascending(s)) && multiset(Ascending(s)) == multiset(s)
  {
    if s != [] {
      AscendingSorts(s[..|s| - 1]);
      InsertSorts(Ascending(s[..|s| - 1]), s[|s| - 1]);
      InsertAdds(Ascending(s[..|s| - 1]), s[|s| - 1]);
      assert s == s[..|s| - 1] + [s[|s| - 1]];
    }
  }

  lemma FirstIsLeast(s: seq<Sample>, x: Sample)
    requires Sorted(s) && x in multiset(s)
    ensures s[0] == x || Before(s[0], x)
  {
  }

  lemma SameFirst(a: seq<Sample>, b: seq<Sample>)
    requires Sorted(a) && Sorted(b) && multiset(a) == multiset(b) && a != [] && b != []
    ensures a[0] == b[0]
  {
    assert a[0] in multiset(a) && b[0] in multiset(b);
    FirstIsLeast(a, b[0]);
    FirstIsLeast(b, a[0]);
  }

  lemma WithoutFirst(s: seq<Sample>)
    requires s != []
    ensures s == [s[0]] + s[1..] && multiset(s[1..]) == multiset(s) - multiset{s[0]}
  {
    assert s == [s[0]] + s[1..];
  }

  lemma {:induction false} SortedIsUnique(a: seq<Sample>, b: seq<Sample>)
    requires Sorted(a) && Sorted(b) && multiset(a) == multiset(b)
    ensures a == b
  {
    assert |a| == |multiset(a)| == |multiset(b)| == |b|;
    if a != [] {
      SameFirst(a, b);
      WithoutFirst(a);
      WithoutFirst(b);
      hide Before;
      SortedIsUnique(a[1..], b[1..]);
    }
  }

  // ---------------------------------------------------------------- the loop

  datatype Running = Running(maximum: real, value: real, start: real, previous: real)

  predicate Continues(start: real, previous: real, sum: real, x: Sample) {
    sum > 0.0 && x.at - previous < GAP && x.at - start < SPAN
  }

  function Advanced(r: Running, x: Sample): Running {
    var joined := Continues(r.start, r.previous, r.value, x);
    var value := if joined then r.value + x.value else x.value;
    Running(Max(r.maximum, value), value, if joined then r.start else x.at, x.at)
  }

  function Fold(r: Running, s: seq<Sample>): Running
    decreases |s|
  {
    if s == [] then r else Fold(Advanced(r, s[0]), s[1..])
  }

  const IDLE := Running(0.0, 0.0, 0.0, 0.0)

  // ---------------------------------------------------------------- session windows

  function Total(s: seq<Sample>): real {
    if s == [] then 0.0 else s[0].value + Total(s[1..])
  }

  /** How many of the next samples still belong to the session under way. */
  function Extent(start: real, previous: real, sum: real, s: seq<Sample>): (k: nat)
    ensures k <= |s|
    decreases |s|
  {
    if s == [] || !Continues(start, previous, sum, s[0]) then 0
    else 1 + Extent(start, s[0].at, sum + s[0].value, s[1..])
  }

  function FirstSession(s: seq<Sample>): (k: nat)
    requires s != []
    ensures 1 <= k <= |s|
  {
    1 + Extent(s[0].at, s[0].at, s[0].value, s[1..])
  }

  function Sessions(s: seq<Sample>): seq<seq<Sample>>
    decreases |s|
  {
    if s == [] then [] else [s[..FirstSession(s)]] + Sessions(s[FirstSession(s)..])
  }

  function Largest(sessions: seq<seq<Sample>>): (r: real)
    ensures r >= 0.0
  {
    if sessions == [] then 0.0 else Max(Total(sessions[0]), Largest(sessions[1..]))
  }

  /** The largest session total, capped. */
  function Cls(samples: seq<Sample>): real {
    var largest := Largest(Sessions(Ascending(samples)));
    if largest <= MAX_CLS then largest else MAX_CLS
  }

  predicate FoldedTo(folded: real, r: Running, s: seq<Sample>, k: nat)
    requires k <= |s|
  {
    folded == Max(Max(r.maximum, r.value + Total(s[..k])), Largest(Sessions(s[k..])))
  }

  lemma {:induction false} FoldIsLargest(r: Running, s: seq<Sample>)
    requires NonNegative(s) && r.maximum >= r.value >= 0.0
    ensures FoldedTo(Fold(r, s).maximum, r, s, Extent(r.start, r.previous, r.value, s))
    decreases |s|
  {
    hide Total, Sessions, Largest, FoldedTo, NonNegative;
    if s == [] {
      NothingFolded(r, s);
    } else {
      var x, rest, r' := s[0], s[1..], Advanced(r, s[0]);
      RestNonNegative(s);
      FoldIsLargest(r', rest);
      var k' := Extent(r'.start, r'.previous, r'.value, rest);
      TotalOfPart(rest, k');
      if Continues(r.start, r.previous, r.value, x) {
        JoinedFold(Fold(r, s).maximum, r, s, k');
      } else {
        SeparateFold(Fold(r, s).maximum, r, s);
      }
    }
  }

  lemma NothingFolded(r: Running, s: seq<Sample>)
    requires s == [] && r.maximum >= r.value >= 0.0
    ensures FoldedTo(Fold(r, s).maximum, r, s, Extent(r.start, r.previous, r.value, s))
  {
    assert s[..0] == [] && s[0..] == [];
  }

  lemma RestNonNegative(s: seq<Sample>)
    requires s != [] && NonNegative(s)
    ensures s[0].value >= 0.0 && NonNegative(s[1..])
  {
    assert s[0] in s && forall y :: y in s[1..] ==> y in s;
  }

  lemma TotalOfPart(s: seq<Sample>, k: nat)
    requires NonNegative(s) && k <= |s|
    ensures Total(s[..k]) >= 0.0
  {
    forall y | y in s[..k]
      ensures y in s
    {
    }
    TotalIsNonNegative(s[..k]);
  }

  lemma JoinedFold(folded: real, r: Running, s: seq<Sample>, k': nat)
    requires s != [] && Continues(r.start, r.previous, r.value, s[0]) && r.maximum >= r.value && k' < |s|
    requires FoldedTo(folded, Advanced(r, s[0]), s[1..], k') && Total(s[1..][..k']) >= 0.0
    ensures FoldedTo(folded, r, s, k' + 1)
  {
    TotalStep(s, k' + 1);
    assert s[k' + 1..] == s[1..][k'..];
    hide Total, Largest, Sessions, Continues;
  }

  lemma SeparateFold(folded: real, r: Running, s: seq<Sample>)
    requires s != [] && !Continues(r.start, r.previous, r.value, s[0]) && r.maximum >= r.value
    requires var k' := FirstSession(s) - 1; FoldedTo(folded, Advanced(r, s[0]), s[1..], k') && Total(s[1..][..k']) >= 0.0
    ensures FoldedTo(folded, r, s, 0)
  {
    TotalStep(s, FirstSession(s));
    LargestStep(s);
    assert s[..0] == [] && s[0..] == s;
    assert Total([]) == 0.0;
    hide Total, Largest, Sessions, Continues, FirstSession;
  }

  lemma TotalStep(s: seq<Sample>, k: nat)
    requires 1 <= k <= |s|
    ensures Total(s[..k]) == s[0].value + Total(s[1..][..k - 1])
  {
    assert s[..k][1..] == s[1..][..k - 1];
  }

  lemma LargestStep(s: seq<Sample>)
    requires s != []
    ensures var k := FirstSession(s); Largest(Sessions(s)) == Max(Total(s[..k]), Largest(Sessions(s[1..][k - 1..])))
  {
    hide Total, Extent;
    var k := FirstSession(s);
    Slices(s, k);
    Appended(s[..k], Sessions(s[k..]));
  }

  lemma Appended<T>(x: T, rest: seq<T>)
    ensures ([x] + rest)[0] == x && ([x] + rest)[1..] == rest
  {
  }

  lemma {:induction false} TotalIsNonNegative(s: seq<Sample>)
    requires NonNegative(s)
    ensures Total(s) >= 0.0
  {
    if s != [] {
      assert s[0] in s && forall y :: y in s[1..] ==> y in s;
      TotalIsNonNegative(s[1..]);
    }
  }

  method CalculateCls(samples: seq<Sample>) returns (cls: real)
    requires NonNegative(samples)
    ensures cls == Cls(samples)
  {
    var maximum, sessionValue, sessionStart, previousTime := 0.0, 0.0, 0.0, 0.0;
    var sorted := Ascending(samples);
    for i := 0 to |sorted|
      invariant Fold(IDLE, sorted) == Fold(Running(maximum, sessionValue, sessionStart, previousTime), sorted[i..])
    {
      assert sorted[i..][0] == sorted[i] && sorted[i..][1..] == sorted[i + 1..];
      var startTime, value := sorted[i].at, sorted[i].value;
      if sessionValue > 0.0 && startTime - previousTime < GAP && startTime - sessionStart < SPAN {
        sessionValue := sessionValue + value;
      } else {
        sessionStart := startTime;
        sessionValue := value;
      }
      previousTime := startTime;
      maximum := Max(maximum, sessionValue);
    }
    assert sorted[|sorted|..] == [];
    assert Fold(IDLE, sorted).maximum == maximum;
    ClsIsFold(samples);
    cls := if maximum <= MAX_CLS then maximum else MAX_CLS;
  }

  lemma SortedKeepsSigns(samples: seq<Sample>)
    requires NonNegative(samples)
    ensures NonNegative(Ascending(samples))
  {
    AscendingSorts(samples);
    forall x | x in Ascending(samples)
      ensures x.value >= 0.0
    {
      assert x in multiset(Ascending(samples));
      assert x in multiset(samples);
    }
  }

  // ---------------------------------------------------------------- what the number means

  /** The order in which the samples arrive does not matter. */
  lemma ClsIgnoresOrder(a: seq<Sample>, b: seq<Sample>)
    requires multiset(a) == multiset(b)
    ensures Cls(a) == Cls(b)
  {
    AscendingSorts(a);
    AscendingSorts(b);
    SortedIsUnique(Ascending(a), Ascending(b));
  }

  /** Every session adds up to at most the value, unless the cap of ten thousand cut it; the value is attained. */
  lemma ClsIsCappedMaximum(samples: seq<Sample>)
    ensures var cls, sessions := Cls(samples), Sessions(Ascending(samples));
      && cls <= 10_000.0
      && (forall session :: session in sessions ==> Total(session) <= cls || cls == 10_000.0)
      && (cls == 0.0 || cls == 10_000.0 || exists session :: session in sessions && Total(session) == cls)
      && (cls == 10_000.0 ==> exists session :: session in sessions && Total(session) >= 10_000.0)
  {
    hide Sessions, Total;
    LargestIsGreatest(Sessions(Ascending(samples)));
  }

  lemma {:induction false} LargestIsGreatest(sessions: seq<seq<Sample>>)
    ensures forall session :: session in sessions ==> Total(session) <= Largest(sessions)
    ensures Largest(sessions) == 0.0 || exists session :: session in sessions && Total(session) == Largest(sessions)
  {
    hide Total;
    if sessions != [] {
      var first, rest := sessions[0], sessions[1..];
      LargestIsGreatest(rest);
      assert sessions == [first] + rest;
      assert first in sessions && forall session :: session in rest ==> session in sessions;
    }
  }

  function Joined(sessions: seq<seq<Sample>>): seq<Sample> {
    if sessions == [] then [] else sessions[0] + Joined(sessions[1..])
  }

  /** A session: no gap of a second, less than five seconds from its first sample. */
  predicate IsSession(s: seq<Sample>) {
    && s != []
    && (forall i :: 0 < i < |s| ==> s[i].at - s[i - 1].at < 1_000.0)
    && (forall i :: 0 <= i < |s| ==> s[i].at - s[0].at < 5_000.0)
  }

  lemma {:induction false} ExtentIsSession(start: Sample, previous: Sample, sum: real, s: seq<Sample>)
    ensures var k := Extent(start.at, previous.at, sum, s);
      && (forall i :: 0 <= i < k ==> s[i].at - start.at < SPAN && s[i].at - (if i == 0 then previous else s[i - 1]).at < GAP)
      && (k < |s| ==> !Continues(start.at, if k == 0 then previous.at else s[k - 1].at, sum + Total(s[..k]), s[k]))
    decreases |s|
  {
    if s != [] && Continues(start.at, previous.at, sum, s[0]) {
      var rest := s[1..];
      ExtentIsSession(start, s[0], sum + s[0].value, rest);
      var k := Extent(start.at, previous.at, sum, s);
      assert s[..k][1..] == rest[..k - 1];
      forall i | 0 <= i < k
        ensures s[i].at - start.at < SPAN && s[i].at - (if i == 0 then previous else s[i - 1]).at < GAP
      {
        if i > 0 {
          assert s[i] == rest[i - 1];
        }
      }
    } else {
      assert s[..0] == [];
    }
  }

  /** The sample that opens the second session could not have joined the first, or that one adds up to nothing. */
  predicate Ends(a: seq<Sample>, b: seq<Sample>) {
    a != [] && b != []
    && (b[0].at - a[|a| - 1].at >= 1_000.0 || b[0].at - a[0].at >= 5_000.0 || Total(a) <= 0.0)
  }

  predicate Greedy(sessions: seq<seq<Sample>>) {
    && (forall i :: 0 <= i < |sessions| ==> IsSession(sessions[i]))
    && (forall i :: 0 < i < |sessions| ==> Ends(sessions[i - 1], sessions[i]))
  }

  lemma FirstIsSession(s: seq<Sample>)
    requires s != []
    ensures IsSession(s[..FirstSession(s)])
    ensures FirstSession(s) < |s| ==>
      !Continues(s[0].at, s[FirstSession(s) - 1].at, Total(s[..FirstSession(s)]), s[FirstSession(s)])
  {
    var k := FirstSession(s);
    ExtentIsSession(s[0], s[0], s[0].value, s[1..]);
    TotalStep(s, k);
    hide Total;
    forall i | 0 < i < k
      ensures s[..k][i].at - s[..k][i - 1].at < GAP && s[..k][i].at - s[0].at < SPAN
    {
      assert s[i] == s[1..][i - 1];
    }
  }

  lemma GreedyPrepends(first: seq<Sample>, rest: seq<seq<Sample>>)
    requires Greedy(rest) && IsSession(first) && (rest != [] ==> Ends(first, rest[0]))
    ensures Greedy([first] + rest)
  {
    hide Ends, IsSession;
  }

  lemma FirstSessionLeads(s: seq<Sample>)
    requires s != []
    ensures Sessions(s) != [] && Sessions(s)[0] != [] && Sessions(s)[0][0] == s[0]
  {
  }

  /**
    The sessions partition the sorted samples, each keeps gap and span, and each ends only where the
    next sample is too late for it or its own sum is zero.
  */
  lemma {:induction false} SessionsAreGreedy(s: seq<Sample>)
    ensures Joined(Sessions(s)) == s && Greedy(Sessions(s))
    decreases |s|
  {
    if s != [] {
      hide Total, IsSession, Continues, Extent, Greedy;
      var k := FirstSession(s);
      SessionsAreGreedy(s[k..]);
      FirstIsSession(s);
      if k < |s| {
        FirstSessionLeads(s[k..]);
      }
      GreedyPrepends(s[..k], Sessions(s[k..]));
      Appended(s[..k], Sessions(s[k..]));
      Slices(s, k);
    } else {
      assert Greedy([]);
    }
  }

  // ---------------------------------------------------------------- bounds and growth

  /** What the samples of the half-open five seconds from an instant add up to. */
  function InSpan(s: seq<Sample>, from: real): real {
    if s == [] then 0.0
    else InSpan(s[..|s| - 1], from) + if from <= s[|s| - 1].at < from + SPAN then s[|s| - 1].value else 0.0
  }

  lemma {:induction false} InSpanOfJoin(a: seq<Sample>, b: seq<Sample>, from: real)
    ensures InSpan(a + b, from) == InSpan(a, from) + InSpan(b, from)
  {
    if b == [] {
      assert a + b == a;
    } else {
      InSpanOfJoin(a, b[..|b| - 1], from);
      assert (a + b)[..|a + b| - 1] == a + b[..|b| - 1];
    }
  }

  lemma {:induction false} InSpanOfInsert(s: seq<Sample>, x: Sample, from: real)
    ensures InSpan(Insert(s, x), from) == InSpan(s + [x], from)
  {
    InSpanOfJoin(s, [x], from);
    if s == [] {
      assert s + [x] == [x];
    } else if Before(x, s[0]) {
      InSpanOfJoin([x], s, from);
    } else {
      InSpanOfInsert(s[1..], x, from);
      InSpanOfJoin(s[1..], [x], from);
      InSpanOfJoin([s[0]], Insert(s[1..], x), from);
      InSpanOfJoin([s[0]], s[1..], from);
      assert s == [s[0]] + s[1..];
    }
  }

  lemma {:induction false} InSpanOfAscending(s: seq<Sample>, from: real)
    ensures InSpan(Ascending(s), from) == InSpan(s, from)
  {
    if s != [] {
      var before, last := s[..|s| - 1], s[|s| - 1];
      InSpanOfAscending(before, from);
      InSpanOfInsert(Ascending(before), last, from);
      InSpanOfJoin(Ascending(before), [last], from);
      InSpanOfJoin(before, [last], from);
      assert s == before + [last];
    }
  }

  lemma {:induction false} InSpanIsNonNegative(s: seq<Sample>, from: real)
    requires NonNegative(s)
    ensures InSpan(s, from) >= 0.0
  {
    if s != [] {
      assert s[|s| - 1] in s;
      forall x | x in s[..|s| - 1]
        ensures x in s
      {
      }
      InSpanIsNonNegative(s[..|s| - 1], from);
    }
  }

  lemma {:induction false} WholeInSpan(s: seq<Sample>, from: real)
    requires forall i :: 0 <= i < |s| ==> from <= s[i].at < from + SPAN
    ensures InSpan(s, from) == Total(s)
    decreases |s|
  {
    if s != [] {
      WholeInSpan(s[1..], from);
      InSpanOfJoin([s[0]], s[1..], from);
      assert s == [s[0]] + s[1..];
    }
  }

  lemma PartInSpan(a: seq<Sample>, b: seq<Sample>, from: real)
    requires NonNegative(a + b)
    ensures NonNegative(a) && NonNegative(b)
    ensures InSpan(a, from) <= InSpan(a + b, from) && InSpan(b, from) <= InSpan(a + b, from)
  {
    forall x | x in a || x in b
      ensures x.value >= 0.0
    {
      assert x in a + b;
    }
    InSpanOfJoin(a, b, from);
    InSpanIsNonNegative(a, from);
    InSpanIsNonNegative(b, from);
  }

  lemma FirstWithinSpan(s: seq<Sample>)
    requires s != [] && Sorted(s) && NonNegative(s)
    ensures Total(s[..FirstSession(s)]) <= InSpan(s, s[0].at)
  {
    var k := FirstSession(s);
    FirstIsSession(s);
    hide FirstSession, Total, InSpan, Continues;
    SessionInSpan(s[..k], s);
    Slices(s, k);
    WholeInSpan(s[..k], s[0].at);
    PartInSpan(s[..k], s[k..], s[0].at);
  }

  lemma SessionInSpan(first: seq<Sample>, s: seq<Sample>)
    requires IsSession(first) && first <= s && Sorted(s)
    ensures forall i :: 0 <= i < |first| ==> s[0].at <= first[i].at < s[0].at + SPAN
  {
  }

  lemma SessionCut(s: seq<Sample>)
    requires s != [] && Sorted(s) && NonNegative(s)
    ensures var k := FirstSession(s);
      && Largest(Sessions(s)) == Max(Total(s[..k]), Largest(Sessions(s[k..])))
      && Sorted(s[k..]) && NonNegative(s[k..]) && |s[k..]| < |s|
      && Total(s[..k]) <= InSpan(s, s[0].at)
      && forall from :: InSpan(s[k..], from) <= InSpan(s, from)
  {
    var k := FirstSession(s);
    hide InSpan, FirstSession, Sessions, Total, Largest, NonNegative, Sorted, Before;
    LargestStep(s);
    FirstWithinSpan(s);
    Slices(s, k);
    RestBounded(s[..k], s[k..]);
    RestSorted(s, k);
  }

  lemma Slices<T>(s: seq<T>, k: nat)
    requires 1 <= k <= |s|
    ensures s == s[..k] + s[k..] && s[1..][k - 1..] == s[k..]
  {
  }

  lemma RestSorted(s: seq<Sample>, k: nat)
    requires Sorted(s) && k <= |s|
    ensures Sorted(s[k..])
  {
    hide Before;
  }

  lemma RestBounded(first: seq<Sample>, rest: seq<Sample>)
    requires NonNegative(first + rest)
    ensures NonNegative(rest) && forall from :: InSpan(rest, from) <= InSpan(first + rest, from)
  {
    hide InSpan, NonNegative;
    PartInSpan(first, rest, 0.0);
    forall from
      ensures InSpan(rest, from) <= InSpan(first + rest, from)
    {
      PartInSpan(first, rest, from);
    }
  }

  lemma {:induction false} SessionWithinSpan(s: seq<Sample>) returns (from: real)
    requires Sorted(s) && NonNegative(s)
    ensures Largest(Sessions(s)) <= InSpan(s, from)
    decreases |s|
  {
    if s == [] {
      from := 0.0;
    } else {
      SessionCut(s);
      hide InSpan, NonNegative, FirstSession, Sessions, Total, Largest, Sorted;
      var k := FirstSession(s);
      if Total(s[..k]) >= Largest(Sessions(s[k..])) {
        from := s[0].at;
      } else {
        from := SessionWithinSpan(s[k..]);
      }
    }
  }

  /** The shift is at most what some half-open five seconds of samples add up to, and at most the cap. */
  lemma ClsIsWithinFiveSeconds(samples: seq<Sample>) returns (from: real)
    requires NonNegative(samples)
    ensures 0.0 <= Cls(samples) <= InSpan(samples, from) && Cls(samples) <= 10_000.0
  {
    AscendingSorts(samples);
    SortedKeepsSigns(samples);
    from := SessionWithinSpan(Ascending(samples));
    InSpanOfAscending(samples, from);
  }

  lemma {:induction false} InsertLast(s: seq<Sample>, x: Sample)
    requires forall y :: y in s ==> !Before(x, y)
    ensures Insert(s, x) == s + [x]
  {
    if s == [] {
      assert s + [x] == [x];
    } else {
      assert s[0] in s;
      forall y | y in s[1..]
        ensures y in s
      {
      }
      InsertLast(s[1..], x);
      assert [s[0]] + (s[1..] + [x]) == s + [x];
    }
  }

  lemma {:induction false} FoldOfAppend(r: Running, s: seq<Sample>, x: Sample)
    ensures Fold(r, s + [x]) == Advanced(Fold(r, s), x)
    decreases |s|
  {
    if s == [] {
      assert s + [x] == [x] && [x][1..] == [];
    } else {
      assert (s + [x])[1..] == s[1..] + [x];
      FoldOfAppend(Advanced(r, s[0]), s[1..], x);
    }
  }

  lemma ClsIsFold(samples: seq<Sample>)
    requires NonNegative(samples)
    ensures var maximum := Fold(IDLE, Ascending(samples)).maximum;
      Cls(samples) == if maximum <= MAX_CLS then maximum else MAX_CLS
  {
    var sorted := Ascending(samples);
    SortedKeepsSigns(samples);
    FoldIsLargest(IDLE, sorted);
    assert sorted[0..] == sorted && sorted[..0] == [];
    assert Extent(IDLE.start, IDLE.previous, IDLE.value, sorted) == 0;
    hide Sessions, Extent, Fold;
  }

  /** A sample later than all so far never lowers the shift. */
  lemma LaterSampleNeverLowers(samples: seq<Sample>, x: Sample)
    requires NonNegative(samples + [x]) && forall y :: y in samples ==> y.at < x.at
    ensures Cls(samples + [x]) >= Cls(samples)
  {
    var all := samples + [x];
    assert all[..|samples|] == samples;
    assert NonNegative(samples) by {
      forall y | y in samples
        ensures y in all
      {
      }
    }
    AscendingSorts(samples);
    forall y | y in Ascending(samples)
      ensures !Before(x, y)
    {
      assert y in multiset(Ascending(samples));
    }
    InsertLast(Ascending(samples), x);
    FoldOfAppend(IDLE, Ascending(samples), x);
    ClsIsFold(samples);
    ClsIsFold(all);
  }
}
