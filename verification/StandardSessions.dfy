/** Session windows as layout shift is usually defined, by gap and span alone, beside those the program computes. */
module StandardSessions {
  import opened LayoutShift

  predicate Follows(start: real, previous: real, x: Sample) {
    x.at - previous < GAP && x.at - start < SPAN
  }

  /** How many of the next samples belong to the session under way, whatever their values. */
  function StandardExtent(start: real, previous: real, s: seq<Sample>): (k: nat)
    ensures k <= |s|
    decreases |s|
  {
    if s == [] || !Follows(start, previous, s[0]) then 0
    else 1 + StandardExtent(start, s[0].at, s[1..])
  }

  function StandardFirst(s: seq<Sample>): (k: nat)
    requires s != []
    ensures 1 <= k <= |s|
  {
    1 + StandardExtent(s[0].at, s[0].at, s[1..])
  }

  function Standard(s: seq<Sample>): seq<seq<Sample>>
    decreases |s|
  {
    if s == [] then [] else [s[..StandardFirst(s)]] + Standard(s[StandardFirst(s)..])
  }

  function StandardCls(samples: seq<Sample>): real {
    var largest := Largest(Standard(Ascending(samples)));
    if largest <= MAX_CLS then largest else MAX_CLS
  }

  /** A session of several samples opens with one that shifted something. */
  predicate OpensWithShift(session: seq<Sample>) {
    |session| >= 2 ==> session[0].value > 0.0
  }

  predicate AllOpenWithShift(sessions: seq<seq<Sample>>) {
    forall session :: session in sessions ==> OpensWithShift(session)
  }

  lemma {:induction false} PositiveSumExtends(start: real, previous: real, sum: real, s: seq<Sample>)
    requires NonNegative(s) && sum > 0.0
    ensures Extent(start, previous, sum, s) == StandardExtent(start, previous, s)
    decreases |s|
  {
    if s != [] && Follows(start, previous, s[0]) {
      RestNonNegative(s);
      PositiveSumExtends(start, s[0].at, sum + s[0].value, s[1..]);
    }
  }

  /** The first sessions agree unless several samples follow a first one without a value. */
  lemma FirstSessionsAgreeIff(s: seq<Sample>)
    requires s != [] && NonNegative(s)
    ensures FirstSession(s) == StandardFirst(s) <==> OpensWithShift(s[..StandardFirst(s)])
  {
    RestNonNegative(s);
    if s[0].value > 0.0 {
      PositiveSumExtends(s[0].at, s[0].at, s[0].value, s[1..]);
    }
  }

  lemma TailNonNegative(s: seq<Sample>, k: nat)
    requires NonNegative(s) && k <= |s|
    ensures NonNegative(s[k..])
  {
    forall x | x in s[k..]
      ensures x in s
    {
    }
  }

  lemma HeadAndRest(first: seq<Sample>, rest: seq<seq<Sample>>)
    ensures AllOpenWithShift([first] + rest) <==> OpensWithShift(first) && AllOpenWithShift(rest)
  {
    hide OpensWithShift;
    var all := [first] + rest;
    assert forall session :: session in all <==> session == first || session in rest;
  }

  lemma SameListing<T>(s: seq<T>, j: nat, k: nat, others: seq<seq<T>>, others': seq<seq<T>>)
    requires 1 <= j <= |s| && 1 <= k <= |s|
    ensures [s[..j]] + others == [s[..k]] + others' <==> j == k && others == others'
  {
    Appended(s[..j], others);
    Appended(s[..k], others');
    assert |s[..j]| == j && |s[..k]| == k;
  }

  /**
    The program's sessions are the standard ones exactly when no standard session of several samples
    opens with a sample of value zero.
  */
  lemma {:induction false} SessionsAreStandardIff(s: seq<Sample>)
    requires NonNegative(s)
    ensures Sessions(s) == Standard(s) <==> AllOpenWithShift(Standard(s))
    decreases |s|
  {
    if s != [] {
      hide FirstSession, StandardFirst, AllOpenWithShift, OpensWithShift, NonNegative;
      var j, k := FirstSession(s), StandardFirst(s);
      FirstSessionsAgreeIff(s);
      HeadAndRest(s[..k], Standard(s[k..]));
      SameListing(s, j, k, Sessions(s[j..]), Standard(s[k..]));
      TailNonNegative(s, k);
      SessionsAreStandardIff(s[k..]);
    }
  }

  lemma {:induction false} SessionsOfMembers(s: seq<Sample>)
    ensures forall session :: session in Standard(s) ==> session != [] && session[0] in s
    decreases |s|
  {
    if s != [] {
      var k := StandardFirst(s);
      SessionsOfMembers(s[k..]);
      forall session | session in Standard(s)
        ensures session != [] && session[0] in s
      {
        if session != s[..k] {
          assert session in Standard(s[k..]);
        }
      }
    }
  }

  /** When no standard session of several samples opens with a value of zero, the shift is the standard one. */
  lemma ShiftIsStandardIfSessionsOpenWithShift(samples: seq<Sample>)
    requires NonNegative(samples) && AllOpenWithShift(Standard(Ascending(samples)))
    ensures Cls(samples) == StandardCls(samples)
  {
    SortedKeepsSigns(samples);
    SessionsAreStandardIff(Ascending(samples));
  }

  /** So it is when every sample has a positive value. */
  lemma PositiveShiftIsStandard(samples: seq<Sample>)
    requires forall x :: x in samples ==> x.value > 0.0
    ensures Cls(samples) == StandardCls(samples)
  {
    var sorted := Ascending(samples);
    AscendingSorts(samples);
    forall x | x in sorted
      ensures x.value > 0.0
    {
      assert x in multiset(sorted) && x in multiset(samples);
    }
    SessionsOfMembers(sorted);
    ShiftIsStandardIfSessionsOpenWithShift(samples);
  }

  // ---------------------------------------------------------------- a sample without a value

  /** Samples of value one, 999 milliseconds apart. */
  function Ones(at: real, n: nat): (s: seq<Sample>)
    ensures |s| == n
    decreases n
  {
    if n == 0 then [] else [Sample(at, 1.0)] + Ones(at + 999.0, n - 1)
  }

  /** One sample of value zero, then six of value one. */
  function ZeroThenOnes(): seq<Sample> {
    [Sample(0.0, 0.0)] + Ones(999.0, 6)
  }

  lemma {:induction false} OnesAt(at: real, n: nat, k: nat)
    requires k <= n
    ensures Ones(at, n)[k..] == Ones(at + 999.0 * k as real, n - k)
    ensures Total(Ones(at, n)[..k]) == k as real
    decreases n
  {
    if k > 0 {
      var s := Ones(at, n);
      OnesAt(at + 999.0, n - 1, k - 1);
      assert s[1..] == Ones(at + 999.0, n - 1);
      TotalStep(s, k);
      assert s[k..] == s[1..][k - 1..];
    }
  }

  lemma {:induction false} OnesExtend(start: real, at: real, sum: real, n: nat, k: nat)
    requires sum > 0.0 && k <= n && at - start + 999.0 * (k - 1) as real < SPAN
    requires k < n ==> at - start + 999.0 * k as real >= SPAN
    ensures Extent(start, at - 999.0, sum, Ones(at, n)) == k == StandardExtent(start, at - 999.0, Ones(at, n))
    decreases n
  {
    if k > 0 {
      OnesExtend(start, at + 999.0, sum + 1.0, n - 1, k - 1);
      assert Ones(at, n)[1..] == Ones(at + 999.0, n - 1);
    }
  }

  lemma {:induction false} OnesSorted(x: Sample, at: real, n: nat)
    requires x.at < at
    ensures Sorted([x] + Ones(at, n))
    decreases n
  {
    if n > 0 {
      OnesSorted(Sample(at, 1.0), at + 999.0, n - 1);
      var s := Ones(at, n);
      forall i | 0 <= i < n
        ensures Before(x, s[i])
      {
        assert s[0] == Sample(at, 1.0);
      }
      Prepended(x, s);
    }
  }

  lemma OneSession(at: real, n: nat)
    requires 1 <= n && 999.0 * (n - 1) as real < SPAN
    ensures Sessions(Ones(at, n)) == [Ones(at, n)] == Standard(Ones(at, n)) && Total(Ones(at, n)) == n as real
  {
    var s := Ones(at, n);
    OnesExtend(at, at + 999.0, 1.0, n - 1, n - 1);
    assert s[0] == Sample(at, 1.0) && s[1..] == Ones(at + 999.0, n - 1);
    OnesAt(at, n, n);
    assert s[..n] == s && s[n..] == [];
    assert Sessions([]) == [] && Standard([]) == [];
  }

  /** A leading sample of value zero moves the sessions: the program reports 6 where the standard windows give 5. */
  lemma ZeroSampleMovesTheSession()
    ensures Cls(ZeroThenOnes()) == 6.0 && StandardCls(ZeroThenOnes()) == 5.0
  {
    hide Ones, Total, Extent, StandardExtent;
    var s := ZeroThenOnes();
    OnesSorted(Sample(0.0, 0.0), 999.0, 6);
    AscendingSorts(s);
    SortedIsUnique(Ascending(s), s);
    hide Ascending;
    ProgramSessions();
    StandardWindows();
  }

  lemma ProgramSessions()
    ensures Largest(Sessions(ZeroThenOnes())) == 6.0
  {
    hide Ones, Total;
    var s := ZeroThenOnes();
    assert s[0] == Sample(0.0, 0.0) && s[1..] == Ones(999.0, 6);
    assert FirstSession(s) == 1;
    OneSession(999.0, 6);
    assert Total(s[..1]) == 0.0 by { TotalStep(s, 1); NothingTotals(s[1..][..0]); }
    LargestOfOne(Ones(999.0, 6));
    Appended(s[..1], Sessions(s[1..]));
  }

  lemma StandardWindows()
    ensures Largest(Standard(ZeroThenOnes())) == 5.0
  {
    hide Ones, Total;
    var s := ZeroThenOnes();
    assert s[0] == Sample(0.0, 0.0) && s[1..] == Ones(999.0, 6);
    OnesExtend(0.0, 999.0, 1.0, 6, 5);
    OnesAt(999.0, 6, 5);
    assert StandardFirst(s) == 6;
    assert s[6..] == s[1..][5..];
    OneSession(5994.0, 1);
    TotalStep(s, 6);
    LargestOfOne(Ones(5994.0, 1));
    Appended(s[..6], Standard(s[6..]));
  }

  lemma NothingTotals(s: seq<Sample>)
    requires s == []
    ensures Total(s) == 0.0
  {
  }

  lemma LargestOfOne(s: seq<Sample>)
    ensures Largest([s]) == Max(Total(s), 0.0)
  {
    assert Largest([]) == 0.0;
    assert [s][1..] == [];
  }
}
