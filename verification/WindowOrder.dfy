/** The order in which the checkpoints of a window are read does not change what the window yields. */
module WindowOrder {
  import opened Contracts
  import opened Lifecycle
  import opened WindowGroups
  import opened GptWindow
  import opened GptTheorems
  import opened WindowEvaluation

  /** A candidate up to the order of its evidence. */
  datatype Core = Core(candidate: Candidate, evidence: multiset<Pointer>)

  function CoreOf(c: Candidate): Core {
    Core(c.(evidence := []), multiset(c.evidence))
  }

  /** The candidates up to their order and to the order of their evidence. */
  function Cores(out: seq<Candidate>): multiset<Core> {
    if out == [] then multiset{} else Cores(out[..|out| - 1]) + multiset{CoreOf(out[|out| - 1])}
  }

  predicate SameYield(a: Result<seq<Candidate>>, b: Result<seq<Candidate>>) {
    match (a, b)
    case (Ok(x), Ok(y)) => Cores(x) == Cores(y)
    case (Err(x), Err(y)) => x == y
    case _ => false
  }

  lemma {:induction false} CoresJoin(a: seq<Candidate>, b: seq<Candidate>)
    ensures Cores(a + b) == Cores(a) + Cores(b)
  {
    hide CoreOf, Cores;
    if b == [] {
      assert a + b == a;
      assert Cores(b) == multiset{} by { CoresStep(b); }
    } else {
      var before := b[..|b| - 1];
      CoresJoin(a, before);
      LastOfJoin(a, b);
      CoresStep(a + b);
      CoresStep(b);
      RegroupSums(Cores(a), Cores(before), multiset{CoreOf(b[|b| - 1])});
    }
  }

  lemma CoresStep(out: seq<Candidate>)
    ensures Cores(out) == if out == [] then multiset{} else Cores(out[..|out| - 1]) + multiset{CoreOf(out[|out| - 1])}
  {
  }

  lemma CoresOfOne(c: Candidate)
    ensures Cores([c]) == multiset{CoreOf(c)}
  {
    assert [c][..0] == [];
    assert Cores([]) == multiset{};
  }

  lemma RegroupSums<T>(x: multiset<T>, y: multiset<T>, z: multiset<T>)
    ensures (x + y) + z == x + (y + z)
  {
  }

  // ---------------------------------------------------------------- sums over a listing

  ghost function Sum<K(!new), V>(f: K -> multiset<V>, keys: seq<K>): multiset<V> {
    if keys == [] then multiset{} else Sum(f, keys[..|keys| - 1]) + f(keys[|keys| - 1])
  }

  lemma {:induction false} SumJoin<K(!new), V>(f: K -> multiset<V>, a: seq<K>, b: seq<K>)
    ensures Sum(f, a + b) == Sum(f, a) + Sum(f, b)
  {
    if b == [] {
      assert a + b == a;
    } else {
      SumJoin(f, a, b[..|b| - 1]);
      LastOfJoin(a, b);
      RegroupSums(Sum(f, a), Sum(f, b[..|b| - 1]), f(b[|b| - 1]));
    }
  }

  lemma SumAround<K(!new), V>(f: K -> multiset<V>, front: seq<K>, key: K, back: seq<K>)
    ensures Sum(f, front + [key] + back) == Sum(f, front + back) + Sum(f, [key])
  {
    hide Sum;
    SumJoin(f, front + [key], back);
    SumJoin(f, front, [key]);
    SumJoin(f, front, back);
  }

  /** A sum does not depend on the order of the listing. */
  lemma {:induction false} SumPermutes<K(!new), V>(f: K -> multiset<V>, a: seq<K>, b: seq<K>)
    requires multiset(a) == multiset(b)
    ensures Sum(f, a) == Sum(f, b)
  {
    hide Sum;
    if a == [] {
      assert |b| == |multiset(b)| == 0;
    } else {
      var front, back := TakeOut(a, b);
      var before, last := a[..|a| - 1], a[|a| - 1];
      SumPermutes(f, before, front + back);
      SumAround(f, front, last, back);
      SumJoin(f, before, [last]);
      assert a == before + [last];
    }
  }

  lemma {:induction false} SumAgrees<K(!new), V>(f: K -> multiset<V>, g: K -> multiset<V>, keys: seq<K>)
    requires forall key :: f(key) == g(key)
    ensures Sum(f, keys) == Sum(g, keys)
  {
    if keys != [] {
      SumAgrees(f, g, keys[..|keys| - 1]);
    }
  }

  lemma {:induction false} Occurs<T>(s: seq<T>, x: T)
    requires forall i, j :: 0 <= i < j < |s| ==> s[i] != s[j]
    ensures multiset(s)[x] == if x in s then 1 else 0
    decreases |s|
  {
    if s != [] {
      Occurs(s[1..], x);
      assert s == [s[0]] + s[1..];
    }
  }

  lemma ListingsPermute<T>(a: seq<T>, b: seq<T>)
    requires forall i, j :: 0 <= i < j < |a| ==> a[i] != a[j]
    requires forall i, j :: 0 <= i < j < |b| ==> b[i] != b[j]
    requires forall x :: x in a <==> x in b
    ensures multiset(a) == multiset(b)
  {
    forall x
      ensures multiset(a)[x] == multiset(b)[x]
    {
      Occurs(a, x);
      Occurs(b, x);
    }
  }

  // ---------------------------------------------------------------- slots

  /** Every group that has a checkpoint in the window, once, in some order. */
  ghost predicate Lists(keys: seq<GroupKey>, values: seq<EvaluationInput>) {
    NoRepeats(keys) && forall key :: key in keys <==> Where(values, InGroup(key)) != []
  }

  function Yield(values: seq<EvaluationInput>, key: GroupKey): Result<seq<Candidate>> {
    GroupCandidate(key, Where(values, InGroup(key)))
  }

  function CoresOf(r: Result<seq<Candidate>>): multiset<Core> {
    if r.Ok? then Cores(r.value) else multiset{}
  }

  /** What each group yields. */
  ghost function Yields(values: seq<EvaluationInput>): GroupKey -> multiset<Core> {
    key => CoresOf(Yield(values, key))
  }

  predicate AllYield(values: seq<EvaluationInput>, keys: seq<GroupKey>) {
    forall key :: key in keys ==> Yield(values, key).Ok?
  }

  lemma AllYieldStep(values: seq<EvaluationInput>, keys: seq<GroupKey>)
    requires keys != []
    ensures AllYield(values, keys) <==> AllYield(values, keys[..|keys| - 1]) && Yield(values, keys[|keys| - 1]).Ok?
  {
    hide Yield;
    var before, last := keys[..|keys| - 1], keys[|keys| - 1];
    assert keys == before + [last];
  }

  lemma YieldFails(values: seq<EvaluationInput>, key: GroupKey)
    ensures Yield(values, key).Err? ==> Yield(values, key).error == SeverityCounts
  {
    hide Where, Urls, Degraded, Recovered;
  }

  /** A window raises exactly when one of its groups does, always the same error; else it yields what they yield together. */
  lemma {:induction false} CollectedIsYields(values: seq<EvaluationInput>, keys: seq<GroupKey>)
    ensures AllYield(values, keys) ==>
      Collected(values, keys).Ok? && Cores(Collected(values, keys).value) == Sum(Yields(values), keys)
    ensures !AllYield(values, keys) ==> Collected(values, keys) == Err(SeverityCounts)
  {
    if keys != [] {
      var before, last := keys[..|keys| - 1], keys[|keys| - 1];
      AllYieldStep(values, keys);
      YieldFails(values, last);
      hide AllYield, GroupCandidate, Where;
      CollectedIsYields(values, before);
      if AllYield(values, keys) {
        CoresJoin(Collected(values, before).value, Yield(values, last).value);
      }
    }
  }

  lemma {:induction false} AlikeCores(a: seq<Candidate>, b: seq<Candidate>)
    requires ResultsAlike(Ok(a), Ok(b))
    ensures Cores(a) == Cores(b)
  {
    if a != [] {
      hide Alike;
      AlikeCores(a[..|a| - 1], b[..|b| - 1]);
      AlikeCore(a[|a| - 1], b[|b| - 1]);
      hide CoreOf;
    }
  }

  lemma AlikeCore(a: Candidate, b: Candidate)
    requires Alike(a, b)
    ensures CoreOf(a) == CoreOf(b)
  {
  }

  lemma YieldPermutes(a: seq<EvaluationInput>, b: seq<EvaluationInput>, key: GroupKey)
    requires multiset(a) == multiset(b)
    ensures Yield(a, key).Ok? <==> Yield(b, key).Ok?
    ensures CoresOf(Yield(a, key)) == CoresOf(Yield(b, key))
  {
    OrderDoesNotMatter(a, b, key);
    hide GroupCandidate, Where, Cores, Alike;
    if Yield(a, key).Ok? {
      AlikeCores(Yield(a, key).value, Yield(b, key).value);
    }
  }

  /**
    Whatever the order in which a window's checkpoints are read, and in which its groups are met, the
    slots raise for both orders or for neither, and yield the same candidates up to their order
    and to the order of their evidence.
  */
  lemma SlotOrderDoesNotMatter(a: seq<EvaluationInput>, b: seq<EvaluationInput>, keysA: seq<GroupKey>, keysB: seq<GroupKey>)
    requires multiset(a) == multiset(b) && Lists(keysA, a) && Lists(keysB, b)
    ensures SameYield(Collected(a, keysA), Collected(b, keysB))
  {
    hide Cores, Collected, Yield, CoresOf;
    SameGroups(a, b, keysA, keysB);
    forall key
      ensures Yields(a)(key) == Yields(b)(key)
    {
      YieldPermutes(a, b, key);
    }
    forall key
      ensures Yield(a, key).Ok? <==> Yield(b, key).Ok?
    {
      YieldPermutes(a, b, key);
    }
    SumPermutes(Yields(a), keysA, keysB);
    SumAgrees(Yields(a), Yields(b), keysB);
    CollectedIsYields(a, keysA);
    CollectedIsYields(b, keysB);
    hide Yields;
  }

  lemma SameGroups(a: seq<EvaluationInput>, b: seq<EvaluationInput>, keysA: seq<GroupKey>, keysB: seq<GroupKey>)
    requires multiset(a) == multiset(b) && Lists(keysA, a) && Lists(keysB, b)
    ensures multiset(keysA) == multiset(keysB) && forall key :: key in keysA <==> key in keysB
  {
    hide Where;
    forall key
      ensures key in keysA <==> key in keysB
    {
      OrderDoesNotMatter(a, b, key);
    }
    ListingsPermute(keysA, keysB);
  }

  // ---------------------------------------------------------------- noindex

  ghost function PairsIn(): EvaluationInput -> multiset<Pointer> {
    v => multiset(PairOf(v))
  }

  lemma {:induction false} PairsAreSum(vs: seq<EvaluationInput>)
    ensures multiset(Pairs(vs)) == Sum(PairsIn(), vs)
  {
    if vs != [] {
      PairsAreSum(vs[..|vs| - 1]);
    }
  }

  /** The candidate of one page reported by itself. */
  ghost function PageIn(severity: Severity): EvaluationInput -> multiset<Core> {
    v => multiset{CoreOf(ForPage(v, severity))}
  }

  lemma {:induction false} PagesAreSum(vs: seq<EvaluationInput>)
    ensures SeverityFor(WindowEvaluation.RULE, 1, 1).Ok? && ForPages(vs).Ok?
    ensures Cores(ForPages(vs).value) == Sum(PageIn(SeverityFor(WindowEvaluation.RULE, 1, 1).value), vs)
  {
    AlonePageHasSeverity();
    hide ForPage, CoreOf, Cores, SeverityFor;
    if vs != [] {
      var before, last := vs[..|vs| - 1], vs[|vs| - 1];
      PagesAreSum(before);
      var c := ForPage(last, SeverityFor(WindowEvaluation.RULE, 1, 1).value);
      CoresJoin(ForPages(before).value, [c]);
      CoresOfOne(c);
    } else {
      CoresStep([]);
    }
  }

  lemma AlonePageHasSeverity()
    ensures SeverityFor(WindowEvaluation.RULE, 1, 1).Ok?
  {
  }

  lemma TemplatePermutes(pages: PageGroup, a: seq<EvaluationInput>, b: seq<EvaluationInput>, valid: nat, severity: Severity)
    requires multiset(a) == multiset(b) && |a| == |b| && a != []
    ensures b != [] && CoreOf(ForTemplate(pages, a, valid, severity)) == CoreOf(ForTemplate(pages, b, valid, severity))
  {
    hide Earliest, LatestAt, Pairs;
    TimesPermute(a, b);
    PairsAreSum(a);
    PairsAreSum(b);
    SumPermutes(PairsIn(), a, b);
  }

  lemma PagesPermute(pages: PageGroup, a: seq<EvaluationInput>, b: seq<EvaluationInput>, valid: nat)
    requires multiset(a) == multiset(b) && |a| == |b|
    ensures SameYield(PagesResult(pages, a, valid), PagesResult(pages, b, valid))
  {
    hide ForPages, ForTemplate, Cores, CoreOf, SeverityFor;
    if a != [] && |a| >= WindowEvaluation.RULE.minAffectedUrls && valid >= WindowEvaluation.RULE.minValidUrls {
      var severity := SeverityFor(WindowEvaluation.RULE, |a|, valid);
      if severity.Ok? {
        TemplatePermutes(pages, a, b, valid, severity.value);
        CoresOfOne(ForTemplate(pages, a, valid, severity.value));
        CoresOfOne(ForTemplate(pages, b, valid, severity.value));
      }
    } else {
      PagesAreSum(a);
      PagesAreSum(b);
      SumPermutes(PageIn(SeverityFor(WindowEvaluation.RULE, 1, 1).value), a, b);
    }
  }

  function GroupOf(values: seq<EvaluationInput>, pages: PageGroup): Result<seq<Candidate>> {
    PagesResult(pages, Where(values, GainedOn(pages)), |Where(values, OnPages(pages))|)
  }

  /** What each group of pages yields. */
  ghost function Gains(values: seq<EvaluationInput>): PageGroup -> multiset<Core> {
    pages => CoresOf(GroupOf(values, pages))
  }

  lemma {:induction false} NoindexIsGains(values: seq<EvaluationInput>, order: seq<PageGroup>)
    ensures NoindexOf(values, order).Ok? && Cores(NoindexOf(values, order).value) == Sum(Gains(values), order)
  {
    if order != [] {
      hide PagesResult, Where, Cores;
      var before, last := order[..|order| - 1], order[|order| - 1];
      NoindexIsGains(values, before);
      GroupSucceeds(values, last);
      CoresJoin(NoindexOf(values, before).value, GroupOf(values, last).value);
    } else {
      assert Cores([]) == multiset{};
    }
  }

  lemma GainsPermute(a: seq<EvaluationInput>, b: seq<EvaluationInput>, pages: PageGroup)
    requires multiset(a) == multiset(b)
    ensures CoresOf(GroupOf(a, pages)) == CoresOf(GroupOf(b, pages))
  {
    hide PagesResult, Where, Cores;
    WherePermutes(a, b, GainedOn(pages));
    WherePermutes(a, b, OnPages(pages));
    PagesPermute(pages, Where(a, GainedOn(pages)), Where(b, GainedOn(pages)), |Where(a, OnPages(pages))|);
  }

  /** The same for the pages that gained noindex, which never raise. */
  lemma NoindexOrderDoesNotMatter(a: seq<EvaluationInput>, b: seq<EvaluationInput>, orderA: seq<PageGroup>, orderB: seq<PageGroup>)
    requires multiset(a) == multiset(b) && ListsGained(a, orderA) && ListsGained(b, orderB)
    ensures NoindexOf(a, orderA).Ok? && SameYield(NoindexOf(a, orderA), NoindexOf(b, orderB))
  {
    hide Cores, NoindexOf, GroupOf, CoresOf;
    SameGained(a, b, orderA, orderB);
    forall pages
      ensures Gains(a)(pages) == Gains(b)(pages)
    {
      GainsPermute(a, b, pages);
    }
    SumPermutes(Gains(a), orderA, orderB);
    SumAgrees(Gains(a), Gains(b), orderB);
    NoindexIsGains(a, orderA);
    NoindexIsGains(b, orderB);
  }

  lemma SameGained(a: seq<EvaluationInput>, b: seq<EvaluationInput>, orderA: seq<PageGroup>, orderB: seq<PageGroup>)
    requires multiset(a) == multiset(b) && ListsGained(a, orderA) && ListsGained(b, orderB)
    ensures multiset(orderA) == multiset(orderB)
  {
    hide Where;
    forall pages
      ensures pages in orderA <==> pages in orderB
    {
      WherePermutes(a, b, GainedOn(pages));
    }
    ListingsPermute(orderA, orderB);
  }

  // ---------------------------------------------------------------- the whole window

  lemma UsablePermutes(a: seq<WindowInput>, b: seq<WindowInput>)
    requires multiset(a) == multiset(b)
    ensures multiset(UsableOf(a)) == multiset(UsableOf(b))
  {
    hide Usable, UsableOf;
    forall v
      ensures multiset(UsableOf(a))[v] == multiset(UsableOf(b))[v]
    {
      UsedCheckpoints(a, v);
      UsedCheckpoints(b, v);
    }
  }

  lemma SameMembersOf<T>(a: seq<T>, b: seq<T>)
    requires multiset(a) == multiset(b)
    ensures a == [] <==> b == []
    ensures forall x :: x in a <==> x in b
  {
    assert |a| == |multiset(a)| == |multiset(b)| == |b|;
    forall x
      ensures x in a <==> x in b
    {
      assert x in a <==> x in multiset(a);
    }
  }

  predicate SameResult(r: WindowResult, s: WindowResult) {
    match (r, s)
    case (Evaluated(x), Evaluated(y)) => SameYield(x, y)
    case _ => r == s
  }

  /**
    Whatever the order in which the checkpoints of a window are read, its evaluation ends alike: empty,
    incomplete, without a valid run, raising, or with the same candidates up to their order and to the
    order of their evidence.
  */
  lemma WindowOrderDoesNotMatter(a: seq<WindowInput>, r: WindowResult, pagesA: seq<PageGroup>, slotsA: seq<GroupKey>,
                                 b: seq<WindowInput>, s: WindowResult, pagesB: seq<PageGroup>, slotsB: seq<GroupKey>)
    requires multiset(a) == multiset(b)
    requires Evaluates(a, r, pagesA, slotsA) && Evaluates(b, s, pagesB, slotsB)
    ensures SameResult(r, s)
  {
    hide UsableOf, NoindexOf, Collected, ListsGained, Where, Cores, NoRepeats;
    SameMembersOf(a, b);
    UsablePermutes(a, b);
    SameMembersOf(UsableOf(a), UsableOf(b));
    if r.Evaluated? && s.Evaluated? {
      NoindexOrderDoesNotMatter(UsableOf(a), UsableOf(b), pagesA, pagesB);
      SlotOrderDoesNotMatter(UsableOf(a), UsableOf(b), slotsA, slotsB);
      TogetherSame(NoindexOf(UsableOf(a), pagesA), NoindexOf(UsableOf(b), pagesB),
                   Collected(UsableOf(a), slotsA), Collected(UsableOf(b), slotsB));
    }
  }

  lemma TogetherSame(a: Result<seq<Candidate>>, b: Result<seq<Candidate>>, c: Result<seq<Candidate>>, d: Result<seq<Candidate>>)
    requires SameYield(a, b) && SameYield(c, d)
    ensures SameYield(Together(a, c), Together(b, d))
  {
    hide Cores;
    if a.Ok? && c.Ok? {
      CoresJoin(a.value, c.value);
      CoresJoin(b.value, d.value);
    }
  }
}
