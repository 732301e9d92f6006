/** Filters over the checkpoints of a window, and what they keep under reordering. */
module WindowGroups {
  import opened Contracts

  datatype GroupKey = GroupKey(template: Id, scenario: Id, subject: Name)

  datatype PageGroup = PageGroup(template: Id, scenario: Id)

  /** The token "noindex" among a page's robots directives. */
  const NOINDEX: Name := 0

  predicate GainsNoindex(v: EvaluationInput) {
    && SeoPart in v.previousState && SeoPart in v.currentState
    && NOINDEX !in v.previousState[SeoPart].items && NOINDEX in v.currentState[SeoPart].items
  }

  function PagesOf(v: EvaluationInput): PageGroup {
    PageGroup(v.template, v.scenario)
  }

  /** What a list of checkpoints is filtered by. */
  datatype Test =
    | InGroup(key: GroupKey)
    | IsMissing(subject: Name)
    | IsPresent(subject: Name)
    | WentMissing(subject: Name)
    | OnPages(pages: PageGroup)
    | GainedNoindex
    | GainedOn(pages: PageGroup)

  predicate Holds(t: Test, v: EvaluationInput) {
    match t
    case InGroup(key) => v.template == key.template && v.scenario == key.scenario && key.subject in v.currentSlots
    case IsMissing(subject) => subject in v.currentSlots && !v.currentSlots[subject]
    case IsPresent(subject) => subject in v.currentSlots && v.currentSlots[subject]
    case WentMissing(subject) =>
      subject in v.currentSlots && !v.currentSlots[subject] && subject in v.previousSlots && v.previousSlots[subject]
    case OnPages(pages) => PagesOf(v) == pages
    case GainedNoindex => GainsNoindex(v)
    case GainedOn(pages) => GainsNoindex(v) && PagesOf(v) == pages
  }

  function Where(vs: seq<EvaluationInput>, t: Test): seq<EvaluationInput> {
    if vs == [] then []
    else
      var last := vs[|vs| - 1];
      Where(vs[..|vs| - 1], t) + if Holds(t, last) then [last] else []
  }

  function Urls(vs: seq<EvaluationInput>): set<Id> {
    set v | v in vs :: v.url
  }

  function Earliest(vs: seq<EvaluationInput>): Time
    requires vs != []
  {
    var last := vs[|vs| - 1].previousAt;
    if |vs| == 1 then last
    else
      var before := Earliest(vs[..|vs| - 1]);
      if before <= last then before else last
  }

  function LatestAt(vs: seq<EvaluationInput>): Time
    requires vs != []
  {
    var last := vs[|vs| - 1].currentAt;
    if |vs| == 1 then last
    else
      var before := LatestAt(vs[..|vs| - 1]);
      if before >= last then before else last
  }

  /** Where the first checkpoint stands that passes, or the length when none does. */
  function FirstAt(vs: seq<EvaluationInput>, t: Test): (k: nat)
    ensures k <= |vs|
  {
    if vs == [] then 0
    else
      var before := FirstAt(vs[..|vs| - 1], t);
      if before < |vs| - 1 || Holds(t, vs[|vs| - 1]) then before else |vs|
  }

  lemma {:induction false} FirstAtIsFirst(vs: seq<EvaluationInput>, t: Test)
    ensures forall i :: 0 <= i < FirstAt(vs, t) ==> !Holds(t, vs[i])
    ensures FirstAt(vs, t) < |vs| ==> Holds(t, vs[FirstAt(vs, t)])
    ensures FirstAt(vs, t) < |vs| <==> Where(vs, t) != []
  {
    if vs != [] {
      FirstAtIsFirst(vs[..|vs| - 1], t);
    }
  }

  lemma FirstAtLater(vs: seq<EvaluationInput>, v: EvaluationInput, t: Test)
    ensures FirstAt(vs + [v], t) ==
      if FirstAt(vs, t) < |vs| || Holds(t, v) then FirstAt(vs, t) else |vs| + 1
  {
    assert (vs + [v])[..|vs|] == vs;
  }

  method Select(vs: seq<EvaluationInput>, t: Test) returns (kept: seq<EvaluationInput>)
    ensures kept == Where(vs, t)
  {
    kept := [];
    for i := 0 to |vs|
      invariant kept == Where(vs[..i], t)
    {
      assert vs[..i + 1][..i] == vs[..i];
      if Holds(t, vs[i]) {
        kept := kept + [vs[i]];
      }
    }
    assert vs[..|vs|] == vs;
  }

  // ---------------------------------------------------------------- lemmas about the filters

  lemma {:induction false} WhereMembers(vs: seq<EvaluationInput>, t: Test)
    ensures |Where(vs, t)| <= |vs|
    ensures forall v :: v in Where(vs, t) <==> v in vs && Holds(t, v)
  {
    if vs != [] {
      WhereMembers(vs[..|vs| - 1], t);
      assert vs == vs[..|vs| - 1] + [vs[|vs| - 1]];
    }
  }

  lemma {:induction false} WhereCounts(vs: seq<EvaluationInput>, t: Test, v: EvaluationInput)
    ensures multiset(Where(vs, t))[v] == if Holds(t, v) then multiset(vs)[v] else 0
  {
    if vs != [] {
      WhereCounts(vs[..|vs| - 1], t, v);
      assert vs == vs[..|vs| - 1] + [vs[|vs| - 1]];
    }
  }

  lemma WherePermutes(a: seq<EvaluationInput>, b: seq<EvaluationInput>, t: Test)
    requires multiset(a) == multiset(b)
    ensures multiset(Where(a, t)) == multiset(Where(b, t))
    ensures |Where(a, t)| == |Where(b, t)|
  {
    forall v
      ensures multiset(Where(a, t))[v] == multiset(Where(b, t))[v]
    {
      WhereCounts(a, t, v);
      WhereCounts(b, t, v);
    }
    assert multiset(Where(a, t)) == multiset(Where(b, t));
    assert |Where(a, t)| == |multiset(Where(a, t))|;
    assert |Where(b, t)| == |multiset(Where(b, t))|;
  }

  lemma SameMembers(a: seq<EvaluationInput>, b: seq<EvaluationInput>)
    requires multiset(a) == multiset(b)
    ensures forall v :: v in a <==> v in b
  {
    forall v
      ensures v in a <==> v in b
    {
      assert v in a <==> v in multiset(a);
    }
  }

  lemma {:induction false} EarliestIsLeast(vs: seq<EvaluationInput>)
    requires vs != []
    ensures forall v :: v in vs ==> Earliest(vs) <= v.previousAt
    ensures exists v :: v in vs && v.previousAt == Earliest(vs)
  {
    var before, last := vs[..|vs| - 1], vs[|vs| - 1];
    assert vs == before + [last] && last in vs;
    if before != [] {
      EarliestIsLeast(before);
      var w :| w in before && w.previousAt == Earliest(before);
      assert w in vs;
    }
  }

  lemma {:induction false} LatestAtIsGreatest(vs: seq<EvaluationInput>)
    requires vs != []
    ensures forall v :: v in vs ==> LatestAt(vs) >= v.currentAt
    ensures exists v :: v in vs && v.currentAt == LatestAt(vs)
  {
    var before, last := vs[..|vs| - 1], vs[|vs| - 1];
    assert vs == before + [last] && last in vs;
    if before != [] {
      LatestAtIsGreatest(before);
      var w :| w in before && w.currentAt == LatestAt(before);
      assert w in vs;
    }
  }

  lemma TimesPermute(a: seq<EvaluationInput>, b: seq<EvaluationInput>)
    requires multiset(a) == multiset(b) && a != []
    ensures b != [] && Earliest(a) == Earliest(b) && LatestAt(a) == LatestAt(b)
  {
    SameMembers(a, b);
    assert a[0] in b;
    EarliestIsLeast(a);
    EarliestIsLeast(b);
    LatestAtIsGreatest(a);
    LatestAtIsGreatest(b);
  }

  lemma WithoutOne<T>(s: seq<T>, i: nat)
    requires i < |s|
    ensures s == s[..i] + [s[i]] + s[i + 1..]
    ensures multiset(s[..i] + s[i + 1..]) == multiset(s) - multiset{s[i]}
  {
    var front, back := s[..i], s[i + 1..];
    assert s == front + [s[i]] + back;
    assert multiset(s) == multiset(front) + multiset{s[i]} + multiset(back);
  }

  lemma LastTaken<T>(s: seq<T>)
    requires s != []
    ensures s == s[..|s| - 1] + [s[|s| - 1]] + []
    ensures multiset(s[..|s| - 1]) == multiset(s) - multiset{s[|s| - 1]}
  {
    WithoutOne(s, |s| - 1);
    assert s[..|s| - 1] + s[|s|..] == s[..|s| - 1];
  }

  lemma Position<T>(s: seq<T>, x: T) returns (i: nat)
    requires x in multiset(s)
    ensures i < |s| && s[i] == x
  {
    i :| 0 <= i < |s| && s[i] == x;
  }

  lemma TakeOut<T>(a: seq<T>, b: seq<T>) returns (front: seq<T>, back: seq<T>)
    requires multiset(a) == multiset(b) && a != []
    ensures b == front + [a[|a| - 1]] + back && multiset(a[..|a| - 1]) == multiset(front + back)
    ensures a == a[..|a| - 1] + [a[|a| - 1]] + []
  {
    LastTaken(a);
    assert a[|a| - 1] in multiset(a);
    var i := Position(b, a[|a| - 1]);
    WithoutOne(b, i);
    front, back := b[..i], b[i + 1..];
  }
}
