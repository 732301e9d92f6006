/** Python's `sorted` on a set of texts: the one strictly increasing listing of it. */
module Names {
  predicate Increasing(s: seq<int>) {
    forall i, j :: 0 <= i < j < |s| ==> s[i] < s[j]
  }

  ghost predicate Lists(s: seq<int>, names: set<int>) {
    Increasing(s) && forall x :: x in s <==> x in names
  }

  lemma SubsetByMembers<T>(a: set<T>, b: set<T>)
    requires forall x :: x in a ==> x in b
    ensures a <= b
  {
  }

  lemma Member<T>(s: set<T>) returns (m: T)
    requires s != {}
    ensures m in s
  {
    m :| m in s;
  }

  lemma {:induction false} LeastExists(names: set<int>) returns (least: int)
    requires names != {}
    ensures least in names && forall x :: x in names ==> least <= x
  {
    var m := Member(names);
    var rest := names - {m};
    assert names == {m} + rest;
    least := m;
    if rest != {} {
      var l := LeastExists(rest);
      least := if m < l then m else l;
    }
  }

  lemma {:induction false} ListingExists(names: set<int>)
    ensures exists s :: Lists(s, names)
    decreases |names|
  {
    if names == {} {
      assert Lists([], names);
    } else {
      var m := LeastExists(names);
      ListingExists(names - {m});
      var t :| Lists(t, names - {m});
      assert forall i :: 0 <= i < |t| ==> t[i] in t;
      assert Lists([m] + t, names);
    }
  }

  ghost function Sorted(names: set<int>): (s: seq<int>)
    ensures Lists(s, names)
  {
    ListingExists(names);
    var s :| Lists(s, names);
    s
  }

  lemma MemberAfterHead(s: seq<int>, x: int)
    requires s != [] && Increasing(s)
    ensures x in s[1..] <==> x in s && x != s[0]
  {
    if x in s && x != s[0] {
      var i :| 0 <= i < |s| && s[i] == x;
      assert s[1..][i - 1] == x;
    }
  }

  /** There is no other such listing. */
  lemma {:induction false} ListingIsUnique(s: seq<int>, t: seq<int>, names: set<int>)
    requires Lists(s, names) && Lists(t, names)
    ensures s == t
  {
    assert s != [] ==> s[0] in s;
    assert t != [] ==> t[0] in t;
    if s != [] && t != [] {
      assert s[0] == t[0];
      forall x
        ensures x in s[1..] <==> x in t[1..]
      {
        MemberAfterHead(s, x);
        MemberAfterHead(t, x);
      }
      ListingIsUnique(s[1..], t[1..], names - {s[0]});
    }
  }

  method Sort(names: set<int>) returns (s: seq<int>)
    ensures s == Sorted(names)
  {
    s := [];
    var rest := names;
    while rest != {}
      invariant rest <= names
      invariant Lists(s, names - rest)
      invariant forall x, y :: x in s && y in rest ==> x < y
    {
      ghost var least := LeastExists(rest);
      assert least in rest && forall x :: x in rest ==> least <= x;
      var m :| m in rest && forall x :: x in rest ==> m <= x;
      assert forall i :: 0 <= i < |s| ==> s[i] in s;
      assert forall x :: x in names - (rest - {m}) <==> x in names - rest || x == m;
      s, rest := s + [m], rest - {m};
    }
    assert names - rest == names;
    ListingIsUnique(s, Sorted(names), names);
  }
}
