/** Exactly which documents the structural parser follows: its counters, and the list it keeps. */
module DomTracking {
  import opened Contracts
  import opened DomStructure

  /** Void tags and self-closed ones have no content. */
  predicate Plain(forest: seq<Element>) {
    forest == [] || (PlainOne(forest[0]) && Plain(forest[1..]))
  }

  predicate PlainOne(e: Element) {
    (e.tag.VoidTag? || e.closed ==> e.children == []) && Plain(e.children)
  }

  /** No noscript is self-closed. */
  predicate Balanced(forest: seq<Element>) {
    forest == [] || (BalancedOne(forest[0]) && Balanced(forest[1..]))
  }

  predicate BalancedOne(e: Element) {
    !(e.tag == Noscript && e.closed) && Balanced(e.children)
  }

  /** Some ordinary tag is self-closed, at any level. */
  predicate Slips(forest: seq<Element>) {
    forest != [] && (SlipsOne(forest[0]) || Slips(forest[1..]))
  }

  predicate SlipsOne(e: Element) {
    (e.tag.Ordinary? && e.closed) || Slips(e.children)
  }

  /** Some ordinary tag is self-closed inside a noscript. */
  predicate SlipsHidden(forest: seq<Element>) {
    forest != [] && (SlipsHiddenOne(forest[0]) || SlipsHidden(forest[1..]))
  }

  predicate SlipsHiddenOne(e: Element) {
    if e.tag == Noscript then Slips(e.children) else SlipsHidden(e.children)
  }

  lemma {:induction false} FollowableHidden(forest: seq<Element>)
    requires Plain(forest)
    ensures Followable(forest, true) <==> Balanced(forest) && !Slips(forest)
    decreases forest
  {
    if forest != [] {
      FollowableHidden(forest[0].children);
      FollowableHidden(forest[1..]);
    }
  }

  lemma {:induction false} FollowableVisible(forest: seq<Element>)
    requires Plain(forest)
    ensures Followable(forest, false) <==> Balanced(forest) && !SlipsHidden(forest)
    decreases forest
  {
    if forest != [] {
      FollowableHidden(forest[0].children);
      FollowableVisible(forest[0].children);
      FollowableVisible(forest[1..]);
    }
  }

  // ---------------------------------------------------------------- inside a noscript

  /** Nothing is listed, neither counter recovers, and each moves exactly with the tags that break it. */
  ghost predicate HiddenEffect(s: State, t: State, balanced: bool, slips: bool) {
    && t.nodes == s.nodes && t.truncated == s.truncated
    && t.ignored >= s.ignored && t.depth <= s.depth
    && (t.ignored == s.ignored <==> balanced)
    && (balanced ==> (t.depth == s.depth <==> s.depth == 0 || !slips))
  }

  lemma {:induction false} HiddenForest(s: State, forest: seq<Element>)
    requires s.ignored > 0 && Plain(forest)
    ensures HiddenEffect(s, Feed(s, Events(forest)), Balanced(forest), Slips(forest))
    decreases forest, 1
  {
    if forest != [] {
      FeedOfJoin(s, EventsOf(forest[0]), Events(forest[1..]));
      HiddenElement(s, forest[0]);
      HiddenForest(Feed(s, EventsOf(forest[0])), forest[1..]);
    }
  }

  lemma {:induction false} HiddenElement(s: State, e: Element)
    requires s.ignored > 0 && PlainOne(e)
    ensures HiddenEffect(s, Feed(s, EventsOf(e)), BalancedOne(e), SlipsOne(e))
    decreases e, 0
  {
    if e.closed {
      FeedOne(s, StartEndTag(e.tag, e.attributes));
    } else if e.tag.VoidTag? {
      FeedOne(s, StartTag(e.tag, e.attributes));
    } else {
      FeedAround(s, e);
      HiddenForest(OnStart(s, e.tag, e.attributes), e.children);
    }
  }

  // ---------------------------------------------------------------- outside of it

  lemma {:induction false} SameCount(trees: seq<Tree>, a: nat, b: nat)
    ensures |Flattened(trees, a)| == |Flattened(trees, b)|
    decreases trees
  {
    if trees != [] {
      SameCount(trees[0].children, a + 1, b + 1);
      SameCount(trees[1..], a, b);
    }
  }

  lemma {:induction false} ShallowerStill(trees: seq<Tree>, a: nat, b: nat)
    requires Shallow(trees, a) && b <= a
    ensures Shallow(trees, b)
    decreases trees
  {
    if trees != [] {
      ShallowerStill(trees[0].children, a + 1, b + 1);
      ShallowerStill(trees[1..], a, b);
    }
  }

  predicate Fits(s: State, forest: seq<Element>) {
    Shallow(Erased(forest), s.depth) && |s.nodes| + |Flattened(Erased(forest), s.depth)| <= MAX_DOM_NODES
  }

  /** As many nodes are listed as there are, the first at the parser's depth or above it; the depth never rises. */
  ghost predicate VisibleEffect(s: State, t: State, count: nat, balanced: bool, slips: bool) {
    && (t.ignored == 0 <==> balanced)
    && (balanced ==>
          && t.truncated == s.truncated && s.nodes <= t.nodes && |t.nodes| == |s.nodes| + count
          && (count > 0 ==> t.nodes[|s.nodes|].depth <= s.depth)
          && t.depth <= s.depth && (t.depth == s.depth <==> s.depth == 0 || !slips))
  }

  lemma {:induction false} ErasedSplits(s: State, forest: seq<Element>)
    requires forest != [] && Fits(s, forest)
    ensures var e, rest := forest[0], forest[1..];
      && Erased(forest) == Erased([e]) + Erased(rest)
      && Flattened(Erased(forest), s.depth) == Flattened(Erased([e]), s.depth) + Flattened(Erased(rest), s.depth)
      && Fits(s, [e])
      && forall t: State :: t.depth <= s.depth && |t.nodes| == |s.nodes| + |Flattened(Erased([e]), s.depth)| ==> Fits(t, rest)
  {
    var e, rest := forest[0], forest[1..];
    assert [e][1..] == [];
    var trees := Erased(forest);
    if e.tag != Noscript {
      assert trees[1..] == Erased(rest) && trees[0] == Erased([e])[0] && Erased([e])[1..] == [];
    }
    assert Shallow(Erased(rest), s.depth);
    assert Flattened(trees, s.depth) == Flattened(Erased([e]), s.depth) + Flattened(Erased(rest), s.depth);
    forall t: State | t.depth <= s.depth && |t.nodes| == |s.nodes| + |Flattened(Erased([e]), s.depth)|
      ensures Fits(t, rest)
    {
      SameCount(Erased(rest), s.depth, t.depth);
      ShallowerStill(Erased(rest), s.depth, t.depth);
    }
  }

  lemma {:induction false} VisibleForest(s: State, forest: seq<Element>)
    requires s.ignored == 0 && Plain(forest) && Fits(s, forest)
    ensures VisibleEffect(s, Feed(s, Events(forest)), |Flattened(Erased(forest), s.depth)|, Balanced(forest), SlipsHidden(forest))
    decreases forest, 1
  {
    hide VisibleEffect, HiddenEffect, Flattened, Erased, Fits, EventsOf, BalancedOne, SlipsHiddenOne, PlainOne;
    if forest == [] {
      NothingVisible(s);
    } else {
      var e, rest := forest[0], forest[1..];
      FeedOfJoin(s, EventsOf(e), Events(rest));
      ErasedSplits(s, forest);
      VisibleElement(s, e);
      var m, t := Feed(s, EventsOf(e)), Feed(s, Events(forest));
      var first, others := |Flattened(Erased([e]), s.depth)|, |Flattened(Erased(rest), s.depth)|;
      OpenOnlyIfBalanced(s, m, first, BalancedOne(e), SlipsHiddenOne(e));
      if BalancedOne(e) {
        VisibleForest(m, rest);
        SameCount(Erased(rest), s.depth, m.depth);
        VisibleChain(s, m, t, first, others, SlipsHiddenOne(e), Balanced(rest), SlipsHidden(rest));
      } else {
        HiddenForest(m, rest);
        StaysHidden(s, m, t, Balanced(rest), Slips(rest), first + others, SlipsHidden(forest));
      }
    }
  }

  lemma NothingVisible(s: State)
    requires s.ignored == 0
    ensures VisibleEffect(s, Feed(s, Events([])), |Flattened(Erased([]), s.depth)|, true, false)
  {
  }

  lemma OpenOnlyIfBalanced(s: State, m: State, count: nat, balanced: bool, slips: bool)
    requires VisibleEffect(s, m, count, balanced, slips)
    ensures m.ignored == 0 <==> balanced
    ensures balanced ==> m.depth <= s.depth && |m.nodes| == |s.nodes| + count
  {
  }

  lemma VisibleChain(s: State, m: State, t: State, a: nat, b: nat, slips: bool, balanced: bool, slipsAfter: bool)
    requires VisibleEffect(s, m, a, true, slips) && VisibleEffect(m, t, b, balanced, slipsAfter)
    ensures VisibleEffect(s, t, a + b, balanced, slips || slipsAfter)
  {
    if balanced && a + b > 0 && a > 0 {
      assert t.nodes[|s.nodes|] == m.nodes[|s.nodes|];
    }
  }

  lemma StaysHidden(s: State, m: State, t: State, balanced: bool, slips: bool, count: nat, any: bool)
    requires m.ignored > 0 && HiddenEffect(m, t, balanced, slips)
    ensures VisibleEffect(s, t, count, false, any)
  {
  }

  lemma {:induction false} VisibleElement(s: State, e: Element)
    requires s.ignored == 0 && PlainOne(e) && Fits(s, [e])
    ensures VisibleEffect(s, Feed(s, EventsOf(e)), |Flattened(Erased([e]), s.depth)|, BalancedOne(e), SlipsHiddenOne(e))
    decreases e, 0
  {
    ErasedOne(e, s.depth);
    if e.closed || e.tag.VoidTag? {
      VisibleLeaf(s, e);
    } else {
      hide Flattened, Erased, Shallow, VisibleEffect, HiddenEffect, Events, EventsOf, Feed, OnEnd;
      FeedAround(s, e);
      var inside := OnStart(s, e.tag, e.attributes);
      var m := Feed(inside, Events(e.children));
      if e.tag == Noscript {
        HiddenForest(inside, e.children);
        AroundNoscript(s, e, m);
      } else {
        VisibleForest(inside, e.children);
        AroundOrdinary(s, e, m);
      }
    }
  }

  lemma {:induction false} VisibleLeaf(s: State, e: Element)
    requires s.ignored == 0 && PlainOne(e) && Fits(s, [e]) && (e.closed || e.tag.VoidTag?)
    ensures VisibleEffect(s, Feed(s, EventsOf(e)), |Flattened(Erased([e]), s.depth)|, BalancedOne(e), SlipsHiddenOne(e))
  {
    ErasedOne(e, s.depth);
    if e.closed {
      FeedOne(s, StartEndTag(e.tag, e.attributes));
    } else {
      FeedOne(s, StartTag(e.tag, e.attributes));
    }
  }

  lemma {:induction false} AroundNoscript(s: State, e: Element, m: State)
    requires s.ignored == 0 && e.tag == Noscript && !e.closed
    requires HiddenEffect(OnStart(s, e.tag, e.attributes), m, Balanced(e.children), Slips(e.children))
    ensures VisibleEffect(s, OnEnd(m, e.tag), |FlattenedOne(e, s.depth)|, BalancedOne(e), SlipsHiddenOne(e))
  {
    hide Flattened, Erased;
  }

  lemma {:induction false} AroundOrdinary(s: State, e: Element, m: State)
    requires s.ignored == 0 && e.tag.Ordinary? && !e.closed && Fits(s, [e])
    requires VisibleEffect(OnStart(s, e.tag, e.attributes), m, |Flattened(Erased(e.children), s.depth + 1)|,
                           Balanced(e.children), SlipsHidden(e.children))
    ensures VisibleEffect(s, OnEnd(m, e.tag), |FlattenedOne(e, s.depth)|, BalancedOne(e), SlipsHiddenOne(e))
  {
    ErasedOne(e, s.depth);
    hide Flattened, Erased;
  }

  function FlattenedOne(e: Element, depth: nat): seq<Node> {
    if e.tag == Noscript then [] else [Node(depth, e.tag, e.attributes)] + Flattened(Erased(e.children), depth + 1)
  }

  predicate ShallowOne(e: Element, depth: nat) {
    e.tag == Noscript ||
    ((if e.tag.VoidTag? then depth <= MAX_DOM_DEPTH else depth < MAX_DOM_DEPTH) && Shallow(Erased(e.children), depth + 1))
  }

  lemma ErasedOne(e: Element, depth: nat)
    ensures Flattened(Erased([e]), depth) == FlattenedOne(e, depth)
    ensures Shallow(Erased([e]), depth) <==> ShallowOne(e, depth)
  {
    assert [e][1..] == [];
    if e.tag != Noscript {
      assert Erased([e])[1..] == [];
    }
  }

  /**
    Within the limits the events of a forest bring both counters back exactly when no noscript is
    self-closed and, unless the parser is at depth 0, no other tag is self-closed inside a noscript.
  */
  lemma CountersRestoredIff(s: State, forest: seq<Element>)
    requires s.ignored == 0 && Plain(forest) && Fits(s, forest)
    ensures var t := Feed(s, Events(forest));
      t.depth == s.depth && t.ignored == 0 <==> Balanced(forest) && (s.depth == 0 || Followable(forest, false))
  {
    VisibleForest(s, forest);
    FollowableVisible(forest);
  }

  // ---------------------------------------------------------------- the list

  /** Whatever the events, the list only grows, and its first new node is no deeper than the parser was. */
  lemma {:induction false} ListGrows(s: State, events: seq<Event>)
    ensures var t := Feed(s, events);
      s.nodes <= t.nodes && (|t.nodes| > |s.nodes| ==> t.nodes[|s.nodes|].depth <= s.depth)
    decreases |events|
  {
    if events != [] {
      ListGrows(Handle(s, events[0]), events[1..]);
    }
  }

  /** No forest lists more nodes than it has outside noscript, so within the node limit none is cut. */
  lemma {:induction false} NeverListsMore(s: State, forest: seq<Element>, depth: nat)
    requires Plain(forest) && |s.nodes| + |Flattened(Erased(forest), depth)| <= MAX_DOM_NODES
    ensures var t := Feed(s, Events(forest));
      t.truncated == s.truncated && |t.nodes| <= |s.nodes| + |Flattened(Erased(forest), depth)|
    decreases forest, 1
  {
    if forest != [] {
      var e, rest := forest[0], forest[1..];
      CountSplits(forest, depth);
      FeedOfJoin(s, EventsOf(e), Events(rest));
      NeverListsMoreOne(s, e, depth);
      NeverListsMore(Feed(s, EventsOf(e)), rest, depth);
    }
  }

  lemma {:induction false} NeverListsMoreOne(s: State, e: Element, depth: nat)
    requires PlainOne(e) && |s.nodes| + |FlattenedOne(e, depth)| <= MAX_DOM_NODES
    ensures var t := Feed(s, EventsOf(e));
      t.truncated == s.truncated && |t.nodes| <= |s.nodes| + |FlattenedOne(e, depth)|
    decreases e, 0
  {
    if e.closed {
      FeedOne(s, StartEndTag(e.tag, e.attributes));
    } else if e.tag.VoidTag? {
      FeedOne(s, StartTag(e.tag, e.attributes));
    } else {
      FeedAround(s, e);
      var inside := OnStart(s, e.tag, e.attributes);
      if e.tag == Noscript {
        HiddenForest(inside, e.children);
      } else {
        NeverListsMore(inside, e.children, depth + 1);
      }
    }
  }

  lemma {:induction false} CountSplits(forest: seq<Element>, depth: nat)
    requires forest != []
    ensures Flattened(Erased(forest), depth) == FlattenedOne(forest[0], depth) + Flattened(Erased(forest[1..]), depth)
  {
    if forest[0].tag != Noscript {
      assert Erased(forest)[1..] == Erased(forest[1..]);
    }
  }

  /**
    Below some element: once a noscript is left open, or another tag was self-closed inside one, nothing
    is listed any more.
  */
  predicate Listable(forest: seq<Element>) {
    forest == [] ||
    var e, rest := forest[0], forest[1..];
    && ListableOne(e)
    && if BalancedOne(e) then Listable(rest) && (SlipsHiddenOne(e) ==> Erased(rest) == []) else Erased(rest) == []
  }

  predicate ListableOne(e: Element) {
    e.tag == Noscript || Listable(e.children)
  }

  /** At the top of a document every element starts afresh, until a noscript is left open. */
  predicate ListableAtTop(forest: seq<Element>) {
    forest == [] ||
    var e, rest := forest[0], forest[1..];
    ListableOne(e) && if BalancedOne(e) then ListableAtTop(rest) else Erased(rest) == []
  }

  lemma {:induction false} NothingIsListable(forest: seq<Element>)
    requires Erased(forest) == []
    ensures Listable(forest) && ListableAtTop(forest)
    decreases forest
  {
    if forest != [] {
      assert forest[0].tag == Noscript;
      NothingIsListable(forest[1..]);
    }
  }

  /** The nodes of the forest, and no other, were appended. */
  predicate Lists(s: State, t: State, nodes: seq<Node>) {
    t.nodes == s.nodes + nodes
  }

  lemma SplitLists(s: State, m: State, t: State, a: seq<Node>, b: seq<Node>)
    requires s.nodes <= m.nodes <= t.nodes
    requires |m.nodes| == |s.nodes| + |a| || (|m.nodes| <= |s.nodes| + |a| && t.nodes == m.nodes)
    ensures Lists(s, t, a + b) <==> Lists(s, m, a) && Lists(m, t, b)
  {
    if Lists(s, t, a + b) {
      assert |t.nodes| == |s.nodes| + |a| + |b|;
      assert m.nodes == t.nodes[..|m.nodes|] == s.nodes + a;
      assert t.nodes[|m.nodes|..] == b;
      assert t.nodes == m.nodes + b;
    }
    if Lists(s, m, a) && Lists(m, t, b) {
      assert s.nodes + a + b == s.nodes + (a + b);
    }
  }

  lemma NothingListed(s: State)
    ensures Lists(s, s, [])
  {
  }

  /** With nothing outside noscript, nothing is listed; read from too shallow a depth, all else is listed wrongly. */
  lemma ListedTooShallow(s: State, forest: seq<Element>, depth: nat)
    requires Plain(forest) && Fits(s, forest) && s.depth < depth
    ensures Lists(s, Feed(s, Events(forest)), Flattened(Erased(forest), depth)) <==> Erased(forest) == []
  {
    var t, nodes := Feed(s, Events(forest)), Flattened(Erased(forest), depth);
    SameCount(Erased(forest), s.depth, depth);
    NeverListsMore(s, forest, depth);
    ListGrows(s, Events(forest));
    FlattenedDepths(Erased(forest), depth);
    if Erased(forest) == [] {
      assert nodes == [] && t.nodes == s.nodes;
    } else {
      assert nodes[0].depth == depth;
      assert (s.nodes + nodes)[|s.nodes|] == nodes[0];
    }
  }

  /** What one element leaves to the rest: all it has is listed, or the parser is stuck in a noscript. */
  lemma RestAfter(s: State, forest: seq<Element>)
    requires s.ignored == 0 && forest != [] && Plain(forest) && Fits(s, forest)
    ensures var e, rest := forest[0], forest[1..];
      var m, t := Feed(s, EventsOf(e)), Feed(s, Events(forest));
      var a, b := Flattened(Erased([e]), s.depth), Flattened(Erased(rest), s.depth);
      && t == Feed(m, Events(rest)) && Flattened(Erased(forest), s.depth) == a + b
      && PlainOne(e) && Plain(rest) && Fits(s, [e])
      && (Lists(s, t, a + b) <==> Lists(s, m, a) && Lists(m, t, b))
      && if BalancedOne(e) then
           && m.ignored == 0 && m.depth <= s.depth && Fits(m, rest)
           && (m.depth == s.depth <==> s.depth == 0 || !SlipsHiddenOne(e))
         else t.nodes == m.nodes
  {
    var e, rest := forest[0], forest[1..];
    var m, t := Feed(s, EventsOf(e)), Feed(s, Events(forest));
    FeedOfJoin(s, EventsOf(e), Events(rest));
    ErasedSplits(s, forest);
    VisibleElement(s, e);
    ErasedOne(e, s.depth);
    NeverListsMoreOne(s, e, s.depth);
    ListGrows(s, EventsOf(e));
    ListGrows(m, Events(rest));
    if !BalancedOne(e) {
      HiddenForest(m, rest);
    }
    hide Flattened, Erased, Feed, Events, EventsOf, Plain, PlainOne, Fits;
    SplitLists(s, m, t, Flattened(Erased([e]), s.depth), Flattened(Erased(rest), s.depth));
  }

  /** Nothing is listed as far as nothing is there. */
  lemma ListsNothing(s: State, trees: seq<Tree>, depth: nat)
    ensures Lists(s, s, Flattened(trees, depth)) <==> trees == []
  {
    FlattenedDepths(trees, depth);
    var nodes := Flattened(trees, depth);
    assert |s.nodes + nodes| == |s.nodes| + |nodes|;
    if trees == [] {
      assert s.nodes + nodes == s.nodes;
    }
  }

  /** Below some element a forest is listed in preorder with its depths, noscript erased, exactly when it is listable. */
  lemma {:induction false} ListedIffListable(s: State, forest: seq<Element>)
    requires s.ignored == 0 && s.depth > 0 && Plain(forest) && Fits(s, forest)
    ensures Lists(s, Feed(s, Events(forest)), Flattened(Erased(forest), s.depth)) <==> Listable(forest)
    decreases forest, 1
  {
    if forest == [] {
      NothingListed(s);
    } else {
      var e, rest := forest[0], forest[1..];
      var m := Feed(s, EventsOf(e));
      RestAfter(s, forest);
      ElementListedIffListable(s, e);
      if Erased(rest) == [] {
        NothingIsListable(rest);
      }
      hide Flattened, Erased, Fits, Plain, PlainOne, Feed, Events, EventsOf, SlipsHiddenOne, BalancedOne, ListableOne, Lists;
      if !BalancedOne(e) {
        SameNodes(m, m, Feed(m, Events(rest)), Flattened(Erased(rest), s.depth));
        ListsNothing(m, Erased(rest), s.depth);
      } else if m.depth == s.depth {
        ListedIffListable(m, rest);
      } else {
        ListedTooShallow(m, rest, s.depth);
      }
    }
  }

  lemma SameNodes(s: State, m: State, t: State, nodes: seq<Node>)
    requires t.nodes == m.nodes
    ensures Lists(s, t, nodes) <==> Lists(s, m, nodes)
  {
  }

  lemma {:induction false} ElementListedIffListable(s: State, e: Element)
    requires s.ignored == 0 && PlainOne(e) && Fits(s, [e])
    ensures Lists(s, Feed(s, EventsOf(e)), Flattened(Erased([e]), s.depth)) <==> ListableOne(e)
    decreases e, 0
  {
    ErasedOne(e, s.depth);
    if e.closed || e.tag.VoidTag? {
      LeafIsListed(s, e);
    } else {
      hide Flattened, Erased, Shallow, Feed, Events, EventsOf, Listable, Lists, OnEnd, OnStart;
      FeedAround(s, e);
      var inside := OnStart(s, e.tag, e.attributes);
      var m := Feed(inside, Events(e.children));
      OpensAndEnds(s, e, m);
      if e.tag == Noscript {
        HiddenForest(inside, e.children);
        NothingListed(s);
        SameNodes(s, s, OnEnd(m, e.tag), []);
      } else {
        var node, nodes := Node(s.depth, e.tag, e.attributes), Flattened(Erased(e.children), s.depth + 1);
        ListedIffListable(inside, e.children);
        ListGrows(inside, Events(e.children));
        SplitLists(s, inside, m, [node], nodes);
        SameNodes(s, m, OnEnd(m, e.tag), [node] + nodes);
      }
    }
  }

  lemma {:induction false} LeafIsListed(s: State, e: Element)
    requires s.ignored == 0 && PlainOne(e) && Fits(s, [e]) && (e.closed || e.tag.VoidTag?)
    ensures Lists(s, Feed(s, EventsOf(e)), Flattened(Erased([e]), s.depth)) && ListableOne(e)
  {
    ErasedOne(e, s.depth);
    if e.closed {
      FeedOne(s, StartEndTag(e.tag, e.attributes));
    } else {
      FeedOne(s, StartTag(e.tag, e.attributes));
    }
  }

  /** What the tags of one element do around its content. */
  lemma {:induction false} OpensAndEnds(s: State, e: Element, m: State)
    requires s.ignored == 0 && !e.closed && !e.tag.VoidTag? && Fits(s, [e])
    ensures var inside := OnStart(s, e.tag, e.attributes);
      && OnEnd(m, e.tag).nodes == m.nodes
      && (e.tag == Noscript ==> inside.ignored > 0 && inside.nodes == s.nodes)
      && (e.tag != Noscript ==>
            && inside.ignored == 0 && inside.depth == s.depth + 1 && Fits(inside, e.children)
            && Lists(s, inside, [Node(s.depth, e.tag, e.attributes)]))
  {
    ErasedOne(e, s.depth);
    hide Flattened, Erased;
  }

  /** The same at the top of a document, where an element that loses a level has none to lose for the next. */
  lemma {:induction false} TopListedIffListable(s: State, forest: seq<Element>)
    requires s.ignored == 0 && s.depth == 0 && Plain(forest) && Fits(s, forest)
    ensures Lists(s, Feed(s, Events(forest)), Flattened(Erased(forest), 0)) <==> ListableAtTop(forest)
    decreases forest
  {
    if forest == [] {
      NothingListed(s);
    } else {
      var e, rest := forest[0], forest[1..];
      var m := Feed(s, EventsOf(e));
      RestAfter(s, forest);
      ElementListedIffListable(s, e);
      hide Flattened, Erased, Fits, Plain, PlainOne, Feed, Events, EventsOf, BalancedOne, ListableOne, Lists;
      if BalancedOne(e) {
        TopListedIffListable(m, rest);
      } else {
        SameNodes(m, m, Feed(m, Events(rest)), Flattened(Erased(rest), 0));
        ListsNothing(m, Erased(rest), 0);
      }
    }
  }

  // ---------------------------------------------------------------- the limits

  /** How many tags open outside noscript, with this many noscripts open at first. */
  function Visible(hidden: nat, events: seq<Event>): nat
    decreases |events|
  {
    if events == [] then 0
    else
      var rest := events[1..];
      match events[0]
      case EndTag(tag) => Visible(if tag == Noscript && hidden > 0 then hidden - 1 else hidden, rest)
      case StartTag(tag, _) => if tag == Noscript then Visible(hidden + 1, rest) else Visible(hidden, rest) + (if hidden == 0 then 1 else 0)
      case StartEndTag(tag, _) => if tag == Noscript then Visible(hidden + 1, rest) else Visible(hidden, rest) + (if hidden == 0 then 1 else 0)
  }

  predicate DepthsBounded(s: State) {
    s.depth <= 100 && forall n :: n in s.nodes ==> n.depth <= 100
  }

  /**
    For any stream of tags, well formed or not: every visible opening tag is listed until there are 20000
    nodes, the structure is truncated exactly when there was one more, and no depth exceeds 100.
  */
  lemma {:induction false} CutExactlyAtTheLimits(s: State, events: seq<Event>)
    requires |s.nodes| <= 20_000 && DepthsBounded(s)
    ensures var t, all := Feed(s, events), |s.nodes| + Visible(s.ignored, events);
      && |t.nodes| == (if all <= 20_000 then all else 20_000)
      && (t.truncated <==> s.truncated || all > 20_000)
      && DepthsBounded(t)
    decreases |events|
  {
    if events != [] {
      CutExactlyAtTheLimits(Handle(s, events[0]), events[1..]);
    }
  }

  /** Opening tags nested ever deeper. */
  function Nested(tag: Tag, k: nat): seq<Event> {
    if k == 0 then [] else Nested(tag, k - 1) + [StartTag(tag, 0)]
  }

  /** Nested tags are listed one level deeper each, down to the hundredth level and there from then on. */
  lemma {:induction false} NestedTagsDeepen(tag: Tag, k: nat)
    requires tag.Ordinary? && k <= 20_000
    ensures var t := Feed(FRESH, Nested(tag, k));
      && t.ignored == 0 && |t.nodes| == k && t.depth == (if k <= 100 then k else 100)
      && forall i :: 0 <= i < k ==> t.nodes[i] == Node(if i <= 100 then i else 100, tag, 0)
  {
    if k > 0 {
      NestedTagsDeepen(tag, k - 1);
      FeedOfJoin(FRESH, Nested(tag, k - 1), [StartTag(tag, 0)]);
      FeedOne(Feed(FRESH, Nested(tag, k - 1)), StartTag(tag, 0));
    }
  }

  // ---------------------------------------------------------------- forests the counters can follow

  lemma {:induction false} FollowableIsPlain(forest: seq<Element>, hidden: bool)
    requires Followable(forest, hidden)
    ensures Plain(forest)
    decreases forest
  {
    if forest != [] {
      FollowableIsPlain(forest[0].children, hidden || forest[0].tag == Noscript);
      FollowableIsPlain(forest[1..], hidden);
    }
  }

  lemma {:induction false} BalancedIsListable(forest: seq<Element>)
    requires Balanced(forest) && !SlipsHidden(forest)
    ensures Listable(forest) && ListableAtTop(forest)
    decreases forest
  {
    if forest != [] {
      if forest[0].tag != Noscript {
        BalancedIsListable(forest[0].children);
      }
      BalancedIsListable(forest[1..]);
    }
  }

  /** Inside a noscript nothing is listed and every counter returns to where it was. */
  lemma HiddenForestLeavesState(s: State, forest: seq<Element>)
    requires s.ignored > 0 && Followable(forest, true)
    ensures Feed(s, Events(forest)) == s
  {
    FollowableIsPlain(forest, true);
    FollowableHidden(forest);
    HiddenForest(s, forest);
  }

  /**
    Within the limits, the events of a forest list its erased form in preorder with depths and bring
    depth and ignore counters back to where they started.
  */
  lemma ForestIsFlattened(s: State, forest: seq<Element>)
    requires s.ignored == 0 && Followable(forest, false) && Fits(s, forest)
    ensures Feed(s, Events(forest)) == s.(nodes := s.nodes + Flattened(Erased(forest), s.depth))
  {
    FollowableIsPlain(forest, false);
    FollowableVisible(forest);
    BalancedIsListable(forest);
    VisibleForest(s, forest);
    if s.depth > 0 {
      ListedIffListable(s, forest);
    } else {
      TopListedIffListable(s, forest);
    }
  }

  // ---------------------------------------------------------------- documents

  /** Nothing is cut: tags above the depth limit, nodes within the node limit. */
  predicate WithinLimits(forest: seq<Element>) {
    Plain(forest) && Fits(FRESH, forest)
  }

  /**
    A document within the limits is never truncated; its list is its preorder exactly when it is listable,
    and the counters are fresh again as well exactly when no noscript is self-closed besides.
  */
  lemma DocumentIsListedIff(forest: seq<Element>)
    requires WithinLimits(forest)
    ensures var t, nodes := Feed(FRESH, Events(forest)), Flattened(Erased(forest), 0);
      && !t.truncated
      && (t.nodes == nodes <==> ListableAtTop(forest))
      && (t == FRESH.(nodes := nodes) <==> ListableAtTop(forest) && Balanced(forest))
  {
    TopListedIffListable(FRESH, forest);
    NeverListsMore(FRESH, forest, 0);
    VisibleForest(FRESH, forest);
    assert FRESH.nodes + Flattened(Erased(forest), 0) == Flattened(Erased(forest), 0);
  }

  /** Two listable documents have the same structure exactly when they agree outside noscript. */
  lemma SameStructureIffSameForest(a: seq<Element>, b: seq<Element>)
    requires WithinLimits(a) && WithinLimits(b) && ListableAtTop(a) && ListableAtTop(b)
    ensures Feed(FRESH, Events(a)).nodes == Feed(FRESH, Events(b)).nodes <==> Erased(a) == Erased(b)
  {
    DocumentIsListedIff(a);
    DocumentIsListedIff(b);
    RebuildAfterFlatten(Erased(a), 0);
    RebuildAfterFlatten(Erased(b), 0);
  }

  /** A self-closed noscript hides everything after it, whatever that is. */
  lemma SelfClosedNoscriptHidesTheRest(s: State, rest: seq<Element>, attributes: Name)
    requires Plain(rest)
    ensures Feed(s, Events([Element(Noscript, attributes, true, [])] + rest)).nodes == s.nodes
  {
    var e := Element(Noscript, attributes, true, []);
    assert ([e] + rest)[1..] == rest;
    FeedOfJoin(s, EventsOf(e), Events(rest));
    FeedOne(s, StartEndTag(Noscript, attributes));
    HiddenForest(Feed(s, EventsOf(e)), rest);
  }

  /** An element that holds a noscript with a self-closed tag in it, and then a sibling of that noscript. */
  function SlippingDocument(outer: Name, inner: Name, sibling: Name): seq<Element> {
    [Element(Ordinary(outer), 0, false,
      [Element(Noscript, 0, false, [Element(Ordinary(inner), 0, true, [])]), Element(Ordinary(sibling), 0, true, [])])]
  }

  lemma SlippingEvents(outer: Name, inner: Name, sibling: Name)
    ensures Events(SlippingDocument(outer, inner, sibling)) ==
      [StartTag(Ordinary(outer), 0), StartTag(Noscript, 0), StartEndTag(Ordinary(inner), 0), EndTag(Noscript),
       StartEndTag(Ordinary(sibling), 0), EndTag(Ordinary(outer))]
  {
    var slip, next := Element(Ordinary(inner), 0, true, []), Element(Ordinary(sibling), 0, true, []);
    var hidden := Element(Noscript, 0, false, [slip]);
    var e := Element(Ordinary(outer), 0, false, [hidden, next]);
    assert Events([slip]) == EventsOf(slip) by { assert [slip][1..] == []; }
    assert EventsOf(hidden) == [StartTag(Noscript, 0), StartEndTag(Ordinary(inner), 0), EndTag(Noscript)];
    assert Events([next]) == EventsOf(next) by { assert [next][1..] == []; }
    assert Events([hidden, next]) == EventsOf(hidden) + Events([next]) by { assert [hidden, next][1..] == [next]; }
    assert Events([e]) == EventsOf(e) by { assert [e][1..] == []; }
  }

  lemma SlippingErased(outer: Name, inner: Name, sibling: Name)
    ensures Erased(SlippingDocument(outer, inner, sibling)) == [Tree(Ordinary(outer), 0, [Tree(Ordinary(sibling), 0, [])])]
  {
    var slip, next := Element(Ordinary(inner), 0, true, []), Element(Ordinary(sibling), 0, true, []);
    var hidden := Element(Noscript, 0, false, [slip]);
    var e := Element(Ordinary(outer), 0, false, [hidden, next]);
    assert [hidden, next][1..] == [next] && [next][1..] == [] && [e][1..] == [];
    assert Erased([next]) == [Tree(next.tag, 0, [])];
    assert Erased([hidden, next]) == Erased([next]);
  }

  /** Another tag self-closed inside a noscript lists the next sibling one level too high. */
  lemma SelfClosedTagInNoscriptShiftsASibling(outer: Name, inner: Name, sibling: Name)
    ensures var forest := SlippingDocument(outer, inner, sibling);
      && Flattened(Erased(forest), 0) == [Node(0, Ordinary(outer), 0), Node(1, Ordinary(sibling), 0)]
      && Feed(FRESH, Events(forest)).nodes == [Node(0, Ordinary(outer), 0), Node(0, Ordinary(sibling), 0)]
  {
    SlippingErased(outer, inner, sibling);
    var leaf := Tree(Ordinary(sibling), 0, []);
    var top := Tree(Ordinary(outer), 0, [leaf]);
    assert [leaf][1..] == [] && [top][1..] == [];
    assert Flattened([leaf], 1) == [Node(1, leaf.tag, 0)];
    SlippingEvents(outer, inner, sibling);
    SlippingFed(Ordinary(outer), Ordinary(inner), Ordinary(sibling));
  }

  lemma SlippingFed(outer: Tag, inner: Tag, sibling: Tag)
    requires outer.Ordinary? && inner.Ordinary? && sibling.Ordinary?
    ensures Feed(FRESH, [StartTag(outer, 0), StartTag(Noscript, 0), StartEndTag(inner, 0), EndTag(Noscript),
                         StartEndTag(sibling, 0), EndTag(outer)]).nodes == [Node(0, outer, 0), Node(0, sibling, 0)]
  {
    hide Feed;
    FeedOfJoin(FRESH, [StartTag(outer, 0), StartTag(Noscript, 0), StartEndTag(inner, 0)],
               [EndTag(Noscript), StartEndTag(sibling, 0), EndTag(outer)]);
    FeedThree(FRESH, StartTag(outer, 0), StartTag(Noscript, 0), StartEndTag(inner, 0));
    var m := State([Node(0, outer, 0)], 0, false, 1);
    assert Handle(Handle(Handle(FRESH, StartTag(outer, 0)), StartTag(Noscript, 0)), StartEndTag(inner, 0)) == m;
    FeedThree(m, EndTag(Noscript), StartEndTag(sibling, 0), EndTag(outer));
    assert [StartTag(outer, 0), StartTag(Noscript, 0), StartEndTag(inner, 0), EndTag(Noscript), StartEndTag(sibling, 0), EndTag(outer)]
        == [StartTag(outer, 0), StartTag(Noscript, 0), StartEndTag(inner, 0)]
           + [EndTag(Noscript), StartEndTag(sibling, 0), EndTag(outer)];
  }

  lemma FeedThree(s: State, a: Event, b: Event, c: Event)
    ensures Feed(s, [a, b, c]) == Handle(Handle(Handle(s, a), b), c)
  {
    FeedOfJoin(s, [a, b], [c]);
    FeedOfJoin(s, [a], [b]);
    FeedOne(s, a);
    FeedOne(Handle(s, a), b);
    FeedOne(Handle(Handle(s, a), b), c);
    assert [a] + [b] == [a, b] && [a, b] + [c] == [a, b, c];
  }

  /** By itself it costs whatever follows one level, unless the parser is at depth 0 already. */
  lemma SelfClosedTagInNoscriptLosesADepth(s: State, name: Name)
    requires s.ignored == 0
    ensures Feed(s, Events([Element(Noscript, 0, false, [Element(Ordinary(name), 0, true, [])])]))
         == s.(depth := if s.depth == 0 then 0 else s.depth - 1)
  {
    var inner := [Element(Ordinary(name), 0, true, [])];
    var e := Element(Noscript, 0, false, inner);
    assert Events([e]) == EventsOf(e) + Events([e][1..]) && [e][1..] == [];
    FeedOfJoin(s, EventsOf(e), []);
    FeedAround(s, e);
    assert Events(inner) == EventsOf(inner[0]) + Events(inner[1..]) && inner[1..] == [];
    assert Events(inner) == [StartEndTag(Ordinary(name), 0)];
    FeedOne(s.(ignored := 1), StartEndTag(Ordinary(name), 0));
  }
}
