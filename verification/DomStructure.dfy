/** The structural HTML normalizer: parser events to a list of nodes with depths, and back to a forest. */
module DomStructure {
  import opened Contracts

  const MAX_DOM_NODES: nat := 20_000
  const MAX_DOM_DEPTH: nat := 100

  datatype Tag = Noscript | VoidTag(name: Name) | Ordinary(name: Name)

  /** `attributes` stands for the retained attributes of the tag. */
  datatype Node = Node(depth: nat, tag: Tag, attributes: Name)

  datatype Event = StartTag(tag: Tag, attributes: Name) | StartEndTag(tag: Tag, attributes: Name) | EndTag(tag: Tag)

  datatype State = State(nodes: seq<Node>, depth: nat, truncated: bool, ignored: nat)

  function Least(a: nat, b: nat): nat {
    if a <= b then a else b
  }

  function OnStart(s: State, tag: Tag, attributes: Name): State {
    if tag == Noscript then s.(ignored := s.ignored + 1)
    else if s.ignored > 0 then s
    else if |s.nodes| >= MAX_DOM_NODES then s.(truncated := true)
    else
      var listed := s.(nodes := s.nodes + [Node(Least(s.depth, MAX_DOM_DEPTH), tag, attributes)]);
      if tag.VoidTag? then listed else listed.(depth := Least(s.depth + 1, MAX_DOM_DEPTH))
  }

  function Shallower(depth: nat): nat {
    if depth == 0 then 0 else depth - 1
  }

  function OnStartEnd(s: State, tag: Tag, attributes: Name): State {
    var started := OnStart(s, tag, attributes);
    if tag.VoidTag? then started else started.(depth := Shallower(started.depth))
  }

  function OnEnd(s: State, tag: Tag): State {
    if tag == Noscript then s.(ignored := Shallower(s.ignored))
    else if s.ignored > 0 || tag.VoidTag? then s
    else s.(depth := Shallower(s.depth))
  }

  function Handle(s: State, e: Event): State {
    match e
    case StartTag(tag, attributes) => OnStart(s, tag, attributes)
    case StartEndTag(tag, attributes) => OnStartEnd(s, tag, attributes)
    case EndTag(tag) => OnEnd(s, tag)
  }

  function Feed(s: State, events: seq<Event>): State
    decreases |events|
  {
    if events == [] then s else Feed(Handle(s, events[0]), events[1..])
  }

  const FRESH := State([], 0, false, 0)

  // ---------------------------------------------------------------- elements as written

  /** `closed`: written in the self-closing form. */
  datatype Element = Element(tag: Tag, attributes: Name, closed: bool, children: seq<Element>)

  function Events(forest: seq<Element>): seq<Event> {
    if forest == [] then [] else EventsOf(forest[0]) + Events(forest[1..])
  }

  function EventsOf(e: Element): seq<Event> {
    if e.closed then [StartEndTag(e.tag, e.attributes)]
    else if e.tag.VoidTag? then [StartTag(e.tag, e.attributes)]
    else [StartTag(e.tag, e.attributes)] + Events(e.children) + [EndTag(e.tag)]
  }

  /**
    What the parser's counters can follow: void tags and self-closed ones have no content, `noscript` is
    never self-closed, and nothing but a void tag is self-closed inside a `noscript`.
  */
  predicate Followable(forest: seq<Element>, hidden: bool) {
    forest == [] || (FollowableOne(forest[0], hidden) && Followable(forest[1..], hidden))
  }

  predicate FollowableOne(e: Element, hidden: bool) {
    && (e.tag.VoidTag? || e.closed ==> e.children == [])
    && (e.closed ==> e.tag.VoidTag? || (e.tag.Ordinary? && !hidden))
    && Followable(e.children, hidden || e.tag == Noscript)
  }

  // ---------------------------------------------------------------- the forest without noscript

  datatype Tree = Tree(tag: Tag, attributes: Name, children: seq<Tree>)

  function Erased(forest: seq<Element>): seq<Tree> {
    if forest == [] then []
    else
      var rest := Erased(forest[1..]);
      if forest[0].tag == Noscript then rest
      else [Tree(forest[0].tag, forest[0].attributes, Erased(forest[0].children))] + rest
  }

  function Flattened(trees: seq<Tree>, depth: nat): seq<Node> {
    if trees == [] then []
    else
      [Node(depth, trees[0].tag, trees[0].attributes)]
      + Flattened(trees[0].children, depth + 1)
      + Flattened(trees[1..], depth)
  }

  /** Every tag that deepens the tree sits above the depth limit. */
  predicate Shallow(trees: seq<Tree>, depth: nat) {
    trees == [] ||
    (&& (if trees[0].tag.VoidTag? then depth <= MAX_DOM_DEPTH else depth < MAX_DOM_DEPTH)
     && Shallow(trees[0].children, depth + 1)
     && Shallow(trees[1..], depth))
  }

  lemma {:induction false} FeedOfJoin(s: State, a: seq<Event>, b: seq<Event>)
    ensures Feed(s, a + b) == Feed(Feed(s, a), b)
    decreases |a|
  {
    if a == [] {
      assert a + b == b;
    } else {
      assert (a + b)[1..] == a[1..] + b;
      FeedOfJoin(Handle(s, a[0]), a[1..], b);
    }
  }

  lemma FeedOne(s: State, e: Event)
    ensures Feed(s, [e]) == Handle(s, e)
  {
    assert [e][1..] == [];
  }

  lemma FeedAround(s: State, e: Element)
    requires !e.closed && !e.tag.VoidTag?
    ensures Feed(s, EventsOf(e)) == OnEnd(Feed(OnStart(s, e.tag, e.attributes), Events(e.children)), e.tag)
  {
    var open, inner, end := [StartTag(e.tag, e.attributes)], Events(e.children), [EndTag(e.tag)];
    FeedOfJoin(s, open + inner, end);
    FeedOfJoin(s, open, inner);
    FeedOne(s, open[0]);
    FeedOne(Feed(s, open + inner), end[0]);
  }

  // ---------------------------------------------------------------- back to the forest

  /** How many nodes from the front lie below this depth. */
  function Below(nodes: seq<Node>, depth: nat): (k: nat)
    ensures k <= |nodes|
  {
    if nodes == [] || nodes[0].depth <= depth then 0 else 1 + Below(nodes[1..], depth)
  }

  function Rebuilt(nodes: seq<Node>): seq<Tree>
    decreases |nodes|
  {
    if nodes == [] then []
    else
      var k := Below(nodes[1..], nodes[0].depth);
      [Tree(nodes[0].tag, nodes[0].attributes, Rebuilt(nodes[1..1 + k]))] + Rebuilt(nodes[1 + k..])
  }

  lemma {:induction false} FlattenedDepths(trees: seq<Tree>, depth: nat)
    ensures forall n :: n in Flattened(trees, depth) ==> n.depth >= depth
    ensures trees != [] ==> Flattened(trees, depth) != [] && Flattened(trees, depth)[0].depth == depth
    decreases trees
  {
    if trees != [] {
      FlattenedDepths(trees[0].children, depth + 1);
      FlattenedDepths(trees[1..], depth);
    }
  }

  lemma {:induction false} BelowSplits(inner: seq<Node>, rest: seq<Node>, depth: nat)
    requires forall n :: n in inner ==> n.depth > depth
    requires rest != [] ==> rest[0].depth <= depth
    ensures Below(inner + rest, depth) == |inner|
  {
    if inner == [] {
      assert inner + rest == rest;
    } else {
      assert inner[0] in inner && (inner + rest)[1..] == inner[1..] + rest;
      forall n | n in inner[1..]
        ensures n in inner
      {
      }
      BelowSplits(inner[1..], rest, depth);
    }
  }

  lemma RebuildJoin(node: Node, inner: seq<Node>, rest: seq<Node>)
    requires forall n :: n in inner ==> n.depth > node.depth
    requires rest != [] ==> rest[0].depth <= node.depth
    ensures Rebuilt([node] + inner + rest) == [Tree(node.tag, node.attributes, Rebuilt(inner))] + Rebuilt(rest)
  {
    var nodes := [node] + inner + rest;
    assert nodes[1..] == inner + rest;
    BelowSplits(inner, rest, node.depth);
    assert nodes[1..1 + |inner|] == inner && nodes[1 + |inner|..] == rest;
  }

  /** The list of depths and tags determines the forest it came from. */
  lemma {:induction false} RebuildAfterFlatten(trees: seq<Tree>, depth: nat)
    ensures Rebuilt(Flattened(trees, depth)) == trees
    decreases trees
  {
    if trees != [] {
      var node := Node(depth, trees[0].tag, trees[0].attributes);
      var inner, rest := Flattened(trees[0].children, depth + 1), Flattened(trees[1..], depth);
      FlattenedDepths(trees[0].children, depth + 1);
      FlattenedDepths(trees[1..], depth);
      RebuildAfterFlatten(trees[0].children, depth + 1);
      RebuildAfterFlatten(trees[1..], depth);
      assert Flattened(trees, depth) == [node] + inner + rest;
      hide Rebuilt, Flattened;
      RebuildJoin(node, inner, rest);
      assert trees == [Tree(node.tag, node.attributes, trees[0].children)] + trees[1..];
    }
  }
}
