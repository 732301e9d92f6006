/** The structural parser object, against DomStructure. */
module DomParser {
  import opened Contracts
  import opened DomStructure
  import opened DomTracking

  class StructuralParser {
    var nodes: seq<Node>
    var depth: nat
    var truncated: bool
    var ignoredDepth: nat

    ghost function Contents(): State
      reads this
    {
      State(nodes, depth, truncated, ignoredDepth)
    }

    constructor ()
      ensures Contents() == FRESH
    {
      nodes, depth, truncated, ignoredDepth := [], 0, false, 0;
    }

    method HandleStartTag(tag: Tag, attributes: Name)
      modifies this
      ensures Contents() == OnStart(old(Contents()), tag, attributes)
    {
      if tag == Noscript {
        ignoredDepth := ignoredDepth + 1;
        return;
      }
      if ignoredDepth > 0 {
        return;
      }
      if |nodes| >= MAX_DOM_NODES {
        truncated := true;
        return;
      }
      nodes := nodes + [Node(Least(depth, MAX_DOM_DEPTH), tag, attributes)];
      if !tag.VoidTag? {
        depth := Least(depth + 1, MAX_DOM_DEPTH);
      }
    }

    method HandleStartEndTag(tag: Tag, attributes: Name)
      modifies this
      ensures Contents() == OnStartEnd(old(Contents()), tag, attributes)
    {
      HandleStartTag(tag, attributes);
      if !tag.VoidTag? {
        depth := if depth > 0 then depth - 1 else 0;
      }
    }

    method HandleEndTag(tag: Tag)
      modifies this
      ensures Contents() == OnEnd(old(Contents()), tag)
    {
      if tag == Noscript {
        ignoredDepth := if ignoredDepth > 0 then ignoredDepth - 1 else 0;
        return;
      }
      if ignoredDepth > 0 || tag.VoidTag? {
        return;
      }
      depth := if depth > 0 then depth - 1 else 0;
    }

    method FeedAll(events: seq<Event>)
      modifies this
      ensures Contents() == Feed(old(Contents()), events)
    {
      for i := 0 to |events|
        invariant Feed(old(Contents()), events) == Feed(Contents(), events[i..])
      {
        assert events[i..][0] == events[i] && events[i..][1..] == events[i + 1..];
        match events[i]
        case StartTag(tag, attributes) => HandleStartTag(tag, attributes);
        case StartEndTag(tag, attributes) => HandleStartEndTag(tag, attributes);
        case EndTag(tag) => HandleEndTag(tag);
      }
    }
  }

  /**
    Within the limits no document is truncated, its list is its preorder exactly when it is listable, and
    that list rebuilds to the erased forest.
  */
  method StructureOf(forest: seq<Element>) returns (nodes: seq<Node>, truncated: bool)
    ensures nodes == Feed(FRESH, Events(forest)).nodes && truncated == Feed(FRESH, Events(forest)).truncated
    ensures WithinLimits(forest) ==> !truncated && (nodes == Flattened(Erased(forest), 0) <==> ListableAtTop(forest))
    ensures WithinLimits(forest) && ListableAtTop(forest) ==> Rebuilt(nodes) == Erased(forest)
  {
    var parser := new StructuralParser();
    parser.FeedAll(Events(forest));
    nodes, truncated := parser.nodes, parser.truncated;
    if WithinLimits(forest) {
      DocumentIsListedIff(forest);
      RebuildAfterFlatten(Erased(forest), 0);
    }
  }
}
