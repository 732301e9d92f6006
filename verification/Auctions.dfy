/** The fold of collected auction events into auctions and bidders. */
module Auctions {
  import opened Contracts

  const MAX_EVENTS: nat := 2_000
  const MAX_RESPONSE_TIMES: nat := 1_000

  datatype Kind =
    | AuctionInit | AuctionEnd | AuctionTimeout | BidRequested | BidResponse | NoBid | BidTimeout | BidWon | UnknownKind

  /** A bidder code that is missing or malformed is `None`. */
  datatype Event = Event(kind: Kind, auction: Option<Name>, bidder: Option<Name>, elapsed: Option<int>, responseTime: Option<int>)

  datatype Auction = Auction(started: Option<int>, ended: Option<int>, requests: nat, responses: nat, noBids: nat, timeouts: nat)

  datatype Bidder = Bidder(requests: nat, responses: nat, noBids: nat, timeouts: nat, wins: nat, times: seq<int>)

  datatype BidderKey = BidderKey(auction: Name, bidder: Name)

  const NEW_AUCTION := Auction(None, None, 0, 0, 0, 0)
  const NEW_BIDDER := Bidder(0, 0, 0, 0, 0, [])

  predicate Relevant(e: Event) {
    e.kind != UnknownKind && e.auction.Some?
  }

  datatype Metric = Requests | Responses | NoBids | Timeouts

  predicate Counts(e: Event, m: Metric) {
    match m
    case Requests => e.kind == BidRequested
    case Responses => e.kind == BidResponse
    case NoBids => e.kind == NoBid
    case Timeouts => e.kind == BidTimeout || e.kind == AuctionTimeout
  }

  function One(b: bool): nat {
    if b then 1 else 0
  }

  function OnNetworkClock(e: Event, offset: int): Option<int> {
    if e.elapsed.Some? then Some(e.elapsed.value + offset) else None
  }

  function WithEvent(a: Auction, e: Event, offset: int): Auction {
    Auction(if e.kind == AuctionInit && a.started.None? then OnNetworkClock(e, offset) else a.started,
            if e.kind == AuctionEnd || e.kind == AuctionTimeout then OnNetworkClock(e, offset) else a.ended,
            a.requests + One(Counts(e, Requests)), a.responses + One(Counts(e, Responses)),
            a.noBids + One(Counts(e, NoBids)), a.timeouts + One(Counts(e, Timeouts)))
  }

  function WithBid(b: Bidder, e: Event): Bidder {
    Bidder(b.requests + One(Counts(e, Requests)), b.responses + One(Counts(e, Responses)),
           b.noBids + One(Counts(e, NoBids)), b.timeouts + One(Counts(e, Timeouts)), b.wins + One(e.kind == BidWon),
           if e.kind == BidResponse && e.responseTime.Some? && |b.times| < MAX_RESPONSE_TIMES
           then b.times + [e.responseTime.value] else b.times)
  }

  function AuctionOf(es: seq<Event>, offset: int, auction: Name): Option<Auction> {
    if es == [] then None
    else
      var before, last := AuctionOf(es[..|es| - 1], offset, auction), es[|es| - 1];
      if Relevant(last) && last.auction == Some(auction) then Some(WithEvent(before.Or(NEW_AUCTION), last, offset)) else before
  }

  function BidderOf(es: seq<Event>, key: BidderKey): Option<Bidder> {
    if es == [] then None
    else
      var before, last := BidderOf(es[..|es| - 1], key), es[|es| - 1];
      if Relevant(last) && last.auction == Some(key.auction) && last.bidder == Some(key.bidder)
      then Some(WithBid(before.Or(NEW_BIDDER), last)) else before
  }

  function Used(events: seq<Event>): seq<Event> {
    if |events| > 2_000 then events[..2_000] else events
  }

  method FoldEvents(all: seq<Event>, offset: int) returns (auctions: map<Name, Auction>, bidders: map<BidderKey, Bidder>)
    ensures forall k :: k in auctions <==> AuctionOf(Used(all), offset, k).Some?
    ensures forall k :: k in auctions ==> Some(auctions[k]) == AuctionOf(Used(all), offset, k)
    ensures forall k :: k in bidders <==> BidderOf(Used(all), k).Some?
    ensures forall k :: k in bidders ==> Some(bidders[k]) == BidderOf(Used(all), k)
  {
    auctions, bidders := map[], map[];
    var events := if |all| > MAX_EVENTS then all[..MAX_EVENTS] else all;
    for i := 0 to |events|
      invariant forall k :: k in auctions <==> AuctionOf(events[..i], offset, k).Some?
      invariant forall k :: k in auctions ==> Some(auctions[k]) == AuctionOf(events[..i], offset, k)
      invariant forall k :: k in bidders <==> BidderOf(events[..i], k).Some?
      invariant forall k :: k in bidders ==> Some(bidders[k]) == BidderOf(events[..i], k)
    {
      assert events[..i + 1][..i] == events[..i];
      var e := events[i];
      if e.kind == UnknownKind || e.auction.None? {
        continue;
      }
      var auction := e.auction.value;
      var state := if auction in auctions then auctions[auction] else NEW_AUCTION;
      auctions := auctions[auction := CountAuction(state, e, offset)];
      if e.bidder.Some? {
        var key := BidderKey(auction, e.bidder.value);
        var bid := if key in bidders then bidders[key] else NEW_BIDDER;
        bidders := bidders[key := CountBid(bid, e)];
      }
    }
    assert events[..|events|] == events;
  }

  function CountAuction(a: Auction, e: Event, offset: int): (r: Auction)
    ensures r == WithEvent(a, e, offset)
  {
    var timed :=
      if e.kind == AuctionInit && a.started.None? then a.(started := OnNetworkClock(e, offset))
      else if e.kind == AuctionEnd || e.kind == AuctionTimeout then a.(ended := OnNetworkClock(e, offset))
      else a;
    match e.kind
    case BidRequested => timed.(requests := timed.requests + 1)
    case BidResponse => timed.(responses := timed.responses + 1)
    case NoBid => timed.(noBids := timed.noBids + 1)
    case BidTimeout => timed.(timeouts := timed.timeouts + 1)
    case AuctionTimeout => timed.(timeouts := timed.timeouts + 1)
    case _ => timed
  }

  function CountBid(b: Bidder, e: Event): (r: Bidder)
    ensures r == WithBid(b, e)
  {
    match e.kind
    case BidRequested => b.(requests := b.requests + 1)
    case BidResponse =>
      var counted := b.(responses := b.responses + 1);
      if e.responseTime.Some? && |b.times| < MAX_RESPONSE_TIMES then counted.(times := b.times + [e.responseTime.value]) else counted
    case NoBid => b.(noBids := b.noBids + 1)
    case BidTimeout => b.(timeouts := b.timeouts + 1)
    case AuctionTimeout => b.(timeouts := b.timeouts + 1)
    case BidWon => b.(wins := b.wins + 1)
    case _ => b
  }

  // ---------------------------------------------------------------- conservation

  function OfAuction(a: Auction, m: Metric): nat {
    match m
    case Requests => a.requests
    case Responses => a.responses
    case NoBids => a.noBids
    case Timeouts => a.timeouts
  }

  function OfBidder(b: Bidder, m: Metric): nat {
    match m
    case Requests => b.requests
    case Responses => b.responses
    case NoBids => b.noBids
    case Timeouts => b.timeouts
  }

  function BidderCount(es: seq<Event>, auction: Name, bidder: Name, m: Metric): nat {
    OfBidder(BidderOf(es, BidderKey(auction, bidder)).Or(NEW_BIDDER), m)
  }

  function AuctionCount(es: seq<Event>, offset: int, auction: Name, m: Metric): nat {
    OfAuction(AuctionOf(es, offset, auction).Or(NEW_AUCTION), m)
  }

  function Total(es: seq<Event>, auction: Name, bidders: seq<Name>, m: Metric): nat {
    if bidders == [] then 0
    else Total(es, auction, bidders[..|bidders| - 1], m) + BidderCount(es, auction, bidders[|bidders| - 1], m)
  }

  /** A list of an auction's bidders, each once and none missing. */
  predicate ListsBidders(es: seq<Event>, auction: Name, bidders: seq<Name>) {
    && (forall i, j :: 0 <= i < j < |bidders| ==> bidders[i] != bidders[j])
    && forall e :: e in es && Relevant(e) && e.auction == Some(auction) && e.bidder.Some? ==> e.bidder.value in bidders
  }

  predicate CountsFor(e: Event, auction: Name, m: Metric) {
    Relevant(e) && e.auction == Some(auction) && Counts(e, m)
  }

  function Unassigned(es: seq<Event>, auction: Name, m: Metric): nat {
    if es == [] then 0
    else Unassigned(es[..|es| - 1], auction, m) + One(CountsFor(es[|es| - 1], auction, m) && es[|es| - 1].bidder.None?)
  }

  /** The events of one auction that a counter counts, of one bidder or of all. */
  function Occurrences(es: seq<Event>, auction: Name, bidder: Option<Name>, m: Metric): nat {
    if es == [] then 0
    else
      var last := es[|es| - 1];
      Occurrences(es[..|es| - 1], auction, bidder, m)
      + One(CountsFor(last, auction, m) && (bidder.None? || last.bidder == bidder))
  }

  /** Every counter is the number of events of its kind. */
  lemma {:induction false} CountersAreOccurrences(es: seq<Event>, offset: int, auction: Name, bidder: Name, m: Metric)
    ensures AuctionCount(es, offset, auction, m) == Occurrences(es, auction, None, m)
    ensures BidderCount(es, auction, bidder, m) == Occurrences(es, auction, Some(bidder), m)
  {
    if es != [] {
      CountersAreOccurrences(es[..|es| - 1], offset, auction, bidder, m);
    }
  }

  function FirstStart(es: seq<Event>, offset: int, auction: Name): Option<int> {
    if es == [] then None
    else
      var before, last := FirstStart(es[..|es| - 1], offset, auction), es[|es| - 1];
      if before.None? && last.kind == AuctionInit && last.auction == Some(auction) && last.elapsed.Some?
      then Some(offset + last.elapsed.value) else before
  }

  function LastEnd(es: seq<Event>, offset: int, auction: Name): Option<int> {
    if es == [] then None
    else
      var last := es[|es| - 1];
      if (last.kind == AuctionEnd || last.kind == AuctionTimeout) && last.auction == Some(auction)
      then if last.elapsed.Some? then Some(offset + last.elapsed.value) else None
      else LastEnd(es[..|es| - 1], offset, auction)
  }

  /** An auction starts at its first timed start and ends at its last end, timed or not. */
  lemma {:induction false} TimesAreFirstAndLast(es: seq<Event>, offset: int, auction: Name)
    ensures var a := AuctionOf(es, offset, auction).Or(NEW_AUCTION);
      a.started == FirstStart(es, offset, auction) && a.ended == LastEnd(es, offset, auction)
  {
    if es != [] {
      TimesAreFirstAndLast(es[..|es| - 1], offset, auction);
    }
  }

  lemma BidderCountStep(es: seq<Event>, auction: Name, bidder: Name, m: Metric)
    requires es != []
    ensures var last := es[|es| - 1];
      BidderCount(es, auction, bidder, m)
      == BidderCount(es[..|es| - 1], auction, bidder, m) + One(CountsFor(last, auction, m) && last.bidder == Some(bidder))
  {
  }

  lemma {:induction false} TotalStep(es: seq<Event>, auction: Name, bidders: seq<Name>, m: Metric)
    requires es != [] && forall i, j :: 0 <= i < j < |bidders| ==> bidders[i] != bidders[j]
    ensures var last := es[|es| - 1];
      Total(es, auction, bidders, m)
      == Total(es[..|es| - 1], auction, bidders, m)
         + One(CountsFor(last, auction, m) && last.bidder.Some? && last.bidder.value in bidders)
    decreases |bidders|
  {
    if bidders != [] {
      var before, last := bidders[..|bidders| - 1], bidders[|bidders| - 1];
      TotalStep(es, auction, before, m);
      BidderCountStep(es, auction, last, m);
      assert bidders == before + [last];
      assert last !in before;
      hide BidderCount, CountsFor;
    }
  }

  lemma {:induction false} TotalOfNone(auction: Name, bidders: seq<Name>, m: Metric)
    ensures Total([], auction, bidders, m) == 0
  {
    if bidders != [] {
      TotalOfNone(auction, bidders[..|bidders| - 1], m);
    }
  }

  lemma {:induction false} BiddersPlusUnassigned(es: seq<Event>, offset: int, auction: Name, bidders: seq<Name>, m: Metric)
    requires ListsBidders(es, auction, bidders)
    ensures Total(es, auction, bidders, m) + Unassigned(es, auction, m) == AuctionCount(es, offset, auction, m)
    decreases |es|
  {
    if es == [] {
      TotalOfNone(auction, bidders, m);
    } else {
      var before, last := es[..|es| - 1], es[|es| - 1];
      assert es == before + [last] && last in es;
      forall e | e in before
        ensures e in es
      {
      }
      BiddersPlusUnassigned(before, offset, auction, bidders, m);
      TotalStep(es, auction, bidders, m);
      hide Total, Unassigned;
      assert Unassigned(es, auction, m) == Unassigned(before, auction, m) + One(CountsFor(last, auction, m) && last.bidder.None?);
    }
  }

  lemma {:induction false} UnassignedIffSome(es: seq<Event>, auction: Name, m: Metric)
    ensures Unassigned(es, auction, m) == 0 <==> forall e :: e in es && CountsFor(e, auction, m) ==> e.bidder.Some?
  {
    if es != [] {
      var before, last := es[..|es| - 1], es[|es| - 1];
      assert es == before + [last] && last in es;
      UnassignedIffSome(before, auction, m);
    }
  }

  /**
    Over its bidders, an auction's requests, responses, no-bids and timeouts add up to at most the
    auction's own count, and to exactly it when every event counted carries a valid bidder.
  */
  lemma BiddersWithinAuction(es: seq<Event>, offset: int, auction: Name, bidders: seq<Name>, m: Metric)
    requires ListsBidders(es, auction, bidders)
    ensures Total(es, auction, bidders, m) <= AuctionCount(es, offset, auction, m)
    ensures Total(es, auction, bidders, m) == AuctionCount(es, offset, auction, m) <==>
      forall e :: e in es && CountsFor(e, auction, m) ==> e.bidder.Some?
  {
    BiddersPlusUnassigned(es, offset, auction, bidders, m);
    UnassignedIffSome(es, auction, m);
    hide Total, AuctionCount, Unassigned;
  }

  // ---------------------------------------------------------------- the kinds each counter counts

  /** The events of an auction of these kinds, of one bidder or of all. */
  function KindCount(es: seq<Event>, auction: Name, bidder: Option<Name>, kinds: set<Kind>): nat {
    if es == [] then 0
    else
      var last := es[|es| - 1];
      KindCount(es[..|es| - 1], auction, bidder, kinds)
      + One(last.auction == Some(auction) && last.kind in kinds && (bidder.None? || last.bidder == bidder))
  }

  /** The response times of a bidder's responses, in order. */
  function ResponseTimes(es: seq<Event>, auction: Name, bidder: Name): seq<int> {
    if es == [] then []
    else
      var last := es[|es| - 1];
      ResponseTimes(es[..|es| - 1], auction, bidder)
      + if last.auction == Some(auction) && last.bidder == Some(bidder) && last.kind == BidResponse && last.responseTime.Some?
        then [last.responseTime.value] else []
  }

  const KNOWN := {AuctionInit, AuctionEnd, AuctionTimeout, BidRequested, BidResponse, NoBid, BidTimeout, BidWon}

  /** An auction counts bid requests, responses, no-bids and both kinds of timeout; any known kind makes it appear. */
  lemma {:induction false} AuctionCountsKinds(es: seq<Event>, offset: int, auction: Name)
    ensures var a := AuctionOf(es, offset, auction).Or(NEW_AUCTION);
      && a.requests == KindCount(es, auction, None, {BidRequested})
      && a.responses == KindCount(es, auction, None, {BidResponse})
      && a.noBids == KindCount(es, auction, None, {NoBid})
      && a.timeouts == KindCount(es, auction, None, {BidTimeout, AuctionTimeout})
    ensures AuctionOf(es, offset, auction).Some? <==> KindCount(es, auction, None, KNOWN) > 0
  {
    if es != [] {
      AuctionCountsKinds(es[..|es| - 1], offset, auction);
    }
  }

  /** The same for a bidder, with its wins, and the first thousand of its response times. */
  lemma {:induction false} BidderCountsKinds(es: seq<Event>, auction: Name, bidder: Name)
    ensures var b, times := BidderOf(es, BidderKey(auction, bidder)).Or(NEW_BIDDER), ResponseTimes(es, auction, bidder);
      && b.requests == KindCount(es, auction, Some(bidder), {BidRequested})
      && b.responses == KindCount(es, auction, Some(bidder), {BidResponse})
      && b.noBids == KindCount(es, auction, Some(bidder), {NoBid})
      && b.timeouts == KindCount(es, auction, Some(bidder), {BidTimeout, AuctionTimeout})
      && b.wins == KindCount(es, auction, Some(bidder), {BidWon})
      && b.times == if |times| > 1_000 then times[..1_000] else times
    ensures BidderOf(es, BidderKey(auction, bidder)).Some? <==> KindCount(es, auction, Some(bidder), KNOWN) > 0
  {
    if es != [] {
      BidderCountsKinds(es[..|es| - 1], auction, bidder);
    }
  }
}
