/**
 * The shape of an L2 order book snapshot as the cost engine reads it: two
 * ladders of (price, quantity) levels, asks ascending and bids descending by
 * price, with the best level of each side at its head.
 */
module OrderBook {
  import opened Wrappers

  datatype Level = Level(price: real, qty: real)

  /** A snapshot; an empty `symbol` stands for a book that has not reported one yet. */
  datatype Book = Book(asks: seq<Level>, bids: seq<Level>, symbol: string, timestamp: string)

  /** Ask ladder: prices never decrease from the head. */
  predicate Ascending(side: seq<Level>)
  {
    forall i, j :: 0 <= i < j < |side| ==> side[i].price <= side[j].price
  }

  /** Bid ladder: prices never increase from the head. */
  predicate Descending(side: seq<Level>)
  {
    forall i, j :: 0 <= i < j < |side| ==> side[i].price >= side[j].price
  }

  /** Every level has a positive price and a non-negative quantity. */
  predicate PositiveLevels(side: seq<Level>)
  {
    forall i :: 0 <= i < |side| ==> side[i].price > 0.0 && side[i].qty >= 0.0
  }

  /** A book as the feed is expected to deliver it. */
  predicate WellFormed(book: Book)
  {
    Ascending(book.asks) && Descending(book.bids)
    && PositiveLevels(book.asks) && PositiveLevels(book.bids)
  }

  /** The head of the ask side: the lowest ask of a well-formed book. */
  function BestAsk(book: Book): (best: Option<Level>)
    ensures best.None? <==> book.asks == []
    ensures best.Some? && Ascending(book.asks) ==>
      best.value in book.asks && forall l :: l in book.asks ==> best.value.price <= l.price
  {
    if book.asks == [] then None else Some(book.asks[0])
  }

  /** The head of the bid side: the highest bid of a well-formed book. */
  function BestBid(book: Book): (best: Option<Level>)
    ensures best.None? <==> book.bids == []
    ensures best.Some? && Descending(book.bids) ==>
      best.value in book.bids && forall l :: l in book.bids ==> best.value.price >= l.price
  {
    if book.bids == [] then None else Some(book.bids[0])
  }

  /** Best ask minus best bid, when both sides have a level. */
  function Spread(book: Book): (spread: Option<real>)
    ensures spread.Some? <==> BestAsk(book).Some? && BestBid(book).Some?
    ensures spread.Some? ==> spread.value + BestBid(book).value.price == BestAsk(book).value.price
  {
    match (BestAsk(book), BestBid(book))
    case (Some(ask), Some(bid)) => Some(ask.price - bid.price)
    case _ => None
  }

  /** A non-crossed book has a positive spread. */
  lemma SpreadPositiveUnlessCrossed(book: Book)
    requires book.asks != [] && book.bids != []
    ensures Spread(book).Some?
    ensures Spread(book).value > 0.0 <==> book.asks[0].price > book.bids[0].price
  {
  }
}
