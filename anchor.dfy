/** The anchor price: the index's opening price of the day, looked up from a
    quote service and remembered per symbol for the rest of that day. Both
    snapshot builders keep such a memo, each its own. */
module Anchor {
  import opened Common

  /** A remembered opening price and the day (a day number) it belongs to. */
  datatype Memo = Memo(date: int, price: real)

  /** What the quote service answers for a ticker: a thrown error, or a
      quote whose `regularMarketOpen` may be missing (a missing quote object
      is a reply without an open). */
  datatype QuoteResult = QuoteFailed(message: string) | QuoteReply(regularMarketOpen: Option<real>)

  /** The quote service, as an oracle from ticker to answer. */
  type QuoteService = string -> QuoteResult

  /** The price a lookup returns (`None` for `null`), the memo after it, and
      whether the quote service was asked. */
  datatype Lookup = Lookup(price: Option<real>, memo: map<string, Memo>, queried: bool)

  /** The memo holds a price for `symbol` taken on day `today`. */
  predicate IsHit(memo: map<string, Memo>, symbol: string, today: int) {
    symbol in memo && memo[symbol].date == today
  }

  /** The opening price the service gives for `ticker`, when it is one the
      lookup accepts (present and non-zero). */
  function OpenOf(quote: QuoteService, ticker: string): Option<real> {
    match quote(ticker)
    case QuoteFailed(_) => None
    case QuoteReply(open) => if Truthy(open) then open else None
  }

  /** The anchor lookup of `symbol` on day `today`: a same-day memo entry
      answers without asking the service; otherwise a usable opening price
      is stored under `symbol` and returned, and anything else gives `null`
      with the memo as it was. */
  function AnchorLookup(memo: map<string, Memo>, symbol: string, ticker: string, today: int, quote: QuoteService): (r: Lookup)
    ensures r.queried <==> !IsHit(memo, symbol, today)
    ensures r.memo.Keys == memo.Keys || r.memo.Keys == memo.Keys + {symbol}
  {
    if IsHit(memo, symbol, today) then Lookup(Some(memo[symbol].price), memo, false)
    else
      match OpenOf(quote, ticker)
      case Some(open) => Lookup(Some(open), memo[symbol := Memo(today, open)], true)
      case None => Lookup(None, memo, true)
  }

  /** A same-day entry is returned as stored, and the service is not asked. */
  lemma AnchorHit(memo: map<string, Memo>, symbol: string, ticker: string, today: int, quote: QuoteService)
    requires IsHit(memo, symbol, today)
    ensures AnchorLookup(memo, symbol, ticker, today, quote) == Lookup(Some(memo[symbol].price), memo, false)
  {
  }

  /** On a miss a present, non-zero opening price is stored with today's date
      and returned; an entry from an earlier day is overwritten. */
  lemma AnchorMissStores(memo: map<string, Memo>, symbol: string, ticker: string, today: int, quote: QuoteService)
    requires !IsHit(memo, symbol, today)
    requires quote(ticker).QuoteReply? && Truthy(quote(ticker).regularMarketOpen)
    ensures var open := quote(ticker).regularMarketOpen;
      AnchorLookup(memo, symbol, ticker, today, quote) == Lookup(open, memo[symbol := Memo(today, open.value)], true)
  {
  }

  /** On a miss a failed request, a missing open or a zero open gives `null`
      and leaves the memo unchanged. */
  lemma AnchorMissFails(memo: map<string, Memo>, symbol: string, ticker: string, today: int, quote: QuoteService)
    requires !IsHit(memo, symbol, today)
    requires quote(ticker).QuoteFailed? || !Truthy(quote(ticker).regularMarketOpen)
    ensures AnchorLookup(memo, symbol, ticker, today, quote) == Lookup(None, memo, true)
  {
  }

  /** Every price the memo holds is non-zero (it came from a truthy open). */
  predicate PricesTruthy(memo: map<string, Memo>) {
    forall s :: s in memo ==> memo[s].price != 0.0
  }

  /** A lookup keeps the memo's prices non-zero, and then the price it
      returns is either `null` or non-zero, so `anchorPrice || spot` falls
      back to the spot exactly when no anchor was found. */
  lemma AnchorLookupTruthy(memo: map<string, Memo>, symbol: string, ticker: string, today: int, quote: QuoteService)
    requires PricesTruthy(memo)
    ensures var r := AnchorLookup(memo, symbol, ticker, today, quote);
      PricesTruthy(r.memo) && (r.price.None? || Truthy(r.price))
  {
  }

  /** A lookup changes at most the entry of its own symbol. */
  lemma AnchorLookupFrame(memo: map<string, Memo>, symbol: string, ticker: string, today: int, quote: QuoteService, other: string)
    requires other != symbol
    ensures var r := AnchorLookup(memo, symbol, ticker, today, quote);
      (other in r.memo <==> other in memo) && (other in memo ==> r.memo[other] == memo[other])
  {
  }

  /** Once a lookup has found a price, a second lookup on the same day is a
      hit that returns the same price without asking the service, whatever
      the service would now answer. */
  lemma AnchorLookupSameDay(memo: map<string, Memo>, symbol: string, ticker: string, today: int, quote: QuoteService, quote2: QuoteService)
    requires AnchorLookup(memo, symbol, ticker, today, quote).price.Some?
    ensures var r := AnchorLookup(memo, symbol, ticker, today, quote);
      AnchorLookup(r.memo, symbol, ticker, today, quote2) == Lookup(r.price, r.memo, false)
  {
  }

  /** The memo of one builder: the module-level `anchorCache` object,
      updated in place by each lookup. */
  class AnchorCache {
    var entries: map<string, Memo>

    /** The memo starts empty. */
    constructor()
      ensures entries == map[]
    {
      entries := map[];
    }

    /** Looks up the anchor of `symbol` on day `today`, asking `quote` for
        `ticker` on a miss, and updates the memo as the lookup says. */
    method Get(symbol: string, ticker: string, today: int, quote: QuoteService) returns (price: Option<real>)
      modifies this
      ensures var r := AnchorLookup(old(entries), symbol, ticker, today, quote);
        price == r.price && entries == r.memo
    {
      if symbol in entries && entries[symbol].date == today {
        return Some(entries[symbol].price);
      }
      var reply := quote(ticker);
      if reply.QuoteReply? && Truthy(reply.regularMarketOpen) {
        var open := reply.regularMarketOpen.value;
        entries := entries[symbol := Memo(today, open)];
        return Some(open);
      }
      return None;
    }
  }
}
