/** The `/chain` endpoint and the background sweep: a per-symbol cache of
    snapshots with a five-minute lifetime, refetched from the NSE or BSE
    builder when stale or on demand, falling back to the old entry when a
    fetch fails. */
module OptionsRoutes {
  import opened Common
  import opened Snapshot
  import opened Anchor
  import opened Nse
  import opened Bse

  /** Five minutes, in milliseconds. */
  const CacheDuration: int := 5 * 60 * 1000

  /** The symbols the endpoint serves, in sweep order. */
  const ValidSymbols: seq<string> := ["NIFTY", "BANKNIFTY", "FINNIFTY", "MIDCPNIFTY", "SENSEX"]

  const InvalidSymbolMessage: string := "Invalid symbol. Supported: NIFTY, BANKNIFTY, FINNIFTY, MIDCPNIFTY, SENSEX"
  const StalePrefix: string := "Using stale data: "
  const UnavailablePrefix: string := "Failed to fetch option chain data. NSE/BSE may be blocking requests. "

  /** A cached snapshot and the instant (epoch milliseconds) it was stored. */
  datatype CacheEntry = CacheEntry(data: Snapshot, timestamp: int)

  type CacheMap = map<string, CacheEntry>

  /** The persisted cache file: absent, unreadable or not JSON, or holding a
      cache map. */
  datatype StoredFile = Missing | Unreadable | Parsed(entries: CacheMap)

  /** The cache a server starts with: the stored map, or an empty one when
      there is none to read. */
  function LoadCacheMap(file: StoredFile): (m: CacheMap)
    ensures file.Parsed? ==> m == file.entries
    ensures !file.Parsed? ==> m == map[]
  {
    match file
    case Parsed(entries) => entries
    case _ => map[]
  }

  /** Everything outside the server one fetch talks to: the NSE library,
      the quote service, the BSE spot and chain endpoints, and whether
      writing the cache file succeeds. */
  datatype Exchanges = Exchanges(
    nse: NseService,
    quotes: QuoteService,
    bseSpot: SpotResponse,
    bseChain: ChainService,
    saveSucceeds: bool)

  /** The JSON body of a reply: a snapshot with its cache flags (`stale`
      false and `error` missing stand for absent fields; `warning` is the
      `error` field of a stale reply), or an error. */
  datatype Body = Data(snapshot: Snapshot, cached: bool, stale: bool, warning: Option<string>) | Failure(error: string)

  datatype Reply = Reply(status: int, body: Body)

  /** The server's state: the cache, the cache file, the two builders'
      anchor memos and the sweep flag. */
  datatype ServiceState = ServiceState(
    cache: CacheMap,
    file: StoredFile,
    nseMemo: map<string, Memo>,
    bseMemo: map<string, Memo>,
    running: bool)

  /** The symbol a request asks for: its `symbol` parameter, NIFTY when it
      is missing or empty, upper-cased. */
  function RequestSymbol(query: Option<string>): (s: string)
    ensures !TruthyString(query) ==> s == "NIFTY"
    ensures TruthyString(query) ==> s == ToUpper(query.value)
  {
    ToUpper(if TruthyString(query) then query.value else "NIFTY")
  }

  /** The outcome of one fetch and both memos after it. */
  datatype Fetched = Fetched(result: Result<Snapshot>, nseMemo: map<string, Memo>, bseMemo: map<string, Memo>)

  /** One fetch: SENSEX is built from the BSE, every other symbol from the
      NSE; each builder uses and updates only its own memo. */
  function FetchSpec(symbol: string, now: int, ex: Exchanges, nseMemo: map<string, Memo>, bseMemo: map<string, Memo>): (f: Fetched)
    ensures symbol == "SENSEX" ==> f.nseMemo == nseMemo
    ensures symbol != "SENSEX" ==> f.bseMemo == bseMemo
  {
    if symbol == "SENSEX" then
      var b := SensexBuild(now, ex.bseSpot, ex.bseChain, ex.quotes, bseMemo);
      Fetched(b.result, nseMemo, b.memo)
    else
      var b := NseBuild(symbol, now, ex.nse, ex.quotes, nseMemo);
      Fetched(b.result, b.memo, bseMemo)
  }

  /** The cache file after a successful fetch stored `cache`. */
  function Saved(file: StoredFile, cache: CacheMap, ex: Exchanges): StoredFile {
    if ex.saveSucceeds then Parsed(cache) else file
  }

  /** An entry is fresh at `now` when it is less than five minutes old. */
  predicate Fresh(e: CacheEntry, now: int) {
    now - e.timestamp < CacheDuration
  }

  /** One request `GET /chain?symbol=…&refresh=…` at instant `now`. */
  function ChainSpec(st: ServiceState, query: Option<string>, refresh: Option<string>, now: int, ex: Exchanges): (Reply, ServiceState) {
    var symbol := RequestSymbol(query);
    if symbol !in ValidSymbols then (Reply(400, Failure(InvalidSymbolMessage)), st)
    else if symbol in st.cache && refresh != Some("true") && Fresh(st.cache[symbol], now) then
      (Reply(200, Data(st.cache[symbol].data, true, false, None)), st)
    else
      var f := FetchSpec(symbol, now, ex, st.nseMemo, st.bseMemo);
      match f.result
      case Ok(data) =>
        var cache := st.cache[symbol := CacheEntry(data, now)];
        (Reply(200, Data(data, false, false, None)),
         ServiceState(cache, Saved(st.file, cache, ex), f.nseMemo, f.bseMemo, st.running))
      case Err(m) =>
        var st' := ServiceState(st.cache, st.file, f.nseMemo, f.bseMemo, st.running);
        if symbol in st.cache then (Reply(200, Data(st.cache[symbol].data, true, true, Some(StalePrefix + m))), st')
        else (Reply(503, Failure(UnavailablePrefix + m)), st')
  }

  /** An unknown symbol is rejected with 400 before the cache is read or
      anything is fetched. */
  lemma ChainRejectsUnknown(st: ServiceState, query: Option<string>, refresh: Option<string>, now: int, ex: Exchanges)
    requires RequestSymbol(query) !in ValidSymbols
    ensures ChainSpec(st, query, refresh, now, ex) == (Reply(400, Failure(InvalidSymbolMessage)), st)
  {
  }

  /** A fresh entry that is not force-refreshed is served as it is, flagged
      cached, and nothing changes. */
  lemma ChainServesFresh(st: ServiceState, query: Option<string>, refresh: Option<string>, now: int, ex: Exchanges)
    requires var s := RequestSymbol(query); s in ValidSymbols && s in st.cache && Fresh(st.cache[s], now)
    requires refresh != Some("true")
    ensures var s := RequestSymbol(query);
      ChainSpec(st, query, refresh, now, ex) == (Reply(200, Data(st.cache[s].data, true, false, None)), st)
  {
  }

  /** Otherwise the symbol is fetched, and a success replaces that symbol's
      entry alone with the new snapshot stamped `now`, saves the cache and
      replies with the snapshot flagged not cached. */
  lemma ChainStoresSuccess(st: ServiceState, query: Option<string>, refresh: Option<string>, now: int, ex: Exchanges)
    requires var s := RequestSymbol(query);
      s in ValidSymbols && !(s in st.cache && refresh != Some("true") && Fresh(st.cache[s], now))
    requires FetchSpec(RequestSymbol(query), now, ex, st.nseMemo, st.bseMemo).result.Ok?
    ensures var s := RequestSymbol(query);
      var data := FetchSpec(s, now, ex, st.nseMemo, st.bseMemo).result.value;
      var (reply, st') := ChainSpec(st, query, refresh, now, ex);
      && reply == Reply(200, Data(data, false, false, None))
      && st'.cache == st.cache[s := CacheEntry(data, now)]
      && (ex.saveSucceeds ==> st'.file == Parsed(st'.cache))
      && (forall k :: k != s ==> (k in st'.cache <==> k in st.cache) && (k in st.cache ==> st'.cache[k] == st.cache[k]))
  {
  }

  /** A failed fetch with an entry serves that entry's snapshot flagged
      cached and stale, with the error prefixed; the cache is untouched. */
  lemma ChainServesStale(st: ServiceState, query: Option<string>, refresh: Option<string>, now: int, ex: Exchanges)
    requires var s := RequestSymbol(query);
      s in ValidSymbols && s in st.cache && !(refresh != Some("true") && Fresh(st.cache[s], now))
    requires FetchSpec(RequestSymbol(query), now, ex, st.nseMemo, st.bseMemo).result.Err?
    ensures var s := RequestSymbol(query);
      var m := FetchSpec(s, now, ex, st.nseMemo, st.bseMemo).result.message;
      var (reply, st') := ChainSpec(st, query, refresh, now, ex);
      && reply == Reply(200, Data(st.cache[s].data, true, true, Some(StalePrefix + m)))
      && st'.cache == st.cache && st'.file == st.file
  {
  }

  /** A failed fetch without an entry answers 503 with the error, and the
      cache is untouched. */
  lemma ChainUnavailable(st: ServiceState, query: Option<string>, refresh: Option<string>, now: int, ex: Exchanges)
    requires var s := RequestSymbol(query); s in ValidSymbols && s !in st.cache
    requires FetchSpec(RequestSymbol(query), now, ex, st.nseMemo, st.bseMemo).result.Err?
    ensures var s := RequestSymbol(query);
      var m := FetchSpec(s, now, ex, st.nseMemo, st.bseMemo).result.message;
      var (reply, st') := ChainSpec(st, query, refresh, now, ex);
      && reply == Reply(503, Failure(UnavailablePrefix + m))
      && st'.cache == st.cache && st'.file == st.file
  {
  }

  /** A forced refresh of a known symbol always fetches: its reply is never
      a fresh cache hit. */
  lemma ChainForcedRefreshFetches(st: ServiceState, query: Option<string>, now: int, ex: Exchanges)
    requires RequestSymbol(query) in ValidSymbols
    ensures var (reply, _) := ChainSpec(st, query, Some("true"), now, ex);
      reply.body.Data? ==> !reply.body.cached || reply.body.stale
  {
  }

  /** A snapshot stored by one request is served from the cache, unchanged,
      by every unforced request for the same symbol within the next five
      minutes, whatever the exchanges would now answer. */
  lemma ChainSecondRequestHits(st: ServiceState, query: Option<string>, refresh: Option<string>, now: int, ex: Exchanges,
                               query2: Option<string>, refresh2: Option<string>, later: int, ex2: Exchanges)
    requires RequestSymbol(query2) == RequestSymbol(query)
    requires refresh2 != Some("true")
    requires now <= later < now + CacheDuration
    requires var (reply, _) := ChainSpec(st, query, refresh, now, ex); reply.body.Data? && !reply.body.cached
    ensures var (reply, st') := ChainSpec(st, query, refresh, now, ex);
      ChainSpec(st', query2, refresh2, later, ex2) == (Reply(200, Data(reply.body.snapshot, true, false, None)), st')
  {
  }

  /** Every cache key is a served symbol and its snapshot is of that
      symbol. */
  predicate CacheConsistent(cache: CacheMap) {
    forall k :: k in cache ==> k in ValidSymbols && cache[k].data.symbol == k
  }

  /** The served symbols are upper case already. */
  lemma ValidSymbolsUpper(s: string)
    requires s in ValidSymbols
    ensures ToUpper(s) == s
  {
    assert forall i :: 0 <= i < |s| ==> UpperChar(s[i]) == s[i];
  }

  /** A fetched snapshot is of the symbol that was fetched. */
  lemma FetchSpecSymbol(symbol: string, now: int, ex: Exchanges, nseMemo: map<string, Memo>, bseMemo: map<string, Memo>)
    requires symbol in ValidSymbols
    requires FetchSpec(symbol, now, ex, nseMemo, bseMemo).result.Ok?
    ensures FetchSpec(symbol, now, ex, nseMemo, bseMemo).result.value.symbol == symbol
  {
    if symbol != "SENSEX" {
      NseBuildSnapshot(symbol, now, ex.nse, ex.quotes, nseMemo);
      ValidSymbolsUpper(symbol);
    }
  }

  /** Requests keep the cache consistent. */
  lemma ChainKeepsCacheConsistent(st: ServiceState, query: Option<string>, refresh: Option<string>, now: int, ex: Exchanges)
    requires CacheConsistent(st.cache)
    ensures CacheConsistent(ChainSpec(st, query, refresh, now, ex).1.cache)
  {
    var s := RequestSymbol(query);
    if s in ValidSymbols && FetchSpec(s, now, ex, st.nseMemo, st.bseMemo).result.Ok? {
      FetchSpecSymbol(s, now, ex, st.nseMemo, st.bseMemo);
    }
  }

  // ---------------------------------------------------------------------
  // The background sweep

  /** The sweep's visit of one symbol: fetch at instant `now`; a success
      replaces the symbol's entry and saves, a failure changes only the
      memos. */
  function SweepOne(st: ServiceState, symbol: string, now: int, ex: Exchanges): (st': ServiceState)
    ensures st'.running == st.running
  {
    var f := FetchSpec(symbol, now, ex, st.nseMemo, st.bseMemo);
    match f.result
    case Ok(data) =>
      var cache := st.cache[symbol := CacheEntry(data, now)];
      ServiceState(cache, Saved(st.file, cache, ex), f.nseMemo, f.bseMemo, st.running)
    case Err(_) => ServiceState(st.cache, st.file, f.nseMemo, f.bseMemo, st.running)
  }

  /** The visits of `symbols` in order; symbol `s` is fetched at
      `clock(s)` against `world(s)`. */
  function SweepFrom(st: ServiceState, symbols: seq<string>, clock: string -> int, world: string -> Exchanges): (st': ServiceState)
    ensures st'.running == st.running
    decreases |symbols|
  {
    if symbols == [] then st
    else SweepFrom(SweepOne(st, symbols[0], clock(symbols[0]), world(symbols[0])), symbols[1..], clock, world)
  }

  /** One background sweep: nothing happens while one is running; otherwise
      the flag is raised, every served symbol is visited in order, and the
      flag is lowered. */
  function SweepSpec(st: ServiceState, clock: string -> int, world: string -> Exchanges): ServiceState {
    if st.running then st
    else
      var done := SweepFrom(st.(running := true), ValidSymbols, clock, world);
      done.(running := false)
  }

  lemma {:induction false} SweepFromSnoc(st: ServiceState, symbols: seq<string>, s: string, clock: string -> int, world: string -> Exchanges)
    ensures SweepFrom(st, symbols + [s], clock, world) == SweepOne(SweepFrom(st, symbols, clock, world), s, clock(s), world(s))
    decreases |symbols|
  {
    if symbols == [] {
      assert symbols + [s] == [s];
      assert [s][1..] == [];
    } else {
      assert (symbols + [s])[0] == symbols[0] && (symbols + [s])[1..] == symbols[1..] + [s];
      SweepFromSnoc(SweepOne(st, symbols[0], clock(symbols[0]), world(symbols[0])), symbols[1..], s, clock, world);
    }
  }

  /** A sweep started while another runs changes nothing. */
  lemma SweepGuarded(st: ServiceState, clock: string -> int, world: string -> Exchanges)
    requires st.running
    ensures SweepSpec(st, clock, world) == st
  {
  }

  /** A sweep visits NIFTY, BANKNIFTY, FINNIFTY, MIDCPNIFTY and SENSEX in
      that order, and leaves the flag lowered. */
  lemma SweepOrder(st: ServiceState, clock: string -> int, world: string -> Exchanges)
    requires !st.running
    ensures var s0 := st.(running := true);
      var s1 := SweepOne(s0, "NIFTY", clock("NIFTY"), world("NIFTY"));
      var s2 := SweepOne(s1, "BANKNIFTY", clock("BANKNIFTY"), world("BANKNIFTY"));
      var s3 := SweepOne(s2, "FINNIFTY", clock("FINNIFTY"), world("FINNIFTY"));
      var s4 := SweepOne(s3, "MIDCPNIFTY", clock("MIDCPNIFTY"), world("MIDCPNIFTY"));
      var s5 := SweepOne(s4, "SENSEX", clock("SENSEX"), world("SENSEX"));
      SweepSpec(st, clock, world) == s5.(running := false)
  {
    var v := ValidSymbols;
    assert v[0] == "NIFTY" && v[1..][0] == "BANKNIFTY" && v[1..][1..][0] == "FINNIFTY";
    assert v[1..][1..][1..][0] == "MIDCPNIFTY" && v[1..][1..][1..][1..][0] == "SENSEX";
    assert v[1..][1..][1..][1..][1..] == [];
  }

  /** After any sweep the flag is lowered. */
  lemma SweepLowersFlag(st: ServiceState, clock: string -> int, world: string -> Exchanges)
    requires !st.running
    ensures !SweepSpec(st, clock, world).running
  {
  }

  /** A visit whose fetch fails leaves the cache and its file as they were;
      one whose fetch succeeds replaces only that symbol's entry. */
  lemma SweepOneEffect(st: ServiceState, symbol: string, now: int, ex: Exchanges)
    ensures var f := FetchSpec(symbol, now, ex, st.nseMemo, st.bseMemo);
      var st' := SweepOne(st, symbol, now, ex);
      && (f.result.Err? ==> st'.cache == st.cache && st'.file == st.file)
      && (f.result.Ok? ==> st'.cache == st.cache[symbol := CacheEntry(f.result.value, now)])
  {
  }

  /** A sweep never touches an entry of a symbol it does not visit, and
      every entry of a visited symbol that changed was stored by its own
      visit, stamped with that visit's instant. */
  lemma {:induction false} SweepFromFrame(st: ServiceState, symbols: seq<string>, clock: string -> int, world: string -> Exchanges)
    ensures var st' := SweepFrom(st, symbols, clock, world);
      && (forall k :: k !in symbols ==> (k in st'.cache <==> k in st.cache) && (k in st.cache ==> st'.cache[k] == st.cache[k]))
      && (forall k :: k in st.cache ==> k in st'.cache)
      && (forall k :: k in st'.cache && (k !in st.cache || st'.cache[k] != st.cache[k]) ==> k in symbols && st'.cache[k].timestamp == clock(k))
    decreases |symbols|
  {
    if symbols != [] {
      var s := symbols[0];
      var mid := SweepOne(st, s, clock(s), world(s));
      SweepOneEffect(st, s, clock(s), world(s));
      SweepFromFrame(mid, symbols[1..], clock, world);
      assert forall k :: k in symbols[1..] ==> k in symbols;
    }
  }

  /** One visit keeps the cache consistent. */
  lemma SweepOneKeepsCacheConsistent(st: ServiceState, symbol: string, now: int, ex: Exchanges)
    requires CacheConsistent(st.cache) && symbol in ValidSymbols
    ensures CacheConsistent(SweepOne(st, symbol, now, ex).cache)
  {
    if FetchSpec(symbol, now, ex, st.nseMemo, st.bseMemo).result.Ok? {
      FetchSpecSymbol(symbol, now, ex, st.nseMemo, st.bseMemo);
    }
  }

  /** Sweeps keep the cache consistent. */
  lemma {:induction false} SweepFromKeepsCacheConsistent(st: ServiceState, symbols: seq<string>, clock: string -> int, world: string -> Exchanges)
    requires CacheConsistent(st.cache)
    requires forall i :: 0 <= i < |symbols| ==> symbols[i] in ValidSymbols
    ensures CacheConsistent(SweepFrom(st, symbols, clock, world).cache)
    decreases |symbols|
  {
    if symbols != [] {
      var s := symbols[0];
      SweepOneKeepsCacheConsistent(st, s, clock(s), world(s));
      SweepFromKeepsCacheConsistent(SweepOne(st, s, clock(s), world(s)), symbols[1..], clock, world);
    }
  }

  lemma SweepKeepsCacheConsistent(st: ServiceState, clock: string -> int, world: string -> Exchanges)
    requires CacheConsistent(st.cache)
    ensures CacheConsistent(SweepSpec(st, clock, world).cache)
  {
    if !st.running {
      SweepFromKeepsCacheConsistent(st.(running := true), ValidSymbols, clock, world);
    }
  }

  // ---------------------------------------------------------------------
  // The server

  /** The module-level state of the routes: the cache map, the cache file,
      the sweep flag and the two builders' memos. */
  class OptionsService {
    var cache: CacheMap
    var file: StoredFile
    var prefetchRunning: bool
    const nseAnchor: AnchorCache
    const bseAnchor: AnchorCache

    /** The two builders keep separate memos. */
    predicate Valid()
      reads this
    {
      nseAnchor != bseAnchor
    }

    function State(): ServiceState
      reads this, nseAnchor, bseAnchor
    {
      ServiceState(cache, file, nseAnchor.entries, bseAnchor.entries, prefetchRunning)
    }

    /** Server start: the cache is loaded from the file, and nothing else is
        remembered yet. */
    constructor(stored: StoredFile)
      ensures Valid()
      ensures cache == LoadCacheMap(stored) && file == stored && !prefetchRunning
      ensures nseAnchor.entries == map[] && bseAnchor.entries == map[]
      ensures fresh(nseAnchor) && fresh(bseAnchor)
    {
      cache := LoadCacheMap(stored);
      file := stored;
      prefetchRunning := false;
      nseAnchor := new AnchorCache();
      bseAnchor := new AnchorCache();
    }

    /** Builds the snapshot of `symbol` with the builder for its exchange. */
    method Fetch(symbol: string, now: int, ex: Exchanges, ghost st: ServiceState) returns (result: Result<Snapshot>)
      requires Valid()
      requires st.nseMemo == nseAnchor.entries && st.bseMemo == bseAnchor.entries
      modifies nseAnchor, bseAnchor
      ensures var f := FetchSpec(symbol, now, ex, st.nseMemo, st.bseMemo);
        result == f.result && nseAnchor.entries == f.nseMemo && bseAnchor.entries == f.bseMemo
    {
      if symbol == "SENSEX" {
        result := GetSensexOptionsTrackerData(now, ex.bseSpot, ex.bseChain, ex.quotes, bseAnchor);
      } else {
        result := GetOptionsTrackerData(symbol, now, ex.nse, ex.quotes, nseAnchor);
      }
    }

    /** Stores a fetched snapshot under `symbol` and saves the cache. */
    method Store(symbol: string, data: Snapshot, now: int, ex: Exchanges)
      modifies this
      ensures cache == old(cache)[symbol := CacheEntry(data, now)]
      ensures file == Saved(old(file), cache, ex)
      ensures prefetchRunning == old(prefetchRunning)
    {
      cache := cache[symbol := CacheEntry(data, now)];
      if ex.saveSucceeds {
        file := Parsed(cache);
      }
    }

    /** Handles `GET /chain` at instant `now`. */
    method Chain(query: Option<string>, refresh: Option<string>, now: int, ex: Exchanges) returns (reply: Reply)
      requires Valid()
      modifies this, nseAnchor, bseAnchor
      ensures Valid()
      ensures (reply, State()) == ChainSpec(old(State()), query, refresh, now, ex)
    {
      var symbol := RequestSymbol(query);
      if symbol !in ValidSymbols {
        return Reply(400, Failure(InvalidSymbolMessage));
      }
      var forceRefresh := refresh == Some("true");
      if symbol in cache && !forceRefresh && now - cache[symbol].timestamp < CacheDuration {
        return Reply(200, Data(cache[symbol].data, true, false, None));
      }
      var result := Fetch(symbol, now, ex, old(State()));
      if result.Ok? {
        Store(symbol, result.value, now, ex);
        return Reply(200, Data(result.value, false, false, None));
      }
      if symbol in cache {
        return Reply(200, Data(cache[symbol].data, true, true, Some(StalePrefix + result.message)));
      }
      return Reply(503, Failure(UnavailablePrefix + result.message));
    }

    /** The sweep's visit of `symbol`: a fetch, then on success a store and
        a save; a failure is skipped. `st` is the state before the visit. */
    method Prefetch(symbol: string, now: int, ex: Exchanges, ghost st: ServiceState)
      requires Valid() && State() == st
      modifies this, nseAnchor, bseAnchor
      ensures Valid()
      ensures State() == SweepOne(st, symbol, now, ex)
    {
      var result := Fetch(symbol, now, ex, st);
      if result.Ok? {
        Store(symbol, result.value, now, ex);
      }
    }

    /** One background sweep; symbol `s` is fetched at `clock(s)` against
        `world(s)`. */
    method PrefetchAll(clock: string -> int, world: string -> Exchanges)
      requires Valid()
      modifies this, nseAnchor, bseAnchor
      ensures Valid()
      ensures State() == SweepSpec(old(State()), clock, world)
    {
      if prefetchRunning {
        return;
      }
      prefetchRunning := true;
      ghost var start := State();
      for i := 0 to |ValidSymbols|
        invariant prefetchRunning
        invariant State() == SweepFrom(start, ValidSymbols[..i], clock, world)
      {
        var symbol := ValidSymbols[i];
        SweepFromSnoc(start, ValidSymbols[..i], symbol, clock, world);
        assert ValidSymbols[..i + 1] == ValidSymbols[..i] + [symbol];
        Prefetch(symbol, clock(symbol), world(symbol), SweepFrom(start, ValidSymbols[..i], clock, world));
      }
      assert ValidSymbols[..|ValidSymbols|] == ValidSymbols;
      prefetchRunning := false;
    }
  }
}
