/** The NSE snapshot builder: the per-symbol configuration, the expiry
    calendar helpers, the normalisation of the NSE option-chain payload and
    the assembly of one snapshot from it. */
module Nse {
  import opened Common
  import opened Calendar
  import opened DateFormat
  import opened Snapshot
  import opened Anchor

  // ---------------------------------------------------------------------
  // Per-symbol configuration

  /** `displayLabel` is the configuration's `label`; `apiSymbol` is set only
      where the NSE API name differs from the symbol. */
  datatype SymbolConfig = SymbolConfig(
    strikeOffset: int,
    expiryDay: int,
    displayLabel: string,
    apiSymbol: Option<string>,
    yahooSymbol: string)

  /** The symbols of the configuration table, in declaration order. */
  const ConfigSymbols: seq<string> := ["NIFTY", "BANKNIFTY", "FINNIFTY", "SENSEX", "MIDCPNIFTY"]

  /** The configuration table. */
  function Config(symbol: string): (c: Option<SymbolConfig>)
    ensures c.Some? <==> symbol in ConfigSymbols
  {
    if symbol == "NIFTY" then Some(SymbolConfig(1000, 4, "NIFTY 50", None, "^NSEI"))
    else if symbol == "BANKNIFTY" then Some(SymbolConfig(2500, 3, "BANKNIFTY", None, "^NSEBANK"))
    else if symbol == "FINNIFTY" then Some(SymbolConfig(1200, 2, "FINNIFTY", Some("FINNIFTY"), "NIFTY_FIN_SERVICE.NS"))
    else if symbol == "SENSEX" then Some(SymbolConfig(3500, 5, "SENSEX", None, "^BSESN"))
    else if symbol == "MIDCPNIFTY" then Some(SymbolConfig(600, 1, "MIDCAP NIFTY", None, "^NSEMDCP50"))
    else None
  }

  /** The configuration of `symbol`, falling back to NIFTY's. */
  function ConfigOrNifty(symbol: string): (c: SymbolConfig)
    ensures Config(symbol).Some? ==> c == Config(symbol).value
    ensures Config(symbol).None? ==> c == Config("NIFTY").value
  {
    match Config(symbol)
    case Some(c) => c
    case None => Config("NIFTY").value
  }

  /** Every configuration, the fallback included, has a positive offset that
      is a multiple of 100 and an expiry weekday from Monday to Friday. */
  lemma ConfigWellFormed(symbol: string)
    ensures var c := ConfigOrNifty(symbol);
      c.strikeOffset > 0 && c.strikeOffset % 100 == 0 && 1 <= c.expiryDay <= 5
  {
  }

  /** The name the NSE API is asked for: the configured API name, else the
      symbol itself. */
  function ApiSymbol(symbol: string): (r: string)
    ensures ConfigOrNifty(symbol).apiSymbol.Some? && ConfigOrNifty(symbol).apiSymbol.value != "" ==> r == ConfigOrNifty(symbol).apiSymbol.value
    ensures ConfigOrNifty(symbol).apiSymbol.None? ==> r == symbol
  {
    var a := ConfigOrNifty(symbol).apiSymbol;
    if TruthyString(a) then a.value else symbol
  }

  /** The snapshot's `expiryDay` text. The table sets no `monthly` flag, so
      only the weekly labels occur: day 1 reads Monday, day 2 Tuesday, and
      every other day Thursday. */
  function ExpiryDayLabel(expiryDay: int): (s: string)
    ensures expiryDay == 1 <==> s == "Monday"
    ensures expiryDay == 2 <==> s == "Tuesday"
    ensures expiryDay != 1 && expiryDay != 2 <==> s == "Thursday"
  {
    if expiryDay == 1 then "Monday" else if expiryDay == 2 then "Tuesday" else "Thursday"
  }

  /** The labels the configured symbols get. BANKNIFTY's Wednesday and
      SENSEX's Friday both read Thursday. */
  lemma ExpiryDayLabels()
    ensures ExpiryDayLabel(ConfigOrNifty("NIFTY").expiryDay) == "Thursday"
    ensures ExpiryDayLabel(ConfigOrNifty("BANKNIFTY").expiryDay) == "Thursday"
    ensures ExpiryDayLabel(ConfigOrNifty("FINNIFTY").expiryDay) == "Tuesday"
    ensures ExpiryDayLabel(ConfigOrNifty("SENSEX").expiryDay) == "Thursday"
    ensures ExpiryDayLabel(ConfigOrNifty("MIDCPNIFTY").expiryDay) == "Monday"
  {
  }

  // ---------------------------------------------------------------------
  // Expiry calendar

  /** Walks forward day by day from `today`, collecting the first `count`
      days that fall on weekday `dayOfWeek` (0 is Sunday). */
  method GetUpcomingWeekdays(dayOfWeek: int, count: nat, today: int) returns (dates: seq<int>)
    requires 0 <= dayOfWeek < 7
    ensures dates == NextWeekdays(today, dayOfWeek, count)
  {
    dates := [];
    var d := today;
    ghost var first := FirstOnOrAfter(today, dayOfWeek);
    while |dates| < count
      invariant |dates| <= count
      invariant dates == NextWeekdays(today, dayOfWeek, |dates|)
      invariant first + 7 * |dates| - 7 < d <= first + 7 * |dates|
      decreases count - |dates|, first + 7 * |dates| - d
    {
      if Weekday(d) == dayOfWeek {
        SameWeekdayWithinWeek(d, first + 7 * |dates|);
        assert NextWeekdays(today, dayOfWeek, |dates| + 1) == dates + [d];
        dates := dates + [d];
      }
      d := d + 1;
    }
  }

  /** Walks back from the last day of month `month` of `year` to the nearest
      day on weekday `dayOfWeek`. */
  method GetLastWeekdayOfMonth(year: int, month: int, dayOfWeek: int) returns (day: int)
    requires 0 <= month < 12 && 0 <= dayOfWeek < 7
    ensures day == LastWeekdayOfMonth(year, month, dayOfWeek)
  {
    var last := DayNumber(Civil(year, month, DaysInMonth(year, month)));
    ghost var target := LastOnOrBefore(last, dayOfWeek);
    LastOnOrBeforeIsLatest(last, dayOfWeek);
    day := last;
    while Weekday(day) != dayOfWeek
      invariant target <= day <= last
      decreases day - target
    {
      day := day - 1;
    }
  }

  /** Scans the months from the current one, keeping each month's last
      `dayOfWeek` that is not before `today`, until `count` are kept. */
  method GetUpcomingMonthlyExpiries(dayOfWeek: int, count: nat, today: int) returns (dates: seq<int>)
    requires 0 <= dayOfWeek < 7
    ensures dates == MonthlyExpiries(today, dayOfWeek, count)
  {
    dates := [];
    var start := MonthOfDay(today);
    var year, month := start.year, start.month;
    ghost var n: nat := 0;
    ghost var skip := if FirstExpiryMonth(today, dayOfWeek) == start then 0 else 1;
    while |dates| < count
      invariant YearMonth(year, month) == MonthsAfter(start, n)
      invariant |dates| <= count
      invariant dates == MonthlyExpiries(today, dayOfWeek, |dates|)
      invariant n == |dates| + skip || (n == 0 && dates == [])
      decreases count - |dates|, if n == 0 then 1 else 0
    {
      var lastDay := GetLastWeekdayOfMonth(year, month, dayOfWeek);
      MonthlyScanStep(today, dayOfWeek, |dates|, n, skip, year, month, lastDay);
      if lastDay >= today {
        MonthlyExpiriesSnoc(today, dayOfWeek, |dates|);
        dates := dates + [lastDay];
      }
      month := month + 1;
      if month > 11 {
        month := 0;
        year := year + 1;
      }
      n := n + 1;
    }
  }

  /** One month of the scan. With the first `k` expiries kept after `n`
      months, the scanned month's last weekday `dow`, `d`, is kept exactly
      when it is not before `today`, a kept one is the next expiry, and
      only the first month can be passed over; so the scan stays `skip`
      months ahead of the expiries it has kept. */
  lemma MonthlyScanStep(today: int, dow: int, k: nat, n: nat, skip: int, year: int, month: int, d: int)
    requires 0 <= dow < 7
    requires skip == if FirstExpiryMonth(today, dow) == MonthOfDay(today) then 0 else 1
    requires n == k + skip || n == k == 0
    requires YearMonth(year, month) == MonthsAfter(MonthOfDay(today), n)
    requires d == LastWeekdayOfMonth(year, month, dow)
    ensures d >= today ==> n == k + skip && d == ExpiryAt(today, dow, k)
    ensures d < today ==> n == k == 0 && skip == 1
  {
    assert d == LastWeekdayOf(MonthsAfter(MonthOfDay(today), n), dow);
    if n == k + skip {
      ScanMonthIsExpiry(today, dow, k, n, skip, d);
    } else {
      FirstMonthPassed(today, dow, n, d);
    }
  }

  /** In step, the scanned month's last weekday is the next expiry, which
      is not before `today`. */
  lemma ScanMonthIsExpiry(today: int, dow: int, k: nat, n: nat, skip: int, d: int)
    requires 0 <= dow < 7
    requires skip == if FirstExpiryMonth(today, dow) == MonthOfDay(today) then 0 else 1
    requires n == k + skip
    requires d == LastWeekdayOf(MonthsAfter(MonthOfDay(today), n), dow)
    ensures d == ExpiryAt(today, dow, k) && today <= d
  {
    InStepMonth(MonthOfDay(today), FirstExpiryMonth(today, dow), k, skip);
    ExpiryMonthNotPast(today, dow, k);
  }

  /** When the expiries start next month, this month's last weekday has
      passed. */
  lemma FirstMonthPassed(today: int, dow: int, n: nat, d: int)
    requires 0 <= dow < 7
    requires FirstExpiryMonth(today, dow) != MonthOfDay(today)
    requires n == 0 && d == LastWeekdayOf(MonthsAfter(MonthOfDay(today), n), dow)
    ensures d < today
  {
    assert MonthsAfter(MonthOfDay(today), 0) == MonthOfDay(today);
  }

  /** The scan is `skip` months behind the expiry months. */
  lemma InStepMonth(start: YearMonth, first: YearMonth, k: nat, skip: int)
    requires ValidMonth(start)
    requires first == start || first == NextMonth(start)
    requires skip == if first == start then 0 else 1
    ensures MonthsAfter(start, k + skip) == MonthsAfter(first, k)
  {
    if skip == 1 {
      MonthsAfterShift(start, k);
    }
  }

  /** The NSE expiry label `DD-Mon-YYYY`. */
  function FormatNseDate(day: int): string {
    FormatDate(day, '-')
  }

  /** The NSE label reads back as its day's date, so distinct days get
      distinct labels. */
  lemma FormatNseDateProperties(day: int)
    ensures ParseDate(FormatNseDate(day), '-') == Some(ToCivil(day))
    ensures var s := FormatNseDate(day);
      |s| >= 8 && s[2] == '-' && s[6] == '-' && s[3..6] == MonthNames[ToCivil(day).month]
  {
    ParseFormatDate(day, '-');
    FormatDateShape(day, '-');
  }

  // ---------------------------------------------------------------------
  // The NSE payload

  /** A CE or PE leg of a row, as the NSE API sends it; both spellings of
      the price-change and quote fields occur. */
  datatype NseLeg = NseLeg(
    lastPrice: Option<real>,
    change: Option<real>,
    pchange: Option<real>,
    pChange: Option<real>,
    openInterest: Option<real>,
    changeinOpenInterest: Option<real>,
    totalTradedVolume: Option<real>,
    impliedVolatility: Option<real>,
    buyPrice1: Option<real>,
    bidprice: Option<real>,
    sellPrice1: Option<real>,
    askPrice: Option<real>,
    buyQuantity1: Option<real>,
    bidQty: Option<real>,
    sellQuantity1: Option<real>,
    askQty: Option<real>,
    underlyingValue: Option<real>,
    expiryDate: Option<string>)

  /** A row's list of expiries: missing (or of another type), one string, or
      an array of strings. */
  datatype ExpiryDates = NoDates | DateString(text: string) | DateList(items: seq<string>)

  datatype NseRow = NseRow(
    strikePrice: Option<real>,
    expiryDate: Option<string>,
    expiryDates: ExpiryDates,
    ce: Option<NseLeg>,
    pe: Option<NseLeg>)

  /** The `records` object of the payload. */
  datatype NseRecords = NseRecords(
    underlyingValue: Option<real>,
    expiryDates: Option<seq<string>>,
    data: Option<seq<NseRow>>)

  /** What the NSE API library gives: a thrown error, or a payload whose
      `records` may be missing (a missing payload is a reply without
      records). */
  datatype NseResponse = ApiFailed(message: string) | ApiReply(records: Option<NseRecords>)

  /** The NSE API library, as an oracle from API symbol to response. */
  type NseService = string -> NseResponse

  /** One leg normalised into a quote. A missing leg gives `null`. */
  function ExtractOptionFields(leg: Option<NseLeg>, strike: int): (q: Option<Quote>)
    ensures q.None? <==> leg.None?
    ensures q.Some? ==> q.value.strike == strike
  {
    match leg
    case None => None
    case Some(l) =>
      Some(Quote(
        strike,
        l.lastPrice,
        l.change,
        OrOrZero(l.pchange, l.pChange),
        l.openInterest,
        l.changeinOpenInterest,
        l.totalTradedVolume,
        l.impliedVolatility,
        Some(OrOrZero(l.buyPrice1, l.bidprice)),
        Some(OrOrZero(l.sellPrice1, l.askPrice)),
        Some(OrOrZero(l.buyQuantity1, l.bidQty)),
        Some(OrOrZero(l.sellQuantity1, l.askQty))))
  }

  /** The normalisation: the price change and the four quote fields take
      the first non-zero of their two spellings, else 0; the other six
      fields are passed through as they are, missing values included. */
  lemma ExtractOptionFieldsProperties(l: NseLeg, strike: int)
    ensures var q := ExtractOptionFields(Some(l), strike).value;
      && q.strike == strike
      && q.pChange == OrOrZero(l.pchange, l.pChange)
      && q.bid == Some(OrOrZero(l.buyPrice1, l.bidprice))
      && q.ask == Some(OrOrZero(l.sellPrice1, l.askPrice))
      && q.bidQty == Some(OrOrZero(l.buyQuantity1, l.bidQty))
      && q.askQty == Some(OrOrZero(l.sellQuantity1, l.askQty))
      && q.ltp == l.lastPrice && q.change == l.change
      && q.oi == l.openInterest && q.oiChange == l.changeinOpenInterest
      && q.volume == l.totalTradedVolume && q.iv == l.impliedVolatility
  {
  }

  /** The chain as fetched: the records and the list of expiries it
      offers. */
  datatype FetchedChain = FetchedChain(records: NseRecords, expiryDates: seq<string>)

  const FetchFailurePrefix: string := "Failed to fetch NSE option chain data: "
  const EmptyPayloadMessage: string := "[NSE Options Serverless] stock-nse-india API returned empty or invalid data format."

  /** The fetch of one chain: a payload with records is kept, with its
      expiry list or an empty one; a thrown error or a payload without
      records becomes an error whose message carries the cause. */
  function FetchOptionChain(response: NseResponse): (r: Result<FetchedChain>)
    ensures response.ApiFailed? ==> r == Err(FetchFailurePrefix + response.message)
    ensures response.ApiReply? && response.records.None? ==> r == Err(FetchFailurePrefix + EmptyPayloadMessage)
    ensures response.ApiReply? && response.records.Some? ==>
      r.Ok? && r.value.records == response.records.value
      && r.value.expiryDates == response.records.value.expiryDates.GetOr([])
  {
    match response
    case ApiFailed(m) => Err(FetchFailurePrefix + m)
    case ApiReply(None) => Err(FetchFailurePrefix + EmptyPayloadMessage)
    case ApiReply(Some(records)) => Ok(FetchedChain(records, records.expiryDates.GetOr([])))
  }

  /** The expiries a snapshot shows: the first two offered, fewer when fewer
      are offered, none when the list is missing. */
  function GetTargetExpiries(expiries: Option<seq<string>>): (r: seq<string>)
    ensures expiries.None? ==> r == []
    ensures expiries.Some? ==> |r| == (if |expiries.value| < 2 then |expiries.value| else 2)
    ensures expiries.Some? ==> r <= expiries.value
  {
    match expiries
    case None => []
    case Some(xs) => if |xs| == 0 then [] else if |xs| < 2 then xs else xs[..2]
  }

  /** A row belongs to expiry `e` when its own expiry date is `e` (and not
      empty), when its expiry list is the non-empty string `e` or an array
      containing `e`, or when its CE or PE leg is dated `e`. */
  predicate RowHasExpiry(row: NseRow, e: string) {
    || (TruthyString(row.expiryDate) && row.expiryDate.value == e)
    || (row.expiryDates.DateString? && row.expiryDates.text != "" && row.expiryDates.text == e)
    || (row.expiryDates.DateList? && e in row.expiryDates.items)
    || (row.ce.Some? && row.ce.value.expiryDate == Some(e))
    || (row.pe.Some? && row.pe.value.expiryDate == Some(e))
  }

  /** The rows of expiry `e`, in payload order. */
  function FilterRows(rows: seq<NseRow>, e: string): (r: seq<NseRow>)
    ensures |r| <= |rows|
    ensures forall i :: 0 <= i < |r| ==> r[i] in rows && RowHasExpiry(r[i], e)
    ensures forall i :: 0 <= i < |rows| && RowHasExpiry(rows[i], e) ==> rows[i] in r
  {
    Filter(rows, (row: NseRow) => RowHasExpiry(row, e))
  }

  /** Filtering row by row: a matching row is kept in place, any other
      dropped, so the result is the matching rows in their order. */
  lemma FilterRowsStep(a: seq<NseRow>, row: NseRow, e: string)
    ensures FilterRows(a + [row], e) == FilterRows(a, e) + (if RowHasExpiry(row, e) then [row] else [])
  {
    var p := (r: NseRow) => RowHasExpiry(r, e);
    FilterAppend(a, [row], p);
    assert [row][1..] == [];
  }

  /** The row strikes equal the strike exactly. */
  predicate StrikeIs(row: NseRow, strike: int) {
    row.strikePrice == Some(strike as real)
  }

  /** The first row at `strike`, if any. */
  function FindRowByStrike(rows: seq<NseRow>, strike: int): (r: Option<NseRow>)
    ensures r.None? <==> forall i :: 0 <= i < |rows| ==> !StrikeIs(rows[i], strike)
    ensures r.Some? ==>
      exists i :: 0 <= i < |rows| && rows[i] == r.value && StrikeIs(rows[i], strike) && forall j :: 0 <= j < i ==> !StrikeIs(rows[j], strike)
  {
    var p := (row: NseRow) => StrikeIs(row, strike);
    var r := FindFirst(rows, p);
    assert forall i :: 0 <= i < |rows| ==> p(rows[i]) == StrikeIs(rows[i], strike);
    r
  }

  /** The CE quote of a slot: the CE leg of the first row at the strike;
      there is none when the strike is not a number. */
  function CeQuote(rows: seq<NseRow>, strike: Option<int>): Option<Quote> {
    match strike
    case None => None
    case Some(s) =>
      match FindRowByStrike(rows, s)
      case None => None
      case Some(row) => ExtractOptionFields(row.ce, s)
  }

  /** The PE quote of a slot, likewise from the PE leg. */
  function PeQuote(rows: seq<NseRow>, strike: Option<int>): Option<Quote> {
    match strike
    case None => None
    case Some(s) =>
      match FindRowByStrike(rows, s)
      case None => None
      case Some(row) => ExtractOptionFields(row.pe, s)
  }

  /** The slot of expiry `e`, built from the rows of that expiry. */
  function NseSlot(rows: seq<NseRow>, e: string, ceStrike: Option<int>, peStrike: Option<int>): (s: Slot)
    ensures s.expiry == e
  {
    var dataRows := FilterRows(rows, e);
    Slot(e, CeQuote(dataRows, ceStrike), PeQuote(dataRows, peStrike))
  }

  /** Row `i` is the first of `rows` at `strike`. */
  predicate FirstAtStrike(rows: seq<NseRow>, i: int, strike: int) {
    0 <= i < |rows| && StrikeIs(rows[i], strike) && forall j :: 0 <= j < i ==> !StrikeIs(rows[j], strike)
  }

  /** At most one row is the first at a strike. */
  lemma FirstAtStrikeUnique(rows: seq<NseRow>, i: int, k: int, strike: int)
    requires FirstAtStrike(rows, i, strike) && FirstAtStrike(rows, k, strike)
    ensures i == k
  {
  }

  /** There is a CE quote exactly when the strike is a number and the first
      row at it has a CE leg; the quote is that leg's. */
  lemma CeQuoteFirst(rows: seq<NseRow>, strike: Option<int>)
    ensures CeQuote(rows, strike).Some? <==>
      strike.Some? && exists i :: FirstAtStrike(rows, i, strike.value) && rows[i].ce.Some?
    ensures CeQuote(rows, strike).Some? ==>
      exists i :: FirstAtStrike(rows, i, strike.value) && CeQuote(rows, strike) == ExtractOptionFields(rows[i].ce, strike.value)
  {
    if strike.Some? {
      var s := strike.value;
      var r := FindRowByStrike(rows, s);
      if r.Some? {
        var k :| 0 <= k < |rows| && rows[k] == r.value && StrikeIs(rows[k], s) && forall j :: 0 <= j < k ==> !StrikeIs(rows[j], s);
        assert FirstAtStrike(rows, k, s);
        forall i | FirstAtStrike(rows, i, s)
          ensures rows[i] == r.value
        {
          FirstAtStrikeUnique(rows, i, k, s);
        }
      }
    }
  }

  /** There is a PE quote exactly when the strike is a number and the first
      row at it has a PE leg; the quote is that leg's. */
  lemma PeQuoteFirst(rows: seq<NseRow>, strike: Option<int>)
    ensures PeQuote(rows, strike).Some? <==>
      strike.Some? && exists i :: FirstAtStrike(rows, i, strike.value) && rows[i].pe.Some?
    ensures PeQuote(rows, strike).Some? ==>
      exists i :: FirstAtStrike(rows, i, strike.value) && PeQuote(rows, strike) == ExtractOptionFields(rows[i].pe, strike.value)
  {
    if strike.Some? {
      var s := strike.value;
      var r := FindRowByStrike(rows, s);
      if r.Some? {
        var k :| 0 <= k < |rows| && rows[k] == r.value && StrikeIs(rows[k], s) && forall j :: 0 <= j < k ==> !StrikeIs(rows[j], s);
        assert FirstAtStrike(rows, k, s);
        forall i | FirstAtStrike(rows, i, s)
          ensures rows[i] == r.value
        {
          FirstAtStrikeUnique(rows, i, k, s);
        }
      }
    }
  }

  /** A slot has a CE quote exactly when the CE strike is a number and the
      first row of that expiry at it has a CE leg, and the quote is that
      leg's, at the CE strike; likewise for PE. */
  lemma NseSlotQuotes(rows: seq<NseRow>, e: string, ceStrike: Option<int>, peStrike: Option<int>)
    ensures var s := NseSlot(rows, e, ceStrike, peStrike);
      var dataRows := FilterRows(rows, e);
      && (s.ce.Some? <==> ceStrike.Some? && exists i :: FirstAtStrike(dataRows, i, ceStrike.value) && dataRows[i].ce.Some?)
      && (s.ce.Some? ==>
            && s.ce.value.strike == ceStrike.value
            && exists i :: FirstAtStrike(dataRows, i, ceStrike.value) && s.ce == ExtractOptionFields(dataRows[i].ce, ceStrike.value))
      && (s.pe.Some? <==> peStrike.Some? && exists i :: FirstAtStrike(dataRows, i, peStrike.value) && dataRows[i].pe.Some?)
      && (s.pe.Some? ==>
            && s.pe.value.strike == peStrike.value
            && exists i :: FirstAtStrike(dataRows, i, peStrike.value) && s.pe == ExtractOptionFields(dataRows[i].pe, peStrike.value))
  {
    CeQuoteFirst(FilterRows(rows, e), ceStrike);
    PeQuoteFirst(FilterRows(rows, e), peStrike);
  }

  const MissingPeMessage: string := "Cannot read properties of undefined (reading 'underlyingValue')"
  const MissingDataMessage: string := "Cannot read properties of undefined (reading 'filter')"

  /** The spot price: the payload's own underlying value when non-zero;
      otherwise the first row's PE underlying value, which may be missing,
      or 0 when there are no rows. A first row without a PE leg makes the
      lookup throw. */
  function NseSpot(records: NseRecords): (r: Result<Option<real>>)
    ensures Truthy(records.underlyingValue) ==> r == Ok(records.underlyingValue)
    ensures !Truthy(records.underlyingValue) && (records.data.None? || records.data.value == []) ==> r == Ok(Some(0.0))
    ensures r.Err? <==> !Truthy(records.underlyingValue) && records.data.Some? && records.data.value != [] && records.data.value[0].pe.None?
    ensures !Truthy(records.underlyingValue) && records.data.Some? && records.data.value != [] && records.data.value[0].pe.Some? ==>
      r == Ok(records.data.value[0].pe.value.underlyingValue)
  {
    if Truthy(records.underlyingValue) then Ok(records.underlyingValue)
    else
      match records.data
      case None => Ok(Some(0.0))
      case Some(rows) =>
        if rows == [] then Ok(Some(0.0))
        else if rows[0].pe.None? then Err(MissingPeMessage)
        else Ok(rows[0].pe.value.underlyingValue)
  }

  /** The two strikes from a reference price; neither is a number when the
      reference price is missing. */
  function NseStrikes(reference: Option<real>, offset: int): (r: (Option<int>, Option<int>))
    ensures reference.None? <==> r.0.None?
    ensures r.0.None? <==> r.1.None?
  {
    match reference
    case None => (None, None)
    case Some(p) => (Some(StrikesFor(p, offset).ce), Some(StrikesFor(p, offset).pe))
  }

  /** The snapshot of `symbol` built at instant `now` (epoch milliseconds)
      from the NSE service and the quote service, with anchor memo `memo`. */
  function NseBuild(symbol: string, now: int, api: NseService, quote: QuoteService, memo: map<string, Memo>): Build {
    var upper := ToUpper(symbol);
    var config := ConfigOrNifty(upper);
    match FetchOptionChain(api(ApiSymbol(upper)))
    case Err(m) => Build(Err(m), memo)
    case Ok(chain) =>
      match NseSpot(chain.records)
      case Err(m) => Build(Err(m), memo)
      case Ok(spot) =>
        var anchor := AnchorLookup(memo, upper, config.yahooSymbol, DayOf(now), quote);
        var strikes := NseStrikes(ReferencePrice(anchor.price, spot), config.strikeOffset);
        var targets := GetTargetExpiries(Some(chain.expiryDates));
        if targets != [] && chain.records.data.None? then Build(Err(MissingDataMessage), anchor.memo)
        else
          var rows := chain.records.data.GetOr([]);
          var slots := seq(|targets|, i requires 0 <= i < |targets| => NseSlot(rows, targets[i], strikes.0, strikes.1));
          Build(Ok(Snapshot(upper, config.displayLabel, spot, anchor.price, now, strikes.0, strikes.1,
                            config.strikeOffset, ExpiryDayLabel(config.expiryDay), slots)),
                anchor.memo)
  }

  /** A successful NSE snapshot names the upper-cased symbol and its
      configuration's label, offset and expiry-day text; it carries the
      spot and the anchor the lookup gave; both strikes are multiples of
      100 twice the offset apart, the CE strike rounding up the reference
      price (the anchor when there is one, else the spot) plus the offset;
      and there is one slot per target expiry, in order, each the `NseSlot`
      of that expiry at the two strikes, each quote at its slot's strike. */
  lemma NseBuildSnapshot(symbol: string, now: int, api: NseService, quote: QuoteService, memo: map<string, Memo>)
    requires NseBuild(symbol, now, api, quote, memo).result.Ok?
    ensures var s := NseBuild(symbol, now, api, quote, memo).result.value;
      var config := ConfigOrNifty(ToUpper(symbol));
      var chain := FetchOptionChain(api(ApiSymbol(ToUpper(symbol)))).value;
      var targets := GetTargetExpiries(Some(chain.expiryDates));
      && s.symbol == ToUpper(symbol)
      && s.displayLabel == config.displayLabel
      && s.strikeOffset == config.strikeOffset
      && s.timestamp == now
      && s.expiryDay == ExpiryDayLabel(config.expiryDay)
      && s.spot == NseSpot(chain.records).value
      && s.anchorPrice == AnchorLookup(memo, ToUpper(symbol), config.yahooSymbol, DayOf(now), quote).price
      && (s.ceStrike.Some? <==> ReferencePrice(s.anchorPrice, s.spot).Some?)
      && (s.ceStrike.Some? ==>
            var ref := ReferencePrice(s.anchorPrice, s.spot).value;
            && s.ceStrike.value % 100 == 0 && s.peStrike.Some? && s.peStrike.value % 100 == 0
            && s.ceStrike.value - s.peStrike.value == 2 * config.strikeOffset
            && ref + config.strikeOffset as real <= s.ceStrike.value as real < ref + config.strikeOffset as real + 100.0)
      && |s.expiries| == |targets| <= 2
      && (forall i :: 0 <= i < |s.expiries| ==> s.expiries[i].expiry == targets[i])
      && (forall i :: 0 <= i < |s.expiries| ==> s.expiries[i] == NseSlot(chain.records.data.GetOr([]), targets[i], s.ceStrike, s.peStrike))
      && (forall i :: 0 <= i < |s.expiries| && s.expiries[i].ce.Some? ==> s.ceStrike.Some? && s.expiries[i].ce.value.strike == s.ceStrike.value)
      && (forall i :: 0 <= i < |s.expiries| && s.expiries[i].pe.Some? ==> s.peStrike.Some? && s.expiries[i].pe.value.strike == s.peStrike.value)
  {
    var upper := ToUpper(symbol);
    var config := ConfigOrNifty(upper);
    var chain := FetchOptionChain(api(ApiSymbol(upper))).value;
    var spot := NseSpot(chain.records).value;
    var anchor := AnchorLookup(memo, upper, config.yahooSymbol, DayOf(now), quote);
    var ref := ReferencePrice(anchor.price, spot);
    ConfigWellFormed(upper);
    if ref.Some? {
      StrikesForProperties(ref.value, config.strikeOffset);
    }
    var s := NseBuild(symbol, now, api, quote, memo).result.value;
    forall i | 0 <= i < |s.expiries|
      ensures s.expiries[i].ce.Some? ==> s.ceStrike.Some? && s.expiries[i].ce.value.strike == s.ceStrike.value
      ensures s.expiries[i].pe.Some? ==> s.peStrike.Some? && s.expiries[i].pe.value.strike == s.peStrike.value
    {
      NseSlotQuotes(chain.records.data.GetOr([]), s.expiries[i].expiry, s.ceStrike, s.peStrike);
    }
  }

  /** When the fetch or the spot lookup fails, the anchor is not looked up
      and the memo is unchanged; the memo otherwise changes as one anchor
      lookup of the upper-cased symbol on the day of `now` says. */
  lemma NseBuildMemo(symbol: string, now: int, api: NseService, quote: QuoteService, memo: map<string, Memo>)
    ensures var upper := ToUpper(symbol);
      var b := NseBuild(symbol, now, api, quote, memo);
      var fetched := FetchOptionChain(api(ApiSymbol(upper)));
      && (fetched.Err? ==> b == Build(Err(fetched.message), memo))
      && (fetched.Ok? && NseSpot(fetched.value.records).Err? ==> b == Build(Err(MissingPeMessage), memo))
      && (fetched.Ok? && NseSpot(fetched.value.records).Ok? ==>
            b.memo == AnchorLookup(memo, upper, ConfigOrNifty(upper).yahooSymbol, DayOf(now), quote).memo)
  {
  }

  /** Builds the snapshot of `symbol` at instant `now`, looking the anchor
      up in (and updating) `anchor`. */
  method GetOptionsTrackerData(symbol: string, now: int, api: NseService, quote: QuoteService, anchor: AnchorCache)
    returns (result: Result<Snapshot>)
    modifies anchor
    ensures var b := NseBuild(symbol, now, api, quote, old(anchor.entries));
      result == b.result && anchor.entries == b.memo
  {
    var upper := ToUpper(symbol);
    var config := ConfigOrNifty(upper);
    var fetched := FetchOptionChain(api(ApiSymbol(upper)));
    if fetched.Err? {
      return Err(fetched.message);
    }
    var chain := fetched.value;
    var spotResult := NseSpot(chain.records);
    if spotResult.Err? {
      return Err(spotResult.message);
    }
    var spot := spotResult.value;
    var anchorPrice := anchor.Get(upper, config.yahooSymbol, DayOf(now), quote);
    var strikes := NseStrikes(ReferencePrice(anchorPrice, spot), config.strikeOffset);
    var targets := GetTargetExpiries(Some(chain.expiryDates));
    if targets != [] && chain.records.data.None? {
      return Err(MissingDataMessage);
    }
    var rows := chain.records.data.GetOr([]);
    var slots := seq(|targets|, i requires 0 <= i < |targets| => NseSlot(rows, targets[i], strikes.0, strikes.1));
    result := Ok(Snapshot(upper, config.displayLabel, spot, anchorPrice, now, strikes.0, strikes.1,
                          config.strikeOffset, ExpiryDayLabel(config.expiryDay), slots));
  }
}
