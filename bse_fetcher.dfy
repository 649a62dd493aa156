/** The BSE (SENSEX) snapshot builder: the Friday expiry calendar, the BSE
    expiry labels, the parsing of the BSE's numeric strings, the per-side
    field mapping, the loop that collects up to two expiry tables, and the
    assembly of the SENSEX snapshot. */
module Bse {
  import opened Common
  import opened Calendar
  import opened Decimal
  import opened DateFormat
  import opened Snapshot
  import opened Anchor

  const StrikeOffset: int := 3500
  const Friday: int := 5

  /** How many Fridays are tried, and how many expiries a snapshot shows. */
  const CandidateCount: nat := 4
  const ExpiryLimit: nat := 2

  // ---------------------------------------------------------------------
  // Expiry calendar and labels

  /** Walks forward day by day from `today`, collecting the first `count`
      Fridays. */
  method GetUpcomingFridays(count: nat, today: int) returns (dates: seq<int>)
    ensures dates == NextWeekdays(today, Friday, count)
  {
    dates := [];
    var d := today;
    ghost var first := FirstOnOrAfter(today, Friday);
    while |dates| < count
      invariant |dates| <= count
      invariant dates == NextWeekdays(today, Friday, |dates|)
      invariant first + 7 * |dates| - 7 < d <= first + 7 * |dates|
      decreases count - |dates|, first + 7 * |dates| - d
    {
      if Weekday(d) == Friday {
        SameWeekdayWithinWeek(d, first + 7 * |dates|);
        assert NextWeekdays(today, Friday, |dates| + 1) == dates + [d];
        dates := dates + [d];
      }
      d := d + 1;
    }
  }

  /** The BSE expiry label `DD Mon YYYY`. */
  function FormatBseDate(day: int): string {
    FormatDate(day, ' ')
  }

  /** The BSE label reads back as its day's date and is space-separated. */
  lemma FormatBseDateProperties(day: int)
    ensures ParseDate(FormatBseDate(day), ' ') == Some(ToCivil(day))
    ensures var s := FormatBseDate(day);
      |s| >= 8 && s[2] == ' ' && s[6] == ' ' && s[3..6] == MonthNames[ToCivil(day).month]
  {
    ParseFormatDate(day, ' ');
    FormatDateShape(day, ' ');
  }

  // ---------------------------------------------------------------------
  // Numeric strings

  /** The string with every comma removed. */
  function StripCommas(s: string): (r: string)
    ensures |r| <= |s|
    ensures forall i :: 0 <= i < |r| ==> r[i] != ','
  {
    if s == [] then [] else (if s[0] == ',' then [] else [s[0]]) + StripCommas(s[1..])
  }

  lemma {:induction false} StripCommasAppend(a: string, b: string)
    ensures StripCommas(a + b) == StripCommas(a) + StripCommas(b)
  {
    if a == [] {
      assert a + b == b;
    } else {
      assert (a + b)[0] == a[0] && (a + b)[1..] == a[1..] + b;
      StripCommasAppend(a[1..], b);
    }
  }

  /** A string without commas is left as it is; so stripping twice is
      stripping once. */
  lemma {:induction false} StripCommasIdentity(s: string)
    requires forall i :: 0 <= i < |s| ==> s[i] != ','
    ensures StripCommas(s) == s
  {
    if s != [] {
      StripCommasIdentity(s[1..]);
    }
  }

  /** A BSE number: a missing value, `""` or `-` is `null`; anything else is
      read by `parseFloat` once its commas are removed. */
  function ParseBseNumber(str: Option<string>): (r: Option<real>)
    ensures !TruthyString(str) || str.value == "-" ==> r.None?
    ensures TruthyString(str) && str.value != "-" ==> r == ParseFloat(StripCommas(str.value))
  {
    if !TruthyString(str) || str.value == "-" then None
    else ParseFloat(StripCommas(str.value))
  }

  /** Removing one comma before stripping changes nothing. */
  lemma StripCommasDropComma(a: string, b: string)
    ensures StripCommas(a + "," + b) == StripCommas(a + b)
  {
    StripCommasAppend(a + ",", b);
    StripCommasAppend(a, ",");
    StripCommasAppend(a, b);
    assert StripCommas(",") == "";
  }

  lemma ParseFloatPlaceholders()
    ensures ParseFloat("") == None && ParseFloat("-") == None
  {
    assert "-"[1..] == "";
  }

  /** Commas never change the number: a comma anywhere reads as if it were
      not there (even `,` alone and `-,` read as `null`). */
  lemma ParseBseNumberIgnoresCommas(a: string, b: string)
    ensures ParseBseNumber(Some(a + "," + b)) == ParseBseNumber(Some(a + b))
  {
    var s := a + "," + b;
    assert s[|a|] == ',';
    assert s != "" && s != "-";
    StripCommasDropComma(a, b);
    ParseFloatPlaceholders();
    if a + b == "-" {
      StripCommasIdentity("-");
    }
  }

  lemma StripCommasExample()
    ensures StripCommas("1,234.50") == "1234.50"
  {
    var a, b := "1", "234.50";
    assert a + "," + b == "1,234.50";
    StripCommasDropComma(a, b);
    assert a + b == "1234.50";
    StripCommasIdentity(a + b);
  }

  lemma DigitsExample()
    ensures AllDigits("1234") && DigitsValue("1234") == 1234
    ensures AllDigits("50") && DigitsValue("50") == 50
    ensures Pow10(2) == 100
  {
    assert "1234"[..3] == "123" && "123"[..2] == "12" && "12"[..1] == "1" && "1"[..0] == "";
    assert "50"[..1] == "5" && "5"[..0] == "";
  }

  lemma ParseFloatExample()
    ensures ParseFloat("1234.50") == Some(1234.5)
  {
    DigitsExample();
    ParseFloatFraction("1234", "50", "");
    assert "1234" + "." + "50" + "" == "1234.50";
    assert DecimalValue("1234", "50") == 1234.5;
  }

  /** `"1,234.50"` reads as 1234.5, and the placeholders as `null`. */
  lemma ParseBseNumberExamples()
    ensures ParseBseNumber(Some("1,234.50")) == Some(1234.5)
    ensures ParseBseNumber(Some("-")) == None
    ensures ParseBseNumber(Some("")) == None
    ensures ParseBseNumber(None) == None
  {
    StripCommasExample();
    ParseFloatExample();
  }

  // ---------------------------------------------------------------------
  // Rows and quotes

  /** A row of the BSE table: field name to text. */
  type BseRow = map<string, string>

  /** The field `key` of `row`, missing when the row has none. */
  function Field(row: BseRow, key: string): (r: Option<string>)
    ensures r.Some? <==> key in row
  {
    if key in row then Some(row[key]) else None
  }

  datatype Side = CE | PE

  /** The name of a field for a side: CE fields carry the `C_` prefix. */
  function FieldKey(side: Side, base: string): string {
    if side == CE then "C_" + base else base
  }

  /** The unprefixed names of the fields a quote is read from. */
  const QuoteFields: seq<string> :=
    ["Last_Trd_Price", "NetChange", "Open_Interest", "Absolute_Change_OI", "Vol_Traded",
     "BidPrice", "OfferPrice", "BIdQty", "OfferQty"]

  /** The number in field `base` of `row` for `side`. */
  function SideNumber(row: BseRow, side: Side, base: string): Option<real> {
    ParseBseNumber(Field(row, FieldKey(side, base)))
  }

  /** One side of a row normalised into a quote; a missing row gives `null`.
      The BSE reports neither a percentage change nor a volatility. */
  function ExtractBseOptionFields(row: Option<BseRow>, strike: int, side: Side): (q: Option<Quote>)
    ensures q.None? <==> row.None?
    ensures q.Some? ==> q.value.strike == strike && q.value.pChange == 0.0 && q.value.iv.None?
  {
    match row
    case None => None
    case Some(r) =>
      Some(Quote(
        strike,
        SideNumber(r, side, "Last_Trd_Price"),
        SideNumber(r, side, "NetChange"),
        0.0,
        SideNumber(r, side, "Open_Interest"),
        SideNumber(r, side, "Absolute_Change_OI"),
        SideNumber(r, side, "Vol_Traded"),
        None,
        SideNumber(r, side, "BidPrice"),
        SideNumber(r, side, "OfferPrice"),
        SideNumber(r, side, "BIdQty"),
        SideNumber(r, side, "OfferQty")))
  }

  /** Each quote field is `parseBseNumber` of its own row field: the
      `C_`-prefixed one for CE, the unprefixed one for PE. */
  lemma ExtractBseOptionFieldsProperties(row: BseRow, strike: int, side: Side)
    ensures var q := ExtractBseOptionFields(Some(row), strike, side).value;
      && q.strike == strike && q.pChange == 0.0 && q.iv == None
      && q.ltp == ParseBseNumber(Field(row, FieldKey(side, "Last_Trd_Price")))
      && q.change == ParseBseNumber(Field(row, FieldKey(side, "NetChange")))
      && q.oi == ParseBseNumber(Field(row, FieldKey(side, "Open_Interest")))
      && q.oiChange == ParseBseNumber(Field(row, FieldKey(side, "Absolute_Change_OI")))
      && q.volume == ParseBseNumber(Field(row, FieldKey(side, "Vol_Traded")))
      && q.bid == ParseBseNumber(Field(row, FieldKey(side, "BidPrice")))
      && q.ask == ParseBseNumber(Field(row, FieldKey(side, "OfferPrice")))
      && q.bidQty == ParseBseNumber(Field(row, FieldKey(side, "BIdQty")))
      && q.askQty == ParseBseNumber(Field(row, FieldKey(side, "OfferQty")))
  {
  }

  /** A CE last traded price of `"1,234.50"` reads as 1234.5, with no
      percentage change. */
  lemma ExtractBseExample(row: BseRow, strike: int)
    requires Field(row, "C_Last_Trd_Price") == Some("1,234.50")
    ensures var q := ExtractBseOptionFields(Some(row), strike, CE).value;
      q.strike == strike && q.ltp == Some(1234.5) && q.pChange == 0.0
  {
    assert FieldKey(CE, "Last_Trd_Price") == "C_Last_Trd_Price";
    ParseBseNumberExamples();
  }

  /** Rows that agree on a side's fields give that side the same quote: a
      side reads nothing but its own fields. */
  lemma ExtractBseReadsOwnSide(r1: BseRow, r2: BseRow, strike: int, side: Side)
    requires forall base :: base in QuoteFields ==> Field(r1, FieldKey(side, base)) == Field(r2, FieldKey(side, base))
    ensures ExtractBseOptionFields(Some(r1), strike, side) == ExtractBseOptionFields(Some(r2), strike, side)
  {
    QuoteFieldsListed();
  }

  /** The CE quote of one row equals the PE quote of another when the first
      row's `C_` fields hold what the second row's unprefixed fields hold. */
  lemma ExtractBseSidesMirror(ceRow: BseRow, peRow: BseRow, strike: int)
    requires forall base :: base in QuoteFields ==> Field(ceRow, "C_" + base) == Field(peRow, base)
    ensures ExtractBseOptionFields(Some(ceRow), strike, CE) == ExtractBseOptionFields(Some(peRow), strike, PE)
  {
    QuoteFieldsListed();
  }

  lemma QuoteFieldsListed()
    ensures "Last_Trd_Price" in QuoteFields && "NetChange" in QuoteFields && "Open_Interest" in QuoteFields
    ensures "Absolute_Change_OI" in QuoteFields && "Vol_Traded" in QuoteFields && "BidPrice" in QuoteFields
    ensures "OfferPrice" in QuoteFields && "BIdQty" in QuoteFields && "OfferQty" in QuoteFields
  {
    assert QuoteFields[0] == "Last_Trd_Price" && QuoteFields[1] == "NetChange" && QuoteFields[2] == "Open_Interest";
    assert QuoteFields[3] == "Absolute_Change_OI" && QuoteFields[4] == "Vol_Traded" && QuoteFields[5] == "BidPrice";
    assert QuoteFields[6] == "OfferPrice" && QuoteFields[7] == "BIdQty" && QuoteFields[8] == "OfferQty";
  }

  /** A CE field name never equals a PE field name that lacks the `C_`
      prefix, so the two sides read disjoint fields. */
  lemma SideFieldsDisjoint(base: string, other: string)
    requires |other| < 2 || other[..2] != "C_"
    ensures FieldKey(CE, base) != FieldKey(PE, other)
  {
    assert FieldKey(CE, base)[..2] == "C_";
  }

  // ---------------------------------------------------------------------
  // Fetching the chain

  /** What one expiry's request gives: a thrown error, or a body whose
      `Table` may be missing. */
  datatype ChainResponse = ChainFailed(message: string) | ChainReply(table: Option<seq<BseRow>>)

  /** The option-chain endpoint, as an oracle from expiry label to response. */
  type ChainService = string -> ChainResponse

  /** What the spot request gives: a thrown error, or a body whose
      `CurrRate.LTP` may be missing. */
  datatype SpotResponse = SpotFailed(message: string) | SpotReply(ltp: Option<string>)

  /** An expiry with its non-empty table of rows. */
  datatype ExpiryTable = ExpiryTable(expiry: string, rows: seq<BseRow>)

  /** The table a response carries, when it is present and not empty. */
  function TableOf(response: ChainResponse): (t: Option<seq<BseRow>>)
    ensures t.Some? <==> response.ChainReply? && response.table.Some? && response.table.value != []
    ensures t.Some? ==> t == response.table
  {
    match response
    case ChainReply(Some(rows)) => if rows != [] then Some(rows) else None
    case _ => None
  }

  /** The candidates whose request yields a table, each with its table, in
      candidate order. */
  function Successes(candidates: seq<string>, fetch: ChainService): seq<ExpiryTable> {
    if candidates == [] then []
    else
      (match TableOf(fetch(candidates[0]))
       case Some(t) => [ExpiryTable(candidates[0], t)]
       case None => [])
      + Successes(candidates[1..], fetch)
  }

  /** A candidate succeeds when its request yields a table. */
  predicate Succeeds(fetch: ChainService, expiry: string) {
    TableOf(fetch(expiry)).Some?
  }

  lemma {:induction false} SuccessesAppend(a: seq<string>, b: seq<string>, fetch: ChainService)
    ensures Successes(a + b, fetch) == Successes(a, fetch) + Successes(b, fetch)
  {
    if a == [] {
      assert a + b == b;
    } else {
      assert (a + b)[0] == a[0] && (a + b)[1..] == a[1..] + b;
      SuccessesAppend(a[1..], b, fetch);
    }
  }

  /** The expiry labels of a list of tables. */
  function ExpiryNames(tables: seq<ExpiryTable>): (names: seq<string>)
    ensures |names| == |tables|
    ensures forall i :: 0 <= i < |tables| ==> names[i] == tables[i].expiry
  {
    if tables == [] then [] else [tables[0].expiry] + ExpiryNames(tables[1..])
  }

  /** The expiries collected are exactly the candidates that succeed, in
      candidate order, and each carries the non-empty table its request
      gave. */
  lemma {:induction false} SuccessesProperties(candidates: seq<string>, fetch: ChainService)
    ensures var s := Successes(candidates, fetch);
      && ExpiryNames(s) == Filter(candidates, (c: string) => Succeeds(fetch, c))
      && forall i :: 0 <= i < |s| ==> s[i].rows != [] && Some(s[i].rows) == TableOf(fetch(s[i].expiry))
  {
    if candidates != [] {
      SuccessesProperties(candidates[1..], fetch);
      var s := Successes(candidates, fetch);
      var rest := Successes(candidates[1..], fetch);
      if Succeeds(fetch, candidates[0]) {
        assert s == [ExpiryTable(candidates[0], TableOf(fetch(candidates[0])).value)] + rest;
        assert s[1..] == rest;
        assert ExpiryNames(s) == [candidates[0]] + ExpiryNames(rest);
      } else {
        assert s == rest;
      }
    }
  }


  /** At most `n` leading elements. */
  function Take<T>(xs: seq<T>, n: nat): (r: seq<T>)
    ensures |r| == if |xs| < n then |xs| else n
    ensures r <= xs
  {
    if |xs| <= n then xs else xs[..n]
  }

  /** Tries the candidates in order, keeping each non-empty table, and stops
      trying once two are kept; `tried` is how many were requested. */
  method CollectExpiries(candidates: seq<string>, fetch: ChainService) returns (collected: seq<ExpiryTable>, tried: nat)
    ensures tried <= |candidates|
    ensures collected == Successes(candidates[..tried], fetch)
    ensures collected == Take(Successes(candidates, fetch), ExpiryLimit)
    ensures tried < |candidates| ==> |collected| == ExpiryLimit
    ensures tried > 0 ==> |Successes(candidates[..tried - 1], fetch)| < ExpiryLimit
  {
    collected := [];
    var i := 0;
    while i < |candidates|
      invariant 0 <= i <= |candidates|
      invariant collected == Successes(candidates[..i], fetch)
      invariant |collected| <= ExpiryLimit
      invariant i > 0 ==> |Successes(candidates[..i - 1], fetch)| < ExpiryLimit
    {
      if |collected| >= ExpiryLimit {
        break;
      }
      var expiry := candidates[i];
      var table := TableOf(fetch(expiry));
      SuccessesAppend(candidates[..i], [expiry], fetch);
      assert candidates[..i + 1] == candidates[..i] + [expiry];
      assert [expiry][1..] == [];
      if table.Some? {
        collected := collected + [ExpiryTable(expiry, table.value)];
      }
      i := i + 1;
    }
    tried := i;
    SuccessesAppend(candidates[..tried], candidates[tried..], fetch);
    assert candidates[..tried] + candidates[tried..] == candidates;
  }

  /** The spot: the parsed last traded price when non-zero, else 0 (also
      when the request fails). */
  function BseSpot(response: SpotResponse): (spot: real)
    ensures spot != 0.0 ==> response.SpotReply? && ParseBseNumber(response.ltp) == Some(spot)
    ensures spot == 0.0 <==> response.SpotFailed? || !Truthy(ParseBseNumber(response.ltp))
  {
    match response
    case SpotFailed(_) => 0.0
    case SpotReply(ltp) => OrOrZero(ParseBseNumber(ltp), None)
  }

  /** The expiry labels tried: the next four Fridays from `today`. */
  function Candidates(today: int): (c: seq<string>)
    ensures |c| == CandidateCount
  {
    var fridays := NextWeekdays(today, Friday, CandidateCount);
    seq(CandidateCount, i requires 0 <= i < CandidateCount => FormatBseDate(fridays[i]))
  }

  /** What the chain fetch gathers. */
  datatype BseChain = BseChain(spot: real, expiries: seq<ExpiryTable>)

  /** The chain fetch on day `today`: the spot, then the first two
      candidates that yield a table. */
  function FetchSensexChain(today: int, spotResponse: SpotResponse, fetch: ChainService): BseChain {
    BseChain(BseSpot(spotResponse), Take(Successes(Candidates(today), fetch), ExpiryLimit))
  }

  /** `name` is the label of a Friday from `today` on, within four weeks. */
  predicate IsFridayLabel(today: int, name: string) {
    exists d {:trigger FormatBseDate(d)} :: today <= d < today + 7 * CandidateCount && Weekday(d) == Friday && name == FormatBseDate(d)
  }

  /** Every expiry the fetch gathers is the label of a Friday from `today`
      on, within four weeks, and carries a non-empty table; at most two are
      gathered. */
  lemma FetchSensexChainExpiries(today: int, spotResponse: SpotResponse, fetch: ChainService)
    ensures var c := FetchSensexChain(today, spotResponse, fetch);
      && |c.expiries| <= ExpiryLimit
      && forall i :: 0 <= i < |c.expiries| ==>
           c.expiries[i].rows != []
           && IsFridayLabel(today, c.expiries[i].expiry)
  {
    CollectedFridays(today, fetch);
  }

  /** The tables kept from the candidates of `today`: at most two, each
      non-empty and labelled with a Friday of the next four weeks. */
  lemma CollectedFridays(today: int, fetch: ChainService)
    ensures var e := Take(Successes(Candidates(today), fetch), ExpiryLimit);
      && |e| <= ExpiryLimit
      && forall i :: 0 <= i < |e| ==>
           e[i].rows != []
           && IsFridayLabel(today, e[i].expiry)
  {
    var cands := Candidates(today);
    var e := Take(Successes(cands, fetch), ExpiryLimit);
    CollectedFromCandidates(cands, fetch);
    forall i | 0 <= i < |e|
      ensures IsFridayLabel(today, e[i].expiry)
    {
      CandidateIsFridayLabel(today, e[i].expiry);
    }
  }

  /** Every candidate is the label of a Friday of the next four weeks. */
  lemma CandidateIsFridayLabel(today: int, name: string)
    requires name in Candidates(today)
    ensures IsFridayLabel(today, name)
  {
    var cands := Candidates(today);
    var j :| 0 <= j < |cands| && cands[j] == name;
    CandidateFriday(today, j);
  }

  /** The tables kept from any candidate list are at most two, non-empty,
      and each belongs to a candidate. */
  lemma CollectedFromCandidates(candidates: seq<string>, fetch: ChainService)
    ensures var e := Take(Successes(candidates, fetch), ExpiryLimit);
      && |e| <= ExpiryLimit
      && forall i :: 0 <= i < |e| ==> e[i].rows != [] && e[i].expiry in candidates
  {
    var all := Successes(candidates, fetch);
    var e := Take(all, ExpiryLimit);
    forall i | 0 <= i < |e|
      ensures e[i].rows != [] && e[i].expiry in candidates
    {
      assert e[i] == all[i];
      SuccessFromCandidate(candidates, fetch, i);
    }
  }

  /** A collected table is non-empty and belongs to one of the candidates. */
  lemma SuccessFromCandidate(candidates: seq<string>, fetch: ChainService, i: nat)
    requires i < |Successes(candidates, fetch)|
    ensures var t := Successes(candidates, fetch)[i];
      t.rows != [] && t.expiry in candidates
  {
    var s := Successes(candidates, fetch);
    SuccessesProperties(candidates, fetch);
    assert ExpiryNames(s)[i] == s[i].expiry;
  }

  /** Each candidate is the label of a Friday from `today` on, within four
      weeks. */
  lemma CandidateFriday(today: int, j: int)
    requires 0 <= j < CandidateCount
    ensures IsFridayLabel(today, Candidates(today)[j])
  {
    NextWeekdaysProperties(today, Friday, CandidateCount);
    var fridays := NextWeekdays(today, Friday, CandidateCount);
    assert fridays[j] == FirstOnOrAfter(today, Friday) + 7 * j;
    assert Candidates(today)[j] == FormatBseDate(fridays[j]);
    assert today <= fridays[j] < today + 7 * CandidateCount && Weekday(fridays[j]) == Friday;
  }

  /** Fetches the spot and up to two expiry tables on day `today`. */
  method FetchSensexOptionChain(today: int, spotResponse: SpotResponse, fetch: ChainService) returns (chain: BseChain)
    ensures chain == FetchSensexChain(today, spotResponse, fetch)
  {
    var spot := BseSpot(spotResponse);
    var fridays := GetUpcomingFridays(CandidateCount, today);
    var candidates := seq(|fridays|, i requires 0 <= i < |fridays| => FormatBseDate(fridays[i]));
    assert candidates == Candidates(today);
    var collected, _ := CollectExpiries(candidates, fetch);
    chain := BseChain(spot, collected);
  }

  // ---------------------------------------------------------------------
  // The snapshot

  /** The row strikes parse to the strike exactly. */
  predicate BseStrikeIs(row: BseRow, strike: int) {
    ParseBseNumber(Field(row, "Strike_Price")) == Some(strike as real)
  }

  /** Row `i` is the first of `rows` at `strike`. */
  predicate BseFirstAtStrike(rows: seq<BseRow>, i: int, strike: int) {
    0 <= i < |rows| && BseStrikeIs(rows[i], strike) && forall j :: 0 <= j < i ==> !BseStrikeIs(rows[j], strike)
  }

  /** The slot of one collected expiry: each side is read from the first row
      at that side's strike. */
  function BseSlot(t: ExpiryTable, ceStrike: int, peStrike: int): (s: Slot)
    ensures s.expiry == t.expiry
    ensures s.ce.Some? ==> exists i :: BseFirstAtStrike(t.rows, i, ceStrike) && s.ce == ExtractBseOptionFields(Some(t.rows[i]), ceStrike, CE)
    ensures s.pe.Some? ==> exists i :: BseFirstAtStrike(t.rows, i, peStrike) && s.pe == ExtractBseOptionFields(Some(t.rows[i]), peStrike, PE)
    ensures s.ce.None? <==> forall i :: 0 <= i < |t.rows| ==> !BseStrikeIs(t.rows[i], ceStrike)
    ensures s.pe.None? <==> forall i :: 0 <= i < |t.rows| ==> !BseStrikeIs(t.rows[i], peStrike)
  {
    var atCe := (row: BseRow) => BseStrikeIs(row, ceStrike);
    var atPe := (row: BseRow) => BseStrikeIs(row, peStrike);
    assert forall i :: 0 <= i < |t.rows| ==> atCe(t.rows[i]) == BseStrikeIs(t.rows[i], ceStrike);
    assert forall i :: 0 <= i < |t.rows| ==> atPe(t.rows[i]) == BseStrikeIs(t.rows[i], peStrike);
    Slot(t.expiry,
         ExtractBseOptionFields(FindFirst(t.rows, atCe), ceStrike, CE),
         ExtractBseOptionFields(FindFirst(t.rows, atPe), peStrike, PE))
  }

  const NoDataMessage: string := "No SENSEX option chain data available"

  /** The SENSEX snapshot built at instant `now` (epoch milliseconds), with
      anchor memo `memo`. */
  function SensexBuild(now: int, spotResponse: SpotResponse, fetch: ChainService, quote: QuoteService, memo: map<string, Memo>): Build {
    var raw := FetchSensexChain(DayOf(now), spotResponse, fetch);
    if raw.spot == 0.0 || raw.expiries == [] then Build(Err(NoDataMessage), memo)
    else
      var anchor := AnchorLookup(memo, "SENSEX", "^BSESN", DayOf(now), quote);
      var reference := ReferencePrice(anchor.price, Some(raw.spot)).value;
      var strikes := StrikesFor(reference, StrikeOffset);
      var slots := seq(|raw.expiries|, i requires 0 <= i < |raw.expiries| => BseSlot(raw.expiries[i], strikes.ce, strikes.pe));
      Build(Ok(Snapshot("SENSEX", "SENSEX", Some(raw.spot), anchor.price, now, Some(strikes.ce), Some(strikes.pe),
                        StrikeOffset, "Friday", slots)),
            anchor.memo)
  }

  /** The builder throws exactly when the spot is 0 or no expiry was
      collected, and then leaves the memo alone; otherwise the memo changes
      as one anchor lookup of SENSEX on the day of `now` says. */
  lemma SensexBuildOutcome(now: int, spotResponse: SpotResponse, fetch: ChainService, quote: QuoteService, memo: map<string, Memo>)
    ensures var raw := FetchSensexChain(DayOf(now), spotResponse, fetch);
      var b := SensexBuild(now, spotResponse, fetch, quote, memo);
      && (b.result.Err? <==> raw.spot == 0.0 || raw.expiries == [])
      && (b.result.Err? ==> b == Build(Err(NoDataMessage), memo))
      && (b.result.Ok? ==> b.memo == AnchorLookup(memo, "SENSEX", "^BSESN", DayOf(now), quote).memo)
  {
  }

  /** A SENSEX snapshot has a non-zero spot, the anchor the lookup gave,
      strikes that are multiples of 100 exactly 7000 apart with the CE
      strike rounding up the reference price plus 3500, one or two slots in
      the order their expiries were collected, each the `BseSlot` of its
      table at the two strikes, and the Friday label. */
  lemma SensexBuildSnapshot(now: int, spotResponse: SpotResponse, fetch: ChainService, quote: QuoteService, memo: map<string, Memo>)
    requires SensexBuild(now, spotResponse, fetch, quote, memo).result.Ok?
    ensures var s := SensexBuild(now, spotResponse, fetch, quote, memo).result.value;
      var raw := FetchSensexChain(DayOf(now), spotResponse, fetch);
      && s.symbol == "SENSEX" && s.expiryDay == "Friday" && s.strikeOffset == StrikeOffset
      && s.spot == Some(raw.spot) && raw.spot != 0.0
      && s.ceStrike.Some? && s.peStrike.Some?
      && s.ceStrike.value % 100 == 0 && s.peStrike.value % 100 == 0
      && s.ceStrike.value - s.peStrike.value == 2 * StrikeOffset
      && (var ref := ReferencePrice(s.anchorPrice, s.spot).value;
          ref + StrikeOffset as real <= s.ceStrike.value as real < ref + StrikeOffset as real + 100.0)
      && s.anchorPrice == AnchorLookup(memo, "SENSEX", "^BSESN", DayOf(now), quote).price
      && 1 <= |s.expiries| == |raw.expiries| <= ExpiryLimit
      && (forall i :: 0 <= i < |s.expiries| ==> s.expiries[i] == BseSlot(raw.expiries[i], s.ceStrike.value, s.peStrike.value))
      && (forall i :: 0 <= i < |s.expiries| ==> s.expiries[i].expiry == raw.expiries[i].expiry)
      && (forall i :: 0 <= i < |s.expiries| && s.expiries[i].ce.Some? ==> s.expiries[i].ce.value.strike == s.ceStrike.value)
      && (forall i :: 0 <= i < |s.expiries| && s.expiries[i].pe.Some? ==> s.expiries[i].pe.value.strike == s.peStrike.value)
  {
    var raw := FetchSensexChain(DayOf(now), spotResponse, fetch);
    var anchor := AnchorLookup(memo, "SENSEX", "^BSESN", DayOf(now), quote);
    var reference := ReferencePrice(anchor.price, Some(raw.spot)).value;
    StrikesForProperties(reference, StrikeOffset);
  }

  /** Builds the SENSEX snapshot at instant `now`, looking the anchor up in
      (and updating) `anchor`. */
  method GetSensexOptionsTrackerData(now: int, spotResponse: SpotResponse, fetch: ChainService, quote: QuoteService, anchor: AnchorCache)
    returns (result: Result<Snapshot>)
    modifies anchor
    ensures var b := SensexBuild(now, spotResponse, fetch, quote, old(anchor.entries));
      result == b.result && anchor.entries == b.memo
  {
    var raw := FetchSensexOptionChain(DayOf(now), spotResponse, fetch);
    if raw.spot == 0.0 || raw.expiries == [] {
      return Err(NoDataMessage);
    }
    var anchorPrice := anchor.Get("SENSEX", "^BSESN", DayOf(now), quote);
    var reference := ReferencePrice(anchorPrice, Some(raw.spot)).value;
    var strikes := StrikesFor(reference, StrikeOffset);
    var slots := seq(|raw.expiries|, i requires 0 <= i < |raw.expiries| => BseSlot(raw.expiries[i], strikes.ce, strikes.pe));
    result := Ok(Snapshot("SENSEX", "SENSEX", Some(raw.spot), anchorPrice, now, Some(strikes.ce), Some(strikes.pe),
                          StrikeOffset, "Friday", slots));
  }
}
