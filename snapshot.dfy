/** The canonical shapes both snapshot builders produce, and the strike rule
    they share: the two watched strikes are the reference price plus and
    minus the symbol's offset, each rounded up to a multiple of 100. */
module Snapshot {
  import opened Common
  import opened Anchor

  /** One side (CE or PE) of one strike and expiry, normalised. Fields a
      source does not report are `None`; `pChange` always has a value. */
  datatype Quote = Quote(
    strike: int,
    ltp: Option<real>,
    change: Option<real>,
    pChange: real,
    oi: Option<real>,
    oiChange: Option<real>,
    volume: Option<real>,
    iv: Option<real>,
    bid: Option<real>,
    ask: Option<real>,
    bidQty: Option<real>,
    askQty: Option<real>)

  /** The CE and PE quotes of one expiry; a side without a matching row is
      `None`. */
  datatype Slot = Slot(expiry: string, ce: Option<Quote>, pe: Option<Quote>)

  /** One symbol's snapshot (`displayLabel` is the source's `label`, a word
      Dafny reserves). `timestamp` is the build time in epoch
      milliseconds. A strike is `None` where the source computes `NaN`
      (a missing reference price). */
  datatype Snapshot = Snapshot(
    symbol: string,
    displayLabel: string,
    spot: Option<real>,
    anchorPrice: Option<real>,
    timestamp: int,
    ceStrike: Option<int>,
    peStrike: Option<int>,
    strikeOffset: int,
    expiryDay: string,
    expiries: seq<Slot>)

  /** `Math.ceil(x / 100) * 100`: the least multiple of 100 that is not below
      `x`. */
  function CeilToHundred(x: real): (r: int)
    ensures r % 100 == 0
    ensures x <= r as real < x + 100.0
  {
    var q := x / 100.0;
    var f := q.Floor;
    (if f as real == q then f else f + 1) * 100
  }

  /** Only one multiple of 100 lies in `[x, x + 100)`. */
  lemma CeilToHundredUnique(x: real, r: int)
    requires r % 100 == 0 && x <= r as real < x + 100.0
    ensures r == CeilToHundred(x)
  {
    var c := CeilToHundred(x);
    var a, b := r / 100, c / 100;
    assert r == 100 * a && c == 100 * b;
    assert -100.0 < (r - c) as real < 100.0;
  }

  /** Shifting the price by a multiple of 100 shifts the rounded strike by
      the same amount. */
  lemma CeilToHundredShift(x: real, k: int)
    ensures CeilToHundred(x + 100.0 * k as real) == CeilToHundred(x) + 100 * k
  {
    var c := CeilToHundred(x);
    var m := c / 100 + k;
    assert c + 100 * k == 100 * m;
    assert (100 * m) % 100 == 0;
    assert x + 100.0 * k as real <= (c + 100 * k) as real < x + 100.0 * k as real + 100.0;
    CeilToHundredUnique(x + 100.0 * k as real, c + 100 * k);
  }

  datatype Strikes = Strikes(ce: int, pe: int)

  /** The CE strike above and the PE strike below the reference price. */
  function StrikesFor(reference: real, offset: int): Strikes {
    Strikes(CeilToHundred(reference + offset as real), CeilToHundred(reference - offset as real))
  }

  /** Both strikes are multiples of 100, the CE strike rounds the price plus
      the offset up and the PE strike the price minus the offset; with an
      offset that is a multiple of 100 they lie exactly twice the offset
      apart. */
  lemma StrikesForProperties(reference: real, offset: int)
    ensures var s := StrikesFor(reference, offset);
      && s.ce % 100 == 0 && s.pe % 100 == 0
      && reference + offset as real <= s.ce as real < reference + offset as real + 100.0
      && reference - offset as real <= s.pe as real < reference - offset as real + 100.0
      && (offset % 100 == 0 ==> s.ce - s.pe == 2 * offset)
  {
    if offset % 100 == 0 {
      var k := 2 * offset / 100;
      assert reference + offset as real == (reference - offset as real) + 100.0 * k as real;
      CeilToHundredShift(reference - offset as real, k);
    }
  }

  /** A price already on a multiple of 100 is its own strike; a price just
      above one rounds up to the next. */
  lemma StrikesForExamples()
    ensures StrikesFor(24567.0, 1000) == Strikes(25600, 23600)
    ensures StrikesFor(24000.0, 1000) == Strikes(25000, 23000)
  {
    CeilToHundredUnique(25567.0, 25600);
    CeilToHundredUnique(23567.0, 23600);
    CeilToHundredUnique(25000.0, 25000);
    CeilToHundredUnique(23000.0, 23000);
  }

  /** `anchorPrice || spot`: the anchor when it is a non-zero price, else the
      spot. */
  function ReferencePrice(anchor: Option<real>, spot: Option<real>): (r: Option<real>)
    ensures Truthy(anchor) ==> r == anchor
    ensures !Truthy(anchor) ==> r == spot
  {
    Or(anchor, spot)
  }

  /** A builder's outcome (a snapshot or the error it throws) and its anchor
      memo afterwards. */
  datatype Build = Build(result: Result<Snapshot>, memo: map<string, Memo>)
}
