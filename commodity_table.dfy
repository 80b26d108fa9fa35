/** Per-commodity retail prices in AED: each configured line item takes the
    gold or silver quote, adds its premiums, converts USD per troy ounce to
    AED per gram, scales by weight unit, unit count and purity, adds a flat
    charge and is rounded for display. */
module CommodityTable {
  import opened Wrappers

  /** Grams per troy ounce, as the price formula writes it. */
  const GramsPerOunce: real := 31.103
  /** The fixed AED per USD rate used in the price. */
  const AedPerUsd: real := 3.64

  /** A spot quote (`goldData` / `silverData`); `None` where `parseFloat`
      of the field gives NaN. */
  datatype SpotQuote = SpotQuote(bid: Option<real>, ask: Option<real>)

  datatype BidAsk = BidAsk(bid: real, ask: real)

  /** One configured line item. Charges, premiums and purity are `None` when
      missing or non-numeric; `unit` is used as given. */
  datatype Commodity = Commodity(
    metal: string,
    weight: string,
    unit: real,
    purity: Option<int>,
    buyCharge: Option<real>,
    sellCharge: Option<real>,
    buyPremium: Option<real>,
    sellPremium: Option<real>)

  /** A displayed price: `toFixed(2)` keeps hundredths, `Math.round` an
      integer. */
  datatype Shown = Hundredths(cents: int) | Whole(n: int)

  /** One rendered row: display name, buy price, sell price. */
  datatype PricedRow = PricedRow(name: string, buy: Shown, sell: Shown)

  // ---------------------------------------------------------------------
  // Case mapping (ASCII letters only)

  function LowerChar(c: char): char {
    if 'A' <= c <= 'Z' then (c as int + 32) as char else c
  }

  function UpperChar(c: char): char {
    if 'a' <= c <= 'z' then (c as int - 32) as char else c
  }

  /** `s.toLowerCase()`. */
  function Lower(s: string): (r: string)
    ensures |r| == |s| && forall i :: 0 <= i < |s| ==> r[i] == LowerChar(s[i])
  {
    if s == [] then [] else [LowerChar(s[0])] + Lower(s[1..])
  }

  // ---------------------------------------------------------------------
  // getBidAskValues

  /** `parseFloat(x) || 0`: a number stays, NaN becomes 0. */
  function NumOrZero(x: Option<real>): (r: real)
    ensures x.Some? ==> r == x.value
    ensures x.None? ==> r == 0.0
  {
    x.GetOr(0.0)
  }

  const GoldMetals: set<string> := {"gold", "gold kilobar", "gold ten tola"}

  /** The bid and ask a (lower-cased) metal name is priced from. */
  function GetBidAskValues(metal: string, gold: SpotQuote, silver: SpotQuote): (r: BidAsk)
    ensures metal in GoldMetals ==> r == BidAsk(NumOrZero(gold.bid), NumOrZero(gold.ask))
    ensures metal == "silver" ==> r == BidAsk(NumOrZero(silver.bid), NumOrZero(silver.ask))
    ensures metal !in GoldMetals && metal != "silver" ==> r == BidAsk(0.0, 0.0)
  {
    if metal == "gold" || metal == "gold kilobar" || metal == "gold ten tola" then
      BidAsk(NumOrZero(gold.bid), NumOrZero(gold.ask))
    else if metal == "silver" then
      BidAsk(NumOrZero(silver.bid), NumOrZero(silver.ask))
    else
      BidAsk(0.0, 0.0)
  }

  // ---------------------------------------------------------------------
  // calculatePurityPower

  /** `Math.pow(10, k)` for a natural exponent. */
  function Pow10(k: nat): (r: nat)
    ensures r >= 1
    ensures k > 0 ==> r % 10 == 0
  {
    if k == 0 then 1 else 10 * Pow10(k - 1)
  }

  /** Number of decimal digits of a positive integer. */
  function Digits(n: nat): (d: nat)
    requires n > 0
    ensures d >= 1 && Pow10(d - 1) <= n < Pow10(d)
  {
    if n < 10 then 1 else 1 + Digits(n / 10)
  }

  /** `n.toString().length` for a non-zero integer: its digits, plus one for
      the minus sign. */
  function DecimalLength(n: int): (len: nat)
    requires n != 0
    ensures n > 0 ==> len >= 1 && Pow10(len - 1) <= n < Pow10(len)
    ensures n < 0 ==> len >= 2 && Pow10(len - 2) <= -n < Pow10(len - 1)
  {
    if n > 0 then Digits(n) else 1 + Digits(-n)
  }

  /** `calculatePurityPower`: 1 for a missing, NaN or zero input, otherwise
      the code divided by ten to the power of its printed length. For a
      positive code the result is the fraction the code denotes, in
      [0.1, 1). */
  function PurityPower(input: Option<int>): (r: real)
    ensures input.None? || input.value == 0 ==> r == 1.0
    ensures input.Some? && input.value > 0 ==> 0.1 <= r < 1.0
    ensures input.Some? && input.value < 0 ==> -0.1 < r <= -0.01
  {
    if input.None? || input.value == 0 then 1.0
    else
      var p := input.value;
      var scale := Pow10(DecimalLength(p)) as real;
      PurityBounds(p);
      p as real / scale
  }

  /** A positive code with d digits denotes the fraction code / 10^d. */
  lemma PurityPowerIsFraction(p: int)
    requires p > 0
    ensures PurityPower(Some(p)) == p as real / Pow10(Digits(p)) as real
  {
  }

  /** Bounds on a quotient from bounds on its numerator. */
  lemma QuotientBounds(a: real, b: real, lo: real, hi: real)
    requires b > 0.0 && lo * b <= a < hi * b
    ensures lo <= a / b < hi
  {
    assert (a / b) * b == a;
  }

  lemma NegatedQuotient(a: real, b: real)
    requires b > 0.0
    ensures (-a) / b == -(a / b)
  {
    var q := a / b;
    assert q * b == a;
    assert (-q) * b == -a;
  }

  lemma PurityBounds(p: int)
    requires p != 0
    ensures p > 0 ==> 0.1 <= p as real / Pow10(DecimalLength(p)) as real < 1.0
    ensures p < 0 ==> -0.1 < p as real / Pow10(DecimalLength(p)) as real <= -0.01
  {
    var m: nat := if p > 0 then p else -p;
    var d := Digits(m);
    var lo, hi := Pow10(d - 1) as real, Pow10(d) as real;
    assert hi == 10.0 * lo;
    assert lo <= m as real < hi;
    if p > 0 {
      assert DecimalLength(p) == d;
      QuotientBounds(m as real, hi, 0.1, 1.0);
    } else {
      assert DecimalLength(p) == d + 1;
      var scale := Pow10(d + 1) as real;
      assert scale == 10.0 * hi;
      QuotientBounds(m as real, scale, 0.01, 0.1);
      NegatedQuotient(m as real, scale);
    }
  }

  lemma PurityExamples()
    ensures PurityPower(Some(9999)) == 0.9999
    ensures PurityPower(Some(916)) == 0.916
    ensures PurityPower(Some(750)) == 0.75
    ensures PurityPower(Some(22)) == 0.22
  {
    assert Digits(9999) == 4 by { assert Digits(999) == 3 by { assert Digits(99) == 2; } }
    assert Digits(916) == 3 by { assert Digits(91) == 2; }
    assert Digits(750) == 3 by { assert Digits(75) == 2; }
    assert Digits(22) == 2;
  }

  // ---------------------------------------------------------------------
  // Unit multiplier

  /** The weight-unit table: the number of grams in one unit. */
  const UnitTable: map<string, real> :=
    map["GM" := 1.0, "KG" := 1000.0, "TTB" := 116.64, "TOLA" := 11.664, "OZ" := 31.1034768]

  /** `{GM: 1, ...}[weight] || 1`: the table entry, or 1 for any other
      weight code. Never shrinks the gram price. */
  function UnitMultiplier(weight: string): (m: real)
    ensures weight in UnitTable ==> m == UnitTable[weight]
    ensures weight !in UnitTable ==> m == 1.0
    ensures m >= 1.0
  {
    if weight in UnitTable && UnitTable[weight] != 0.0 then UnitTable[weight] else 1.0
  }

  // ---------------------------------------------------------------------
  // formatValue

  /** `toFixed(2)` on an exact value: a negative value is rounded as its
      magnitude and negated, so the result is the nearest hundredth with a
      tie going away from zero. */
  function RoundHundredths(v: real): (c: int)
    ensures v >= 0.0 ==> c as real - 0.5 <= v * 100.0 < c as real + 0.5
    ensures v < 0.0 ==> c as real - 0.5 < v * 100.0 <= c as real + 0.5
  {
    if v < 0.0 then -((-v) * 100.0 + 0.5).Floor else (v * 100.0 + 0.5).Floor
  }

  /** `toFixed(2)` is symmetric in the sign: -x shows as the negation of x. */
  lemma RoundHundredthsSymmetric(v: real)
    ensures RoundHundredths(-v) == -RoundHundredths(v)
  {
    if v > 0.0 {
      assert -(-v) == v;
    } else if v < 0.0 {
      var c := RoundHundredths(v);
      var d := RoundHundredths(-v);
      assert d as real - 0.5 <= -v * 100.0 < d as real + 0.5;
      assert -d as real - 0.5 < v * 100.0 <= -d as real + 0.5;
    }
  }

  /** Ties at a half hundredth: 0.125 shows 0.13 and -0.125 shows -0.13. */
  lemma RoundHundredthsTies()
    ensures RoundHundredths(0.125) == 13
    ensures RoundHundredths(-0.125) == -13
  {
  }

  /** `Math.round`: the nearest integer, a tie going to the larger one. */
  function RoundWhole(v: real): (n: int)
    ensures n as real - 0.5 <= v < n as real + 0.5
  {
    (v + 0.5).Floor
  }

  /** `formatValue`: two decimals for "GM", an integer for every other
      weight code. */
  function FormatValue(v: real, weight: string): (s: Shown)
    ensures weight == "GM" <==> s.Hundredths?
    ensures s.Hundredths? && v >= 0.0 ==> -0.005 <= v - s.cents as real / 100.0 < 0.005
    ensures s.Hundredths? && v < 0.0 ==> -0.005 < v - s.cents as real / 100.0 <= 0.005
    ensures s.Whole? ==> -0.5 <= v - s.n as real < 0.5
  {
    if weight == "GM" then Hundredths(RoundHundredths(v)) else Whole(RoundWhole(v))
  }

  /** The value a displayed price stands for. */
  function ShownValue(s: Shown): real {
    match s
    case Hundredths(c) => c as real / 100.0
    case Whole(n) => n as real
  }

  /** Rounding keeps order: a larger price never displays smaller. */
  lemma FormatValueMonotone(x: real, y: real, weight: string)
    requires x <= y
    ensures ShownValue(FormatValue(x, weight)) <= ShownValue(FormatValue(y, weight))
  {
    if weight == "GM" {
      var a, b := RoundHundredths(x), RoundHundredths(y);
      assert x * 100.0 <= y * 100.0;
      assert a <= b;
      assert ShownValue(FormatValue(x, weight)) == a as real / 100.0;
      assert ShownValue(FormatValue(y, weight)) == b as real / 100.0;
    } else {
      var a, b := RoundWhole(x), RoundWhole(y);
      assert a <= b;
    }
  }

  // ---------------------------------------------------------------------
  // getMetalName

  /** `getMetalName`: the three gold names in any case get their fixed
      labels; any other name has its first character upper-cased. */
  function GetMetalName(metal: string): (r: string)
    ensures Lower(metal) == "gold" ==> r == "GOLD"
    ensures Lower(metal) == "gold kilobar" ==> r == "KILO BAR"
    ensures Lower(metal) == "gold ten tola" ==> r == "TEN TOLA BAR"
    ensures Lower(metal) !in GoldMetals ==>
      |r| == |metal| && (metal != [] ==> r[0] == UpperChar(metal[0]) && r[1..] == metal[1..])
  {
    var key := Lower(metal);
    if key == "gold" then "GOLD"
    else if key == "gold kilobar" then "KILO BAR"
    else if key == "gold ten tola" then "TEN TOLA BAR"
    else if metal == [] then ""
    else [UpperChar(metal[0])] + metal[1..]
  }

  lemma LowerUpperChar(c: char)
    ensures LowerChar(UpperChar(c)) == LowerChar(c)
  {
  }

  /** Up-casing the first character does not change the lower-cased name. */
  lemma LowerOfCapitalised(metal: string)
    requires metal != []
    ensures Lower([UpperChar(metal[0])] + metal[1..]) == Lower(metal)
  {
    var r := [UpperChar(metal[0])] + metal[1..];
    LowerUpperChar(metal[0]);
    assert forall i :: 0 <= i < |metal| ==> Lower(r)[i] == Lower(metal)[i];
  }

  /** The three fixed labels display as themselves. */
  lemma GoldLabelFixed()
    ensures GetMetalName("GOLD") == "GOLD"
  {
    var g := Lower("GOLD");
    assert g[0] == 'g' && g[1] == 'o' && g[2] == 'l' && g[3] == 'd';
    assert g == "gold";
  }

  lemma KiloBarLabelFixed()
    ensures GetMetalName("KILO BAR") == "KILO BAR"
  {
    var k := Lower("KILO BAR");
    assert |k| == 8;
    assert k !in GoldMetals;
    assert [UpperChar('K')] + "KILO BAR"[1..] == "KILO BAR";
  }

  lemma TenTolaBarLabelFixed()
    ensures GetMetalName("TEN TOLA BAR") == "TEN TOLA BAR"
  {
    var name := "TEN TOLA BAR";
    var t := Lower(name);
    assert |t| == 12;
    assert t[0] == 't' && "gold kilobar"[0] == 'g';
    assert t != "gold" && t != "gold kilobar" && t != "gold ten tola";
    assert GetMetalName(name) == [UpperChar(name[0])] + name[1..];
    assert [UpperChar('T')] + name[1..] == name;
  }

  /** Re-labelling an already capitalised name changes nothing. */
  lemma CapitalisedIsFixed(metal: string)
    requires metal != [] && Lower(metal) !in GoldMetals
    ensures GetMetalName(GetMetalName(metal)) == GetMetalName(metal)
  {
    var r := [UpperChar(metal[0])] + metal[1..];
    LowerOfCapitalised(metal);
    assert GetMetalName(metal) == r;
    assert Lower(r) !in GoldMetals;
    assert UpperChar(r[0]) == r[0];
    assert [UpperChar(r[0])] + r[1..] == r;
  }

  /** A display name is its own display name. */
  lemma GetMetalNameIdempotent(metal: string)
    ensures GetMetalName(GetMetalName(metal)) == GetMetalName(metal)
  {
    var key := Lower(metal);
    if key == "gold" {
      GoldLabelFixed();
    } else if key == "gold kilobar" {
      KiloBarLabelFixed();
    } else if key == "gold ten tola" {
      TenTolaBarLabelFixed();
    } else if metal != [] {
      CapitalisedIsFixed(metal);
    }
  }

  // ---------------------------------------------------------------------
  // The price of one line item

  /** `(value / 31.103) * 3.64`: AED per gram for a USD per troy ounce
      value. Converting back recovers the ounce price, and the sign is
      kept. */
  function PerGramAed(usdPerOunce: real): (r: real)
    ensures (r / AedPerUsd) * GramsPerOunce == usdPerOunce
    ensures r >= 0.0 <==> usdPerOunce >= 0.0
  {
    (usdPerOunce / GramsPerOunce) * AedPerUsd
  }

  /** One side of the price: premium-adjusted quote in AED per gram, times
      the priced grams, plus the flat charge. With nothing to price, or a
      zero quote plus premium, only the charge is left; a non-negative
      quote plus premium on non-negative grams never prices below the
      charge. */
  function SidePrice(quote: real, premium: real, grams: real, charge: real): (r: real)
    ensures grams == 0.0 ==> r == charge
    ensures quote + premium == 0.0 ==> r == charge
    ensures grams >= 0.0 && quote + premium >= 0.0 ==> r >= charge
  {
    var rate := PerGramAed(quote + premium);
    assert grams >= 0.0 && rate >= 0.0 ==> rate * grams >= 0.0;
    rate * grams + charge
  }

  lemma SidePriceUnfold(quote: real, premium: real, grams: real, charge: real)
    ensures SidePrice(quote, premium, grams, charge) == PerGramAed(quote + premium) * grams + charge
  {
  }

  /** A side price never falls when the quote, the premium or the charge
      rises, as long as the priced grams are not negative. */
  lemma SidePriceMonotone(q1: real, p1: real, c1: real, q2: real, p2: real, c2: real, grams: real)
    requires q1 + p1 <= q2 + p2 && c1 <= c2 && grams >= 0.0
    ensures SidePrice(q1, p1, grams, c1) <= SidePrice(q2, p2, grams, c2)
  {
    var a, b := PerGramAed(q1 + p1), PerGramAed(q2 + p2);
    assert a <= b;
    assert (b - a) * grams >= 0.0;
  }

  /** `calculatePurityPower(parseFloat(purity) || 0)`: the `|| 0` fallback
      turns a missing code into 0, which the purity power maps to 1 just as
      it does a missing one, so this is the purity power of the parsed
      code. */
  function ParsedPurityPower(c: Commodity): (pw: real)
    ensures pw == PurityPower(c.purity)
  {
    ParsedPurity(c.purity);
    PurityPower(Some(c.purity.GetOr(0)))
  }

  lemma ParsedPurity(purity: Option<int>)
    ensures PurityPower(Some(purity.GetOr(0))) == PurityPower(purity)
  {
  }

  /** `unitMultiplier * unit * purityPower`: the grams of fine metal one
      line item prices. A unit purity power prices the full weight, and a
      zero factor prices nothing. */
  function GramsOf(u: real, n: real, pw: real): (g: real)
    ensures pw == 1.0 ==> g == u * n
    ensures u == 0.0 || n == 0.0 || pw == 0.0 ==> g == 0.0
  {
    u * n * pw
  }

  /** Non-negative factors never price negative grams. */
  lemma GramsOfNonNegative(u: real, n: real, pw: real)
    requires u >= 0.0 && n >= 0.0 && pw >= 0.0
    ensures GramsOf(u, n, pw) >= 0.0
  {
    assert u * n >= 0.0;
  }

  /** Grams priced by one line item, with the parsed purity code. A missing
      or zero purity prices the full weight. */
  function PricedGrams(c: Commodity): (g: real)
    ensures c.purity.GetOr(0) == 0 ==> g == UnitMultiplier(c.weight) * c.unit
  {
    GramsOf(UnitMultiplier(c.weight), c.unit, ParsedPurityPower(c))
  }

  /** A non-negative count and purity code never price negative grams. */
  lemma PricedGramsNonNegative(c: Commodity)
    requires c.unit >= 0.0 && c.purity.GetOr(0) >= 0
    ensures PricedGrams(c) >= 0.0
  {
    assert ParsedPurityPower(c) >= 0.0;
    GramsOfNonNegative(UnitMultiplier(c.weight), c.unit, ParsedPurityPower(c));
  }

  /** The unrounded buy (`bid`) and sell (`ask`) prices of one line item,
      with the lower-cased metal choosing the quote. An item that prices no
      grams costs just its charges. */
  function RawPrices(c: Commodity, gold: SpotQuote, silver: SpotQuote): (r: BidAsk)
    ensures PricedGrams(c) == 0.0 ==> r == BidAsk(NumOrZero(c.buyCharge), NumOrZero(c.sellCharge))
  {
    var q := GetBidAskValues(Lower(c.metal), gold, silver);
    BidAsk(SidePrice(q.bid, NumOrZero(c.buyPremium), PricedGrams(c), NumOrZero(c.buyCharge)),
           SidePrice(q.ask, NumOrZero(c.sellPremium), PricedGrams(c), NumOrZero(c.sellCharge)))
  }

  lemma PricedGramsUnfold(c: Commodity)
    ensures PricedGrams(c) == GramsOf(UnitMultiplier(c.weight), c.unit, PurityPower(c.purity))
  {
  }

  lemma Reassociate(a: real, b: real, c: real, d: real)
    ensures a * (b * c * d) == a * b * c * d
  {
  }

  lemma SidePriceWrittenOut(quote: real, premium: real, u: real, n: real, pw: real, charge: real)
    ensures SidePrice(quote, premium, GramsOf(u, n, pw), charge)
      == (quote + premium) / 31.103 * 3.64 * u * n * pw + charge
  {
    SidePriceUnfold(quote, premium, GramsOf(u, n, pw), charge);
    Reassociate((quote + premium) / 31.103 * 3.64, u, n, pw);
  }

  /** The buy price written out in the inputs: `(bid + buyPremium) / 31.103
      * 3.64 * unitMultiplier * unit * purityPower + buyCharge`, with every
      missing premium or charge read as 0 and the purity code's power. */
  lemma RawBidFormula(c: Commodity, gold: SpotQuote, silver: SpotQuote)
    ensures var q := GetBidAskValues(Lower(c.metal), gold, silver);
      RawPrices(c, gold, silver).bid
        == (q.bid + NumOrZero(c.buyPremium)) / 31.103 * 3.64
           * UnitMultiplier(c.weight) * c.unit * PurityPower(c.purity) + NumOrZero(c.buyCharge)
  {
    var q := GetBidAskValues(Lower(c.metal), gold, silver);
    PricedGramsUnfold(c);
    SidePriceWrittenOut(q.bid, NumOrZero(c.buyPremium), UnitMultiplier(c.weight), c.unit,
                        PurityPower(c.purity), NumOrZero(c.buyCharge));
  }

  /** The sell price written out in the inputs, with the ask, the sell
      premium and the sell charge. */
  lemma RawAskFormula(c: Commodity, gold: SpotQuote, silver: SpotQuote)
    ensures var q := GetBidAskValues(Lower(c.metal), gold, silver);
      RawPrices(c, gold, silver).ask
        == (q.ask + NumOrZero(c.sellPremium)) / 31.103 * 3.64
           * UnitMultiplier(c.weight) * c.unit * PurityPower(c.purity) + NumOrZero(c.sellCharge)
  {
    var q := GetBidAskValues(Lower(c.metal), gold, silver);
    PricedGramsUnfold(c);
    SidePriceWrittenOut(q.ask, NumOrZero(c.sellPremium), UnitMultiplier(c.weight), c.unit,
                        PurityPower(c.purity), NumOrZero(c.sellCharge));
  }

  /** One row of the table, as rendered: the display name, and each price
      within half a displayed unit (a hundredth for "GM", one otherwise) of
      the unrounded formula value. */
  function PriceRow(c: Commodity, gold: SpotQuote, silver: SpotQuote): (row: PricedRow)
    ensures row.name == GetMetalName(c.metal)
    ensures row.buy.Hundredths? == row.sell.Hundredths? == (c.weight == "GM")
    ensures var raw, h := RawPrices(c, gold, silver), if c.weight == "GM" then 0.005 else 0.5;
      && -h <= raw.bid - ShownValue(row.buy) <= h
      && -h <= raw.ask - ShownValue(row.sell) <= h
  {
    var raw := RawPrices(c, gold, silver);
    PricedRow(GetMetalName(c.metal), FormatValue(raw.bid, c.weight), FormatValue(raw.ask, c.weight))
  }

  /** `commodities.map(...)`: one row per line item, in order; none is
      skipped. */
  function PriceAll(cs: seq<Commodity>, gold: SpotQuote, silver: SpotQuote): (rows: seq<PricedRow>)
    ensures |rows| == |cs|
    ensures forall i :: 0 <= i < |cs| ==> rows[i] == PriceRow(cs[i], gold, silver)
  {
    if cs == [] then [] else [PriceRow(cs[0], gold, silver)] + PriceAll(cs[1..], gold, silver)
  }

  /** A metal with no quote and no premiums prices at its flat charges. */
  lemma UnknownMetalPricesAtCharge(c: Commodity, gold: SpotQuote, silver: SpotQuote)
    requires Lower(c.metal) !in GoldMetals && Lower(c.metal) != "silver"
    requires NumOrZero(c.buyPremium) == 0.0 && NumOrZero(c.sellPremium) == 0.0
    ensures RawPrices(c, gold, silver) == BidAsk(NumOrZero(c.buyCharge), NumOrZero(c.sellCharge))
  {
  }

  /** Whenever the ask side is at least the bid side (quote plus premium,
      and charge) and count and purity are not negative, the displayed sell
      price is at least the displayed buy price. */
  lemma SellNotBelowBuy(c: Commodity, gold: SpotQuote, silver: SpotQuote)
    requires var q := GetBidAskValues(Lower(c.metal), gold, silver);
      q.bid + NumOrZero(c.buyPremium) <= q.ask + NumOrZero(c.sellPremium)
    requires NumOrZero(c.buyCharge) <= NumOrZero(c.sellCharge)
    requires c.unit >= 0.0 && c.purity.GetOr(0) >= 0
    ensures var row := PriceRow(c, gold, silver);
      ShownValue(row.buy) <= ShownValue(row.sell)
  {
    var q := GetBidAskValues(Lower(c.metal), gold, silver);
    var raw := RawPrices(c, gold, silver);
    SidePriceMonotone(q.bid, NumOrZero(c.buyPremium), NumOrZero(c.buyCharge),
                      q.ask, NumOrZero(c.sellPremium), NumOrZero(c.sellCharge), PricedGrams(c));
    PricedGramsNonNegative(c);
    FormatValueMonotone(raw.bid, raw.ask, c.weight);
  }

  /** One gram of 9999 gold at bid 1900 / ask 1905, premiums 5 / 3 and
      charges 2 / 1 shows as 224.92 / 224.27 AED; per kilogram it shows
      whole numbers. */
  lemma EndToEndExample()
    ensures var gold := SpotQuote(Some(1900.0), Some(1905.0));
      var item := Commodity("gold", "GM", 1.0, Some(9999), Some(2.0), Some(1.0), Some(5.0), Some(3.0));
      && PriceRow(item, gold, SpotQuote(None, None)) == PricedRow("GOLD", Hundredths(22492), Hundredths(22427))
      && PriceRow(item.(weight := "KG"), gold, SpotQuote(None, None)).buy == Whole(222923)
  {
    var gold := SpotQuote(Some(1900.0), Some(1905.0));
    var item := Commodity("gold", "GM", 1.0, Some(9999), Some(2.0), Some(1.0), Some(5.0), Some(3.0));
    var l := Lower("gold");
    assert l[0] == 'g' && l[1] == 'o' && l[2] == 'l' && l[3] == 'd';
    assert l == "gold";
    PurityExamples();
    assert PricedGrams(item) == 0.9999;
    assert PricedGrams(item.(weight := "KG")) == 999.9;
    var raw := RawPrices(item, gold, SpotQuote(None, None));
    assert raw.bid == 1905.0 / 31.103 * 3.64 * 0.9999 + 2.0;
    assert raw.ask == 1908.0 / 31.103 * 3.64 * 0.9999 + 1.0;
    assert RoundHundredths(raw.bid) == 22492;
    assert RoundHundredths(raw.ask) == 22427;
    var kg := RawPrices(item.(weight := "KG"), gold, SpotQuote(None, None));
    assert kg.bid == 1905.0 / 31.103 * 3.64 * 999.9 + 2.0;
    assert RoundWhole(kg.bid) == 222923;
  }
}
