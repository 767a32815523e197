/**
 * The commodity table: for each configured commodity it picks the gold or silver spot
 * quote, converts it from US dollars per troy ounce to dirhams per gram, scales it by
 * weight, unit count and purity, adds the premiums and charges, and formats the result.
 * Prices are exact reals; the quotes and commodity fields that the page parses with
 * `parseFloat(x) || 0` are `Option<real>`, where `None` is a value that does not parse.
 */
module CommodityTable {
  import opened Wrappers

  /** The bid and ask of one metal as the spot-rate context supplies them. */
  datatype SpotQuote = SpotQuote(bid: Option<real>, ask: Option<real>)

  /** One configured commodity row. `purity` is `None` when missing or not a number. */
  datatype Commodity = Commodity(
    metal: string,
    unit: real,
    weight: string,
    buyCharge: Option<real>,
    sellCharge: Option<real>,
    buyPremium: Option<real>,
    sellPremium: Option<real>,
    purity: Option<int>)

  /** What the purity cell shows: a karat text, or the raw purity value. */
  datatype PurityLabel = Karat(text: string) | RawPurity(purity: Option<int>)

  /** One rendered table row. `shown` is the formatted sell price, the only price displayed. */
  datatype Row = Row(name: string, purityText: PurityLabel, buyPrice: real, sellPrice: real, shown: real)

  /** Troy ounce in grams, as the page writes it. */
  const GramsPerOunce: real := 31.103
  /** The fixed US dollar to UAE dirham rate. */
  const AedPerUsd: real := 3.674

  /** The metal names (lower case) that read the gold quote. */
  const GoldNames: set<string> := {"gold", "gold kilobar", "gold ten tola"}

  /** Grams per unit of each weight code that has its own multiplier. */
  const WeightTable: map<string, real> :=
    map["GM" := 1.0, "KG" := 1000.0, "TTB" := 116.64, "TOLA" := 11.664, "OZ" := 31.1034768]

  /** The weight codes with their own multiplier. */
  const WeightCodes: set<string> := WeightTable.Keys

  /** `parseFloat(x) || 0`: a value that does not parse counts as zero. */
  function OrZero(x: Option<real>): (r: real)
    ensures x.Some? ==> r == x.value
    ensures x.None? ==> r == 0.0
  {
    x.GetOr(0.0)
  }

  function LowerChar(c: char): char {
    if 'A' <= c <= 'Z' then (c as int + 32) as char else c
  }

  function UpperChar(c: char): char {
    if 'a' <= c <= 'z' then (c as int - 32) as char else c
  }

  /** `toLowerCase`, over ASCII letters. */
  function ToLower(s: string): (r: string)
    ensures |r| == |s| && forall i :: 0 <= i < |s| ==> r[i] == LowerChar(s[i])
  {
    seq(|s|, i requires 0 <= i < |s| => LowerChar(s[i]))
  }

  /**
   * The spot bid and ask used for a metal name (already lower-cased by the caller):
   * the gold variants read the gold quote, "silver" the silver quote, anything else 0.
   */
  function BidAsk(metal: string, gold: SpotQuote, silver: SpotQuote): (r: (real, real))
    ensures metal in GoldNames ==> r == (OrZero(gold.bid), OrZero(gold.ask))
    ensures metal == "silver" ==> r == (OrZero(silver.bid), OrZero(silver.ask))
    ensures metal !in GoldNames && metal != "silver" ==> r == (0.0, 0.0)
  {
    if metal in GoldNames then (OrZero(gold.bid), OrZero(gold.ask))
    else if metal == "silver" then (OrZero(silver.bid), OrZero(silver.ask))
    else (0.0, 0.0)
  }

  /** Grams per weight unit; a code outside the table counts as one gram. */
  function UnitMultiplier(weight: string): (r: real)
    ensures weight == "GM" ==> r == 1.0
    ensures weight == "KG" ==> r == 1000.0
    ensures weight == "TTB" ==> r == 116.64
    ensures weight == "TOLA" ==> r == 11.664
    ensures weight == "OZ" ==> r == 31.1034768
    ensures weight !in WeightCodes ==> r == 1.0
    ensures r >= 1.0
  {
    if weight in WeightTable then WeightTable[weight] else 1.0
  }

  /** Number of decimal digits of a natural number. */
  function Digits(n: nat): (d: nat)
    ensures d >= 1
  {
    if n < 10 then 1 else 1 + Digits(n / 10)
  }

  /** Length of an integer's decimal string, the minus sign included. */
  function DecimalLength(n: int): nat {
    if n < 0 then 1 + Digits(-n) else Digits(n)
  }

  function Pow10(k: nat): (r: nat)
    ensures r >= 1
  {
    if k == 0 then 1 else 10 * Pow10(k - 1)
  }

  /**
   * The purity factor: 1 for a missing, non-numeric or zero purity, otherwise the
   * purity divided by ten to the length of its decimal string (916 gives 0.916).
   */
  function PurityPower(purity: Option<int>): (r: real)
    ensures purity.None? || purity == Some(0) ==> r == 1.0
    ensures purity.Some? && purity.value != 0 ==>
      r * Pow10(DecimalLength(purity.value)) as real == purity.value as real
  {
    if purity.None? || purity.value == 0 then 1.0
    else Tenths(purity.value as real, DecimalLength(purity.value))
  }

  /** `x` divided by ten `k` times. */
  function Tenths(x: real, k: nat): (r: real)
    ensures r * Pow10(k) as real == x
  {
    if k == 0 then x else Tenths(x, k - 1) / 10.0
  }

  /** The text of the purity cell. */
  function Label(purity: Option<int>): (r: PurityLabel)
    ensures purity == Some(916) <==> r == Karat("22K ")
    ensures purity == Some(875) <==> r == Karat("21K")
    ensures purity == Some(750) <==> r == Karat("18k")
    ensures r.RawPurity? <==> purity !in {Some(916), Some(875), Some(750)}
    ensures r.RawPurity? ==> r.purity == purity
  {
    if purity == Some(916) then Karat("22K ")
    else if purity == Some(875) then Karat("21K")
    else if purity == Some(750) then Karat("18k")
    else RawPurity(purity)
  }

  /** The displayed metal name: "Gold" for the gold variants, otherwise the name with its first letter capitalised. */
  function MetalName(metal: string): (r: string)
    ensures ToLower(metal) in GoldNames ==> r == "Gold"
    ensures ToLower(metal) !in GoldNames ==>
      |r| == |metal| && (|metal| > 0 ==> r[0] == UpperChar(metal[0]) && r[1..] == metal[1..])
  {
    if ToLower(metal) in GoldNames then "Gold"
    else if |metal| == 0 then ""
    else [UpperChar(metal[0])] + metal[1..]
  }

  /** A US-dollar-per-ounce amount in dirhams per gram. */
  function PerGramAed(usdPerOunce: real): (r: real)
    ensures r * GramsPerOunce == usdPerOunce * AedPerUsd
  {
    (usdPerOunce / GramsPerOunce) * AedPerUsd
  }

  /** The factor by which a per-gram price is scaled for one row. */
  function Scale(weight: string, unit: real, purityPower: real): real {
    UnitMultiplier(weight) * unit * purityPower
  }

  /** A retail price: the premium is added to the spot rate, the sum converted and scaled, then the charge added. */
  function Retail(rate: real, premium: real, scale: real, charge: real): real {
    PerGramAed(rate + premium) * scale + charge
  }

  /** The retail buy price of a commodity from the spot bid. */
  function BuyPrice(bid: real, c: Commodity): (r: real)
    ensures r == PerGramAed(bid + OrZero(c.buyPremium)) * UnitMultiplier(c.weight) * c.unit * PurityPower(c.purity)
      + OrZero(c.buyCharge)
  {
    Retail(bid, OrZero(c.buyPremium), Scale(c.weight, c.unit, PurityPower(c.purity)), OrZero(c.buyCharge))
  }

  /** The retail sell price of a commodity from the spot ask. */
  function SellPrice(ask: real, c: Commodity): (r: real)
    ensures r == PerGramAed(ask + OrZero(c.sellPremium)) * UnitMultiplier(c.weight) * c.unit * PurityPower(c.purity)
      + OrZero(c.sellCharge)
  {
    Retail(ask, OrZero(c.sellPremium), Scale(c.weight, c.unit, PurityPower(c.purity)), OrZero(c.sellCharge))
  }

  /** `Math.round`: the nearest integer, halves rounded up. */
  function RoundHalfUp(x: real): (r: int)
    ensures x - 0.5 < r as real <= x + 0.5
  {
    (x + 0.5).Floor
  }

  /** `toFixed(2)`, as a number of hundredths: the nearest one, halves rounded away from zero. */
  function Hundredths(x: real): (n: int)
    ensures 100.0 * x - 0.5 <= n as real <= 100.0 * x + 0.5
    ensures n as real == 100.0 * x + 0.5 ==> x > 0.0
    ensures n as real == 100.0 * x - 0.5 ==> x < 0.0
  {
    if x >= 0.0 then (100.0 * x + 0.5).Floor else -((-100.0 * x + 0.5).Floor)
  }

  /** The displayed value of a price: two decimals for grams, a whole number for every other weight code. */
  function Format(value: real, weight: string): (r: real)
    ensures weight == "GM" ==>
      && (value >= 0.0 ==> -0.005 < r - value <= 0.005)
      && (value < 0.0 ==> -0.005 <= r - value < 0.005)
      && r == (100.0 * r).Floor as real / 100.0
    ensures weight != "GM" ==> -0.5 < r - value <= 0.5 && r == r.Floor as real
  {
    if weight == "GM" then Hundredths(value) as real / 100.0 else RoundHalfUp(value) as real
  }

  /** One table row for a commodity, given the two spot quotes. */
  function PriceRow(c: Commodity, gold: SpotQuote, silver: SpotQuote): (r: Row)
    ensures r.buyPrice == BuyPrice(BidAsk(ToLower(c.metal), gold, silver).0, c)
    ensures r.sellPrice == SellPrice(BidAsk(ToLower(c.metal), gold, silver).1, c)
    ensures r.shown == Format(r.sellPrice, c.weight)
    ensures r.name == MetalName(c.metal) && r.purityText == Label(c.purity)
  {
    var (bid, ask) := BidAsk(ToLower(c.metal), gold, silver);
    var sell := SellPrice(ask, c);
    Row(MetalName(c.metal), Label(c.purity), BuyPrice(bid, c), sell, Format(sell, c.weight))
  }

  /** The rows of the table, one per commodity and in the same order. */
  function Table(commodities: seq<Commodity>, gold: SpotQuote, silver: SpotQuote): (rows: seq<Row>)
    ensures |rows| == |commodities|
    ensures forall i :: 0 <= i < |rows| ==> rows[i] == PriceRow(commodities[i], gold, silver)
  {
    seq(|commodities|, i requires 0 <= i < |commodities| => PriceRow(commodities[i], gold, silver))
  }

  // ---------------------------------------------------------------------------------
  // Properties of the pricing rule

  /** A positive number of `d` digits lies in [10^(d-1), 10^d). */
  lemma {:induction false} DigitsBounds(n: nat)
    requires n > 0
    ensures Pow10(Digits(n) - 1) <= n < Pow10(Digits(n))
  {
    if n >= 10 {
      DigitsBounds(n / 10);
      var d := Digits(n / 10);
      assert Pow10(d) == 10 * Pow10(d - 1);
      assert Pow10(d + 1) == 10 * Pow10(d);
    }
  }

  /** A positive integer purity gives a factor in [0.1, 1). */
  lemma PurityPowerRange(p: int)
    requires p > 0
    ensures 0.1 <= PurityPower(Some(p)) < 1.0
  {
    DigitsBounds(p);
    var d := Digits(p);
    var low, high := Pow10(d - 1), Pow10(d);
    assert high == 10 * low;
    assert low <= p < high;
    assert high as real / 10.0 == low as real;
    assert DecimalLength(p) == d;
    RatioBounds(p as real, high as real, PurityPower(Some(p)));
  }

  /** A quotient of `x` by `q`, where `x` lies in [q/10, q), lies in [0.1, 1). */
  lemma RatioBounds(x: real, q: real, r: real)
    requires q > 0.0 && q / 10.0 <= x < q && r * q == x
    ensures 0.1 <= r < 1.0
  {
  }

  /** A missing, non-numeric or zero purity leaves the price unscaled. */
  lemma PurityPowerDefaults(p: Option<int>)
    requires p.None? || p == Some(0)
    ensures PurityPower(p) == 1.0
  {
  }

  /** The karat fineness numbers become their fractions. */
  lemma PurityPowerExamples()
    ensures PurityPower(Some(916)) == 0.916
    ensures PurityPower(Some(75)) == 0.75
    ensures PurityPower(Some(9999)) == 0.9999
  {

  }

  /** Changing the buy charge shifts the buy price by the same amount; a non-numeric charge counts as 0. */
  lemma BuyChargeShifts(bid: real, c: Commodity, charge: real)
    ensures BuyPrice(bid, c.(buyCharge := Some(charge))) == BuyPrice(bid, c.(buyCharge := None)) + charge
    ensures BuyPrice(bid, c.(buyCharge := None)) == BuyPrice(bid, c.(buyCharge := Some(0.0)))
  {
  }

  /** Changing the sell charge shifts the sell price by the same amount; a non-numeric charge counts as 0. */
  lemma SellChargeShifts(ask: real, c: Commodity, charge: real)
    ensures SellPrice(ask, c.(sellCharge := Some(charge))) == SellPrice(ask, c.(sellCharge := None)) + charge
    ensures SellPrice(ask, c.(sellCharge := None)) == SellPrice(ask, c.(sellCharge := Some(0.0)))
  {
  }

  /** A non-numeric premium counts as 0. */
  lemma MissingPremiumIsZero(bid: real, ask: real, c: Commodity)
    ensures BuyPrice(bid, c.(buyPremium := None)) == BuyPrice(bid, c.(buyPremium := Some(0.0)))
    ensures SellPrice(ask, c.(sellPremium := None)) == SellPrice(ask, c.(sellPremium := Some(0.0)))
  {
  }

  lemma ScaleMonotone(x: real, y: real, k: real)
    requires x <= y && k >= 0.0
    ensures x * k <= y * k
  {
  }

  /** With a non-negative unit count and purity factor, a higher spot quote never lowers a price. */
  lemma PricesMonotone(b1: real, b2: real, c: Commodity)
    requires b1 <= b2
    requires c.unit >= 0.0 && PurityPower(c.purity) >= 0.0
    ensures BuyPrice(b1, c) <= BuyPrice(b2, c)
    ensures SellPrice(b1, c) <= SellPrice(b2, c)
  {
    var pp := PurityPower(c.purity);
    var k := Scale(c.weight, c.unit, pp);
    ScaleMonotone(0.0, UnitMultiplier(c.weight), c.unit);
    ScaleMonotone(0.0, UnitMultiplier(c.weight) * c.unit, pp);
    assert k >= 0.0;
    RetailMonotone(b1, b2, OrZero(c.buyPremium), k, OrZero(c.buyCharge));
    RetailMonotone(b1, b2, OrZero(c.sellPremium), k, OrZero(c.sellCharge));
  }

  lemma RetailMonotone(r1: real, r2: real, premium: real, scale: real, charge: real)
    requires r1 <= r2 && scale >= 0.0
    ensures Retail(r1, premium, scale, charge) <= Retail(r2, premium, scale, charge)
  {
    ScaleMonotone(PerGramAed(r1 + premium), PerGramAed(r2 + premium), scale);
  }

  lemma UnknownWeightScale(weight: string, unit: real, purityPower: real)
    requires weight !in WeightCodes
    ensures Scale(weight, unit, purityPower) == Scale("GM", unit, purityPower)
  {
    assert UnitMultiplier(weight) == UnitMultiplier("GM");
  }

  /** An unknown weight code prices exactly like grams (only the display rounding differs). */
  lemma UnknownWeightPricesAsGrams(price: real, c: Commodity)
    requires c.weight !in WeightCodes
    ensures BuyPrice(price, c) == BuyPrice(price, c.(weight := "GM"))
    ensures SellPrice(price, c) == SellPrice(price, c.(weight := "GM"))
  {
    UnknownWeightScale(c.weight, c.unit, PurityPower(c.purity));
  }

  /** The rate lookup is case-insensitive in the same way as the displayed name: a row shows "Gold" exactly when it is priced from the gold quote. */
  lemma GoldNameIffGoldQuote(metal: string)
    ensures MetalName(metal) == "Gold" <==> ToLower(metal) in GoldNames
  {
    if ToLower(metal) !in GoldNames && |metal| == 4 {
      assert ToLower(metal) != "gold";
      var i :| 0 <= i < 4 && ToLower(metal)[i] != "gold"[i];
      assert MetalName(metal)[i] != "Gold"[i];
    }
  }

  /** Displaying a displayed name again changes nothing. */
  lemma MetalNameIdempotent(metal: string)
    ensures MetalName(MetalName(metal)) == MetalName(metal)
  {
    var r := MetalName(metal);
    if ToLower(metal) in GoldNames {
      assert ToLower("Gold") == "gold";
    } else if |metal| > 0 {
      assert ToLower(r) == [LowerChar(UpperChar(metal[0]))] + ToLower(metal)[1..];
      assert LowerChar(UpperChar(metal[0])) == LowerChar(metal[0]);
      assert ToLower(r) == ToLower(metal);
      assert UpperChar(r[0]) == r[0];
    }
  }

  /** A 22-karat gram of gold at an ask of 2005 US dollars per ounce, no premium or charge, sells for 216.94 dirhams. */
  lemma GramSellExample()
    ensures
      var c := Commodity("gold", 1.0, "GM", None, None, None, None, Some(916));
      var row := PriceRow(c, SpotQuote(Some(2000.0), Some(2005.0)), SpotQuote(None, None));
      row.shown == 216.94 && row.name == "Gold" && row.purityText == Karat("22K ")
  {
    var c := Commodity("gold", 1.0, "GM", None, None, None, None, Some(916));
    PurityPowerExamples();
    assert ToLower("gold") == "gold";
    assert BidAsk("gold", SpotQuote(Some(2000.0), Some(2005.0)), SpotQuote(None, None)).1 == 2005.0;
    assert Scale("GM", 1.0, PurityPower(Some(916))) == 0.916;
    var sell := SellPrice(2005.0, c);
    assert sell == PerGramAed(2005.0) * 0.916;
    assert 21694.0 <= 100.0 * sell + 0.5 < 21695.0;
    assert Hundredths(sell) == 21694;
  }

}
