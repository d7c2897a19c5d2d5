/**
 * The figures an example deck shows next to its template's text: the market
 * funnel (TAM, SAM, SOM), a five-year revenue projection compounded at the
 * stage's growth rate, and the funding ask; and the copy of a template into the
 * founder's own saved decks.
 */
module ExampleDeck {
  import opened Wrappers
  import opened Text
  import opened DeckTypes
  import Storage

  /** The fallback market size when the industry has no (or a zero) entry: 100 billion. */
  const DEFAULT_TAM: real := 100000000000.0

  /** `INDUSTRIES[industry] || 100e9`. */
  function Tam(industry: string): (r: real)
    ensures r > 0.0
    ensures IndustryTam(industry).None? ==> r == DEFAULT_TAM
    ensures IndustryTam(industry).Some? && IndustryTam(industry).value != 0 ==> r == IndustryTam(industry).value as real
  {
    match IndustryTam(industry)
    case Some(v) => if v != 0 then v as real else DEFAULT_TAM
    case None => DEFAULT_TAM
  }

  /** The serviceable market: a tenth of the total. */
  function Sam(industry: string): (r: real)
    ensures 0.0 < r < Tam(industry)
  {
    Tam(industry) * 0.1
  }

  /** The obtainable market: a hundredth of the serviceable one. */
  function Som(industry: string): (r: real)
    ensures 0.0 < r < Sam(industry)
  {
    Sam(industry) * 0.01
  }

  /** The funnel narrows: 0 < SOM <= SAM <= TAM, each a fixed share of the one above. */
  lemma MarketFunnel(industry: string)
    ensures 0.0 < Som(industry) <= Sam(industry) <= Tam(industry)
    ensures Som(industry) == Tam(industry) / 1000.0
  {
  }

  /** `parseFloat(revenue) || (parseFloat(users) || 0) * 120 || 10000`. */
  function BaseRevenue(revenue: string, users: string): (r: real)
    ensures r != 0.0
  {
    var fromUsers := OrDefault(ParseNum(users), 0.0) * 120.0;
    OrDefault(ParseNum(revenue), if fromUsers != 0.0 then fromUsers else 10000.0)
  }

  /** The fallback chain: revenue when it is a non-zero number, else 120 per user, else 10000. */
  lemma BaseRevenueChain(revenue: string, users: string)
    ensures var rev := ParseNum(revenue); var us := ParseNum(users);
      (rev.Some? && rev.value != 0.0 ==> BaseRevenue(revenue, users) == rev.value)
      && ((rev.None? || rev.value == 0.0) && us.Some? && us.value != 0.0 ==> BaseRevenue(revenue, users) == us.value * 120.0)
      && ((rev.None? || rev.value == 0.0) && (us.None? || us.value == 0.0) ==> BaseRevenue(revenue, users) == 10000.0)
  {
  }

  /** `x` to the `n`th power. */
  function RealPow(x: real, n: nat): (r: real)
    ensures x >= 1.0 ==> r >= 1.0
  {
    if n == 0 then 1.0 else x * RealPow(x, n - 1)
  }

  /** `Math.round` on the reals: halves round up. */
  function Round(x: real): (r: int)
    ensures x - 0.5 < r as real <= x + 0.5
  {
    (x + 0.5).Floor
  }

  /** One point of the projection: a year label and that year's revenue. */
  datatype YearRevenue = YearRevenue(year: string, revenue: real)

  /** The base grown at `rate` for `i` years. */
  function Compounded(base: real, rate: real, i: nat): real {
    base * RealPow(rate, i)
  }

  /** Year `i + 1` of the projection: the base itself, then the base compounded `i` times and rounded. */
  function ProjectedRevenue(base: real, rate: real, i: nat): real {
    if i == 0 then base else Round(Compounded(base, rate, i)) as real
  }

  /** The label of year `n`: "Y" followed by its number. */
  function YearLabel(n: nat): (r: string)
    ensures |r| >= 2 && r[0] == 'Y' && r[1..] == Decimal(n)
  {
    "Y" + Decimal(n)
  }

  /** Year `i + 1`: its label and its revenue. */
  function ProjectionYear(base: real, rate: real, i: nat): YearRevenue {
    YearRevenue(YearLabel(i + 1), ProjectedRevenue(base, rate, i))
  }

  /** Five years, labelled Y1 to Y5. */
  function Projections(revenue: string, users: string, stage: string): (r: seq<YearRevenue>)
    ensures |r| == 5
    ensures forall i :: 0 <= i < 5 ==> r[i].year == YearLabel(i + 1)
    ensures r[0].revenue == BaseRevenue(revenue, users)
  {
    var base := BaseRevenue(revenue, users);
    var rate := GrowthRate(stage);
    seq(5, i requires 0 <= i => ProjectionYear(base, rate, i))
  }

  /** `parseFloat(fundingAsk) || 500000`. */
  function FundingAskShown(fundingAsk: string): (r: real)
    ensures r != 0.0
    ensures ParseNum(fundingAsk).Some? && ParseNum(fundingAsk).value != 0.0 ==> r == ParseNum(fundingAsk).value
    ensures ParseNum(fundingAsk).None? || ParseNum(fundingAsk).value == 0.0 ==> r == 500000.0
  {
    OrDefault(ParseNum(fundingAsk), 500000.0)
  }

  /** A one-digit year is labelled "Y" and that digit. */
  lemma OneDigitLabel(n: nat)
    requires 1 <= n <= 9
    ensures YearLabel(n) == ['Y', DigitChar(n)]
  {
    assert Decimal(n) == [DigitChar(n)];
  }

  /** The labels are the five strings "Y1" to "Y5". */
  lemma YearLabels(revenue: string, users: string, stage: string)
    ensures var ps := Projections(revenue, users, stage);
      ps[0].year == "Y1" && ps[1].year == "Y2" && ps[2].year == "Y3" && ps[3].year == "Y4" && ps[4].year == "Y5"
  {
    var ps := Projections(revenue, users, stage);
    OneDigitLabel(1);
    OneDigitLabel(2);
    OneDigitLabel(3);
    OneDigitLabel(4);
    OneDigitLabel(5);
    assert DigitChar(1) == '1' && DigitChar(2) == '2' && DigitChar(3) == '3' && DigitChar(4) == '4' && DigitChar(5) == '5';
  }

  /** Powers of a rate of at least 1 grow with the exponent. */
  lemma {:induction false} RealPowGrows(x: real, n: nat)
    requires x >= 1.0
    ensures RealPow(x, n + 1) >= RealPow(x, n)
  {
    var p := RealPow(x, n);
    assert RealPow(x, n + 1) == x * p;
    assert p >= 1.0;
    assert x * p - p == (x - 1.0) * p;
  }

  /** Rounding never goes down when its argument does not. */
  lemma RoundMonotone(x: real, y: real)
    requires x <= y
    ensures Round(x) <= Round(y)
  {
  }

  /** Scaling by a positive factor keeps the order. */
  lemma ScaleMonotone(k: real, x: real, y: real)
    requires k > 0.0 && x <= y
    ensures k * x <= k * y
  {
    assert k * y - k * x == k * (y - x);
  }

  /** After the first year, each compounded year is at least the one before. */
  lemma ProjectionStep(base: real, rate: real, i: nat)
    requires base > 0.0 && rate >= 1.0 && i >= 1
    ensures ProjectedRevenue(base, rate, i) <= ProjectedRevenue(base, rate, i + 1)
  {
    var p := RealPow(rate, i);
    var q := RealPow(rate, i + 1);
    RealPowGrows(rate, i);
    ScaleMonotone(base, p, q);
    RoundMonotone(Compounded(base, rate, i), Compounded(base, rate, i + 1));
  }

  /** From a base of 1 up, the first compounded year is at least the base. */
  lemma FirstYearStep(base: real, rate: real)
    requires base >= 1.0 && rate >= 1.5
    ensures base <= ProjectedRevenue(base, rate, 1)
  {
    var p := RealPow(rate, 1);
    assert p == rate * RealPow(rate, 0) == rate;
    ScaleMonotone(base, 1.5, p);
    assert Compounded(base, rate, 1) >= base + 0.5;
  }

  /** Year `i + 1` of the projection is the base compounded `i` times at the stage's rate. */
  lemma ProjectionRevenue(revenue: string, users: string, stage: string, i: nat)
    requires i < 5
    ensures Projections(revenue, users, stage)[i].revenue == ProjectedRevenue(BaseRevenue(revenue, users), GrowthRate(stage), i)
  {
  }

  /** With a positive base the rounded years never fall, and from a base of 1 up the second year is at least the first. */
  lemma ProjectionsGrow(revenue: string, users: string, stage: string)
    requires BaseRevenue(revenue, users) > 0.0
    ensures var ps := Projections(revenue, users, stage);
      forall i :: 1 <= i < 4 ==> ps[i].revenue <= ps[i + 1].revenue
    ensures BaseRevenue(revenue, users) >= 1.0 ==> Projections(revenue, users, stage)[0].revenue <= Projections(revenue, users, stage)[1].revenue
  {
    var base := BaseRevenue(revenue, users);
    var rate := GrowthRate(stage);
    var ps := Projections(revenue, users, stage);
    forall i | 1 <= i < 4 ensures ps[i].revenue <= ps[i + 1].revenue {
      ProjectionRevenue(revenue, users, stage, i);
      ProjectionRevenue(revenue, users, stage, i + 1);
      ProjectionStep(base, rate, i);
    }
    if base >= 1.0 {
      ProjectionRevenue(revenue, users, stage, 1);
      FirstYearStep(base, rate);
    }
  }

  /** Empty revenue and user fields start the projection at 10000, whatever the stage. */
  lemma EmptyFigures(stage: string)
    ensures Projections("", "", stage)[0].revenue == 10000.0
  {
    assert BaseRevenue("", "") == 10000.0;
  }

  /** Appending a zero digit multiplies the value by ten. */
  lemma DigitsAppendZero(s: string)
    requires AllDigits(s)
    ensures AllDigits(s + "0") && DigitsValue(s + "0") == 10 * DigitsValue(s)
  {
    assert (s + "0")[..|s|] == s;
  }

  /** 500 users and no revenue give a base of 500 x 120 = 60000. */
  lemma UsersOnlyBase()
    ensures BaseRevenue("", "500") == 60000.0
  {
    ParseFiveHundred();
  }

  /** "500" reads as five hundred. */
  lemma ParseFiveHundred()
    ensures ParseNum("500") == Some(500.0)
  {
    assert DigitsValue("5") == 5;
    DigitsAppendZero("5");
    assert "5" + "0" == "50";
    DigitsAppendZero("50");
    assert "50" + "0" == "500";
    ParseDigits("500");
  }

  /** "100000" reads as one hundred thousand. */
  lemma ParseHundredThousand()
    ensures ParseNum("100000") == Some(100000.0)
  {
    assert DigitsValue("1") == 1;
    DigitsAppendZero("1");
    assert "1" + "0" == "10";
    DigitsAppendZero("10");
    assert "10" + "0" == "100";
    DigitsAppendZero("100");
    assert "100" + "0" == "1000";
    DigitsAppendZero("1000");
    assert "1000" + "0" == "10000";
    DigitsAppendZero("10000");
    assert "10000" + "0" == "100000";
    ParseDigits("100000");
  }

  /** A seed-stage deck with revenue 100000 projects 625000 in its third year (2.5 squared is 6.25). */
  lemma SeedThirdYear(users: string)
    ensures Projections("100000", users, "Seed")[2].revenue == 625000.0
  {
    ParseHundredThousand();
    var base := BaseRevenue("100000", users);
    assert base == 100000.0;
    assert GrowthRate("Seed") == 2.5;
    assert RealPow(2.5, 2) == 6.25;
    assert Compounded(base, 2.5, 2) == 625000.0;
    assert Round(625000.0) == 625000;
  }

  /**
   * Copies a template's step data `d` into a new saved deck with a fresh id; both
   * timestamps are the current time.
   */
  method CloneAsNew(store: Storage.DeckStore, d: DeckFields, freshId: string, now: string)
    returns (deck: DeckData)
    modifies store
    ensures deck == DeckData(freshId, now, now, d)
    ensures store.decks == Some(Storage.Upsert(old(store.AllDecks()), deck)) && store.draft == old(store.draft)
    ensures Storage.Find(store.AllDecks(), freshId) == Some(deck)
  {
    var copy := DeckData(freshId, now, now, d);
    deck := store.SaveDeck(copy, now);
  }
}
