/**
 * The deck record and the reference tables every other part of the engine
 * reads: industry market sizes, funding stages, revenue models, the growth
 * multiplier per stage and the scale suffix used to display money.
 */
module DeckTypes {
  import opened Wrappers

  /** Wizard step 1: business basics. */
  datatype Basics = Basics(companyName: string, oneLiner: string, industry: string, stage: string)

  /** Wizard step 2: problem and solution. */
  datatype Narrative = Narrative(problem: string, solution: string, uniqueAdvantage: string)

  /** Wizard step 3: market. `marketSize` is informational only. */
  datatype MarketInfo = MarketInfo(targetCustomer: string, marketSize: string, competitors: string)

  /** Wizard step 4: business model. */
  datatype Monetization = Monetization(revenueModel: string, pricing: string, channels: string)

  /** Wizard step 5: team and traction; every field is a numeric string as typed. */
  datatype Traction = Traction(teamSize: string, revenue: string, users: string, fundingRaised: string, fundingAsk: string)

  /** A deck without its identity and timestamps: what the wizard edits and a template carries. */
  datatype DeckFields = DeckFields(step1: Basics, step2: Narrative, step3: MarketInfo, step4: Monetization, step5: Traction)

  /** A stored deck. */
  datatype DeckData = DeckData(id: string, createdAt: string, updatedAt: string, fields: DeckFields)

  /** One row of the industry table: its name and total addressable market in dollars. */
  datatype Industry = Industry(name: string, tam: nat)

  /** The industry table, in the order its keys are listed. */
  const INDUSTRIES: seq<Industry> := [
    Industry("SaaS", 195000000000),
    Industry("Fintech", 310000000000),
    Industry("Healthcare", 500000000000),
    Industry("E-commerce", 6300000000000),
    Industry("EdTech", 400000000000),
    Industry("AI / ML", 200000000000),
    Industry("Cybersecurity", 180000000000),
    Industry("Climate Tech", 130000000000),
    Industry("Real Estate Tech", 90000000000),
    Industry("Gaming", 220000000000),
    Industry("Social Media", 150000000000),
    Industry("Logistics", 120000000000),
    Industry("Food & Beverage", 300000000000),
    Industry("Other", 100000000000)
  ]

  function IndustryNames(): (r: seq<string>)
    ensures |r| == |INDUSTRIES| && forall i :: 0 <= i < |r| ==> r[i] == INDUSTRIES[i].name
  {
    seq(|INDUSTRIES|, i requires 0 <= i < |INDUSTRIES| => INDUSTRIES[i].name)
  }

  /** `INDUSTRIES[name]`: the market size of the row with that name, `None` (undefined) when there is none. */
  function FindTam(table: seq<Industry>, name: string): (r: Option<nat>)
    ensures r.None? <==> forall i :: 0 <= i < |table| ==> table[i].name != name
    ensures r.Some? ==> exists i :: 0 <= i < |table| && table[i] == Industry(name, r.value)
  {
    if table == [] then None
    else if table[0].name == name then
      assert table[0] == Industry(name, table[0].tam);
      Some(table[0].tam)
    else
      var r := FindTam(table[1..], name);
      assert forall i :: 0 < i < |table| ==> table[i] == table[1..][i - 1];
      r
  }

  function IndustryTam(name: string): Option<nat> {
    FindTam(INDUSTRIES, name)
  }

  const STAGES: seq<string> := ["Pre-seed", "Seed", "Series A", "Growth"]

  const REVENUE_MODELS: seq<string> := [
    "Subscription",
    "Marketplace / Commission",
    "Freemium",
    "Transaction Fee",
    "Advertising",
    "Licensing",
    "Usage-based",
    "One-time Purchase"
  ]

  predicate Distinct(xs: seq<string>) {
    forall i, j :: 0 <= i < j < |xs| ==> xs[i] != xs[j]
  }

  /** The industry table has fourteen rows with distinct names. */
  lemma IndustryNamesDistinct()
    ensures |INDUSTRIES| == 14 && Distinct(IndustryNames())
  {
    var names := IndustryNames();
    assert names == ["SaaS", "Fintech", "Healthcare", "E-commerce", "EdTech", "AI / ML", "Cybersecurity",
                     "Climate Tech", "Real Estate Tech", "Gaming", "Social Media", "Logistics",
                     "Food & Beverage", "Other"];
  }

  /** Every market size is positive, and "Real Estate Tech" is the only one below 100 billion. */
  lemma IndustryTamBounds()
    ensures forall i :: 0 <= i < |INDUSTRIES| ==> INDUSTRIES[i].tam > 0
    ensures forall i :: 0 <= i < |INDUSTRIES| && INDUSTRIES[i].name != "Real Estate Tech" ==> INDUSTRIES[i].tam >= 100000000000
  {
  }

  /** A name in the table finds its own row. */
  lemma {:induction false} IndustryTamOfRow(table: seq<Industry>, i: nat)
    requires i < |table|
    requires forall j, k :: 0 <= j < k < |table| ==> table[j].name != table[k].name
    ensures FindTam(table, table[i].name) == Some(table[i].tam)
  {
    if i > 0 {
      assert table[0].name != table[i].name;
      IndustryTamOfRow(table[1..], i - 1);
    }
  }

  /** "Other" is the 100-billion default; "Real Estate Tech" is 90 billion. */
  lemma IndustryTamValues()
    ensures IndustryTam("Other") == Some(100000000000)
    ensures IndustryTam("Real Estate Tech") == Some(90000000000)
  {
    IndustryNamesDistinct();
    IndustryTamOfRow(INDUSTRIES, 13);
    IndustryTamOfRow(INDUSTRIES, 8);
  }

  /** Four distinct stages and eight distinct revenue models. */
  lemma EnumerationsDistinct()
    ensures |STAGES| == 4 && Distinct(STAGES)
    ensures |REVENUE_MODELS| == 8 && Distinct(REVENUE_MODELS)
  {
  }

  /** Year-over-year revenue multiplier for a funding stage; any other text gets the Series A rate. */
  function GrowthRate(stage: string): (r: real)
    ensures 1.5 <= r <= 3.0
    ensures stage !in STAGES ==> r == 2.0
  {
    match stage
    case "Pre-seed" => 3.0
    case "Seed" => 2.5
    case "Series A" => 2.0
    case "Growth" => 1.5
    case _ => 2.0
  }

  /** Later stages grow strictly slower. */
  lemma GrowthRateDecreasing()
    ensures forall i, j :: 0 <= i < j < |STAGES| ==> GrowthRate(STAGES[i]) > GrowthRate(STAGES[j])
    ensures GrowthRate(STAGES[0]) == 3.0 && GrowthRate(STAGES[1]) == 2.5
    ensures GrowthRate(STAGES[2]) == 2.0 && GrowthRate(STAGES[3]) == 1.5
  {
  }

  /** The magnitude suffixes `formatCurrency` chooses from, largest first. */
  datatype Scale = Trillions | Billions | Millions | Thousands | Units

  function Divisor(s: Scale): (d: real)
    ensures d >= 1.0
  {
    match s
    case Trillions => 1000000000000.0
    case Billions => 1000000000.0
    case Millions => 1000000.0
    case Thousands => 1000.0
    case Units => 1.0
  }

  function Suffix(s: Scale): string {
    match s
    case Trillions => "T"
    case Billions => "B"
    case Millions => "M"
    case Thousands => "K"
    case Units => ""
  }

  /** The first threshold `n` meets picks the suffix. */
  function CurrencyScale(n: real): (s: Scale)
    ensures n >= 1000.0 ==> 1.0 <= n / Divisor(s)
    ensures n < 1000000000000000.0 ==> n / Divisor(s) < 1000.0
    ensures s == Units <==> n < 1000.0
  {
    if n >= 1000000000000.0 then Trillions
    else if n >= 1000000000.0 then Billions
    else if n >= 1000000.0 then Millions
    else if n >= 1000.0 then Thousands
    else Units
  }

  /** A larger amount never gets a smaller suffix. */
  lemma CurrencyScaleMonotone(m: real, n: real)
    requires m <= n
    ensures Divisor(CurrencyScale(m)) <= Divisor(CurrencyScale(n))
  {
  }
}
