/**
 * The deck quality rubric: eight fixed dimensions, each scored against its own
 * maximum from the lengths and contents of the deck's fields, classified by the
 * ratio of score to maximum, and graded together on the share of the 100
 * available points.
 */
module Scoring {
  import opened Wrappers
  import opened Text
  import opened DeckTypes

  datatype Status = Excellent | Good | NeedsWork | Missing

  /** The improvement tips a dimension can emit; `TipText` gives the wording shown to the founder. */
  datatype Tip =
    | AddCompanyName | ShortenOneLiner | WriteOneLiner | SelectIndustryForSizing | IndicateStage
    | ExpandProblem | DescribeProblem | AddQuantitativeData
    | ElaborateSolution | DescribeSolution | ExpandAdvantage | AddAdvantage
    | SelectIndustryForAnalysis | DefineTargetCustomer
    | SelectRevenueModel | AddPricing | ListChannels
    | ListThreeCompetitors | AddCompetitors | ArticulateWhyYouWin
    | ShowTraction | HighlightTeam | AddTeamSize
    | AskOutOfRange | SpecifyAsk

  function TipText(t: Tip): string {
    match t
    case AddCompanyName => "Add a clear company name"
    case ShortenOneLiner => "Keep your one-liner under 80 characters for maximum impact"
    case WriteOneLiner => "Write a compelling one-liner that explains your value proposition in one sentence"
    case SelectIndustryForSizing => "Select your industry to get accurate market sizing"
    case IndicateStage => "Indicate your current stage"
    case ExpandProblem => "Expand your problem description — investors need to feel the pain. Add specific examples, data, or affected user counts"
    case DescribeProblem => "Describe the problem you're solving. Be specific: who has this problem? How much does it cost them?"
    case AddQuantitativeData => "Add quantitative data — \"X million people\" or \"costs $Y billion annually\" makes problems feel real"
    case ElaborateSolution => "Elaborate on your solution — explain HOW it works, not just WHAT it does"
    case DescribeSolution => "Describe your solution clearly. Focus on the \"how\" — what makes your approach work?"
    case ExpandAdvantage => "Expand your unique advantage — what makes this 10x better than alternatives?"
    case AddAdvantage => "Add a unique advantage. What moat do you have? IP? Network effects? Data? First-mover?"
    case SelectIndustryForAnalysis => "Select an industry to auto-generate TAM/SAM/SOM analysis"
    case DefineTargetCustomer => "Define your target customer precisely — \"SMBs with 10-50 employees in healthcare\" beats \"businesses\""
    case SelectRevenueModel => "Select a revenue model — investors need to know how you make money"
    case AddPricing => "Add specific pricing — \"$49/mo per seat\" is better than \"subscription\""
    case ListChannels => "List your distribution channels — how do customers find you?"
    case ListThreeCompetitors => "List at least 3 competitors. \"No competition\" is a red flag for investors"
    case AddCompetitors => "Add competitors — every market has them. Showing awareness builds credibility"
    case ArticulateWhyYouWin => "Clearly articulate why you win against competitors"
    case ShowTraction => "Any traction matters — even 10 beta users or $100 in revenue shows validation"
    case HighlightTeam => "Solo founders can succeed, but investors prefer teams. Highlight advisors or planned hires"
    case AddTeamSize => "Add your team size — even 1 is fine, just show commitment"
    case AskOutOfRange => "Most seed rounds are $500K-$3M. Make sure your ask matches your stage"
    case SpecifyAsk => "Specify your funding ask — be specific about how much and what it's for"
  }

  datatype Dimension = Dimension(name: string, score: int, maxScore: int, tips: seq<Tip>, status: Status)

  datatype Summary = InvestorReady | GoodFoundation | DecentStart | EarlyStage

  function SummaryText(s: Summary): string {
    match s
    case InvestorReady => "Your deck is investor-ready. Strong across all dimensions with compelling content."
    case GoodFoundation => "Good foundation. A few areas need strengthening before sharing with investors."
    case DecentStart => "Decent start. Several key areas need more detail and supporting data."
    case EarlyStage => "Early stage deck. Focus on filling in the gaps — especially problem, solution, and traction."
  }

  datatype DeckScore = DeckScore(total: int, maxTotal: int, grade: string, summary: Summary, dimensions: seq<Dimension>)

  const DIMENSION_NAMES: seq<string> := [
    "Company Identity", "Problem Definition", "Solution Clarity", "Market Opportunity",
    "Business Model", "Competitive Positioning", "Traction & Team", "The Ask"
  ]

  const DIMENSION_MAX: seq<int> := [15, 15, 15, 10, 10, 10, 15, 10]

  const GRADES: seq<string> := ["A+", "A", "A-", "B+", "B", "B-", "C+", "C", "C-", "D", "F"]

  /** The lowest share of the points that earns `GRADES[i]`, for every grade but the last. */
  const GRADE_CUTOFFS: seq<real> := [0.9, 0.85, 0.8, 0.75, 0.7, 0.65, 0.6, 0.55, 0.5, 0.4]

  /** Comparing a ratio with a threshold is comparing the score with that share of the maximum. */
  lemma RatioAtLeast(score: int, max: int, c: real)
    requires max > 0
    ensures score as real / max as real >= c <==> score as real >= c * max as real
  {
    var pct := score as real / max as real;
    var m := max as real;
    assert pct * m == score as real;
    if pct >= c {
      assert (pct - c) * m >= 0.0;
    } else {
      assert (c - pct) * m > 0.0;
    }
  }

  /** Classifies a score by its share of the maximum: 80%, 60% and 30% are the thresholds. */
  function GetStatus(score: int, max: int): (r: Status)
    requires max > 0
    ensures r == Excellent <==> 5 * score >= 4 * max
    ensures r == Good <==> 5 * score < 4 * max && 5 * score >= 3 * max
    ensures r == NeedsWork <==> 5 * score < 3 * max && 10 * score >= 3 * max
    ensures r == Missing <==> 10 * score < 3 * max
  {
    var pct := score as real / max as real;
    RatioAtLeast(score, max, 0.8);
    RatioAtLeast(score, max, 0.6);
    RatioAtLeast(score, max, 0.3);
    if pct >= 0.8 then Excellent
    else if pct >= 0.6 then Good
    else if pct >= 0.3 then NeedsWork
    else Missing
  }

  /** The letter grade for a share of the points. */
  function GetGrade(pct: real): (g: string)
    ensures g in GRADES
  {
    if pct >= 0.9 then "A+"
    else if pct >= 0.85 then "A"
    else if pct >= 0.8 then "A-"
    else if pct >= 0.75 then "B+"
    else if pct >= 0.7 then "B"
    else if pct >= 0.65 then "B-"
    else if pct >= 0.6 then "C+"
    else if pct >= 0.55 then "C"
    else if pct >= 0.5 then "C-"
    else if pct >= 0.4 then "D"
    else "F"
  }

  /** Reference reading of the grade table: the position of the first cut-off met, counting from `i`. */
  function GradeBand(pct: real, i: nat): (k: nat)
    requires i <= |GRADE_CUTOFFS|
    ensures i <= k <= |GRADE_CUTOFFS|
    decreases |GRADE_CUTOFFS| - i
  {
    if i == |GRADE_CUTOFFS| then i
    else if pct >= GRADE_CUTOFFS[i] then i
    else GradeBand(pct, i + 1)
  }

  /** `GetGrade` is the grade of the first cut-off met, and "F" when none is. */
  lemma GetGradeByTable(pct: real)
    ensures GetGrade(pct) == GRADES[GradeBand(pct, 0)]
  {
  }

  lemma {:induction false} GradeBandMonotone(p: real, q: real, i: nat)
    requires p <= q && i <= |GRADE_CUTOFFS|
    ensures GradeBand(q, i) <= GradeBand(p, i)
    decreases |GRADE_CUTOFFS| - i
  {
    if i < |GRADE_CUTOFFS| && q < GRADE_CUTOFFS[i] {
      GradeBandMonotone(p, q, i + 1);
    }
  }

  /** A larger share of the points never earns a worse grade (grades are listed best first). */
  lemma GradeMonotone(p: real, q: real)
    requires p <= q
    ensures exists i, j :: 0 <= i <= j < |GRADES| && GetGrade(q) == GRADES[i] && GetGrade(p) == GRADES[j]
  {
    GetGradeByTable(p);
    GetGradeByTable(q);
    GradeBandMonotone(p, q, 0);
    assert GetGrade(q) == GRADES[GradeBand(q, 0)] && GetGrade(p) == GRADES[GradeBand(p, 0)];
  }

  /** The summary sentence band: 80%, 60% and 40%. */
  function SummaryFor(pct: real): (s: Summary)
    ensures s == InvestorReady <==> pct >= 0.8
    ensures s == GoodFoundation <==> 0.6 <= pct < 0.8
    ensures s == DecentStart <==> 0.4 <= pct < 0.6
    ensures s == EarlyStage <==> pct < 0.4
  {
    if pct >= 0.8 then InvestorReady
    else if pct >= 0.6 then GoodFoundation
    else if pct >= 0.4 then DecentStart
    else EarlyStage
  }

  /** The value `parseFloat(s) || 0` the rubric uses for counts and amounts. */
  function Num(s: string): (v: real)
    ensures ParseNum(s).Some? ==> v == ParseNum(s).value
    ensures ParseNum(s).None? ==> v == 0.0
  {
    OrDefault(ParseNum(s), 0.0)
  }

  /** Figures, percentages or dollar amounts in the problem statement. */
  predicate QuantitativeSignal(problem: string) {
    Contains(Lower(problem), "million") || Contains(Lower(problem), "billion")
    || HasPercent(problem) || HasDollarAmount(problem)
  }

  /** The solution mentions AI, automation or a platform (substring tests on the lowered text). */
  predicate SolutionKeyword(solution: string) {
    Contains(Lower(solution), "ai") || Contains(Lower(solution), "automat") || Contains(Lower(solution), "platform")
  }

  /** Number of non-empty lines of the competitor list; lines are not trimmed. */
  function CompetitorCount(competitors: string): (n: nat)
    ensures n <= |Split(competitors, '\n')|
    ensures n == 0 <==> forall k :: 0 <= k < |Split(competitors, '\n')| ==> Split(competitors, '\n')[k] == ""
  {
    var lines := Split(competitors, '\n');
    var kept := NonEmpty(lines);
    assert kept != [] ==> kept[0] in lines;
    |kept|
  }

  /** A first line and the lines after it: the first counts exactly when it is non-empty. */
  lemma CompetitorLines(first: string, rest: string)
    requires '\n' !in first
    ensures CompetitorCount(first + "\n" + rest) == (if first == "" then 0 else 1) + CompetitorCount(rest)
  {
    SplitAfter(first, '\n', rest);
    NonEmptyConcat([first], Split(rest, '\n'));
    NonEmptyOne(first);
  }

  /** Blank lines between competitors are not counted: "A", "", "B" are two competitors. */
  lemma CompetitorBlankLine()
    ensures CompetitorCount("A\n\nB") == 2
  {
    CompetitorLines("A", "\nB");
    assert "A" + "\n" + "\nB" == "A\n\nB";
    CompetitorLines("", "B");
    assert "" + "\n" + "B" == "\nB";
    SplitWithout("B", '\n');
    NonEmptyOne("B");
  }

  /** Dimension `k` of the rubric: its name and maximum, a score within the maximum, and the status of that score. */
  predicate WellFormed(d: Dimension, k: nat) {
    k < 8 && d.name == DIMENSION_NAMES[k] && d.maxScore == DIMENSION_MAX[k]
    && 0 <= d.score <= d.maxScore && d.status == GetStatus(d.score, d.maxScore)
  }

  function MakeDimension(index: nat, score: int, tips: seq<Tip>): (d: Dimension)
    requires index < 8 && 0 <= score <= DIMENSION_MAX[index]
    ensures WellFormed(d, index) && d.score == score && d.tips == tips
  {
    Dimension(DIMENSION_NAMES[index], score, DIMENSION_MAX[index], tips, GetStatus(score, DIMENSION_MAX[index]))
  }

  function CompanyIdentity(b: Basics): (r: Dimension)
    ensures WellFormed(r, 0)
    ensures r.score == 15 <==> |b.companyName| >= 2 && |b.oneLiner| >= 10 && b.industry != "" && b.stage != ""
    ensures r.tips == [] <==> |b.companyName| >= 2 && 10 <= |b.oneLiner| <= 80 && b.industry != "" && b.stage != ""
  {
    var score := (if |b.companyName| >= 2 then 5 else 0) + (if |b.oneLiner| >= 10 then 5 else 0)
                 + (if b.industry != "" then 3 else 0) + (if b.stage != "" then 2 else 0);
    var tips := (if |b.companyName| >= 2 then [] else [AddCompanyName])
                + (if |b.oneLiner| < 10 then [WriteOneLiner] else if |b.oneLiner| > 80 then [ShortenOneLiner] else [])
                + (if b.industry != "" then [] else [SelectIndustryForSizing])
                + (if b.stage != "" then [] else [IndicateStage]);
    MakeDimension(0, score, tips)
  }

  function ProblemDefinition(problem: string): (r: Dimension)
    ensures WellFormed(r, 1)
    ensures r.score == 15 <==> |problem| >= 150 && QuantitativeSignal(problem)
    ensures r.tips == [] <==> |problem| >= 50 && QuantitativeSignal(problem)
  {
    var score := (if |problem| >= 50 then 8 + (if |problem| >= 150 then 2 else 0) else if |problem| >= 20 then 4 else 0)
                 + (if QuantitativeSignal(problem) then 5 else 0);
    var tips := (if |problem| >= 50 then [] else if |problem| >= 20 then [ExpandProblem] else [DescribeProblem])
                + (if QuantitativeSignal(problem) then [] else [AddQuantitativeData]);
    MakeDimension(1, score, tips)
  }

  function SolutionClarity(n: Narrative): (r: Dimension)
    ensures WellFormed(r, 2)
    ensures r.score == 15 <==> |n.solution| >= 150 && |n.uniqueAdvantage| >= 20 && SolutionKeyword(n.solution)
    ensures r.tips == [] <==> |n.solution| >= 50 && |n.uniqueAdvantage| >= 20
  {
    var score := (if |n.solution| >= 50 then 6 + (if |n.solution| >= 150 then 2 else 0) else if |n.solution| >= 20 then 3 else 0)
                 + (if |n.uniqueAdvantage| >= 20 then 5 else if |n.uniqueAdvantage| > 0 then 2 else 0)
                 + (if SolutionKeyword(n.solution) then 2 else 0);
    var tips := (if |n.solution| >= 50 then [] else if |n.solution| >= 20 then [ElaborateSolution] else [DescribeSolution])
                + (if |n.uniqueAdvantage| >= 20 then [] else if |n.uniqueAdvantage| > 0 then [ExpandAdvantage] else [AddAdvantage]);
    MakeDimension(2, score, tips)
  }

  /** `tam` is the industry table's entry for `industry` (`None` when it has none). */
  function MarketOpportunity(industry: string, tam: Option<nat>, targetCustomer: string): (r: Dimension)
    ensures WellFormed(r, 3)
    ensures r.score == 10 <==> industry != "" && tam.Some? && tam.value >= 100000000000 && |targetCustomer| >= 10
    ensures r.tips == [] <==> industry != "" && tam.Some? && tam.value != 0 && |targetCustomer| >= 10
  {
    var known := industry != "" && tam.Some? && tam.value != 0;
    var score := (if known then 4 + (if tam.value >= 100000000000 then 2 else 0) else 0)
                 + (if |targetCustomer| >= 10 then 4 else 0);
    var tips := (if known then [] else [SelectIndustryForAnalysis])
                + (if |targetCustomer| >= 10 then [] else [DefineTargetCustomer]);
    MakeDimension(3, score, tips)
  }

  function BusinessModel(m: Monetization): (r: Dimension)
    ensures WellFormed(r, 4)
    ensures r.score == 10 <==> r.tips == []
    ensures r.score == 10 <==> m.revenueModel != "" && |m.pricing| >= 5 && |m.channels| >= 5
  {
    var score := (if m.revenueModel != "" then 4 else 0) + (if |m.pricing| >= 5 then 3 else 0) + (if |m.channels| >= 5 then 3 else 0);
    var tips := (if m.revenueModel != "" then [] else [SelectRevenueModel])
                + (if |m.pricing| >= 5 then [] else [AddPricing])
                + (if |m.channels| >= 5 then [] else [ListChannels]);
    MakeDimension(4, score, tips)
  }

  function CompetitivePositioning(competitors: string, uniqueAdvantage: string): (r: Dimension)
    ensures WellFormed(r, 5)
    ensures r.score == 10 <==> r.tips == []
    ensures r.score == 10 <==> CompetitorCount(competitors) >= 3 && |uniqueAdvantage| >= 20
  {
    var count := CompetitorCount(competitors);
    var score := (if count >= 3 then 6 else if count >= 1 then 3 else 0) + (if |uniqueAdvantage| >= 20 then 4 else 0);
    var tips := (if count >= 3 then [] else if count >= 1 then [ListThreeCompetitors] else [AddCompetitors])
                + (if |uniqueAdvantage| >= 20 then [] else [ArticulateWhyYouWin]);
    MakeDimension(5, score, tips)
  }

  /** `parseFloat(fundingRaised) > 0`: `NaN` compares false. */
  function RaisedFunding(t: Traction): (b: bool)
    ensures b <==> Num(t.fundingRaised) > 0.0
  {
    var raised := ParseNum(t.fundingRaised);
    raised.Some? && raised.value > 0.0
  }

  /** Scored on the parsed revenue, user count and team size, and on whether any funding was raised. */
  function TractionTeam(revenue: real, users: real, teamSize: real, raised: bool): (r: Dimension)
    ensures WellFormed(r, 6)
    ensures r.score == 15 <==> revenue >= 10000.0 && users > 0.0 && teamSize >= 2.0 && raised
    ensures r.tips == [] <==> (revenue > 0.0 || users > 0.0) && teamSize >= 2.0
  {
    var score := (if revenue > 0.0 then 5 + (if revenue >= 10000.0 then 2 else 0) else if users > 0.0 then 3 else 0)
                 + (if users > 0.0 then 2 else 0)
                 + (if teamSize >= 2.0 then 3 else if teamSize >= 1.0 then 1 else 0)
                 + (if raised then 3 else 0);
    var tips := (if revenue > 0.0 || users > 0.0 then [] else [ShowTraction])
                + (if teamSize >= 2.0 then [] else if teamSize >= 1.0 then [HighlightTeam] else [AddTeamSize]);
    MakeDimension(6, score, tips)
  }

  /** Scored on the parsed ask; the revenue bonus only needs a non-empty revenue field, so "0" earns it. */
  function TheAsk(ask: real, revenueText: string): (r: Dimension)
    ensures WellFormed(r, 7)
    ensures r.score == 10 <==> 100000.0 <= ask <= 10000000.0 && revenueText != ""
    ensures r.tips == [] <==> 100000.0 <= ask <= 10000000.0
  {
    var score := if ask > 0.0 then 5 + (if 100000.0 <= ask <= 10000000.0 then 3 else 0) + (if revenueText != "" then 2 else 0) else 0;
    var tips := if ask > 0.0 then (if 100000.0 <= ask <= 10000000.0 then [] else [AskOutOfRange]) else [SpecifyAsk];
    MakeDimension(7, score, tips)
  }

  /** The eight dimensions, in rubric order. */
  function Dimensions(f: DeckFields): (ds: seq<Dimension>)
    ensures |ds| == 8
  {
    [ CompanyIdentity(f.step1), ProblemDefinition(f.step2.problem), SolutionClarity(f.step2),
      MarketOpportunity(f.step1.industry, IndustryTam(f.step1.industry), f.step3.targetCustomer), BusinessModel(f.step4),
      CompetitivePositioning(f.step3.competitors, f.step2.uniqueAdvantage),
      TractionTeam(Num(f.step5.revenue), Num(f.step5.users), Num(f.step5.teamSize), RaisedFunding(f.step5)),
      TheAsk(Num(f.step5.fundingAsk), f.step5.revenue) ]
  }

  /** Every deck gets all eight dimensions, in rubric order, each with its fixed maximum, a score within it and the status of that score. */
  lemma DimensionsWellFormed(f: DeckFields)
    ensures Rubric(Dimensions(f))
  {
    var ds := Dimensions(f);
    assert WellFormed(ds[0], 0);
    assert WellFormed(ds[1], 1);
    assert WellFormed(ds[2], 2);
    assert WellFormed(ds[3], 3);
    assert WellFormed(ds[4], 4);
    assert WellFormed(ds[5], 5);
    assert WellFormed(ds[6], 6);
    assert WellFormed(ds[7], 7);
    forall i | 0 <= i < 8 ensures WellFormed(ds[i], i) {
      assert i in {0, 1, 2, 3, 4, 5, 6, 7};
    }
  }

  function SumScores(ds: seq<Dimension>): int {
    if ds == [] then 0 else SumScores(ds[..|ds| - 1]) + ds[|ds| - 1].score
  }

  function SumMax(ds: seq<Dimension>): int {
    if ds == [] then 0 else SumMax(ds[..|ds| - 1]) + ds[|ds| - 1].maxScore
  }

  /** Scores within their maxima add up to a total within the sum of the maxima. */
  lemma {:induction false} SumWithinMax(ds: seq<Dimension>)
    requires forall i :: 0 <= i < |ds| ==> 0 <= ds[i].score <= ds[i].maxScore
    ensures 0 <= SumScores(ds) <= SumMax(ds)
  {
    if ds != [] {
      SumWithinMax(ds[..|ds| - 1]);
    }
  }

  lemma SumMaxPrefix(ds: seq<Dimension>, k: nat)
    requires 0 < k <= |ds|
    ensures SumMax(ds[..k]) == SumMax(ds[..k - 1]) + ds[k - 1].maxScore
  {
    assert ds[..k][..k - 1] == ds[..k - 1];
  }

  /** The maxima of the rubric add up to 100. */
  lemma MaxTotalIsHundred(ds: seq<Dimension>)
    requires |ds| == 8 && forall i :: 0 <= i < 8 ==> ds[i].maxScore == DIMENSION_MAX[i]
    ensures SumMax(ds) == 100
  {
    assert ds[..0] == [];
    SumMaxPrefix(ds, 1);
    assert SumMax(ds[..1]) == 15;
    SumMaxPrefix(ds, 2);
    assert SumMax(ds[..2]) == 30;
    SumMaxPrefix(ds, 3);
    assert SumMax(ds[..3]) == 45;
    SumMaxPrefix(ds, 4);
    assert SumMax(ds[..4]) == 55;
    SumMaxPrefix(ds, 5);
    assert SumMax(ds[..5]) == 65;
    SumMaxPrefix(ds, 6);
    assert SumMax(ds[..6]) == 75;
    SumMaxPrefix(ds, 7);
    assert SumMax(ds[..7]) == 90;
    SumMaxPrefix(ds, 8);
    assert ds[..8] == ds;
  }

  /** A list shaped like the rubric: the eight dimensions in order, each well formed. */
  predicate Rubric(ds: seq<Dimension>) {
    |ds| == 8 && forall i :: 0 <= i < 8 ==> WellFormed(ds[i], i)
  }

  /** The report over a rubric-shaped list: total out of 100, its grade and its summary band. */
  function ReportOf(dims: seq<Dimension>): (r: DeckScore)
    requires Rubric(dims)
    ensures r.dimensions == dims && r.total == SumScores(dims)
    ensures r.maxTotal == 100 && 0 <= r.total <= 100
    ensures r.grade in GRADES
    ensures r.grade == GetGrade(r.total as real / 100.0) && r.summary == SummaryFor(r.total as real / 100.0)
    ensures r.summary == InvestorReady <==> r.total >= 80
    ensures r.summary == GoodFoundation <==> 60 <= r.total < 80
    ensures r.summary == DecentStart <==> 40 <= r.total < 60
    ensures r.summary == EarlyStage <==> r.total < 40
    ensures r.grade == "A+" <==> r.total >= 90
    ensures r.grade == "F" <==> r.total < 40
  {
    MaxTotalIsHundred(dims);
    SumWithinMax(dims);
    var pct := SumScores(dims) as real / 100.0;
    DeckScore(SumScores(dims), SumMax(dims), GetGrade(pct), SummaryFor(pct), dims)
  }

  /** The whole report for a deck, as the rubric defines it. */
  function Report(f: DeckFields): (r: DeckScore)
    ensures r.dimensions == Dimensions(f)
    ensures r.maxTotal == 100 && 0 <= r.total <= 100
  {
    DimensionsWellFormed(f);
    ReportOf(Dimensions(f))
  }

  /** Scores within their maxima reach the sum of the maxima exactly when every score is at its maximum. */
  lemma {:induction false} SumAtMax(ds: seq<Dimension>)
    requires forall i :: 0 <= i < |ds| ==> 0 <= ds[i].score <= ds[i].maxScore
    ensures SumScores(ds) == SumMax(ds) <==> forall i :: 0 <= i < |ds| ==> ds[i].score == ds[i].maxScore
  {
    if ds != [] {
      var init := ds[..|ds| - 1];
      var last := ds[|ds| - 1];
      SumAtMax(init);
      SumWithinMax(init);
      if forall i :: 0 <= i < |ds| ==> ds[i].score == ds[i].maxScore {
        assert forall i :: 0 <= i < |init| ==> init[i].score == init[i].maxScore;
      }
      if SumScores(ds) == SumMax(ds) {
        assert last.score == last.maxScore;
        forall i | 0 <= i < |ds| ensures ds[i].score == ds[i].maxScore {
          if i < |init| {
            assert ds[i] == init[i];
          }
        }
      }
    }
  }

  /** A rubric-shaped list totals 100 exactly when every dimension is at its maximum. */
  lemma RubricAtMax(ds: seq<Dimension>)
    requires Rubric(ds)
    ensures SumScores(ds) == 100 <==> forall i :: 0 <= i < 8 ==> ds[i].score == DIMENSION_MAX[i]
  {
    MaxTotalIsHundred(ds);
    SumAtMax(ds);
  }

  /** Every dimension's condition for full marks holds. */
  predicate FullMarks(f: DeckFields) {
    var b := f.step1;
    |b.companyName| >= 2 && |b.oneLiner| >= 10 && b.industry != "" && b.stage != ""
    && |f.step2.problem| >= 150 && QuantitativeSignal(f.step2.problem)
    && |f.step2.solution| >= 150 && |f.step2.uniqueAdvantage| >= 20 && SolutionKeyword(f.step2.solution)
    && IndustryTam(b.industry).Some? && IndustryTam(b.industry).value >= 100000000000 && |f.step3.targetCustomer| >= 10
    && f.step4.revenueModel != "" && |f.step4.pricing| >= 5 && |f.step4.channels| >= 5
    && CompetitorCount(f.step3.competitors) >= 3
    && Num(f.step5.revenue) >= 10000.0 && Num(f.step5.users) > 0.0 && Num(f.step5.teamSize) >= 2.0 && RaisedFunding(f.step5)
    && 100000.0 <= Num(f.step5.fundingAsk) <= 10000000.0 && f.step5.revenue != ""
  }

  /** The eight blocks of the rubric, in order. */
  lemma DimensionsAre(f: DeckFields)
    ensures var ds := Dimensions(f);
      |ds| == 8
      && ds[0] == CompanyIdentity(f.step1) && ds[1] == ProblemDefinition(f.step2.problem)
      && ds[2] == SolutionClarity(f.step2)
      && ds[3] == MarketOpportunity(f.step1.industry, IndustryTam(f.step1.industry), f.step3.targetCustomer)
      && ds[4] == BusinessModel(f.step4) && ds[5] == CompetitivePositioning(f.step3.competitors, f.step2.uniqueAdvantage)
      && ds[6] == TractionTeam(Num(f.step5.revenue), Num(f.step5.users), Num(f.step5.teamSize), RaisedFunding(f.step5))
      && ds[7] == TheAsk(Num(f.step5.fundingAsk), f.step5.revenue)
  {
  }

  /** Every dimension at its maximum, as the per-dimension conditions. */
  lemma AllAtMax(f: DeckFields)
    ensures (forall i :: 0 <= i < 8 ==> Dimensions(f)[i].score == DIMENSION_MAX[i]) <==> FullMarks(f)
  {
    var ds := Dimensions(f);
    DimensionsAre(f);
    if FullMarks(f) {
      forall i | 0 <= i < 8 ensures ds[i].score == DIMENSION_MAX[i] {
        assert i in {0, 1, 2, 3, 4, 5, 6, 7};
      }
    }
  }

  /** A deck scores 100 exactly when every dimension earns full marks; such a deck is graded "A+" and called investor-ready. */
  lemma PerfectScore(f: DeckFields)
    ensures Report(f).total == 100 <==> FullMarks(f)
    ensures FullMarks(f) ==> Report(f).grade == "A+" && Report(f).summary == InvestorReady
  {
    DimensionsWellFormed(f);
    RubricAtMax(Dimensions(f));
    AllAtMax(f);
  }

  /** A longer problem statement that keeps its figures never scores lower. */
  lemma ProblemScoreMonotone(p: string, q: string)
    requires |p| <= |q| && (QuantitativeSignal(p) ==> QuantitativeSignal(q))
    ensures ProblemDefinition(p).score <= ProblemDefinition(q).score
  {
  }

  /** The "Company Identity" block: accumulates its points and tips one test at a time. */
  method IdentityBlock(f: DeckFields) returns (d: Dimension)
    ensures d == CompanyIdentity(f.step1)
  {
    var score := 0;
    var tips: seq<Tip> := [];
    if |f.step1.companyName| >= 2 { score := score + 5; } else { tips := tips + [AddCompanyName]; }
    if |f.step1.oneLiner| >= 10 {
      score := score + 5;
      if |f.step1.oneLiner| > 80 { tips := tips + [ShortenOneLiner]; }
    } else {
      tips := tips + [WriteOneLiner];
    }
    if f.step1.industry != "" { score := score + 3; } else { tips := tips + [SelectIndustryForSizing]; }
    if f.step1.stage != "" { score := score + 2; } else { tips := tips + [IndicateStage]; }
    d := Dimension("Company Identity", score, 15, tips, GetStatus(score, 15));
  }

  /** The "Problem Definition" block: accumulates its points and tips one test at a time. */
  method ProblemBlock(f: DeckFields) returns (d: Dimension)
    ensures d == ProblemDefinition(f.step2.problem)
  {
    var score := 0;
    var tips: seq<Tip> := [];
    var problem := f.step2.problem;
    if |problem| >= 50 {
      score := score + 8;
      if |problem| >= 150 { score := score + 2; }
    } else if |problem| >= 20 {
      score := score + 4;
      tips := tips + [ExpandProblem];
    } else {
      tips := tips + [DescribeProblem];
    }
    if Contains(Lower(problem), "million") || Contains(Lower(problem), "billion") || HasPercent(problem) || HasDollarAmount(problem) {
      score := score + 5;
    } else {
      tips := tips + [AddQuantitativeData];
    }
    d := Dimension("Problem Definition", score, 15, tips, GetStatus(score, 15));
  }

  /** The "Solution Clarity" block: accumulates its points and tips one test at a time. */
  method SolutionBlock(f: DeckFields) returns (d: Dimension)
    ensures d == SolutionClarity(f.step2)
  {
    var score := 0;
    var tips: seq<Tip> := [];
    var solution := f.step2.solution;
    var advantage := f.step2.uniqueAdvantage;
    if |solution| >= 50 {
      score := score + 6;
      if |solution| >= 150 { score := score + 2; }
    } else if |solution| >= 20 {
      score := score + 3;
      tips := tips + [ElaborateSolution];
    } else {
      tips := tips + [DescribeSolution];
    }
    if |advantage| >= 20 {
      score := score + 5;
    } else if |advantage| > 0 {
      score := score + 2;
      tips := tips + [ExpandAdvantage];
    } else {
      tips := tips + [AddAdvantage];
    }
    if Contains(Lower(solution), "ai") || Contains(Lower(solution), "automat") || Contains(Lower(solution), "platform") {
      score := score + 2;
    }
    d := Dimension("Solution Clarity", score, 15, tips, GetStatus(score, 15));
  }

  /** The "Market Opportunity" block: accumulates its points and tips one test at a time. */
  method MarketBlock(industry: string, tam: Option<nat>, targetCustomer: string) returns (d: Dimension)
    ensures d == MarketOpportunity(industry, tam, targetCustomer)
  {
    var score := 0;
    var tips: seq<Tip> := [];
    if industry != "" && tam.Some? && tam.value != 0 {
      score := score + 4;
      if tam.value >= 100000000000 { score := score + 2; }
    } else {
      tips := tips + [SelectIndustryForAnalysis];
    }
    if |targetCustomer| >= 10 { score := score + 4; } else { tips := tips + [DefineTargetCustomer]; }
    d := Dimension("Market Opportunity", score, 10, tips, GetStatus(score, 10));
  }

  /** The "Business Model" block: accumulates its points and tips one test at a time. */
  method BusinessModelBlock(f: DeckFields) returns (d: Dimension)
    ensures d == BusinessModel(f.step4)
  {
    var score := 0;
    var tips: seq<Tip> := [];
    if f.step4.revenueModel != "" { score := score + 4; } else { tips := tips + [SelectRevenueModel]; }
    if |f.step4.pricing| >= 5 { score := score + 3; } else { tips := tips + [AddPricing]; }
    if |f.step4.channels| >= 5 { score := score + 3; } else { tips := tips + [ListChannels]; }
    d := Dimension("Business Model", score, 10, tips, GetStatus(score, 10));
  }

  /** The "Competitive Positioning" block: accumulates its points and tips one test at a time. */
  method CompetitionBlock(f: DeckFields) returns (d: Dimension)
    ensures d == CompetitivePositioning(f.step3.competitors, f.step2.uniqueAdvantage)
  {
    var score := 0;
    var tips: seq<Tip> := [];
    var competitors := NonEmpty(Split(f.step3.competitors, '\n'));
    if |competitors| >= 3 {
      score := score + 6;
    } else if |competitors| >= 1 {
      score := score + 3;
      tips := tips + [ListThreeCompetitors];
    } else {
      tips := tips + [AddCompetitors];
    }
    if |f.step2.uniqueAdvantage| >= 20 { score := score + 4; } else { tips := tips + [ArticulateWhyYouWin]; }
    d := Dimension("Competitive Positioning", score, 10, tips, GetStatus(score, 10));
  }

  /** The "Traction & Team" block, given `parseFloat(x) || 0` of revenue, users and team size and the raw funding-raised text. */
  method TractionBlock(revenue: real, users: real, teamSize: real, fundingRaised: Option<real>) returns (d: Dimension)
    ensures d == TractionTeam(revenue, users, teamSize, fundingRaised.Some? && fundingRaised.value > 0.0)
  {
    var score := 0;
    var tips: seq<Tip> := [];
    if revenue > 0.0 {
      score := score + 5;
      if revenue >= 10000.0 { score := score + 2; }
    } else if users > 0.0 {
      score := score + 3;
    } else {
      tips := tips + [ShowTraction];
    }
    if users > 0.0 { score := score + 2; }
    if teamSize >= 2.0 {
      score := score + 3;
    } else if teamSize >= 1.0 {
      score := score + 1;
      tips := tips + [HighlightTeam];
    } else {
      tips := tips + [AddTeamSize];
    }
    if fundingRaised.Some? && fundingRaised.value > 0.0 { score := score + 3; }
    d := Dimension("Traction & Team", score, 15, tips, GetStatus(score, 15));
  }

  /** The "The Ask" block, given `parseFloat(fundingAsk) || 0` and the raw revenue text. */
  method AskBlock(ask: real, revenueText: string) returns (d: Dimension)
    ensures d == TheAsk(ask, revenueText)
  {
    var score := 0;
    var tips: seq<Tip> := [];
    if ask > 0.0 {
      score := score + 5;
      if 100000.0 <= ask <= 10000000.0 { score := score + 3; } else { tips := tips + [AskOutOfRange]; }
      if revenueText != "" && ask > 0.0 { score := score + 2; }
    } else {
      tips := tips + [SpecifyAsk];
    }
    d := Dimension("The Ask", score, 10, tips, GetStatus(score, 10));
  }

  /** The two `reduce` sums over the dimensions: total points and total maximum. */
  method Tally(dimensions: seq<Dimension>) returns (total: int, maxTotal: int)
    ensures total == SumScores(dimensions) && maxTotal == SumMax(dimensions)
  {
    total, maxTotal := 0, 0;
    var i := 0;
    while i < |dimensions|
      invariant 0 <= i <= |dimensions|
      invariant total == SumScores(dimensions[..i])
      invariant maxTotal == SumMax(dimensions[..i])
    {
      assert dimensions[..i + 1][..i] == dimensions[..i];
      total := total + dimensions[i].score;
      maxTotal := maxTotal + dimensions[i].maxScore;
      i := i + 1;
    }
    assert dimensions[..i] == dimensions;
  }

  /** Pushing eight dimensions one by one onto an empty list lists them in order. */
  lemma EightPushes(d0: Dimension, d1: Dimension, d2: Dimension, d3: Dimension,
                    d4: Dimension, d5: Dimension, d6: Dimension, d7: Dimension)
    ensures [] + [d0] + [d1] + [d2] + [d3] + [d4] + [d5] + [d6] + [d7] == [d0, d1, d2, d3, d4, d5, d6, d7]
  {
  }

  /** Eight dimensions, each equal to its rubric function's, are the rubric's list. */
  lemma DimensionsOf(f: DeckFields, d0: Dimension, d1: Dimension, d2: Dimension, d3: Dimension,
                     d4: Dimension, d5: Dimension, d6: Dimension, d7: Dimension)
    requires d0 == CompanyIdentity(f.step1) && d1 == ProblemDefinition(f.step2.problem) && d2 == SolutionClarity(f.step2)
    requires d3 == MarketOpportunity(f.step1.industry, IndustryTam(f.step1.industry), f.step3.targetCustomer)
    requires d4 == BusinessModel(f.step4) && d5 == CompetitivePositioning(f.step3.competitors, f.step2.uniqueAdvantage)
    requires d6 == TractionTeam(Num(f.step5.revenue), Num(f.step5.users), Num(f.step5.teamSize), RaisedFunding(f.step5))
    requires d7 == TheAsk(Num(f.step5.fundingAsk), f.step5.revenue)
    ensures [d0, d1, d2, d3, d4, d5, d6, d7] == Dimensions(f)
  {
  }

  /** The tail of `scoreDeck`: both sums, the percentage, its grade and its summary sentence. */
  method Summarize(dimensions: seq<Dimension>) returns (r: DeckScore)
    requires Rubric(dimensions)
    ensures r == ReportOf(dimensions)
  {
    var total, maxTotal := Tally(dimensions);
    MaxTotalIsHundred(dimensions);
    var pct := total as real / maxTotal as real;
    assert pct == SumScores(dimensions) as real / 100.0;
    var grade := GetGrade(pct);

    var summary;
    if pct >= 0.8 {
      summary := InvestorReady;
    } else if pct >= 0.6 {
      summary := GoodFoundation;
    } else if pct >= 0.4 {
      summary := DecentStart;
    } else {
      summary := EarlyStage;
    }
    assert summary == SummaryFor(pct);
    r := DeckScore(total, maxTotal, grade, summary, dimensions);
  }

  /** Scores a deck: the eight dimensions, then the report over them. */
  method ScoreDeck(deck: DeckData) returns (r: DeckScore)
    ensures r == Report(deck.fields)
    ensures |r.dimensions| == 8 && r.maxTotal == 100 && 0 <= r.total <= 100
  {
    var dimensions := CollectDimensions(deck.fields);
    DimensionsWellFormed(deck.fields);
    r := Summarize(dimensions);
  }

  /** The head of `scoreDeck`: each block's dimension pushed in rubric order. */
  method CollectDimensions(f: DeckFields) returns (dimensions: seq<Dimension>)
    ensures dimensions == Dimensions(f)
  {
    dimensions := [];
    var dIdentity := IdentityBlock(f);
    dimensions := dimensions + [dIdentity];
    var dProblem := ProblemBlock(f);
    dimensions := dimensions + [dProblem];
    var dSolution := SolutionBlock(f);
    dimensions := dimensions + [dSolution];
    var dMarket := MarketBlock(f.step1.industry, IndustryTam(f.step1.industry), f.step3.targetCustomer);
    dimensions := dimensions + [dMarket];
    var dBusinessModel := BusinessModelBlock(f);
    dimensions := dimensions + [dBusinessModel];
    var dCompetition := CompetitionBlock(f);
    dimensions := dimensions + [dCompetition];
    var revenue := Num(f.step5.revenue);
    var users := Num(f.step5.users);
    var teamSize := Num(f.step5.teamSize);
    var dTraction := TractionBlock(revenue, users, teamSize, ParseNum(f.step5.fundingRaised));
    dimensions := dimensions + [dTraction];
    var ask := Num(f.step5.fundingAsk);
    var dAsk := AskBlock(ask, f.step5.revenue);
    dimensions := dimensions + [dAsk];

    EightPushes(dIdentity, dProblem, dSolution, dMarket, dBusinessModel, dCompetition, dTraction, dAsk);
    DimensionsOf(f, dIdentity, dProblem, dSolution, dMarket, dBusinessModel, dCompetition, dTraction, dAsk);
  }
}
