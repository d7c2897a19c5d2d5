/**
 * The starter templates: six complete example decks, one per kind of startup,
 * that a founder can copy and edit, and the lookup of a template by its id.
 */
module Templates {
  import opened Wrappers
  import opened Text
  import opened DeckTypes
  import Scoring

  /** A catalogue entry: display details and the step data a new deck starts from. */
  datatype DeckTemplate = DeckTemplate(
    id: string, name: string, category: string, description: string, icon: string, color: string,
    data: DeckFields)

  const SAAS_B2B: DeckTemplate := DeckTemplate(
    "saas-b2b", "B2B SaaS", "Software",
    "Classic B2B SaaS startup targeting SMBs with recurring revenue.",
    "\U{2601}\U{FE0F}", "#22d3ee",
    DeckFields(
      Basics("CloudSync",
             "We help SMBs automate their operations with AI-powered workflow tools",
             "SaaS", "Seed"),
      Narrative("Small and medium businesses waste 15+ hours per week on repetitive manual processes \U{2014} data entry, invoice processing, report generation, and cross-platform syncing. This costs the average SMB $45,000 annually in lost productivity. Existing enterprise tools like SAP and Salesforce are too expensive and complex for teams under 50 people.",
                "CloudSync is an AI-powered operations platform that connects to your existing tools (QuickBooks, Slack, Gmail, Sheets) and automates repetitive workflows with zero code. Set up in 5 minutes, not 5 months.",
                "Our proprietary AI engine learns from each company's unique patterns, getting smarter over time. Unlike Zapier (rules-based) or enterprise RPA (complex), we combine natural language setup with adaptive automation."),
      MarketInfo("SMB operations managers and founders at 10-200 person companies, primarily in professional services, e-commerce, and healthcare.",
                 "$195B",
                 "Zapier" + "\n" + "Make (Integromat)" + "\n" + "Microsoft Power Automate" + "\n" + "Workato"),
      Monetization("Subscription",
                   "$49/mo (Starter), $149/mo (Pro), $399/mo (Business)",
                   "Content marketing, Product-led growth, Partner integrations"),
      Traction("4", "85000", "340", "250000", "2000000")))

  const FINTECH_PAYMENTS: DeckTemplate := DeckTemplate(
    "fintech-payments", "Fintech Payments", "Finance",
    "Payment infrastructure targeting underserved markets.",
    "\U{1F4B3}", "#8b5cf6",
    DeckFields(
      Basics("PayBridge",
             "Cross-border payments for African businesses at 1/10th the cost",
             "Fintech", "Pre-seed"),
      Narrative("African businesses pay 7-12% in cross-border transaction fees through legacy banking rails, losing $5.2 billion annually. Settlement takes 3-5 business days. Freelancers and SMB exporters are hit hardest \U{2014} Western Union and SWIFT were built for consumers and corporates, not the African middle market.",
                "PayBridge uses stablecoin rails (USDC on Solana) with local on/off ramps in 12 African markets. Businesses send and receive payments in seconds at 0.5% fees. No crypto knowledge needed \U{2014} they see local currency in, local currency out.",
                "Licensed in 4 African markets. Direct integrations with M-Pesa, MTN Money, and Flutterwave. Our compliance engine handles KYC/AML across jurisdictions automatically \U{2014} this takes competitors 12+ months to build."),
      MarketInfo("African SMB exporters/importers, freelancers receiving international payments, and diaspora remittance users. Starting with Nigeria, Kenya, South Africa, Ghana.",
                 "$310B",
                 "Chipper Cash" + "\n" + "Flutterwave" + "\n" + "Wise (TransferWise)" + "\n" + "Yellow Card"),
      Monetization("Transaction Fee",
                   "0.5% per transaction, $0.10 minimum, $50 cap",
                   "Direct sales to trade associations, Partnership with accounting platforms, Referral program"),
      Traction("3", "12000", "180", "50000", "1500000")))

  const AI_ML: DeckTemplate := DeckTemplate(
    "ai-ml", "AI / Machine Learning", "Technology",
    "AI-first company with a proprietary model or dataset.",
    "\U{1F9E0}", "#f97316",
    DeckFields(
      Basics("Synthia",
             "AI agents that handle customer support better than humans",
             "AI / ML", "Seed"),
      Narrative("Customer support costs enterprises $1.3 trillion annually. The average support ticket costs $15-25 to resolve. Despite chatbot adoption, 73% of customers still prefer human agents because current AI solutions give generic, frustrating responses. Companies are stuck between expensive human agents and low-quality bots.",
                "Synthia deploys AI agents trained on your specific product documentation, past tickets, and internal knowledge base. Our agents resolve 84% of tickets autonomously with human-level quality \U{2014} understanding context, accessing account data, and taking actions (refunds, upgrades, escalations). Setup takes 2 hours, not 2 months.",
                "Fine-tuned on 50M+ real support conversations across 12 industries. Our proprietary feedback loop improves resolution quality 3% weekly based on customer satisfaction scores. Patent-pending \"action graph\" lets agents perform real account operations, not just answer questions."),
      MarketInfo("VP of Customer Success at 200-5000 person SaaS, e-commerce, and fintech companies with 10+ support agents.",
                 "$200B",
                 "Intercom Fin" + "\n" + "Ada" + "\n" + "Zendesk AI" + "\n" + "Forethought"),
      Monetization("Usage-based",
                   "$0.50 per resolved ticket + $500/mo platform fee",
                   "Outbound sales to VPs of CX, Zendesk/Intercom marketplace integrations, Case study marketing"),
      Traction("6", "320000", "42", "800000", "5000000")))

  const MARKETPLACE: DeckTemplate := DeckTemplate(
    "marketplace", "Marketplace", "Commerce",
    "Two-sided marketplace connecting supply and demand.",
    "\U{1F3EA}", "#10b981",
    DeckFields(
      Basics("SkillBridge",
             "The marketplace where companies hire vetted AI specialists by the hour",
             "AI / ML", "Pre-seed"),
      Narrative("92% of companies want to adopt AI but 67% cannot find qualified talent. The average AI engineer hire takes 4.7 months and costs $180K+ in salary alone. Consulting firms charge $400-800/hour. Small and mid-size companies are locked out of the AI revolution by talent scarcity and cost.",
                "SkillBridge is a vetted marketplace of 500+ AI specialists available by the hour. Companies post a project (fine-tune a model, build a pipeline, audit an ML system) and get matched with qualified specialists within 24 hours. Skills-based matching, not resume-based.",
                "Every specialist passes a live technical assessment (not just interviews). Our matching algorithm uses project outcome data to improve matches over time. Built-in code review and project management means quality is guaranteed \U{2014} we offer a money-back guarantee on every engagement."),
      MarketInfo("CTOs and VP Engineering at 50-500 person tech companies, non-tech enterprises starting AI initiatives, and funded startups needing ML expertise.",
                 "$200B",
                 "Toptal" + "\n" + "Upwork" + "\n" + "Andela" + "\n" + "Turing"),
      Monetization("Marketplace / Commission",
                   "20% take rate on specialist hourly rates ($150-400/hr range)",
                   "SEO (AI talent hiring keywords), LinkedIn outbound to CTOs, Partnership with AI bootcamps and universities"),
      Traction("2", "28000", "85", "0", "750000")))

  const CLIMATE_TECH: DeckTemplate := DeckTemplate(
    "climate-tech", "Climate Tech", "Sustainability",
    "Technology addressing climate change or environmental sustainability.",
    "\U{1F30D}", "#22c55e",
    DeckFields(
      Basics("CarbonLens",
             "Real-time carbon footprint tracking for supply chains",
             "Climate Tech", "Seed"),
      Narrative("Supply chains account for 60% of global emissions, but 93% of companies cannot accurately measure their Scope 3 emissions. New EU and SEC regulations require disclosure by 2026. Current solutions (Watershed, Persefoni) cost $100K+ annually and require months of implementation. Mid-market companies face regulatory fines with no affordable compliance path.",
                "CarbonLens connects to your existing procurement and logistics systems (SAP, Oracle, Shopify) and automatically calculates real-time Scope 1-3 emissions using our proprietary emission factor database of 2M+ products and materials. Get compliant in days, not months.",
                "Largest proprietary emission factor database (2M+ SKUs). Satellite-verified actuals instead of industry averages. Our API-first approach means implementation in days vs months. 10x cheaper than enterprise alternatives."),
      MarketInfo("Sustainability managers and CFOs at mid-market manufacturers, retailers, and food & beverage companies (100-5000 employees) in EU and US markets.",
                 "$130B",
                 "Watershed" + "\n" + "Persefoni" + "\n" + "Sweep" + "\n" + "Plan A"),
      Monetization("Subscription",
                   "$2,000/mo (Growth), $5,000/mo (Enterprise), $15,000/mo (Custom)",
                   "Industry conferences (COP, Climate Week), Partnership with Big 4 accounting firms, Regulatory compliance content marketing"),
      Traction("5", "180000", "28", "500000", "3000000")))

  const EDTECH: DeckTemplate := DeckTemplate(
    "edtech", "EdTech", "Education",
    "Education technology transforming how people learn.",
    "\U{1F4DA}", "#eab308",
    DeckFields(
      Basics("LearnLoop",
             "AI tutor that adapts to how each student learns",
             "EdTech", "Pre-seed"),
      Narrative("One-size-fits-all education fails 65% of students. Private tutoring ($40-100/hour) is out of reach for most families. Existing EdTech platforms (Khan Academy, Coursera) deliver the same content to every student regardless of their learning style, pace, or gaps. Teachers with 30+ students cannot personalize instruction.",
                "LearnLoop is an AI tutor that builds a cognitive model of each student \U{2014} identifying their learning style, knowledge gaps, and optimal challenge level. It generates custom lessons, practice problems, and explanations tailored to exactly where each student is. Like having a personal tutor who never gets tired.",
                "Our adaptive learning engine is trained on 10M+ student interaction patterns. We identify learning style (visual/verbal/kinesthetic) in the first 15 minutes and adjust all content delivery. 2.3x better learning outcomes than static content in our pilot study."),
      MarketInfo("Parents of K-12 students, school districts seeking supplemental AI tools, and adult learners studying for professional certifications.",
                 "$400B",
                 "Khan Academy" + "\n" + "Duolingo" + "\n" + "Photomath" + "\n" + "Khanmigo"),
      Monetization("Freemium",
                   "Free (2 subjects), $14.99/mo (Family), $8/student/mo (School License)",
                   "Organic (parent social media communities), School district pilots, App Store optimization"),
      Traction("3", "0", "1200", "75000", "1000000")))

  const TEMPLATES: seq<DeckTemplate> := [SAAS_B2B, FINTECH_PAYMENTS, AI_ML, MARKETPLACE, CLIMATE_TECH, EDTECH]

  /** The first template in `ts` with the given id (`find`), `None` for undefined. */
  function FindTemplate(ts: seq<DeckTemplate>, id: string): (r: Option<DeckTemplate>)
    ensures r.None? <==> forall k :: 0 <= k < |ts| ==> ts[k].id != id
    ensures r.Some? ==> r.value.id == id && r.value in ts
  {
    if ts == [] then None
    else if ts[0].id == id then Some(ts[0])
    else FindTemplate(ts[1..], id)
  }

  function GetTemplate(id: string): (r: Option<DeckTemplate>)
    ensures r.None? <==> forall i :: 0 <= i < |TEMPLATES| ==> TEMPLATES[i].id != id
    ensures r.Some? ==> r.value.id == id && r.value in TEMPLATES
  {
    FindTemplate(TEMPLATES, id)
  }

  function TemplateIds(): (r: seq<string>)
    ensures |r| == |TEMPLATES| && forall i :: 0 <= i < |r| ==> r[i] == TEMPLATES[i].id
  {
    seq(|TEMPLATES|, i requires 0 <= i < |TEMPLATES| => TEMPLATES[i].id)
  }

  /** The six template ids are distinct. */
  lemma TemplateIdsDistinct()
    ensures |TEMPLATES| == 6 && Distinct(TemplateIds())
  {
    assert TemplateIds() == ["saas-b2b", "fintech-payments", "ai-ml", "marketplace", "climate-tech", "edtech"];
  }

  /** With distinct ids, looking up a template's id finds that template. */
  lemma {:induction false} FindTemplateOfRow(ts: seq<DeckTemplate>, i: nat)
    requires i < |ts|
    requires forall j, k :: 0 <= j < k < |ts| ==> ts[j].id != ts[k].id
    ensures FindTemplate(ts, ts[i].id) == Some(ts[i])
  {
    if i > 0 {
      assert ts[0].id != ts[i].id;
      FindTemplateOfRow(ts[1..], i - 1);
    }
  }

  /** Every template is found by its own id, and nothing else is found by it. */
  lemma GetTemplateOfEach()
    ensures forall i :: 0 <= i < |TEMPLATES| ==> GetTemplate(TEMPLATES[i].id) == Some(TEMPLATES[i])
  {
    TemplateIdsDistinct();
    forall i | 0 <= i < |TEMPLATES| ensures GetTemplate(TEMPLATES[i].id) == Some(TEMPLATES[i]) {
      FindTemplateOfRow(TEMPLATES, i);
    }
  }

  /** Every template names an industry of the table. */
  lemma TemplateIndustriesKnown()
    ensures forall i :: 0 <= i < |TEMPLATES| ==> IndustryTam(TEMPLATES[i].data.step1.industry).Some?
  {
    var names := IndustryNames();
    assert names[0] == "SaaS" && names[1] == "Fintech" && names[4] == "EdTech";
    assert names[5] == "AI / ML" && names[7] == "Climate Tech";
    forall i | 0 <= i < |TEMPLATES| ensures IndustryTam(TEMPLATES[i].data.step1.industry).Some? {
      assert TEMPLATES[i].data.step1.industry in names;
    }
  }

  /** Every template's stage is one of the listed stages. */
  lemma TemplateStagesListed()
    ensures forall i :: 0 <= i < |TEMPLATES| ==> TEMPLATES[i].data.step1.stage in STAGES
  {
  }

  /** Every template's revenue model is one of the listed models. */
  lemma TemplateRevenueModelsListed()
    ensures forall i :: 0 <= i < |TEMPLATES| ==> TEMPLATES[i].data.step4.revenueModel in REVENUE_MODELS
  {
  }

  /** Four names without line breaks, joined by line breaks, split back into the four names. */
  lemma SplitFour(a: string, b: string, c: string, d: string)
    requires '\n' !in a && '\n' !in b && '\n' !in c && '\n' !in d
    ensures Split(a + "\n" + b + "\n" + c + "\n" + d, '\n') == [a, b, c, d]
  {
    var cd := c + "\n" + d;
    var bcd := b + "\n" + cd;
    SplitWithout(d, '\n');
    SplitAfter(c, '\n', d);
    SplitAfter(b, '\n', cd);
    SplitAfter(a, '\n', bcd);
    assert a + "\n" + b + "\n" + c + "\n" + d == a + ['\n'] + bcd;
  }

  /** Four non-empty competitor names, one per line, make four non-empty lines. */
  lemma FourLines(a: string, b: string, c: string, d: string)
    requires '\n' !in a && '\n' !in b && '\n' !in c && '\n' !in d
    requires a != "" && b != "" && c != "" && d != ""
    ensures Scoring.CompetitorCount(a + "\n" + b + "\n" + c + "\n" + d) == 4
  {
    SplitFour(a, b, c, d);
    NonEmptyAll([a, b, c, d]);
  }

  lemma SaasB2bCompetitors()
    ensures Scoring.CompetitorCount(SAAS_B2B.data.step3.competitors) == 4
  {
    FourLines("Zapier", "Make (Integromat)", "Microsoft Power Automate", "Workato");
  }

  lemma FintechPaymentsCompetitors()
    ensures Scoring.CompetitorCount(FINTECH_PAYMENTS.data.step3.competitors) == 4
  {
    FourLines("Chipper Cash", "Flutterwave", "Wise (TransferWise)", "Yellow Card");
  }

  lemma AiMlCompetitors()
    ensures Scoring.CompetitorCount(AI_ML.data.step3.competitors) == 4
  {
    FourLines("Intercom Fin", "Ada", "Zendesk AI", "Forethought");
  }

  lemma MarketplaceCompetitors()
    ensures Scoring.CompetitorCount(MARKETPLACE.data.step3.competitors) == 4
  {
    FourLines("Toptal", "Upwork", "Andela", "Turing");
  }

  lemma ClimateTechCompetitors()
    ensures Scoring.CompetitorCount(CLIMATE_TECH.data.step3.competitors) == 4
  {
    FourLines("Watershed", "Persefoni", "Sweep", "Plan A");
  }

  lemma EdtechCompetitors()
    ensures Scoring.CompetitorCount(EDTECH.data.step3.competitors) == 4
  {
    FourLines("Khan Academy", "Duolingo", "Photomath", "Khanmigo");
  }

  /** Every template lists exactly four competitors, one per line. */
  lemma TemplateCompetitors()
    ensures forall i :: 0 <= i < |TEMPLATES| ==> Scoring.CompetitorCount(TEMPLATES[i].data.step3.competitors) == 4
  {
    SaasB2bCompetitors();
    FintechPaymentsCompetitors();
    AiMlCompetitors();
    MarketplaceCompetitors();
    ClimateTechCompetitors();
    EdtechCompetitors();
    forall i | 0 <= i < |TEMPLATES| ensures Scoring.CompetitorCount(TEMPLATES[i].data.step3.competitors) == 4 {
      assert i in {0, 1, 2, 3, 4, 5};
    }
  }
}
