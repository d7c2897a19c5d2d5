# PitchPerfect deck engine in Dafny

PitchPerfect is a browser app that walks a founder through a five-step
questionnaire and builds a pitch deck from the answers. The deck is five step
records of free text: basics, problem and solution, market, business model,
and team and traction. The app scores the deck against an eight-dimension
rubric worth 100 points. Decks, and one in-progress draft, are kept in the
browser's key/value storage. Six ready-made example decks (templates) can be
shown with derived market and revenue figures, and can be copied into the
founder's own decks.

This project models that core and proves properties of it:

- `wrappers.dfy`: the `Option` type. A stored slot, a table lookup or a parse can each come back empty.
- `text.dfy` (`Text`): the JavaScript built-ins the rubric depends on:
  - `parseFloat` over the digit/point/sign subset, and the `|| default` idiom;
  - ASCII `toLowerCase`, `includes`, and the two regular expressions of the problem rubric;
  - `split` on one character, and `filter(Boolean)`.
- `types.dfy` (`DeckTypes`): the deck records, the industry market-size table, stages, revenue models, the stage growth rate, and the suffix choice of `formatCurrency`.
- `scoring.dfy` (`Scoring`): the rubric. There is one specification function per dimension. `ScoreDeck` is the step-by-step scorer, made of one method per block plus the tally loop, and it is proved equal to `Report`.
- `storage.dfy` (`Storage`): the two storage slots as a class whose methods overwrite them. Pure functions give the list semantics of upsert and delete.
- `templates.dfy` (`Templates`): the six templates as constants, with the lookup by id.
- `examples.dfy` (`ExampleDeck`): the figures an example deck shows, and the copy of a template into the saved decks.
- `wizard.dfy` (`CreateWizard`): the creation wizard. It is a class holding the step, the form, the editing flag and the shared store, with the load effect, field updates, the step buttons and deck generation.

Clocks and random ids are not read by the model. Each operation that needs
them takes the current time `now` and a fresh id `freshId` as parameters.

## Model

| member | source | states |
|---|---|---|
| Text.ParseNum | src/lib/scoring.ts:196-198 | `parseFloat` skips leading white space, reads an optional `+` or `-` sign, then digits with an optional fraction; a text containing no digit is NaN (`None`) |
| Text.ParseNumUnsigned | src/lib/scoring.ts:196-198 | text that starts with neither white space nor a sign reads as its unsigned prefix |
| Text.ParseNumPrefix | src/lib/scoring.ts:196-198 | digits followed by anything other than a digit or a point read as the digits' value; the rest ("k", "%", " users") is ignored |
| Text.ParseNumFraction | src/lib/scoring.ts:196-198 | digits, a point and digits, followed by a non-digit, read as the integer part plus the fraction; either side of the point may be empty, but not both |
| Text.ParseNumSkipsSpace | src/lib/scoring.ts:196-198 | a white-space character in front of the text does not change what it reads as |
| Text.ParseNumMinus | src/lib/scoring.ts:196-198 | a leading `-` negates what the rest reads as, and NaN stays NaN |
| Text.ParseNumPlus | src/lib/scoring.ts:196-198 | a leading `+` does not change what the rest reads as |
| Text.ParseNumNotANumber | src/lib/scoring.ts:196-198 | text whose first character is not white space, a digit, a point or a sign is NaN whatever follows ("$500") |
| Text.OrDefault | src/lib/scoring.ts:196-198 | `x \|\| d` keeps every parsed non-zero value, negative ones included; NaN and 0 give way to `d`; a non-zero default never yields 0 |
| Text.ParseDigits | src/lib/scoring.ts:196-198 | a non-empty run of digits parses to its decimal value |
| Text.ParseNegativeDigits | src/lib/scoring.ts:196-198 | a minus sign before a run of digits negates the value |
| Text.ParseDecimal | src/lib/scoring.ts:196-198 | `parseFloat` reads back the decimal rendering of every natural number |
| Text.DecimalValue | src/app/examples/page.tsx:35 | the decimal rendering used for the year labels denotes the number rendered |
| Text.Lower | src/lib/scoring.ts:81 | `toLowerCase` keeps the length and lowers each ASCII capital |
| Text.ContainsLowered | src/lib/scoring.ts:116 | a lower-case keyword occurring anywhere in the text is found by `toLowerCase().includes` |
| Text.HasPercent | src/lib/scoring.ts:81 | the left-to-right scan for `/\d+%/` matches exactly when some digit is directly followed by `%` |
| Text.HasDollarAmount | src/lib/scoring.ts:81 | the left-to-right scan for `/\$[\d,]+/` matches exactly when some `$` is directly followed by a digit or a comma |
| Text.Split | src/lib/scoring.ts:172 | `split('\n')` yields at least one piece, and no piece contains the separator |
| Text.JoinSplit | src/lib/scoring.ts:172 | splitting loses nothing: joining the pieces with the separator gives back the text |
| Text.SplitAfter | src/lib/scoring.ts:172 | a separator-free text followed by the separator becomes its own piece before the rest |
| Text.SplitWithout | src/lib/scoring.ts:172 | a text without the separator splits into itself alone |
| Text.NonEmpty | src/lib/scoring.ts:172 | `filter(Boolean)` keeps exactly the non-empty pieces: each kept piece is non-empty and comes from the input, and every non-empty input piece is kept |
| Text.NonEmptyAll | src/lib/scoring.ts:172 | filtering pieces that are all non-empty keeps every piece, in order |
| Text.NonEmptyOne | src/lib/scoring.ts:172 | a single piece is kept exactly when it is non-empty |
| Text.NonEmptyConcat | src/lib/scoring.ts:172 | filtering distributes over concatenation, so the kept pieces stay in their input order |
| DeckTypes.FindTam | src/lib/types.ts:35-50 | `INDUSTRIES[name]` is undefined exactly when no row has that name, and otherwise comes from a row with that name |
| DeckTypes.IndustryNamesDistinct | src/lib/types.ts:35-50 | the table has exactly fourteen rows, with distinct names |
| DeckTypes.IndustryTamBounds | src/lib/types.ts:35-50 | every market size is positive, and every row except "Real Estate Tech" is at least 100 billion |
| DeckTypes.IndustryTamOfRow | src/lib/types.ts:35-50 | with distinct names, looking up a row's name yields that row's market size |
| DeckTypes.IndustryTamValues | src/lib/types.ts:44-49 | "Other" maps to 100 billion and "Real Estate Tech" to 90 billion |
| DeckTypes.EnumerationsDistinct | src/lib/types.ts:52-63 | four distinct stages and eight distinct revenue models |
| DeckTypes.GrowthRate | src/lib/types.ts:65-73 | the rate is between 1.5 and 3 for every input, and is 2 for any text that is not a listed stage |
| DeckTypes.GrowthRateDecreasing | src/lib/types.ts:52-73 | the rates for Pre-seed, Seed, Series A and Growth are 3, 2.5, 2 and 1.5, strictly decreasing along `STAGES` |
| DeckTypes.CurrencyScale | src/lib/types.ts:75-80 | the first threshold met (1e12, 1e9, 1e6, 1e3) picks the suffix; the scaled amount is at least 1 and, below 1e15, under 1000; no suffix exactly below 1000 |
| DeckTypes.CurrencyScaleMonotone | src/lib/types.ts:75-80 | a larger amount never gets a smaller suffix |
| Scoring.RatioAtLeast | src/lib/scoring.ts:20 | comparing `score / max` with a cut-off is comparing the score with that share of the maximum |
| Scoring.GetStatus | src/lib/scoring.ts:19-25 | excellent iff score/max is at least 0.8; good iff in [0.6, 0.8); needs-work iff in [0.3, 0.6); missing iff below 0.3 |
| Scoring.GetGrade | src/lib/scoring.ts:27-39 | the grade is one of the eleven letters |
| Scoring.GetGradeByTable | src/lib/scoring.ts:27-39 | the grade is the one whose cut-off is the first met in 0.9, 0.85, ..., 0.4, and "F" when none is |
| Scoring.GradeBandMonotone | src/lib/scoring.ts:27-39 | a larger share meets a cut-off no later in the table |
| Scoring.GradeMonotone | src/lib/scoring.ts:27-39 | a larger share never earns a grade listed after the smaller share's grade |
| Scoring.SummaryFor | src/lib/scoring.ts:251-255 | investor-ready iff pct is at least 0.8; good foundation iff pct is in [0.6, 0.8); decent start iff in [0.4, 0.6); early stage iff below 0.4 |
| Scoring.Num | src/lib/scoring.ts:196-198 | `parseFloat(x)` falling back to 0: the parsed value whenever there is one, and 0 for NaN |
| Scoring.CompetitorCount | src/lib/scoring.ts:172 | at most the number of lines, and zero exactly when every line is empty |
| Scoring.CompetitorLines | src/lib/scoring.ts:172 | a first line counts once when it is non-empty, and the lines after it are counted on their own |
| Scoring.CompetitorBlankLine | src/lib/scoring.ts:172 | a blank line between two names is not counted: "A\n\nB" lists two competitors |
| Scoring.RaisedFunding | src/lib/scoring.ts:220 | `parseFloat(fundingRaised) > 0` holds exactly when the field's `or 0` reading is positive, so NaN counts as no funding |
| Scoring.MakeDimension | src/lib/scoring.ts:62 | a dimension record carries its rubric name, its fixed maximum and `getStatus(score, max)` |
| Scoring.CompanyIdentity | src/lib/scoring.ts:45-63 | within 0..15 with its status; 15 iff name has at least 2 characters, one-liner at least 10, industry and stage non-empty; no tips iff also the one-liner is at most 80 |
| Scoring.ProblemDefinition | src/lib/scoring.ts:66-88 | within 0..15; 15 iff at least 150 characters and a quantitative signal ("million", "billion", `\d+%` or `\$[\d,]+`); no tips iff at least 50 characters with a signal |
| Scoring.ProblemScoreMonotone | src/lib/scoring.ts:69-85 | a longer problem text that keeps its figures never scores lower |
| Scoring.SolutionClarity | src/lib/scoring.ts:91-121 | within 0..15; 15 iff solution at least 150, advantage at least 20, and the lowered solution contains "ai", "automat" or "platform"; no tips iff solution at least 50 and advantage at least 20 |
| Scoring.MarketOpportunity | src/lib/scoring.ts:124-143 | within 0..10; 10 iff the industry is a table key with at least 100 billion and the target customer has at least 10 characters; no tips iff a key and at least 10 characters |
| Scoring.BusinessModel | src/lib/scoring.ts:146-166 | within 0..10; 10 iff no tips iff a revenue model is chosen and pricing and channels have at least 5 characters |
| Scoring.CompetitivePositioning | src/lib/scoring.ts:169-190 | within 0..10; 10 iff no tips iff at least three non-empty competitor lines (untrimmed) and an advantage of at least 20 characters |
| Scoring.TractionTeam | src/lib/scoring.ts:193-223 | within 0..15; 15 iff revenue at least 10000, users above 0, team at least 2 and funding raised above 0; no tips iff revenue or users above 0 and team at least 2 |
| Scoring.TheAsk | src/lib/scoring.ts:226-244 | within 0..10; 10 iff 100000 <= ask <= 10000000 and the revenue text is non-empty (so "0" earns the bonus); no tips iff the ask is in that range |
| Scoring.Dimensions | src/lib/scoring.ts:41-244 | exactly eight dimensions, one per rubric block |
| Scoring.DimensionsWellFormed | src/lib/scoring.ts:62-243 | every deck gets the eight dimensions in rubric order, with maxima 15, 15, 15, 10, 10, 10, 15, 10, scores within them, and statuses from `getStatus` |
| Scoring.SumWithinMax | src/lib/scoring.ts:246-247 | scores within their maxima total between 0 and the sum of the maxima |
| Scoring.MaxTotalIsHundred | src/lib/scoring.ts:247 | the rubric's maxima sum to 100 |
| Scoring.ReportOf | src/lib/scoring.ts:246-257 | total is the sum of the scores; maxTotal is 100; 0 <= total <= 100; the grade is `getGrade` and the summary the band of total/100; "A+" iff total >= 90; "F" iff below 40; investor-ready iff at least 80; good foundation iff 60..79; decent start iff 40..59; early-stage iff below 40 |
| Scoring.Report | src/lib/scoring.ts:41-258 | the report of a deck has its eight rubric dimensions, maxTotal 100 and a total within 0..100 |
| Scoring.SumAtMax | src/lib/scoring.ts:246-247 | scores within their maxima reach the sum of the maxima exactly when every score is at its maximum |
| Scoring.RubricAtMax | src/lib/scoring.ts:246-247 | a rubric-shaped list totals 100 exactly when each dimension has its full maximum |
| Scoring.AllAtMax | src/lib/scoring.ts:45-244 | all eight dimensions are at their maxima exactly when every block's full-marks condition holds |
| Scoring.PerfectScore | src/lib/scoring.ts:41-258 | a deck totals 100 iff every block's full-marks condition holds; such a deck is graded "A+" and called investor-ready |
| Scoring.IdentityBlock | src/lib/scoring.ts:45-63 | the block's `+=`/`push` sequence yields exactly `CompanyIdentity` |
| Scoring.ProblemBlock | src/lib/scoring.ts:66-88 | the block's statement sequence yields exactly `ProblemDefinition` |
| Scoring.SolutionBlock | src/lib/scoring.ts:91-121 | the block's statement sequence yields exactly `SolutionClarity` |
| Scoring.MarketBlock | src/lib/scoring.ts:124-143 | the block's statement sequence yields exactly `MarketOpportunity` |
| Scoring.BusinessModelBlock | src/lib/scoring.ts:146-166 | the block's statement sequence yields exactly `BusinessModel` |
| Scoring.CompetitionBlock | src/lib/scoring.ts:169-190 | the block's statement sequence yields exactly `CompetitivePositioning` |
| Scoring.TractionBlock | src/lib/scoring.ts:193-223 | the block's statement sequence yields exactly `TractionTeam`, with "raised" meaning the parse is a number above 0 |
| Scoring.AskBlock | src/lib/scoring.ts:226-244 | the block's statement sequence yields exactly `TheAsk` |
| Scoring.Tally | src/lib/scoring.ts:246-247 | the two `reduce` loops compute the sum of the scores and the sum of the maxima |
| Scoring.Summarize | src/lib/scoring.ts:246-257 | total, maxTotal, grade and summary computed from the dimensions are exactly `ReportOf` |
| Scoring.CollectDimensions | src/lib/scoring.ts:42-244 | running the eight blocks in order builds `Dimensions(deck)` |
| Scoring.ScoreDeck | src/lib/scoring.ts:41-258 | `scoreDeck` returns `Report(deck)`: eight dimensions, maxTotal 100, total within 0..100 |
| Storage.IndexOf | src/lib/storage.ts:21 | `findIndex` is the first position holding the id, and -1 exactly when no deck has it |
| Storage.Find | src/lib/storage.ts:16 | `find(...) \|\| null` is `None` exactly when no deck has the id, and otherwise a stored deck with that id |
| Storage.Upsert | src/lib/storage.ts:21-24 | the saved deck is in the result, and the length grows by at most one |
| Storage.UpsertReplaces | src/lib/storage.ts:21-23 | when the id is stored at `i`, the length is unchanged, slot `i` holds the deck and every other slot is unchanged |
| Storage.UpsertAppends | src/lib/storage.ts:21-24 | when the id is absent, the deck is appended after the unchanged earlier entries |
| Storage.FindAfterUpsert | src/lib/storage.ts:14-25 | after saving, looking up the deck's id yields that deck |
| Storage.FindOtherAfterUpsert | src/lib/storage.ts:14-25 | saving a deck does not change what any other id finds |
| Storage.UpsertKeepsDistinct | src/lib/storage.ts:19-25 | distinct stored ids stay distinct after saving |
| Storage.UpsertIdempotent | src/lib/storage.ts:19-25 | saving the same deck twice stores what saving it once stores |
| Storage.RemoveId | src/lib/storage.ts:29 | `filter` keeps only decks with other ids, each taken from the input |
| Storage.RemoveIdConcat | src/lib/storage.ts:29 | filtering distributes over concatenation, so survivors keep their order |
| Storage.RemoveAbsent | src/lib/storage.ts:28-31 | deleting an id that is not stored changes nothing |
| Storage.RemoveIdempotent | src/lib/storage.ts:28-31 | deleting twice is deleting once |
| Storage.RemoveKeepsOthers | src/lib/storage.ts:29 | a deck survives deletion exactly when it was stored and has another id |
| Storage.FindCons | src/lib/storage.ts:16 | a lookup either stops at the first deck or continues with the rest |
| Storage.FindAfterRemove | src/lib/storage.ts:14-31 | after deleting an id, `getDeck` of it is null |
| Storage.FindOtherAfterRemove | src/lib/storage.ts:14-31 | deleting one id does not change what any other id finds |
| Storage.DeckStore.constructor | src/lib/storage.ts:5-6 | both slots start empty |
| Storage.DeckStore.GetAllDecks | src/lib/storage.ts:8-12 | an absent slot reads as the empty list, and a present one as its contents |
| Storage.DeckStore.GetDeck | src/lib/storage.ts:14-17 | the first stored deck with the id, or null exactly when none has it |
| Storage.DeckStore.SaveDeck | src/lib/storage.ts:19-26 | the deck is stamped with `now`, keeping its id, creation time and fields; the list becomes the upsert; the draft is untouched; `getDeck(id)` then yields it |
| Storage.DeckStore.DeleteDeck | src/lib/storage.ts:28-31 | the list becomes the filtered list; the draft is untouched; the id is no longer found |
| Storage.DeckStore.SaveDraft | src/lib/storage.ts:33-35 | the draft slot is overwritten unconditionally; the decks are untouched |
| Storage.DeckStore.GetDraft | src/lib/storage.ts:37-41 | the last saved draft, or null when none is kept |
| Storage.DeckStore.ClearDraft | src/lib/storage.ts:43-45 | the draft slot is emptied, so `getDraft` then yields null; the decks are untouched |
| Templates.FindTemplate | src/lib/templates.ts:244-246 | `find` yields undefined exactly when no template has the id, and otherwise a template with that id |
| Templates.GetTemplate | src/lib/templates.ts:244-246 | `getTemplate` is undefined exactly when no template has the id, and otherwise returns a template with that id |
| Templates.TemplateIdsDistinct | src/lib/templates.ts:13-242 | there are six templates with distinct ids |
| Templates.FindTemplateOfRow | src/lib/templates.ts:244-246 | with distinct ids, a template's own id finds that template |
| Templates.GetTemplateOfEach | src/lib/templates.ts:244-246 | `getTemplate` of each template's id returns that template |
| Templates.TemplateIndustriesKnown | src/lib/templates.ts:13-242 | every template's industry is a key of the industry table |
| Templates.TemplateStagesListed | src/lib/templates.ts:13-242 | every template's stage is one of the four stages |
| Templates.TemplateRevenueModelsListed | src/lib/templates.ts:13-242 | every template's revenue model is one of the eight models |
| Templates.SplitFour | src/lib/templates.ts:36 | four names without line breaks, joined by line breaks, split back into those four names |
| Templates.FourLines | src/lib/templates.ts:36 | four non-empty names, one per line, count as four competitors |
| Templates.SaasB2bCompetitors | src/lib/templates.ts:36 | the SaaS template lists four competitors |
| Templates.FintechPaymentsCompetitors | src/lib/templates.ts:74 | the fintech template lists four competitors |
| Templates.AiMlCompetitors | src/lib/templates.ts:112 | the AI template lists four competitors |
| Templates.MarketplaceCompetitors | src/lib/templates.ts:150 | the marketplace template lists four competitors |
| Templates.ClimateTechCompetitors | src/lib/templates.ts:188 | the climate template lists four competitors |
| Templates.EdtechCompetitors | src/lib/templates.ts:226 | the edtech template lists four competitors |
| Templates.TemplateCompetitors | src/lib/templates.ts:13-242 | every template lists exactly four newline-separated competitors |
| ExampleDeck.Tam | src/app/examples/page.tsx:23 | TAM is positive: the table's entry for a key with a non-zero entry, and 100 billion for any other industry |
| ExampleDeck.Sam | src/app/examples/page.tsx:24 | SAM is positive and below TAM |
| ExampleDeck.Som | src/app/examples/page.tsx:25 | SOM is positive and below SAM |
| ExampleDeck.MarketFunnel | src/app/examples/page.tsx:23-25 | 0 < SOM <= SAM <= TAM, with SOM one thousandth of TAM |
| ExampleDeck.BaseRevenue | src/app/examples/page.tsx:33 | the base revenue is never 0 |
| ExampleDeck.BaseRevenueChain | src/app/examples/page.tsx:33 | the base is the parsed revenue when that is a non-zero number, else 120 per parsed user when non-zero, else 10000 |
| ExampleDeck.RealPow | src/app/examples/page.tsx:36 | a power of a rate of at least 1 is at least 1 |
| ExampleDeck.Round | src/app/examples/page.tsx:36 | `Math.round` lands within half a unit, with halves rounding up |
| ExampleDeck.YearLabel | src/app/examples/page.tsx:35 | the label is "Y" followed by the decimal year number |
| ExampleDeck.Projections | src/app/examples/page.tsx:34-37 | five years, labelled by year number, the first being the unrounded base |
| ExampleDeck.ProjectionRevenue | src/app/examples/page.tsx:34-37 | year `i + 1` is the base compounded `i` times at the stage's rate (rounded after the first year) |
| ExampleDeck.YearLabels | src/app/examples/page.tsx:35 | the labels are "Y1" to "Y5" |
| ExampleDeck.FundingAskShown | src/app/examples/page.tsx:39 | the shown ask is the parsed ask when that is a non-zero number, else 500000 |
| ExampleDeck.RealPowGrows | src/app/examples/page.tsx:36 | powers of a rate of at least 1 grow with the exponent |
| ExampleDeck.RoundMonotone | src/app/examples/page.tsx:36 | rounding preserves order |
| ExampleDeck.ProjectionStep | src/app/examples/page.tsx:36 | from year 2 on, each year's rounded revenue is at least the one before, for a positive base |
| ExampleDeck.FirstYearStep | src/app/examples/page.tsx:36 | with a base of at least 1 and every listed rate, year 2 is at least year 1 |
| ExampleDeck.ProjectionsGrow | src/app/examples/page.tsx:33-37 | with a positive base the projection never falls from year 2 to year 5, and with a base of at least 1 it never falls at all |
| ExampleDeck.EmptyFigures | src/app/examples/page.tsx:33-37 | empty revenue and users give Y1 = 10000 whatever the stage |
| ExampleDeck.UsersOnlyBase | src/app/examples/page.tsx:33 | no revenue and 500 users give a base of 60000 |
| ExampleDeck.SeedThirdYear | src/app/examples/page.tsx:33-37 | a Seed deck with revenue "100000" projects 625000 for Y3 |
| ExampleDeck.CloneAsNew | src/app/examples/page.tsx:132-137 | the saved copy has the template's step data, the fresh id, and `now` for both timestamps; it is upserted into the decks, the draft is untouched, and its id then finds it |
| CreateWizard.Set | src/app/create/page.tsx:55-57 | an update replaces only the addressed step record; every other step record of `prev` is kept |
| CreateWizard.GetSet | src/app/create/page.tsx:55-57 | reading back a field just updated gives the new value |
| CreateWizard.GetSetOther | src/app/create/page.tsx:55-57 | updating one field of one step leaves every other field of every step unchanged |
| CreateWizard.SetGet | src/app/create/page.tsx:55-57 | writing a field's own value back changes nothing |
| CreateWizard.SetSet | src/app/create/page.tsx:55-57 | a second update of the same field overrides the first |
| CreateWizard.FieldsDetermineForm | src/app/create/page.tsx:9-15 | the eighteen fields determine the form, so the two lemmas above pin down the updated form |
| CreateWizard.EmptyDeckIsEmpty | src/app/create/page.tsx:9-15 | every field of the starting form is empty |
| CreateWizard.ToDraft | src/app/create/page.tsx:51-53 | the draft written from the form has all five steps |
| CreateWizard.Restore | src/app/create/page.tsx:47-48 | saving the restored form writes back the same draft exactly when the draft has all five steps |
| CreateWizard.RestoreToDraft | src/app/create/page.tsx:47-53 | restoring a draft written from a form gives back that form |
| CreateWizard.LoadResult | src/app/create/page.tsx:35-49 | editing turns on iff an `edit` id is given and names a stored deck, whose fields are then loaded; with neither such a deck nor a draft holding step 1, the form and flag stay as they were |
| CreateWizard.ResumeDraft | src/app/create/page.tsx:35-53 | reopening the wizard with no deck to edit resumes exactly the form the draft was written from |
| CreateWizard.EditSavedDeck | src/app/create/page.tsx:35-44 | opening a just-saved deck for editing loads exactly its fields and sets the editing flag, whatever the draft |
| CreateWizard.NextStep | src/app/create/page.tsx:59-61 | "Continue" below step 4 moves to a step in 1..4 |
| CreateWizard.BackStep | src/app/create/page.tsx:236 | "Back" is one step back, but never below step 0 |
| CreateWizard.BackUndoesNext | src/app/create/page.tsx:59-61 | "Back" after "Continue" returns to the same step |
| CreateWizard.NextUndoesBack | src/app/create/page.tsx:236 | "Continue" after "Back" from a step above 0 returns to the same step |
| CreateWizard.GeneratedDeck | src/app/create/page.tsx:64-72 | the deck has the form's fields and `now` as update time; when editing its id is `editId` and its creation time the stored one (or `now` when absent or empty); otherwise a fresh id created `now` |
| CreateWizard.EditKeepsIdentity | src/app/create/page.tsx:64-73 | saving an edit keeps the list's length, and the id then finds the edited fields with the original creation time |
| CreateWizard.NewDeckAppends | src/app/create/page.tsx:64-73 | generating a new deck under an unused id appends it to the stored decks |
| CreateWizard.Wizard.constructor | src/app/create/page.tsx:28-33 | the wizard starts at step 0 with the empty form, not editing |
| CreateWizard.Wizard.SaveForm | src/app/create/page.tsx:51-53 | the form is written to the draft slot; the decks are untouched |
| CreateWizard.Wizard.Load | src/app/create/page.tsx:35-53 | the form and flag become `LoadResult` of the stored decks and the draft as they were before; the step is kept; the draft then holds the form |
| CreateWizard.Wizard.Update | src/app/create/page.tsx:55-57 | only the addressed field changes; the step and flag are kept; the draft holds the new form |
| CreateWizard.Wizard.Back | src/app/create/page.tsx:236 | the step becomes `max(0, step - 1)` and stays in 0..4; the form is kept |
| CreateWizard.Wizard.Generate | src/app/create/page.tsx:64-75 | the saved deck is `GeneratedDeck` of the stored decks; it is upserted and then found by its id; the draft is cleared |
| CreateWizard.Wizard.Next | src/app/create/page.tsx:59-62 | below step 4 the step advances and the store is untouched; at step 4 the step stays and the deck is generated and saved, with the draft cleared |

## Left out

- Number parsing: `parseFloat` exponents, `Infinity` and non-ASCII white space are not modelled. `ParseNum` reads only an optional `+` or `-` sign, digits and one decimal point.
- Text.Lower: lowers only the ASCII letters `A`-`Z`. `toLowerCase` also lowers non-ASCII letters, and a few of them change length.
- String lengths are counted in Dafny characters. JavaScript counts UTF-16 code units, which differs for characters outside the Basic Multilingual Plane.
- Real arithmetic is exact. The IEEE double rounding of `/`, `Math.pow` and `Math.round` is not modelled, and neither are the `toFixed` digits of `formatCurrency`; only its suffix choice is.
- Corrupt storage payloads: the source's `JSON.parse` throws on them, and nothing catches the exception. The model has no corrupt state at all.
- The `typeof window === 'undefined'` server-side guard of `getAllDecks` and `getDraft` is not modelled. The model always runs in the browser.
- Storage.DeckStore.SaveDeck: the source also writes `updatedAt` into the caller's own object. Values have no aliasing, so the model returns the stamped deck instead.
- `crypto.randomUUID()` and `new Date()` become the parameters `freshId` and `now`. The separate clock reads in `cloneAsNew` and between `generate` and `saveDeck` are modelled as a single instant.
- CreateWizard.Restore: a restored draft that lacks steps 2-5 has those steps filled from the empty form. In the source they would be `undefined`, and the form would fail when it renders them.
- CreateWizard.Wizard.Load: the draft is written once, with the final form. The source first writes the initial empty form on mount and then writes again after the state change; both end in the same stored draft.
- CreateWizard.FieldKey: only the eighteen `(stepKey, field)` pairs that the form's inputs use are modelled. An arbitrary key would add a new property in JavaScript.
- The wizard's `editId` is a string, and the empty string stands for an absent `edit` parameter. Both are falsy in the two places the source tests it.
- Rendering is not modelled: JSX, charts, slide navigation, the progress bar and `router.push` after saving.
- Pages outside the core are not part of this model: the dashboard, the templates gallery (its `useTemplate` duplicates `cloneAsNew`), the landing page, pricing and blog pages, and the deck view/present/export/score pages.
- Lookups of prototype keys such as `INDUSTRIES['toString']` are not modelled. The industry table is a 14-row map.
- ExampleDeck.ProjectionsGrow: year 2 is at least year 1 only for a base of at least 1. For a tiny positive base, rounding can bring year 2 down to 0.
- Text.ParseDecimal: proves the read-back for natural numbers only; negative values and fractions are covered by `ParseNegativeDigits` and not by a general round trip.
- The template records' name, category, description, icon and colour are carried as data, and nothing is proved about them.
