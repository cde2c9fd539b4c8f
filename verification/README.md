# startup-helper-mcp core, modelled in Dafny

This project models three tools of the startup-helper MCP server, together with the reference data they rely on:

- **Break-even calculator** (`analyzeBreakeven`). For a business type, a region, optional overrides and a shop size, it computes:
  - the fixed-cost breakdown;
  - break-even monthly and daily sales;
  - the daily customers needed, and the achievability tier (쉬움 / 보통 / 어려움) that follows from them;
  - the pessimistic, realistic and optimistic scenarios;
  - the payback period;
  - the ordered list of insights.
- **Policy-fund matcher** (`recommendPolicyFunds`). It uses the pure parts of the 기업마당 (bizinfo) listing client:
  - HTML stripping;
  - application-period formatting;
  - construction of the query;
  - the error checks on the credential and on the response.

  The matcher turns listing records into funds: type, amount, requirements, deadline and description. It filters them by the region named in the fund title, cuts the list to ten and picks a tip.
- **Population insight rules** (`analyzePopulation`). It resolves an area from the table of known districts or from the geocoder. It then computes the optional business-fit score and fires the twelve threshold rules that give the ordered insights.

Modules follow the source files:

| module | models |
|---|---|
| `StartupCostData` | `src/data/startup-cost-data.ts`: the tables and the two normalisers |
| `BreakevenData` | `src/data/breakeven-data.ts` |
| `Breakeven` | `src/tools/breakeven.ts` |
| `BizinfoApi` | `src/api/bizinfo-api.ts` |
| `PolicyFunds` | `src/tools/policy-funds.ts` |
| `Population` | `src/tools/population.ts` |

Helper modules:

| module | purpose |
|---|---|
| `Wrappers` | `Option` and `Result` |
| `Envelope` | the `{ success: false, error }` record |
| `JsMath` | `Math.round` and `Math.ceil` on exact reals |
| `Text` | `includes`, `split`, `join`, `trim`, the `\s` class, `String(n)` |
| `Keywords` | the "first keyword rule that fires wins" tables that both normalisers are written as |

A call to code outside the core is a parameter of the model:

- **HTTP fetch**: a function from query parameters to a `Reply`. The reply is either a response (ok flag, status, decoded body) or a raised exception.
- **API key**: a string argument.
- **Currency regex**: a function that returns the first match, if any.
- **Startup-cost estimate**: an optional number.
- **Population data lookups**: a `PopulationEnv` record. It holds:
  - the known-district table;
  - the geocoder;
  - the district-type inference and the pattern table;
  - the set of types with a fit profile;
  - the fit score.

JavaScript falsiness is modelled exactly where the source relies on it:

- an override of 0 counts as absent;
- an empty string counts as absent.

`toLowerCase` is the identity in the model. Every keyword the source compares against is Hangul, so lower-casing never changes whether a Hangul keyword occurs.

Facts about the code that the model makes explicit:

- The region filter looks only at the fund title. It does not look at the organisation. It compares against the user's raw region text, not a normalised region.
- The filter has a single stage, and it is applied even when it empties the result.
- The founder type is not used by the filter at all. It only affects the search hashtags and the tip.
- The scenarios are strictly ordered for every input with a non-negative size and rent override. Pessimistic is below realistic, and realistic is below optimistic, in sales and in profit. This rests on the benchmark table: every row has other fixed costs of at least 25 and a variable ratio of at most 0.75.
- The unknown-business-type branch of `analyzeBreakeven` is dead code. The normaliser returns only keys of the benchmark table, so the model shows the calculator always succeeds.
- `normalizeBusinessTypeForBreakeven("스터디카페")` is `"카페"`, because the cafe rule is tried first. The 스터디카페 benchmark is reached only through words such as 스터디 or 독서실 that do not contain 카페 or 커피.

## Model

| member | source | states |
|---|---|---|
| JsMath.Round | src/tools/breakeven.ts:68 | `Math.round`: the result is the integer within half a unit of the argument, with halves rounded up |
| JsMath.Ceil | src/tools/breakeven.ts:110 | `Math.ceil`: the least integer not below the argument |
| JsMath.CeilDivision | src/tools/breakeven.ts:110 | the ceiling of a/b for b > 0 is the least count of b's that reaches a |
| Keywords.FirstMatch | src/data/startup-cost-data.ts:174-196 | a rule chain returns the key of some rule or the default; when no rule fires, it returns the default |
| Keywords.FirstMatchFirstHit | src/data/startup-cost-data.ts:174-196 | the first rule that fires decides the key, whatever later rules say |
| Text.Split | src/api/bizinfo-api.ts:139 | `split` on one character: at least one piece, no piece contains the separator, and joining the pieces with it gives the input back |
| Text.SplitJoin | src/api/bizinfo-api.ts:139 | splitting joined separator-free pieces returns exactly those pieces |
| Text.SplitCount | src/api/bizinfo-api.ts:140 | there is one more piece than there are separators, so "two parts" means "exactly one '~'" |
| Text.Trim | src/api/bizinfo-api.ts:139 | `trim` returns a contiguous slice of the input that neither starts nor ends with white space |
| Text.TrimDropsSpace | src/api/bizinfo-api.ts:139 | everything `trim` removes, on either side, is white space |
| Text.DigitsRoundTrip | src/api/bizinfo-api.ts:88 | the decimal text of a status code reads back as that number |
| Text.IntToString | src/api/bizinfo-api.ts:88 | `String(n)` is non-empty, starts with '-' exactly for negative n, and the rest is decimal digits without a leading zero whose value is the absolute value of n |
| StartupCostData.NormalizeBusinessType | src/data/startup-cost-data.ts:174-196 | always a key of the cost table; 카페 when no keyword occurs |
| StartupCostData.NormalizeRegion | src/data/startup-cost-data.ts:199-219 | always a key of the regional table; 지방 when no keyword occurs |
| StartupCostData.GangnamBeforeSeoul | src/data/startup-cost-data.ts:202 | any text mentioning 강남 is 서울 강남, even if it also says 서울 or another city |
| StartupCostData.HongdaeAliases | src/data/startup-cost-data.ts:203-204 | 합정 and 연남 are aliases of 서울 홍대 unless 강남 occurs |
| StartupCostData.MyeongdongAlias | src/data/startup-cost-data.ts:205 | 을지로 is 서울 명동 unless an earlier rule fires |
| StartupCostData.GyeonggiAliases | src/data/startup-cost-data.ts:207-208 | 수원 and 성남 are 경기 unless an earlier Seoul rule fires |
| StartupCostData.SeoulGangnamGu | src/data/startup-cost-data.ts:202 | "서울 강남구" is 서울 강남 |
| StartupCostData.SeoulIsSeoul | src/data/startup-cost-data.ts:206 | "서울" alone is 서울 |
| StartupCostData.RuleKeysInCostData | src/data/startup-cost-data.ts:5-112 | every business-type rule names a row of the cost table |
| StartupCostData.RuleKeysInRegionalData | src/data/startup-cost-data.ts:115-136 | every region rule names a row of the regional table |
| StartupCostData.CostRangesOrdered | src/data/startup-cost-data.ts:5-112 | every deposit, equipment and inventory range has min ≤ max, and the interior tiers rise from basic to premium |
| BreakevenData.BenchmarksWellFormed | src/data/breakeven-data.ts:5-164 | every benchmark row has a variable ratio in [0, 1), a positive price and non-negative costs, so `1 - ratio` is never zero |
| BreakevenData.ThresholdsIncreasing | src/data/breakeven-data.ts:185-213 | the achievability thresholds, the payback tiers and the scenario multipliers are strictly increasing |
| BreakevenData.BenchmarkFloors | src/data/breakeven-data.ts:5-164 | every benchmark row has other fixed costs of at least 25 and a variable ratio of at most 0.75 |
| BreakevenData.RuleKeysInBenchmarks | src/data/breakeven-data.ts:255-277 | every rule of the calculator's normaliser names a benchmark row |
| BreakevenData.NormalizeBusinessTypeForBreakeven | src/data/breakeven-data.ts:255-277 | the result is always a benchmark key; 카페 when no keyword occurs |
| BreakevenData.NormalisersAgree | src/data/breakeven-data.ts:255-277 | the calculator's normaliser equals the cost estimator's on every input |
| BreakevenData.StudyCafeIsCafe | src/data/breakeven-data.ts:258-271 | "스터디카페" normalises to 카페 because the cafe rule comes first |
| BreakevenData.RentMultiplierCoversRegions | src/data/breakeven-data.ts:167-182 | every region the region normaliser can return has a non-zero rent multiplier, so the 0.5 fallback never applies |
| BreakevenData.RegionTablesAgree | src/data/breakeven-data.ts:167-182 | the rent table and the regional cost table list the same regions |
| BreakevenData.RentMultipliersPositive | src/data/breakeven-data.ts:167-182 | every rent multiplier is positive |
| Breakeven.RentMultiplier | src/tools/breakeven.ts:44 | the multiplier is positive; it is the table value for every region in the table and 0.5 for every region outside it |
| Breakeven.CalculatedRent | src/tools/breakeven.ts:47 | a non-zero rent override wins; otherwise the rent is within half a unit of rent per pyeong × size × multiplier |
| Breakeven.Breakdown | src/tools/breakeven.ts:47-56 | labour is wage × minimum staff; utilities are within half a unit of the 15-pyeong figure scaled by size; other costs are the benchmark's |
| Breakeven.FixedMonthly | src/tools/breakeven.ts:59 | with non-negative components the fixed total is non-negative and at least each component; removing rent, labour and utilities leaves the other costs |
| Breakeven.BreakevenSales | src/tools/breakeven.ts:68 | break-even sales are within half a unit of fixed / (1 − ratio) and never below the fixed costs |
| Breakeven.Classify | src/tools/breakeven.ts:73-80 | the three tiers split the customer count exhaustively and exclusively at 50 and 100, both inclusive |
| Breakeven.Profit | src/tools/breakeven.ts:85-86 | monthly profit is within half a unit of the exact margin sales × (1 − ratio) less the fixed costs |
| Breakeven.ScenarioAt | src/tools/breakeven.ts:83-88 | scenario sales are within half a unit of break-even sales × multiplier; profit is sales less rounded variable cost less fixed cost |
| Breakeven.ProfitMonotone | src/tools/breakeven.ts:83-88 | with a variable ratio in [0, 1], more sales never give less profit despite the rounding |
| Breakeven.ScenarioOrder | src/tools/breakeven.ts:83-94 | a larger multiplier never gives smaller sales or smaller profit |
| Breakeven.ProfitStrict | src/tools/breakeven.ts:83-88 | with a variable ratio of at most 0.75, four more units of sales always give strictly more profit, despite the rounding |
| Breakeven.ScenarioStrict | src/tools/breakeven.ts:83-94 | with break-even sales of at least 25 and multipliers at least 0.5 apart, sales grow by at least 12 and profit strictly |
| Breakeven.PaybackOf | src/tools/breakeven.ts:102-121 | no profit gives 999 months and the unrecoverable note; otherwise the least month count whose profit covers the investment, with the note tier determined by 12/24/36 months |
| Breakeven.CategoryInsights | src/tools/breakeven.ts:125 | the table's templates for a type the insight table has, and none for any other type |
| Breakeven.Insights | src/tools/breakeven.ts:124-138 | the list is the pushed messages, then the category templates, then the common ones; the pushed part is exactly payback (if over 36 months), labour (if labour exceeds rent), hard-to-reach (if 어려움), in that order |
| Breakeven.PushedInReverse | src/tools/breakeven.ts:130-138 | with all three conditions, the list starts with payback, labour, hard-to-reach, in the reverse order of the `unshift` calls |
| Breakeven.Analyze | src/tools/breakeven.ts:43-170 | every field is tied to the step that computes it: the breakdown and its total; the override price or the benchmark's; break-even sales; daily sales and customers within half a unit of monthly / 30 and daily / price × 10000; the tier of the customer count; the three scenarios; payback of the estimate, else 12 months of fixed costs, against realistic profit; the insights of the tier, labour, rent and payback |
| Breakeven.AnalyzeBreakeven | src/tools/breakeven.ts:27-41 | the calculator always succeeds with a benchmark key, a rent-table region and a ratio in [0, 1) |
| Breakeven.AnalysisOf | src/tools/breakeven.ts:27-31 | the tool's result is the analysis of the benchmark row selected by the two normalisers |
| Breakeven.CoversFixedCosts | src/tools/breakeven.ts:68 | with non-negative costs and ratio, rounded break-even sales cover the fixed costs |
| Breakeven.CostsNonNegative | src/tools/breakeven.ts:47-59 | with a non-negative size and rent override, every cost component and the fixed total are non-negative |
| Breakeven.ScenariosOrdered | src/tools/breakeven.ts:68-94 | for every business type and region, with a non-negative size and rent override, break-even sales cover fixed costs and the scenarios are strictly ordered in sales and in profit |
| Breakeven.UnprofitablePayback | src/tools/breakeven.ts:106-108 | when the realistic scenario loses money, payback is 999 months with its note, and the long-payback insight comes first |
| Breakeven.CafeInSeoul | src/tools/breakeven.ts:27-121 | a 15-pyeong cafe in Seoul: fixed costs 688, break-even 1058, 64 customers a day (보통), scenarios −206/137/550, payback 61 months |
| Breakeven.CafeFigures | src/data/breakeven-data.ts:20-31 | the cafe benchmark row gives those figures |
| BizinfoApi.RemoveTags | src/api/bizinfo-api.ts:129 | after tag removal no '<' has a '>' after it, no character is introduced, and text without '<' is returned unchanged |
| BizinfoApi.AfterFirst | src/api/bizinfo-api.ts:129 | the match of a tag ends at the first '>' after its '<' |
| BizinfoApi.RemoveTagsKeepsText | src/api/bizinfo-api.ts:129 | text without '<' in front of the rest is kept verbatim |
| BizinfoApi.RemoveTagsDropsTag | src/api/bizinfo-api.ts:129 | a tag, '<' up to the first '>', is removed whole and nothing after it is touched |
| BizinfoApi.RemoveTagsUnclosed | src/api/bizinfo-api.ts:129 | text without any '>' is returned unchanged, every '<' included |
| BizinfoApi.ReplaceNbsp | src/api/bizinfo-api.ts:130 | the replacement introduces only spaces, cannot create a tag shape, and returns text without '&' unchanged |
| BizinfoApi.ReplaceNbspKeepsText | src/api/bizinfo-api.ts:130 | text without '&' in front of the rest is kept verbatim |
| BizinfoApi.ReplaceNbspEntity | src/api/bizinfo-api.ts:130 | each "&nbsp;" becomes exactly one space |
| BizinfoApi.ReplaceNbspLoneAmpersand | src/api/bizinfo-api.ts:130 | an '&' that does not start "&nbsp;" is kept |
| BizinfoApi.ReplaceNbspAfterText | src/api/bizinfo-api.ts:130 | after text without '&', an "&nbsp;" gives the same result as a written space |
| BizinfoApi.ReplaceLeavesNoNbsp | src/api/bizinfo-api.ts:130 | after the replacement no "&nbsp;" is left, not even one glued together from pieces |
| BizinfoApi.CollapseSpaces | src/api/bizinfo-api.ts:131 | after collapsing there are no adjacent white-space characters and only plain spaces; the text is empty exactly when the input is; text without white space is returned unchanged |
| BizinfoApi.CollapseKeepsWord | src/api/bizinfo-api.ts:131 | text without white space in front of the rest is kept verbatim |
| BizinfoApi.SkipRun | src/api/bizinfo-api.ts:131 | a `\s+` match ends exactly where the run of white space ends |
| BizinfoApi.CollapseRun | src/api/bizinfo-api.ts:131 | a maximal run of white space becomes exactly one space |
| BizinfoApi.CollapseKeepsNoTag | src/api/bizinfo-api.ts:131 | collapsing white space cannot create a tag shape |
| BizinfoApi.CollapseKeepsNoNbsp | src/api/bizinfo-api.ts:131 | collapsing white space cannot create an "&nbsp;" |
| BizinfoApi.StripHtml | src/api/bizinfo-api.ts:127-133 | stripped text has no tag shape, no "&nbsp;", only single plain spaces, and no white space at either end (which texts survive is stated by the lemmas below) |
| BizinfoApi.RemoveTagsClean | src/api/bizinfo-api.ts:129 | text without a tag shape is left unchanged by tag removal |
| BizinfoApi.ReplaceNbspClean | src/api/bizinfo-api.ts:130 | text without "&nbsp;" is left unchanged by the replacement |
| BizinfoApi.CollapseClean | src/api/bizinfo-api.ts:131 | text with single plain spaces only is left unchanged by collapsing |
| BizinfoApi.StripHtmlIdempotent | src/api/bizinfo-api.ts:127-133 | stripping stripped text changes nothing |
| BizinfoApi.StripHtmlOfClean | src/api/bizinfo-api.ts:127-133 | text already clean in those five respects is returned unchanged, so the stripped texts are exactly the clean texts |
| BizinfoApi.StripHtmlDropsTag | src/api/bizinfo-api.ts:127-133 | a tag in the input is dropped and the surrounding text kept: the result is that of the input without the tag |
| BizinfoApi.StripHtmlNbspIsSpace | src/api/bizinfo-api.ts:127-133 | an "&nbsp;" in the text strips exactly like a plain space |
| BizinfoApi.FormatDate | src/api/bizinfo-api.ts:142-145 | an eight-character piece gains dots at positions 4 and 7, and removing them gives the piece back; other pieces are unchanged |
| BizinfoApi.FormatDateIdempotent | src/api/bizinfo-api.ts:142-145 | a formatted date is not formatted further |
| BizinfoApi.FormatDateRange | src/api/bizinfo-api.ts:136-148 | empty or "추후 공지" gives "추후 공지"; a text with other than exactly one '~' is returned as it is |
| BizinfoApi.FormatDateRangeOfSides | src/api/bizinfo-api.ts:139-147 | a text with one '~' gives the two trimmed sides, each formatted, around " ~ " |
| BizinfoApi.FormatDateRangeOfDates | src/api/bizinfo-api.ts:135-148 | "YYYYMMDD~YYYYMMDD" is shown as "YYYY.MM.DD ~ YYYY.MM.DD" |
| BizinfoApi.FormatDateRangeIdempotent | src/api/bizinfo-api.ts:136-148 | a formatted period is a fixed point of the formatter |
| BizinfoApi.ErrorMessage | src/api/bizinfo-api.ts:51-95 | each failure's message: the missing-key message for a missing key, the status after the request-failure prefix, the reported error after the API-error prefix, a transport message unchanged |
| BizinfoApi.StatusInMessage | src/api/bizinfo-api.ts:87-89 | the HTTP status can be read back from the failure message |
| BizinfoApi.BuildParams | src/api/bizinfo-api.ts:65-77 | the key and JSON format always; the count, or 50 when absent or zero; the category code and hashtags only when given and non-empty |
| BizinfoApi.SearchFunds | src/api/bizinfo-api.ts:58-98 | a missing key fails before any request; a raised request, a non-ok status and a reported error each fail with their own message; otherwise the listing, or an empty listing when it is absent |
| BizinfoApi.SearchSucceeds | src/api/bizinfo-api.ts:87-97 | a search succeeds exactly when there is a key and an ok response without a reported error |
| BizinfoApi.StartupHashtags | src/api/bizinfo-api.ts:107-117 | the startup hashtag text always begins with 창업 (its pieces are stated by StartupHashtagsSplit) |
| BizinfoApi.StartupHashtagsSplit | src/api/bizinfo-api.ts:107-117 | splitting the hashtag text on ',' gives 창업, then the region if given, then 청년 or 여성 for those founder types only |
| BizinfoApi.StartupOptions | src/api/bizinfo-api.ts:119-123 | a startup search asks for category 창업, the startup hashtags, and 30 results unless a non-zero count is given |
| BizinfoApi.StartupParams | src/api/bizinfo-api.ts:101-124 | the request of a startup search carries code PLD0006 and the startup hashtags |
| PolicyFunds.ClassifyFundType | src/tools/policy-funds.ts:24-34 | loan, grant and mentoring are each characterised by keywords, in priority order: loan in summary or title, then subsidy in either or voucher in the summary, then mentoring or education in the summary |
| PolicyFunds.TitleOnlyForLoanAndGrant | src/tools/policy-funds.ts:28-34 | a title alone never makes a fund mentoring: without summary cues, the fund is mixed |
| PolicyFunds.FiredLabels | src/tools/policy-funds.ts:46-50 | a requirement is listed exactly when its hashtag is among the pieces; none when no hashtag matches |
| PolicyFunds.FiredLabelsAppend | src/tools/policy-funds.ts:46-50 | labels fire in rule order: the labels of two rule lists in a row are those of the first followed by those of the second |
| PolicyFunds.FiredLabelsSingle | src/tools/policy-funds.ts:46-50 | a single rule contributes its label exactly when its tag is among the pieces |
| PolicyFunds.Requirements | src/tools/policy-funds.ts:43-56 | never empty: the fired labels then the target group, or only the fallback when both are missing |
| PolicyFunds.RequirementsExample | src/tools/policy-funds.ts:45-51 | hashtags "청년,창업기업" give [청년, 창업기업] |
| PolicyFunds.UntrimmedTagIgnored | src/tools/policy-funds.ts:45-51 | a tag after ", " keeps its leading space and is not recognised |
| PolicyFunds.Amount | src/tools/policy-funds.ts:37-41 | the first currency match, or "공고문 참조" when there is none |
| PolicyFunds.Organization | src/tools/policy-funds.ts:61 | the organisation in charge when non-empty, otherwise the executing one |
| PolicyFunds.Description | src/tools/policy-funds.ts:67 | a prefix of the stripped summary of at most 200 characters, followed by "..." |
| PolicyFunds.DescriptionClean | src/tools/policy-funds.ts:67 | the text before "..." carries no tag shape, no "&nbsp;", and single plain spaces only |
| PolicyFunds.ConvertBizinfoToFund | src/tools/policy-funds.ts:9-68 | each fund field is derived from the listing fields it names; the URL is under the bizinfo host; requirements are non-empty |
| PolicyFunds.ConvertAll | src/tools/policy-funds.ts:139 | the converted listing has the same length, and each fund is the conversion of the item at the same position |
| PolicyFunds.FindKeyword | src/tools/policy-funds.ts:85 | the first keyword in list order that occurs in the title, and none exactly when no keyword occurs |
| PolicyFunds.KeepForRegion | src/tools/policy-funds.ts:77-91 | a title naming no region is kept for every user |
| PolicyFunds.KeepDecidedByFirstKeyword | src/tools/policy-funds.ts:83-88 | a fund whose first region keyword is k is kept exactly when the user's region contains k |
| PolicyFunds.DroppedNamesOtherRegion | src/tools/policy-funds.ts:85-88 | a dropped fund names a region in its title that the user's region text does not contain |
| PolicyFunds.BusanFundDroppedInSeoul | src/tools/policy-funds.ts:83-88 | a Busan programme is dropped for a user in Seoul |
| PolicyFunds.SeoulFundKeptInGangnam | src/tools/policy-funds.ts:83-88 | a Seoul programme is kept for a user in "서울 강남" |
| PolicyFunds.FilterByUserConditions | src/tools/policy-funds.ts:72-92 | the filter never adds funds |
| PolicyFunds.FilterMembers | src/tools/policy-funds.ts:77-91 | a fund is in the filtered list exactly when it is in the input and qualifies for the region |
| PolicyFunds.FilterAppend | src/tools/policy-funds.ts:77-91 | filtering distributes over concatenation, so listing order is preserved |
| PolicyFunds.FilterKeepsAll | src/tools/policy-funds.ts:77-91 | when every fund qualifies, the listing passes unchanged |
| PolicyFunds.TipText | src/tools/policy-funds.ts:120 | the count tip starts with the decimal count of funds |
| PolicyFunds.AnyOfType | src/tools/policy-funds.ts:104-106 | `some` over the funds finds a type of the set exactly when some fund has one |
| PolicyFunds.HasMentoring | src/tools/policy-funds.ts:104 | true exactly when some fund is mentoring or mixed |
| PolicyFunds.HasGrant | src/tools/policy-funds.ts:105 | true exactly when some fund is a subsidy |
| PolicyFunds.HasLoan | src/tools/policy-funds.ts:106 | true exactly when some fund is a loan |
| PolicyFunds.GenerateTip | src/tools/policy-funds.ts:95-121 | each tip holds exactly when its rule is the first to apply: no funds; pre-startup with mentoring/mixed; subsidy and loan; youth; else the count |
| PolicyFunds.PreStartupTip | src/tools/policy-funds.ts:104-110 | a pre-startup founder gets the mentoring tip whenever some fund is neither a loan nor a subsidy |
| PolicyFunds.StartupSearch | src/tools/policy-funds.ts:132-136 | a missing key fails before any request; otherwise the request carries the key, JSON, 30 results, code PLD0006 and the startup hashtags with the founder label, and the search succeeds exactly on an ok reply without a reported error, with its listing |
| PolicyFunds.MatchFunds | src/tools/policy-funds.ts:139-145 | at most ten funds, a prefix of the filtered conversion, exactly ten when at least ten qualify, the whole filtered list when at most ten do, each qualifying for the region |
| PolicyFunds.RecommendPolicyFunds | src/tools/policy-funds.ts:123-179 | success exactly when the startup search succeeds; failure is POLICY_FUND_FAILED with the search's message; success echoes the profile, with the matched funds, their count and the tip |
| PolicyFunds.MissingKeyFails | src/tests/policy-funds.test.ts:24-28 | without an API key the tool fails with POLICY_FUND_FAILED and the missing-key message |
| PolicyFunds.TenOfMany | src/tools/policy-funds.ts:142-160 | when at least ten funds qualify, exactly the first ten are returned and counted |
| PolicyFunds.MatchFirstTen | src/tools/policy-funds.ts:142-145 | of ten or more kept funds, the matched ones are the first ten |
| Population.InsightAt | src/tools/population.ts:76-120 | rule k contributes the insight of rank k |
| Population.Holds | src/tools/population.ts:76-120 | the residential rule fires only when the office rule does not; the fit rules need a score; the low-fit rule fires only below both 50 and 70 |
| Population.InsightsFrom | src/tools/population.ts:76-120 | the insights of rules k onward have ranks ≥ k, strictly increasing |
| Population.InsightsFromSound | src/tools/population.ts:76-120 | every insight of rules k onward comes from a rule that fires |
| Population.InsightsFromHas | src/tools/population.ts:76-120 | the insight of rule j is present exactly when rule j fires |
| Population.Insights | src/tools/population.ts:71-120 | at most twelve insights, in rule order |
| Population.InsightsSound | src/tools/population.ts:71-120 | every reported insight comes from a rule that fires |
| Population.InsightPresent | src/tools/population.ts:71-120 | each rule's insight is present exactly when the rule fires |
| Population.AreaTypeRules | src/tools/population.ts:76-80 | office exactly when more work than live there; residential exactly when otherwise residents outnumber workers two to one; never both |
| Population.FloatingRule | src/tools/population.ts:82-84 | the floating insight exactly when floating exceeds 40% of the total |
| Population.AgeAndGenderRules | src/tools/population.ts:87-100 | each age and gender insight exactly when its strict threshold (50, 50, 55, 55) is exceeded |
| Population.TimeRules | src/tools/population.ts:103-111 | lunch, evening and night insights exactly above 25, 30 and 15 |
| Population.FitRules | src/tools/population.ts:114-120 | a score of 70 or more gives the high-fit insight, below 50 the low-fit one, each quoting the type and the score |
| Population.NoFitInsight | src/tools/population.ts:114-120 | with no score, or a score from 50 to 69, no fit insight appears |
| Population.ResolveArea | src/tools/population.ts:24-59 | a known district's record wins; otherwise the geocoded point with the inferred type's population, age, gender and time distributions and characteristics; nothing exactly when both fail |
| Population.FitOf | src/tools/population.ts:62-68 | a score exactly when a non-empty type normalises to a type with a fit profile, computed for that normalised type |
| Population.AnalyzePopulation | src/tools/population.ts:17-137 | LOCATION_NOT_FOUND exactly when the location is unknown and cannot be geocoded; otherwise the area's coordinates, population, time, age and gender distributions and characteristics, the fit and the insights |
| Population.KnownAreaNeedsNoGeocoder | src/tools/population.ts:28-30 | a known district's analysis does not depend on the geocoder |
| Population.NoBusinessTypeNoFit | src/tools/population.ts:62-68 | without a business type there is no score and no fit insight |

## Left out

- Network I/O, the timeout wrapper, URL encoding and `process.env`. The HTTP call is the `fetch` parameter and the key is an argument. A body that cannot be decoded is a raised `Reply`.
- `calculateStartupCost` is not part of this model. Its estimated total enters as `startupEstimate`, which is `None` when it fails.
- The population data helpers are parameters of `PopulationEnv`:
  - `findAreaData`, `kakaoApi.getCoordinates` (a throw is modelled as no coordinates);
  - `inferAreaType` and `AREA_TYPE_PATTERNS`;
  - `BUSINESS_TARGET_FIT` and `calculateFitScore`.

  The shared type declarations are not part of this model either. Records carry only the fields the rules read.
- The currency regex of the amount extraction is a parameter, because Dafny has no regular expressions.
- IEEE-754 floating point. Sizes, ratios and quotients are exact reals, so representation error near a rounding tie is not modelled.
- Default parameter values (`size = 15`, `radius = 500`) belong to the caller. The radius only affects the data note.
- Response metadata (`meta.source`, timestamps, data notes), `console` logging, and the `ANALYSIS_FAILED` catch branches that only an unexpected exception could reach.
- The exact wording of the population insights. They are a datatype whose constructors name the rule, and the fit insights carry the business type and the score they quote.
- String lengths and slices count UTF-16 code units in the source. The model counts characters instead. This covers `slice(0, 200)` in the description and the `length !== 8` test and the 4/6/8 slices of `formatDate`. The two counts agree on text without characters outside the Basic Multilingual Plane.
- The listing fields that the tools never read (`refrncNm`, the category names, `creatPnttm`, `totCnt`) are carried but unused.
- The founder's age in `recommendPolicyFunds` is accepted and ignored, as in the source.
- PolicyFunds.FilterByUserConditions: its contract states only that the filter never adds funds. Its membership and order properties are in FilterMembers and FilterAppend.
- Breakeven.ScenariosOrdered: does not cover a negative size or a negative rent override. The source accepts such an override, since any non-zero rent is kept, and then break-even sales can be negative and the scenario order reverses.
- Breakeven.ScenarioOrder: states non-strict ordering for any non-negative break-even sales. Strict ordering can fail through rounding when break-even sales are tiny; ScenarioStrict and ScenariosOrdered state it for the sales the benchmark table allows.
- BizinfoApi.StartupHashtags: the split form is exact only when the region contains no comma. A region with a comma adds more hashtag pieces, as it does in the source.
