/** The break-even / viability calculator (`analyzeBreakeven`): cost
    breakdown, break-even sales and customers, achievability tier, three
    sales scenarios, payback period and insights. Costs are in units of
    10,000 KRW, prices in KRW. */
module Breakeven {
  import opened Wrappers
  import opened JsMath
  import opened Envelope
  import opened BreakevenData
  import StartupCostData

  datatype Achievability = Easy | Moderate | Hard   // 쉬움 | 보통 | 어려움

  datatype CostBreakdown = CostBreakdown(rent: int, labor: int, utilities: int, other: int)
  datatype Costs = Costs(fixedMonthly: int, variableRatio: real, breakdown: CostBreakdown)
  datatype BreakevenPoint = BreakevenPoint(
    monthlySales: int, dailySales: int, dailyCustomers: int, averagePrice: int, achievability: Achievability)
  datatype Scenario = Scenario(monthlySales: int, monthlyProfit: int)
  datatype Scenarios = Scenarios(pessimistic: Scenario, realistic: Scenario, optimistic: Scenario)
  datatype Payback = Payback(investmentAmount: int, months: int, note: string)
  datatype BreakevenAnalysis = BreakevenAnalysis(
    businessType: string, region: string, size: real,
    costs: Costs, breakeven: BreakevenPoint, scenarios: Scenarios,
    paybackPeriod: Payback, insights: seq<string>)

  /** Reference shop size, in pyeong, that the utilities benchmark is given for. */
  const REFERENCE_SIZE: real := 15.0
  /** Rent multiplier used for a region missing from the table. */
  const FALLBACK_RENT_MULTIPLIER: real := 0.5
  /** Payback months reported when the realistic scenario makes no profit. */
  const UNRECOVERABLE_MONTHS: int := 999

  const UNRECOVERABLE_NOTE: string :=
    "현실적 시나리오에서 수익이 발생하지 않아 투자 회수가 어렵습니다. 비용 구조 재검토 필요."
  const HARD_INSIGHT: string := "일 필요 고객수가 많습니다. 입지 선정 시 유동인구가 많은 곳을 우선 검토하세요."
  const LABOR_INSIGHT: string := "인건비가 임대료보다 높습니다. 운영 효율화나 무인화를 검토해보세요."
  const PAYBACK_INSIGHT: string := "투자 회수 기간이 3년을 초과합니다. 초기 투자 비용 절감 방안을 검토하세요."

  /** Rent multiplier of a canonical region, 0.5 when the table has no
      (truthy) entry for it. Always positive, and exactly the table value for
      every region in the table. */
  function RentMultiplier(region: string): (m: real)
    ensures m > 0.0
    ensures region in RENT_MULTIPLIER ==> m == RENT_MULTIPLIER[region]
    ensures region !in RENT_MULTIPLIER ==> m == FALLBACK_RENT_MULTIPLIER
  {
    if region in RENT_MULTIPLIER && RENT_MULTIPLIER[region] != 0.0 then RENT_MULTIPLIER[region]
    else FALLBACK_RENT_MULTIPLIER
  }

  /** `monthlyRent || Math.round(rentPerPyeong * size * multiplier)`: a given,
      non-zero rent wins; otherwise the rent is the estimate rounded to the
      nearest unit. */
  function CalculatedRent(b: Benchmark, monthlyRent: Option<int>, size: real, multiplier: real): (rent: int)
    ensures monthlyRent.Some? && monthlyRent.value != 0 ==> rent == monthlyRent.value
    ensures monthlyRent.None? || monthlyRent.value == 0 ==>
      rent as real - 0.5 <= b.rentPerPyeong as real * size * multiplier < rent as real + 0.5
  {
    if monthlyRent.Some? && monthlyRent.value != 0 then monthlyRent.value
    else Round(b.rentPerPyeong as real * size * multiplier)
  }

  /** Monthly fixed costs: rent, labour for the minimum staff, utilities scaled
      linearly from the 15-pyeong reference, and other fixed costs. */
  function Breakdown(b: Benchmark, region: string, monthlyRent: Option<int>, size: real): (c: CostBreakdown)
    ensures c.labor == b.laborPerPerson * b.minStaff
    ensures c.other == b.otherFixed
    ensures c.utilities as real - 0.5 <= b.utilities as real * (size / REFERENCE_SIZE) < c.utilities as real + 0.5
    ensures c.rent == CalculatedRent(b, monthlyRent, size, RentMultiplier(region))
  {
    CostBreakdown(
      CalculatedRent(b, monthlyRent, size, RentMultiplier(region)),
      b.laborPerPerson * b.minStaff,
      Round(b.utilities as real * (size / REFERENCE_SIZE)),
      b.otherFixed)
  }

  /** Total monthly fixed costs: with non-negative components it is
      non-negative and bounds each component from above. */
  function FixedMonthly(c: CostBreakdown): (total: int)
    ensures c.rent >= 0 && c.labor >= 0 && c.utilities >= 0 && c.other >= 0 ==>
      && total >= 0
      && c.rent <= total && c.labor <= total && c.utilities <= total && c.other <= total
    ensures total - c.rent - c.labor - c.utilities == c.other
  {
    c.rent + c.labor + c.utilities + c.other
  }

  /** Break-even monthly sales `round(fixed / (1 - ratio))`: the sales whose
      margin covers the fixed costs, never below the fixed costs themselves. */
  function BreakevenSales(fixedMonthly: int, ratio: real): (sales: int)
    requires ratio < 1.0
    ensures sales as real - 0.5 <= fixedMonthly as real / (1.0 - ratio) < sales as real + 0.5
    ensures fixedMonthly >= 0 && ratio >= 0.0 ==> sales >= fixedMonthly
  {
    CoversFixedCosts(fixedMonthly, ratio);
    Round(fixedMonthly as real / (1.0 - ratio))
  }

  lemma CoversFixedCosts(fixedMonthly: int, ratio: real)
    requires ratio < 1.0
    ensures fixedMonthly >= 0 && ratio >= 0.0 ==> Round(fixedMonthly as real / (1.0 - ratio)) >= fixedMonthly
  {
    if fixedMonthly >= 0 && ratio >= 0.0 {
      var x := fixedMonthly as real;
      var d := 1.0 - ratio;
      assert (x / d) * d == x;
      assert x / d >= x;
      RoundMonotone(x, x / d);
      RoundOfInt(fixedMonthly);
    }
  }

  /** Achievability is a total, exclusive three-way split of the daily
      customer count at the thresholds 50 and 100 (both inclusive). */
  function Classify(dailyCustomers: int): (a: Achievability)
    ensures a == Easy <==> dailyCustomers <= EASY_MAX_DAILY_CUSTOMERS
    ensures a == Moderate <==> EASY_MAX_DAILY_CUSTOMERS < dailyCustomers <= MODERATE_MAX_DAILY_CUSTOMERS
    ensures a == Hard <==> dailyCustomers > MODERATE_MAX_DAILY_CUSTOMERS
  {
    if dailyCustomers <= EASY_MAX_DAILY_CUSTOMERS then Easy
    else if dailyCustomers <= MODERATE_MAX_DAILY_CUSTOMERS then Moderate
    else Hard
  }

  /** Profit of one month with the given sales: the exact margin
      `sales * (1 - ratio)` less the fixed costs, within half a unit, because
      only the variable cost is rounded. */
  function Profit(sales: int, ratio: real, fixedMonthly: int): (p: int)
    ensures p as real - 0.5 < sales as real - sales as real * ratio - fixedMonthly as real <= p as real + 0.5
  {
    sales - Round(sales as real * ratio) - fixedMonthly
  }

  /** `calculateProfit(multiplier)`: sales are break-even sales scaled by the
      multiplier, rounded; the variable cost is the rounded ratio of sales. */
  function ScenarioAt(breakevenSales: int, ratio: real, fixedMonthly: int, multiplier: real): (s: Scenario)
    ensures s.monthlySales as real - 0.5 <= breakevenSales as real * multiplier < s.monthlySales as real + 0.5
    ensures s.monthlyProfit == Profit(s.monthlySales, ratio, fixedMonthly)
  {
    var sales := Round(breakevenSales as real * multiplier);
    Scenario(sales, Profit(sales, ratio, fixedMonthly))
  }

  /** More sales never mean less profit while the variable ratio is at most 1. */
  lemma ProfitMonotone(s1: int, s2: int, ratio: real, fixedMonthly: int)
    requires s1 <= s2 && 0.0 <= ratio <= 1.0
    ensures Profit(s1, ratio, fixedMonthly) <= Profit(s2, ratio, fixedMonthly)
  {
    var d := (s2 - s1) as real;
    MultiplyAtMost(d, ratio);
    Distribute(s1 as real, s2 as real, ratio);
    var v1 := Round(s1 as real * ratio);
    var v2 := Round(s2 as real * ratio);
    assert (v2 - v1) as real < d + 1.0;
  }

  lemma Distribute(x1: real, x2: real, ratio: real)
    ensures x2 * ratio - x1 * ratio == (x2 - x1) * ratio
  {
  }

  lemma MultiplyAtMost(d: real, ratio: real)
    requires d >= 0.0 && 0.0 <= ratio <= 1.0
    ensures d * ratio <= d
  {
  }

  /** Scenario profits are ordered like their multipliers when break-even
      sales are non-negative. */
  lemma ScenarioOrder(bep: int, ratio: real, fixedMonthly: int, m1: real, m2: real)
    requires bep >= 0 && m1 <= m2 && 0.0 <= ratio <= 1.0
    ensures ScenarioAt(bep, ratio, fixedMonthly, m1).monthlySales <= ScenarioAt(bep, ratio, fixedMonthly, m2).monthlySales
    ensures ScenarioAt(bep, ratio, fixedMonthly, m1).monthlyProfit <= ScenarioAt(bep, ratio, fixedMonthly, m2).monthlyProfit
  {
    var x1 := bep as real * m1;
    var x2 := bep as real * m2;
    MultiplyMonotone(bep as real, m1, m2);
    RoundMonotone(x1, x2);
    var s1 := ScenarioAt(bep, ratio, fixedMonthly, m1);
    var s2 := ScenarioAt(bep, ratio, fixedMonthly, m2);
    assert s1.monthlySales == Round(x1);
    assert s2.monthlySales == Round(x2);
    ProfitMonotone(s1.monthlySales, s2.monthlySales, ratio, fixedMonthly);
  }

  lemma MultiplyMonotone(x: real, m1: real, m2: real)
    requires x >= 0.0 && m1 <= m2
    ensures x * m1 <= x * m2
  {
  }

  /** With a variable ratio of at most 0.75, four more units of sales always
      mean strictly more profit. */
  lemma ProfitStrict(s1: int, s2: int, ratio: real, fixedMonthly: int)
    requires s1 + 4 <= s2 && 0.0 <= ratio <= 0.75
    ensures Profit(s1, ratio, fixedMonthly) < Profit(s2, ratio, fixedMonthly)
  {
    var d := (s2 - s1) as real;
    Distribute(s1 as real, s2 as real, ratio);
    MultiplyMonotone(d, ratio, 0.75);
    var v1 := Round(s1 as real * ratio);
    var v2 := Round(s2 as real * ratio);
    assert (v2 - v1) as real < d * 0.75 + 1.0;
  }

  /** When break-even sales are at least 25 and the multipliers are at least
      0.5 apart, the scenarios differ by at least 12 units of sales and so,
      with a variable ratio of at most 0.75, strictly in profit too. */
  lemma ScenarioStrict(bep: int, ratio: real, fixedMonthly: int, m1: real, m2: real)
    requires bep >= 25 && m1 + 0.5 <= m2 && 0.0 <= ratio <= 0.75
    ensures ScenarioAt(bep, ratio, fixedMonthly, m1).monthlySales + 12 <= ScenarioAt(bep, ratio, fixedMonthly, m2).monthlySales
    ensures ScenarioAt(bep, ratio, fixedMonthly, m1).monthlyProfit < ScenarioAt(bep, ratio, fixedMonthly, m2).monthlyProfit
  {
    var x1 := bep as real * m1;
    var x2 := bep as real * m2;
    MultiplyMonotone(bep as real, m1 + 0.5, m2);
    assert x2 - x1 >= 12.5;
    var s1 := ScenarioAt(bep, ratio, fixedMonthly, m1);
    var s2 := ScenarioAt(bep, ratio, fixedMonthly, m2);
    ProfitStrict(s1.monthlySales, s2.monthlySales, ratio, fixedMonthly);
  }

  /** Payback months and note. A realistic profit of zero or less gives the
      999-month "unrecoverable" answer without any division; a positive
      profit gives the least number of months whose profit covers the
      investment, tiered at 12, 24 and 36 months. */
  function PaybackOf(investment: int, realisticProfit: int): (p: Payback)
    ensures p.investmentAmount == investment
    ensures realisticProfit <= 0 ==> p.months == UNRECOVERABLE_MONTHS && p.note == UNRECOVERABLE_NOTE
    ensures realisticProfit > 0 ==>
      p.months * realisticProfit >= investment && (p.months - 1) * realisticProfit < investment
    ensures realisticProfit > 0 ==>
      && (p.note == EXCELLENT_NOTE <==> p.months <= EXCELLENT_MAX_MONTHS)
      && (p.note == GOOD_NOTE <==> EXCELLENT_MAX_MONTHS < p.months <= GOOD_MAX_MONTHS)
      && (p.note == AVERAGE_NOTE <==> GOOD_MAX_MONTHS < p.months <= AVERAGE_MAX_MONTHS)
      && (p.note == POOR_NOTE <==> AVERAGE_MAX_MONTHS < p.months)
  {
    if realisticProfit <= 0 then
      Payback(investment, UNRECOVERABLE_MONTHS, UNRECOVERABLE_NOTE)
    else
      var months := Ceil(investment as real / realisticProfit as real);
      CeilDivision(investment, realisticProfit);
      var note :=
        if months <= EXCELLENT_MAX_MONTHS then EXCELLENT_NOTE
        else if months <= GOOD_MAX_MONTHS then GOOD_NOTE
        else if months <= AVERAGE_MAX_MONTHS then AVERAGE_NOTE
        else POOR_NOTE;
      Payback(investment, months, note)
  }

  /** Insight templates of a business type (`|| []`): the table's templates
      for a type it has, none for any other. */
  function CategoryInsights(businessType: string): (r: seq<string>)
    ensures businessType in BREAKEVEN_INSIGHTS ==> r == BREAKEVEN_INSIGHTS[businessType]
    ensures businessType !in BREAKEVEN_INSIGHTS ==> r == []
  {
    if businessType in BREAKEVEN_INSIGHTS then BREAKEVEN_INSIGHTS[businessType] else []
  }

  /** The insight list: the category and common templates, onto whose front
      the hard-to-reach, labour-over-rent and long-payback messages are
      pushed in that order, so that they read back in reverse. */
  function Insights(businessType: string, achievability: Achievability, labor: int, rent: int, paybackMonths: int)
    : (r: seq<string>)
    ensures var pushed := (if paybackMonths > AVERAGE_MAX_MONTHS then 1 else 0)
                        + (if labor > rent then 1 else 0) + (if achievability == Hard then 1 else 0);
      && |r| == pushed + |CategoryInsights(businessType)| + |COMMON_INSIGHTS|
      && r[pushed..] == CategoryInsights(businessType) + COMMON_INSIGHTS
    ensures var pushed := (if paybackMonths > AVERAGE_MAX_MONTHS then 1 else 0)
                        + (if labor > rent then 1 else 0) + (if achievability == Hard then 1 else 0);
      r[..pushed] == (if paybackMonths > AVERAGE_MAX_MONTHS then [PAYBACK_INSIGHT] else [])
                   + (if labor > rent then [LABOR_INSIGHT] else [])
                   + (if achievability == Hard then [HARD_INSIGHT] else [])
    ensures paybackMonths > AVERAGE_MAX_MONTHS ==> r[0] == PAYBACK_INSIGHT
  {
    var insights := CategoryInsights(businessType) + COMMON_INSIGHTS;
    var insights := if achievability == Hard then [HARD_INSIGHT] + insights else insights;
    var insights := if labor > rent then [LABOR_INSIGHT] + insights else insights;
    if paybackMonths > 36 then [PAYBACK_INSIGHT] + insights else insights
  }

  /** The pushed messages read back in reverse order of pushing: payback, then labour, then hard-to-reach. */
  lemma PushedInReverse(businessType: string, labor: int, rent: int, paybackMonths: int)
    requires labor > rent && paybackMonths > AVERAGE_MAX_MONTHS
    ensures Insights(businessType, Hard, labor, rent, paybackMonths)[..3] == [PAYBACK_INSIGHT, LABOR_INSIGHT, HARD_INSIGHT]
  {
  }

  /** The analysis proper, once the business type and region are normalised
      and the benchmark row is found. */
  function Analyze(
    normalizedType: string, normalizedRegion: string, b: Benchmark, monthlyRent: Option<int>, size: real,
    averagePrice: Option<int>, startupEstimate: Option<int>): (a: BreakevenAnalysis)
    requires WellFormed(b)
    ensures a.businessType == normalizedType && a.region == normalizedRegion && a.size == size
    ensures a.costs.variableRatio == b.variableRatio
    ensures a.costs.breakdown == Breakdown(b, normalizedRegion, monthlyRent, size)
    ensures a.costs.fixedMonthly == FixedMonthly(a.costs.breakdown)
    ensures a.breakeven.averagePrice ==
      if averagePrice.Some? && averagePrice.value != 0 then averagePrice.value else b.averagePrice
    ensures a.breakeven.averagePrice != 0
    ensures a.breakeven.monthlySales == BreakevenSales(a.costs.fixedMonthly, b.variableRatio)
    ensures a.breakeven.dailySales as real - 0.5 <= a.breakeven.monthlySales as real / 30.0
                                                 < a.breakeven.dailySales as real + 0.5
    ensures var x := a.breakeven.dailySales as real / a.breakeven.averagePrice as real * 10000.0;
      a.breakeven.dailyCustomers as real - 0.5 <= x < a.breakeven.dailyCustomers as real + 0.5
    ensures a.breakeven.achievability == Classify(a.breakeven.dailyCustomers)
    ensures var bep := a.breakeven.monthlySales;
      && a.scenarios.pessimistic == ScenarioAt(bep, b.variableRatio, a.costs.fixedMonthly, PESSIMISTIC_MULTIPLIER)
      && a.scenarios.realistic == ScenarioAt(bep, b.variableRatio, a.costs.fixedMonthly, REALISTIC_MULTIPLIER)
      && a.scenarios.optimistic == ScenarioAt(bep, b.variableRatio, a.costs.fixedMonthly, OPTIMISTIC_MULTIPLIER)
    ensures var investment := if startupEstimate.Some? then startupEstimate.value else a.costs.fixedMonthly * 12;
      a.paybackPeriod == PaybackOf(investment, a.scenarios.realistic.monthlyProfit)
    ensures a.scenarios.realistic.monthlyProfit <= 0 ==> a.paybackPeriod.months == UNRECOVERABLE_MONTHS
    ensures a.insights == Insights(normalizedType, a.breakeven.achievability,
                                   a.costs.breakdown.labor, a.costs.breakdown.rent, a.paybackPeriod.months)
  {
    var breakdown := Breakdown(b, normalizedRegion, monthlyRent, size);
    var fixedMonthly := FixedMonthly(breakdown);
    var ratio := b.variableRatio;
    var price := if averagePrice.Some? && averagePrice.value != 0 then averagePrice.value else b.averagePrice;
    var monthlySales := BreakevenSales(fixedMonthly, ratio);
    var dailySales := Round(monthlySales as real / 30.0);
    var dailyCustomers := Round(dailySales as real / price as real * 10000.0);
    var achievability := Classify(dailyCustomers);
    var scenarios := Scenarios(
      ScenarioAt(monthlySales, ratio, fixedMonthly, PESSIMISTIC_MULTIPLIER),
      ScenarioAt(monthlySales, ratio, fixedMonthly, REALISTIC_MULTIPLIER),
      ScenarioAt(monthlySales, ratio, fixedMonthly, OPTIMISTIC_MULTIPLIER));
    var investment := if startupEstimate.Some? then startupEstimate.value else fixedMonthly * 12;
    var payback := PaybackOf(investment, scenarios.realistic.monthlyProfit);
    var insights := Insights(normalizedType, achievability, breakdown.labor, breakdown.rent, payback.months);
    BreakevenAnalysis(
      normalizedType, normalizedRegion, size,
      Costs(fixedMonthly, ratio, breakdown),
      BreakevenPoint(monthlySales, dailySales, dailyCustomers, price, achievability),
      scenarios, payback, insights)
  }

  const UNKNOWN_TYPE_SUGGESTION: string :=
    "카페, 음식점, 편의점, 미용실, 치킨, 호프, 분식, 베이커리, 무인매장, 스터디카페, 네일샵, 반려동물 중 선택해주세요."

  /** `analyzeBreakeven`. `monthlyRent` and `averagePrice` are the optional
      overrides (zero counts as absent), `size` is in pyeong, and
      `startupEstimate` is the estimated total of the startup-cost estimator
      when that call succeeds. The unknown-business-type failure is never
      produced, because the normaliser only returns benchmark keys. */
  function AnalyzeBreakeven(
    businessType: string, region: string, monthlyRent: Option<int>, size: real,
    averagePrice: Option<int>, startupEstimate: Option<int>): (r: ApiResult<BreakevenAnalysis>)
    ensures r.Success?
    ensures r.Success? ==> r.value.businessType in BUSINESS_BENCHMARKS && r.value.region in RENT_MULTIPLIER
    ensures r.Success? ==> 0.0 <= r.value.costs.variableRatio < 1.0
  {
    var normalizedType := NormalizeBusinessTypeForBreakeven(businessType);
    var normalizedRegion := StartupCostData.NormalizeRegion(region);
    BreakevenData.RentMultiplierCoversRegions(region);
    if normalizedType !in BUSINESS_BENCHMARKS then
      Failure(ApiError("UNKNOWN_BUSINESS_TYPE", "알 수 없는 업종입니다: " + businessType, UNKNOWN_TYPE_SUGGESTION))
    else
      var b := BUSINESS_BENCHMARKS[normalizedType];
      BenchmarksWellFormed();
      assert WellFormed(b);
      Success(Analyze(normalizedType, normalizedRegion, b, monthlyRent, size, averagePrice, startupEstimate))
  }

  /** The analysis of a recognised benchmark row, by way of the normalisers. */
  lemma AnalysisOf(businessType: string, region: string, monthlyRent: Option<int>, size: real,
                   averagePrice: Option<int>, startupEstimate: Option<int>)
    ensures var t := NormalizeBusinessTypeForBreakeven(businessType);
            && WellFormed(BUSINESS_BENCHMARKS[t])
            && AnalyzeBreakeven(businessType, region, monthlyRent, size, averagePrice, startupEstimate)
               == Success(Analyze(t, StartupCostData.NormalizeRegion(region), BUSINESS_BENCHMARKS[t],
                                  monthlyRent, size, averagePrice, startupEstimate))
  {
    BenchmarksWellFormed();
  }

  /** With a non-negative size and no negative rent override, every cost
      component is non-negative, and so is the fixed-cost total. */
  lemma CostsNonNegative(b: Benchmark, region: string, monthlyRent: Option<int>, size: real)
    requires WellFormed(b) && size >= 0.0
    requires monthlyRent.None? || monthlyRent.value >= 0
    ensures var c := Breakdown(b, region, monthlyRent, size);
            c.rent >= 0 && c.labor >= 0 && c.utilities >= 0 && c.other >= 0 && FixedMonthly(c) >= 0
  {
    var m := RentMultiplier(region);
    MultiplyNonNegative(b.rentPerPyeong as real * size, m);
    MultiplyNonNegative(b.utilities as real, size / REFERENCE_SIZE);
    MultiplyNonNegative(b.laborPerPerson as real, b.minStaff as real);
    assert (b.laborPerPerson * b.minStaff) as real == b.laborPerPerson as real * b.minStaff as real;
  }

  /** Under the same conditions the scenarios are strictly ordered:
      pessimistic sales and profit are below realistic ones, which are below
      optimistic ones, and break-even sales cover the fixed costs. Strictness
      rests on the table: break-even sales are at least the other fixed
      costs (25 or more) and every variable ratio is at most 0.75. */
  lemma {:induction false} ScenariosOrdered(
    businessType: string, region: string, monthlyRent: Option<int>, size: real,
    averagePrice: Option<int>, startupEstimate: Option<int>)
    requires size >= 0.0
    requires monthlyRent.None? || monthlyRent.value >= 0
    ensures var r := AnalyzeBreakeven(businessType, region, monthlyRent, size, averagePrice, startupEstimate);
            && r.Success?
            && r.value.breakeven.monthlySales >= r.value.costs.fixedMonthly
            && r.value.scenarios.pessimistic.monthlySales < r.value.scenarios.realistic.monthlySales
            && r.value.scenarios.realistic.monthlySales < r.value.scenarios.optimistic.monthlySales
            && r.value.scenarios.pessimistic.monthlyProfit < r.value.scenarios.realistic.monthlyProfit
            && r.value.scenarios.realistic.monthlyProfit < r.value.scenarios.optimistic.monthlyProfit
  {
    AnalysisOf(businessType, region, monthlyRent, size, averagePrice, startupEstimate);
    var t := NormalizeBusinessTypeForBreakeven(businessType);
    var g := StartupCostData.NormalizeRegion(region);
    var b := BUSINESS_BENCHMARKS[t];
    var c := Breakdown(b, g, monthlyRent, size);
    CostsNonNegative(b, g, monthlyRent, size);
    var fixed := FixedMonthly(c);
    var bep := BreakevenSales(fixed, b.variableRatio);
    BenchmarkFloors();
    assert bep >= 25 && b.variableRatio <= 0.75;
    ScenarioStrict(bep, b.variableRatio, fixed, PESSIMISTIC_MULTIPLIER, REALISTIC_MULTIPLIER);
    ScenarioStrict(bep, b.variableRatio, fixed, REALISTIC_MULTIPLIER, OPTIMISTIC_MULTIPLIER);
  }

  /** A realistic scenario without profit always yields the 999-month
      sentinel and its note, and so always puts the long-payback message
      first among the insights. */
  lemma UnprofitablePayback(
    businessType: string, region: string, monthlyRent: Option<int>, size: real,
    averagePrice: Option<int>, startupEstimate: Option<int>)
    ensures var a := AnalyzeBreakeven(businessType, region, monthlyRent, size, averagePrice, startupEstimate).value;
            a.scenarios.realistic.monthlyProfit <= 0 ==>
              && a.paybackPeriod.months == UNRECOVERABLE_MONTHS
              && a.paybackPeriod.note == UNRECOVERABLE_NOTE
              && |a.insights| > 0 && a.insights[0] == PAYBACK_INSIGHT
  {
    AnalysisOf(businessType, region, monthlyRent, size, averagePrice, startupEstimate);
  }

  /** A 15-pyeong cafe in Seoul with no overrides and no startup estimate:
      688 of fixed costs, 1058 of break-even sales, 64 customers a day
      (보통), a loss in the pessimistic scenario, and a 61-month payback. */
  lemma CafeInSeoul()
    ensures var a := AnalyzeBreakeven("카페", "서울", None, 15.0, None, None).value;
            && a.costs.breakdown == CostBreakdown(158, 460, 40, 30)
            && a.costs.fixedMonthly == 688
            && a.breakeven == BreakevenPoint(1058, 35, 64, 5500, Moderate)
            && a.scenarios == Scenarios(Scenario(741, -206), Scenario(1270, 137), Scenario(1904, 550))
            && a.paybackPeriod == Payback(8256, 61, POOR_NOTE)
  {
    StartupCostData.SeoulIsSeoul();
    CafeIsCafe();
    CafeRow();
    AnalysisOf("카페", "서울", None, 15.0, None, None);
    CafeFigures();
  }

  lemma CafeRow()
    ensures BUSINESS_BENCHMARKS["카페"] == CAFE_BENCHMARK
  {
  }

  lemma CafeIsCafe()
    ensures NormalizeBusinessTypeForBreakeven("카페") == "카페"
  {
    Text.ContainsAt("카페", "카페", 0);
    assert BREAKEVEN_TYPE_RULES[0].keywords[1] == "카페";
    Keywords.FirstMatchFirstHit(BREAKEVEN_TYPE_RULES, "카페", DEFAULT_BREAKEVEN_TYPE, 0);
  }

  lemma CafeFigures()
    ensures var a := Analyze("카페", "서울", CAFE_BENCHMARK, None, 15.0, None, None);
            && a.costs.breakdown == CostBreakdown(158, 460, 40, 30)
            && a.costs.fixedMonthly == 688
            && a.breakeven == BreakevenPoint(1058, 35, 64, 5500, Moderate)
            && a.scenarios == Scenarios(Scenario(741, -206), Scenario(1270, 137), Scenario(1904, 550))
            && a.paybackPeriod == Payback(8256, 61, POOR_NOTE)
  {
    CafeBreakdown();
    assert BreakevenSales(688, 0.35) == 1058;
    CafeCustomers();
    CafeScenarios();
    assert Ceil(8256 as real / 137 as real) == 61;
  }

  lemma CafeBreakdown()
    ensures Breakdown(CAFE_BENCHMARK, "서울", None, 15.0) == CostBreakdown(158, 460, 40, 30)
  {
    assert RentMultiplier("서울") == 0.7;
  }

  lemma CafeCustomers()
    ensures Round(1058 as real / 30.0) == 35
    ensures Round(35 as real / 5500 as real * 10000.0) == 64
  {
  }

  lemma CafeScenarios()
    ensures ScenarioAt(1058, 0.35, 688, PESSIMISTIC_MULTIPLIER) == Scenario(741, -206)
    ensures ScenarioAt(1058, 0.35, 688, REALISTIC_MULTIPLIER) == Scenario(1270, 137)
    ensures ScenarioAt(1058, 0.35, 688, OPTIMISTIC_MULTIPLIER) == Scenario(1904, 550)
  {
  }
}
