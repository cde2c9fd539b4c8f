/** Reference data of the break-even calculator: per-business-type
    benchmarks (prices in KRW, costs in units of 10,000 KRW), regional rent
    multipliers, the classification thresholds, insight templates, and the
    calculator's own business-type normaliser. */
module BreakevenData {
  import opened Text
  import opened Keywords
  import StartupCostData

  /** One row of the benchmark table. */
  datatype Benchmark = Benchmark(
    averagePrice: int,      // KRW per customer
    variableRatio: real,    // cost of goods as a fraction of sales
    rentPerPyeong: int,     // monthly
    laborPerPerson: int,    // monthly
    minStaff: int,
    utilities: int,         // monthly, for 15 pyeong
    otherFixed: int,        // monthly
    conversionRate: real,
    operatingHours: int,
    note: string)

  /** The cafe row, named because the worked example uses it. */
  const CAFE_BENCHMARK: Benchmark := Benchmark(5500, 0.35, 15, 230, 2, 40, 30, 0.015, 12,
    "음료 원가율 낮음, 디저트 추가 시 객단가 상승")

  const BUSINESS_BENCHMARKS: map<string, Benchmark> := map[
    "카페" := CAFE_BENCHMARK,
    "음식점" := Benchmark(12000, 0.4, 18, 250, 3, 60, 40, 0.02, 10,
      "식재료 원가 관리가 핵심, 배달 시 수수료 15-20% 추가"),
    "편의점" := Benchmark(8000, 0.75, 12, 220, 2, 50, 25, 0.05, 24,
      "마진율 낮지만 회전율 높음, 24시간 운영 시 인건비 증가"),
    "미용실" := Benchmark(35000, 0.15, 14, 280, 2, 30, 30, 0.01, 10,
      "인건비 비중 높음, 기술력에 따른 객단가 편차 큼"),
    "치킨" := Benchmark(22000, 0.45, 12, 230, 2, 50, 35, 0.025, 10,
      "배달 매출 비중 높음, 배달앱 수수료 고려 필요"),
    "호프" := Benchmark(30000, 0.35, 16, 240, 2, 45, 35, 0.02, 8,
      "주류 마진 높음, 야간 영업으로 인건비 할증"),
    "분식" := Benchmark(8000, 0.4, 10, 220, 2, 35, 25, 0.03, 12,
      "객단가 낮지만 회전율 높음, 학원가/역세권 유리"),
    "베이커리" := Benchmark(15000, 0.35, 18, 260, 3, 55, 40, 0.02, 12,
      "새벽 작업으로 인건비 증가, 폐기 손실 관리 중요"),
    "무인매장" := Benchmark(6000, 0.6, 8, 0, 0, 40, 50, 0.04, 24,
      "인건비 제로, 기타 고정비에 관리/유지보수 포함"),
    "스터디카페" := Benchmark(10000, 0.1, 10, 220, 1, 80, 40, 0.015, 24,
      "전기료 비중 높음, 좌석당 수익 계산 필요"),
    "네일샵" := Benchmark(50000, 0.1, 12, 280, 1, 25, 25, 0.008, 10,
      "인건비 비중 매우 높음, 예약제 운영으로 안정적"),
    "반려동물" := Benchmark(45000, 0.25, 14, 250, 2, 40, 35, 0.012, 10,
      "미용, 용품, 호텔 등 세부 업종에 따라 편차")
  ]

  /** Rent multiplier per canonical region (서울 강남 = 1.0). */
  const RENT_MULTIPLIER: map<string, real> := map[
    "서울 강남" := 1.0, "서울 홍대" := 0.9, "서울 명동" := 0.95, "서울" := 0.7,
    "경기" := 0.5, "인천" := 0.45, "부산" := 0.4, "대구" := 0.38,
    "대전" := 0.35, "광주" := 0.35, "울산" := 0.38, "세종" := 0.4,
    "제주" := 0.5, "지방" := 0.3
  ]

  /** Upper bounds (inclusive) on daily customers for the 쉬움 and 보통 tiers;
      the 어려움 tier is unbounded. */
  const EASY_MAX_DAILY_CUSTOMERS: int := 50
  const MODERATE_MAX_DAILY_CUSTOMERS: int := 100

  /** Sales multipliers of the three scenarios, relative to break-even sales. */
  const PESSIMISTIC_MULTIPLIER: real := 0.7
  const REALISTIC_MULTIPLIER: real := 1.2
  const OPTIMISTIC_MULTIPLIER: real := 1.8

  /** Upper bounds (inclusive) in months of the payback tiers; the poor tier is unbounded. */
  const EXCELLENT_MAX_MONTHS: int := 12
  const GOOD_MAX_MONTHS: int := 24
  const AVERAGE_MAX_MONTHS: int := 36

  const EXCELLENT_NOTE: string := "1년 이내 회수, 매우 양호"
  const GOOD_NOTE: string := "2년 이내 회수, 양호"
  const AVERAGE_NOTE: string := "3년 이내 회수, 보통"
  const POOR_NOTE: string := "3년 초과, 재검토 권장"

  /** Key of the insight list shared by every business type. */
  const COMMON_KEY: string := "공통"

  /** The templates every analysis ends with, stored under the common key. */
  const COMMON_INSIGHTS: seq<string> := [
    "손익분기점은 최소 목표이며, 실제 수익을 위해서는 20-30% 초과 매출 필요",
    "고정비 절감이 손익분기점 낮추는 가장 효과적인 방법",
    "창업 초기 6개월은 적자 감수 필요, 운영자금 확보 필수"]

  const BREAKEVEN_INSIGHTS: map<string, seq<string>> := map[
    COMMON_KEY := COMMON_INSIGHTS,
    "카페" := [
      "테이크아웃 비중 높이면 좌석 회전율 무관하게 매출 증대 가능",
      "원두/시럽 등 원재료 대량 구매로 원가율 3-5% 절감 가능",
      "디저트 메뉴 추가로 객단가 30-50% 상승 효과"],
    "음식점" := [
      "점심 특선 메뉴로 회전율 높이고, 저녁에 객단가 높이는 전략",
      "배달앱 수수료(15-20%) 감안한 메뉴 가격 책정 필요",
      "식재료 로스율 관리로 원가율 5% 절감 가능"],
    "편의점" := [
      "담배, 주류 등 필수품으로 기본 매출 확보",
      "PB상품 비중 높이면 마진율 개선",
      "24시간 운영 시 야간 인건비 할증(1.5배) 고려"],
    "미용실" := [
      "단골 확보가 안정적 매출의 핵심",
      "시술 시간 단축으로 일 고객수 증대 가능",
      "제품 판매(헤어케어 등) 추가 수익원 확보"],
    "치킨" := [
      "배달앱 순위 관리가 매출에 직접적 영향",
      "세트메뉴로 객단가 상승 유도",
      "자체 배달 시 수수료 절감 가능"],
    "무인매장" := [
      "인건비 제로로 손익분기점 낮음",
      "CCTV, 키오스크 유지보수 비용 정기 발생",
      "도난/파손 손실 3-5% 감안 필요"]
  ]

  /** Keyword rules of `normalizeBusinessTypeForBreakeven`, in the order they are tried. */
  const BREAKEVEN_TYPE_RULES: seq<Rule> := [
    Rule(["커피", "카페"], "카페"),
    Rule(["음식", "식당", "레스토랑"], "음식점"),
    Rule(["편의점", "마트"], "편의점"),
    Rule(["미용", "헤어", "살롱"], "미용실"),
    Rule(["치킨"], "치킨"),
    Rule(["호프", "맥주", "술집"], "호프"),
    Rule(["분식", "떡볶이"], "분식"),
    Rule(["빵", "베이커리", "제과"], "베이커리"),
    Rule(["무인"], "무인매장"),
    Rule(["스터디", "독서실"], "스터디카페"),
    Rule(["네일", "손톱"], "네일샵"),
    Rule(["반려", "애견", "펫"], "반려동물")
  ]

  const DEFAULT_BREAKEVEN_TYPE: string := "카페"

  /** A benchmark row the calculator can divide by: a variable ratio in
      [0, 1), a positive price, and non-negative cost figures. */
  predicate WellFormed(b: Benchmark) {
    && 0.0 <= b.variableRatio < 1.0
    && b.averagePrice > 0
    && b.rentPerPyeong >= 0 && b.laborPerPerson >= 0 && b.minStaff >= 0
    && b.utilities >= 0 && b.otherFixed >= 0
  }

  /** Every benchmark row is well formed; in particular `1 - variableRatio > 0`. */
  lemma BenchmarksWellFormed()
    ensures forall k :: k in BUSINESS_BENCHMARKS ==> WellFormed(BUSINESS_BENCHMARKS[k])
  {
  }

  /** Every row has other fixed costs of at least 25 and a variable ratio of
      at most 0.75, so break-even sales are never tiny and every sale leaves
      at least a quarter of its value as margin. */
  lemma BenchmarkFloors()
    ensures forall k :: k in BUSINESS_BENCHMARKS ==>
      BUSINESS_BENCHMARKS[k].otherFixed >= 25 && BUSINESS_BENCHMARKS[k].variableRatio <= 0.75
  {
  }

  /** The classification thresholds are strictly increasing. */
  lemma ThresholdsIncreasing()
    ensures EASY_MAX_DAILY_CUSTOMERS < MODERATE_MAX_DAILY_CUSTOMERS
    ensures EXCELLENT_MAX_MONTHS < GOOD_MAX_MONTHS < AVERAGE_MAX_MONTHS
    ensures 0.0 < PESSIMISTIC_MULTIPLIER < REALISTIC_MULTIPLIER < OPTIMISTIC_MULTIPLIER
  {
  }

  /** Every business-type rule yields a key of the benchmark table. */
  lemma RuleKeysInBenchmarks()
    ensures forall i :: 0 <= i < |BREAKEVEN_TYPE_RULES| ==> BREAKEVEN_TYPE_RULES[i].key in BUSINESS_BENCHMARKS
  {
  }

  /** `normalizeBusinessTypeForBreakeven`: total, first keyword rule wins,
      "카페" when nothing matches, and always a benchmark key, so the
      calculator's unknown-business-type branch can never be taken. */
  function NormalizeBusinessTypeForBreakeven(input: string): (r: string)
    ensures r in BUSINESS_BENCHMARKS
    ensures (forall i :: 0 <= i < |BREAKEVEN_TYPE_RULES| ==> !Fires(BREAKEVEN_TYPE_RULES[i], input))
            ==> r == DEFAULT_BREAKEVEN_TYPE
  {
    RuleKeysInBenchmarks();
    FirstMatchWithin(BREAKEVEN_TYPE_RULES, input, DEFAULT_BREAKEVEN_TYPE, BUSINESS_BENCHMARKS.Keys);
    FirstMatch(BREAKEVEN_TYPE_RULES, input, DEFAULT_BREAKEVEN_TYPE)
  }

  /** The calculator's normaliser and the cost estimator's agree on every input. */
  lemma NormalisersAgree(input: string)
    ensures NormalizeBusinessTypeForBreakeven(input) == StartupCostData.NormalizeBusinessType(input)
  {
    assert BREAKEVEN_TYPE_RULES == StartupCostData.BUSINESS_TYPE_RULES;
  }

  /** The cafe rule precedes the study rule, so "스터디카페" is a 카페. */
  lemma StudyCafeIsCafe()
    ensures NormalizeBusinessTypeForBreakeven("스터디카페") == "카페"
  {
    ContainsAt("스터디카페", "카페", 3);
    assert BREAKEVEN_TYPE_RULES[0].keywords[1] == "카페";
    assert Fires(BREAKEVEN_TYPE_RULES[0], "스터디카페");
    FirstMatchFirstHit(BREAKEVEN_TYPE_RULES, "스터디카페", DEFAULT_BREAKEVEN_TYPE, 0);
  }

  /** The rent table covers every region key the region normaliser can return. */
  lemma RentMultiplierCoversRegions(input: string)
    ensures StartupCostData.NormalizeRegion(input) in RENT_MULTIPLIER
    ensures RENT_MULTIPLIER[StartupCostData.NormalizeRegion(input)] != 0.0
  {
    RegionTablesAgree();
    RentMultipliersPositive();
  }

  /** The rent table and the regional cost table have the same regions. */
  lemma RegionTablesAgree()
    ensures StartupCostData.REGIONAL_MULTIPLIER.Keys == RENT_MULTIPLIER.Keys
  {
  }

  /** Every rent multiplier is positive. */
  lemma RentMultipliersPositive()
    ensures forall k :: k in RENT_MULTIPLIER ==> RENT_MULTIPLIER[k] > 0.0
  {
  }
}
