/** Reference data of the startup-cost estimator (amounts in units of
    10,000 KRW, for a 15-pyeong shop) and the two free-text normalisers
    that map a business type and a region to canonical table keys. */
module StartupCostData {
  import opened Text
  import opened Keywords

  datatype Range = Range(min: int, max: int)
  datatype InteriorCost = InteriorCost(basic: int, standard: int, premium: int)

  /** One row of the per-business-type cost table. */
  datatype CostEntry = CostEntry(
    deposit: Range,
    interior: InteriorCost,   // per pyeong
    equipment: Range,
    inventory: Range,
    monthlyOperating: int,    // labour excluded
    note: string)

  const BUSINESS_COST_DATA: map<string, CostEntry> := map[
    "카페" := CostEntry(Range(2000, 5000), InteriorCost(80, 120, 180), Range(1500, 3000), Range(200, 500), 300,
      "에스프레소 머신이 비용의 핵심. 중고 장비로 초기 비용 절감 가능"),
    "음식점" := CostEntry(Range(2000, 6000), InteriorCost(100, 150, 220), Range(2000, 5000), Range(300, 800), 400,
      "주방 설비가 비용의 핵심. 업종에 따라 편차 큼"),
    "편의점" := CostEntry(Range(3000, 5000), InteriorCost(50, 70, 100), Range(3000, 5000), Range(2000, 3000), 200,
      "프랜차이즈 가입비 별도. 본사 지원으로 초기 비용 절감 가능"),
    "미용실" := CostEntry(Range(1500, 4000), InteriorCost(100, 150, 200), Range(500, 1500), Range(200, 500), 250,
      "기술력이 핵심. 인테리어보다 입지 선정이 중요"),
    "치킨" := CostEntry(Range(2000, 4000), InteriorCost(80, 120, 160), Range(1500, 3000), Range(300, 600), 350,
      "배달 중심이면 소형 매장 가능. 프랜차이즈 가입비 별도"),
    "호프" := CostEntry(Range(2500, 5000), InteriorCost(100, 150, 200), Range(1000, 2000), Range(400, 800), 350,
      "심야 영업으로 인건비 증가. 주류 마진율 높음"),
    "분식" := CostEntry(Range(1500, 3000), InteriorCost(60, 90, 130), Range(800, 1500), Range(200, 400), 250,
      "학교 앞, 역세권 위주. 회전율이 중요"),
    "베이커리" := CostEntry(Range(2500, 5000), InteriorCost(120, 170, 230), Range(3000, 6000), Range(300, 600), 400,
      "오븐, 발효기 등 전문 장비 필수. 기술 습득 필요"),
    "무인매장" := CostEntry(Range(1000, 2500), InteriorCost(40, 60, 80), Range(2000, 4000), Range(500, 1500), 150,
      "키오스크, CCTV 필수. 인건비 절감이 핵심"),
    "스터디카페" := CostEntry(Range(3000, 6000), InteriorCost(80, 120, 160), Range(1500, 3000), Range(100, 300), 300,
      "좌석당 수익 계산 필요. 24시간 운영 시 관리비 증가"),
    "네일샵" := CostEntry(Range(1000, 2500), InteriorCost(80, 120, 160), Range(300, 800), Range(200, 400), 200,
      "소자본 창업 가능. 기술력과 단골 확보가 핵심"),
    "반려동물" := CostEntry(Range(2000, 4000), InteriorCost(100, 140, 180), Range(500, 1500), Range(500, 1000), 300,
      "미용, 용품, 호텔 등 세부 업종에 따라 차이")
  ]

  /** One row of the regional cost-multiplier table. */
  datatype RegionCost = RegionCost(multiplier: real, note: string)

  const REGIONAL_MULTIPLIER: map<string, RegionCost> := map[
    "서울 강남" := RegionCost(1.8, "전국 최고 임대료. 권리금 높음"),
    "서울 홍대" := RegionCost(1.6, "유동인구 많음. 권리금 높음"),
    "서울 명동" := RegionCost(1.7, "관광특구. 외국인 수요"),
    "서울" := RegionCost(1.4, "강남/홍대 외 서울 평균"),
    "경기" := RegionCost(1.1, "서울 근교. 지역 편차 큼"),
    "인천" := RegionCost(1.0, "서울 대비 저렴"),
    "부산" := RegionCost(0.95, "해운대/서면 제외 평균"),
    "대구" := RegionCost(0.9, "동성로 제외 평균"),
    "대전" := RegionCost(0.85, "둔산동 제외 평균"),
    "광주" := RegionCost(0.85, "충장로 제외 평균"),
    "울산" := RegionCost(0.9, "공단 지역 특수성"),
    "세종" := RegionCost(0.95, "신도시 특수성"),
    "제주" := RegionCost(1.1, "관광지 프리미엄"),
    "지방" := RegionCost(0.75, "중소도시 평균")
  ]

  /** Keyword rules of `normalizeBusinessType`, in the order they are tried. */
  const BUSINESS_TYPE_RULES: seq<Rule> := [
    Rule(["커피", "카페"], "카페"),
    Rule(["음식", "식당", "레스토랑"], "음식점"),
    Rule(["편의점", "마트"], "편의점"),
    Rule(["미용", "헤어", "살롱"], "미용실"),
    Rule(["치킨"], "치킨"),
    Rule(["호프", "맥주", "술집"], "호프"),
    Rule(["분식", "떡볶이"], "분식"),
    Rule(["빵", "베이커리", "제과"], "베이커리"),
    Rule(["무인"], "무인매장"),
    Rule(["스터디", "독서실"], "스터디카페"),
    Rule(["네일", "손톱"], "네일샵"),
    Rule(["반려", "애견", "펫"], "반려동물")
  ]

  const DEFAULT_BUSINESS_TYPE: string := "카페"

  /** Keyword rules of `normalizeRegion`, in the order they are tried. */
  const REGION_RULES: seq<Rule> := [
    Rule(["강남"], "서울 강남"),
    Rule(["홍대", "합정", "연남"], "서울 홍대"),
    Rule(["명동", "을지로"], "서울 명동"),
    Rule(["서울"], "서울"),
    Rule(["경기", "수원", "성남"], "경기"),
    Rule(["인천"], "인천"),
    Rule(["부산"], "부산"),
    Rule(["대구"], "대구"),
    Rule(["대전"], "대전"),
    Rule(["광주"], "광주"),
    Rule(["울산"], "울산"),
    Rule(["세종"], "세종"),
    Rule(["제주"], "제주")
  ]

  const DEFAULT_REGION: string := "지방"

  /** Every business-type rule yields a key of the cost table. */
  lemma RuleKeysInCostData()
    ensures forall i :: 0 <= i < |BUSINESS_TYPE_RULES| ==> BUSINESS_TYPE_RULES[i].key in BUSINESS_COST_DATA
  {
  }

  /** Every region rule, and the default, is a key of the regional table. */
  lemma RuleKeysInRegionalData()
    ensures forall i :: 0 <= i < |REGION_RULES| ==> REGION_RULES[i].key in REGIONAL_MULTIPLIER
  {
  }

  /** Every cost range is ordered and every interior tier list is ascending. */
  lemma CostRangesOrdered()
    ensures forall k :: k in BUSINESS_COST_DATA ==>
      var e := BUSINESS_COST_DATA[k];
      && e.deposit.min <= e.deposit.max
      && e.equipment.min <= e.equipment.max
      && e.inventory.min <= e.inventory.max
      && e.interior.basic <= e.interior.standard <= e.interior.premium
  {
  }

  /** `normalizeBusinessType`: total, first keyword rule wins, "카페" when
      nothing matches, and always a key of the cost table. */
  function NormalizeBusinessType(input: string): (r: string)
    ensures r in BUSINESS_COST_DATA
    ensures (forall i :: 0 <= i < |BUSINESS_TYPE_RULES| ==> !Fires(BUSINESS_TYPE_RULES[i], input))
            ==> r == DEFAULT_BUSINESS_TYPE
  {
    RuleKeysInCostData();
    FirstMatchWithin(BUSINESS_TYPE_RULES, input, DEFAULT_BUSINESS_TYPE, BUSINESS_COST_DATA.Keys);
    FirstMatch(BUSINESS_TYPE_RULES, input, DEFAULT_BUSINESS_TYPE)
  }

  /** `normalizeRegion`: total, first keyword rule wins, "지방" when nothing
      matches, and always a key of the regional multiplier table. */
  function NormalizeRegion(input: string): (r: string)
    ensures r in REGIONAL_MULTIPLIER
    ensures (forall i :: 0 <= i < |REGION_RULES| ==> !Fires(REGION_RULES[i], input)) ==> r == DEFAULT_REGION
  {
    RuleKeysInRegionalData();
    FirstMatchWithin(REGION_RULES, input, DEFAULT_REGION, REGIONAL_MULTIPLIER.Keys);
    FirstMatch(REGION_RULES, input, DEFAULT_REGION)
  }

  /** "강남" is checked before "서울": any input naming 강남 is 서울 강남. */
  lemma GangnamBeforeSeoul(input: string)
    requires Contains(input, "강남")
    ensures NormalizeRegion(input) == "서울 강남"
  {
    assert REGION_RULES[0].keywords[0] == "강남";
    assert Fires(REGION_RULES[0], input);
    FirstMatchFirstHit(REGION_RULES, input, DEFAULT_REGION, 0);
  }

  /** "서울 강남구" therefore normalises to "서울 강남", not to "서울". */
  lemma SeoulGangnamGu()
    ensures NormalizeRegion("서울 강남구") == "서울 강남"
  {
    ContainsAt("서울 강남구", "강남", 3);
    GangnamBeforeSeoul("서울 강남구");
  }

  /** 합정 and 연남 are aliases of 서울 홍대 (only 강남 is checked earlier). */
  lemma HongdaeAliases(input: string)
    requires !Contains(input, "강남")
    requires Contains(input, "합정") || Contains(input, "연남")
    ensures NormalizeRegion(input) == "서울 홍대"
  {
    var R := REGION_RULES;
    assert R[0].keywords == ["강남"];
    assert !Fires(R[0], input);
    assert R[1].keywords == ["홍대", "합정", "연남"];
    if Contains(input, "합정") {
      assert Contains(input, R[1].keywords[1]);
    } else {
      assert Contains(input, R[1].keywords[2]);
    }
    FirstMatchFirstHit(R, input, DEFAULT_REGION, 1);
  }

  /** 을지로 is an alias of 서울 명동 when no 강남 or 홍대 keyword occurs. */
  lemma MyeongdongAlias(input: string)
    requires !Contains(input, "강남")
    requires !Contains(input, "홍대") && !Contains(input, "합정") && !Contains(input, "연남")
    requires Contains(input, "을지로")
    ensures NormalizeRegion(input) == "서울 명동"
  {
    var R := REGION_RULES;
    assert R[0].keywords == ["강남"];
    assert !Fires(R[0], input);
    assert R[1].keywords == ["홍대", "합정", "연남"];
    assert !Fires(R[1], input);
    assert R[2].keywords == ["명동", "을지로"];
    assert Contains(input, R[2].keywords[1]);
    FirstMatchFirstHit(R, input, DEFAULT_REGION, 2);
  }

  /** 수원 and 성남 are aliases of 경기 when no Seoul keyword occurs. */
  lemma GyeonggiAliases(input: string)
    requires !Contains(input, "강남")
    requires !Contains(input, "홍대") && !Contains(input, "합정") && !Contains(input, "연남")
    requires !Contains(input, "명동") && !Contains(input, "을지로") && !Contains(input, "서울")
    requires Contains(input, "수원") || Contains(input, "성남")
    ensures NormalizeRegion(input) == "경기"
  {
    var R := REGION_RULES;
    assert R[0].keywords == ["강남"];
    assert !Fires(R[0], input);
    assert R[1].keywords == ["홍대", "합정", "연남"];
    assert !Fires(R[1], input);
    assert R[2].keywords == ["명동", "을지로"];
    assert !Fires(R[2], input);
    assert R[3].keywords == ["서울"];
    assert !Fires(R[3], input);
    assert R[4].keywords == ["경기", "수원", "성남"];
    if Contains(input, "수원") {
      assert Contains(input, R[4].keywords[1]);
    } else {
      assert Contains(input, R[4].keywords[2]);
    }
    FirstMatchFirstHit(R, input, DEFAULT_REGION, 4);
  }

  /** Plain "서울" passes the three Seoul-district rules and lands on 서울. */
  lemma SeoulIsSeoul()
    ensures NormalizeRegion("서울") == "서울"
  {
    var R := REGION_RULES;
    var s := "서울";
    assert R[0].keywords == ["강남"];
    NotContainsFirstChar(s, "강남");
    assert !Fires(R[0], s);
    assert R[1].keywords == ["홍대", "합정", "연남"];
    NotContainsFirstChar(s, "홍대");
    NotContainsFirstChar(s, "합정");
    NotContainsFirstChar(s, "연남");
    assert !Fires(R[1], s);
    assert R[2].keywords == ["명동", "을지로"];
    NotContainsFirstChar(s, "명동");
    NotContainsFirstChar(s, "을지로");
    assert !Fires(R[2], s);
    assert R[3].keywords == ["서울"];
    ContainsAt(s, "서울", 0);
    assert Contains(s, R[3].keywords[0]);
    FirstMatchFirstHit(R, s, DEFAULT_REGION, 3);
  }
}
