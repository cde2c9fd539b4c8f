/** The policy-fund matcher: listing records of the 기업마당 service are turned
    into funds (type, amount, requirements, deadline, description), filtered by
    the region named in the fund's title, cut to ten, and given a tip. The
    listing request itself goes through `BizinfoApi.SearchFunds`, whose HTTP
    call is a parameter. */
module PolicyFunds {
  import opened Wrappers
  import opened Text
  import opened Envelope
  import opened BizinfoApi

  // ------------------------------------------------------------- the records

  datatype FundType = Loan | Grant | Mentoring | Mixed

  /** The Korean label each fund type is shown with. */
  function FundTypeLabel(t: FundType): string {
    match t
    case Loan => "융자"
    case Grant => "보조금"
    case Mentoring => "멘토링"
    case Mixed => "복합"
  }

  datatype PolicyFund = PolicyFund(
    id: string, name: string, organization: string, amount: string, fundType: FundType,
    deadline: string, requirements: seq<string>, applyUrl: string, description: string)

  datatype Stage = PreStartup | EarlyStartup | Operating | Restart

  function StageLabel(s: Stage): string {
    match s
    case PreStartup => "예비창업"
    case EarlyStartup => "초기창업"
    case Operating => "운영중"
    case Restart => "재창업"
  }

  datatype FounderType = Youth | MiddleAged | Female | Disabled | General

  function FounderTypeLabel(f: FounderType): string {
    match f
    case Youth => "청년"
    case MiddleAged => "중장년"
    case Female => "여성"
    case Disabled => "장애인"
    case General => "일반"
  }

  // ------------------------------------------------------------ the fund type

  /** The type guessed from keywords, in priority order: a loan keyword in the
      summary or the title; else a subsidy keyword in either, or a voucher in
      the summary; else mentoring or education in the summary; else mixed. */
  function ClassifyFundType(summary: string, name: string): (t: FundType)
    ensures t == Loan <==> Contains(summary, "융자") || Contains(name, "융자")
    ensures t == Grant <==>
      && !(Contains(summary, "융자") || Contains(name, "융자"))
      && (Contains(summary, "보조금") || Contains(name, "보조금") || Contains(summary, "바우처"))
    ensures t == Mentoring <==>
      && !(Contains(summary, "융자") || Contains(name, "융자"))
      && !(Contains(summary, "보조금") || Contains(name, "보조금") || Contains(summary, "바우처"))
      && (Contains(summary, "멘토링") || Contains(summary, "교육"))
  {
    if Contains(summary, "융자") || Contains(name, "융자") then Loan
    else if Contains(summary, "보조금") || Contains(name, "보조금") || Contains(summary, "바우처") then Grant
    else if Contains(summary, "멘토링") || Contains(summary, "교육") then Mentoring
    else Mixed
  }

  /** The title is consulted for loans and subsidies only: a fund whose title
      alone mentions mentoring or a voucher is mixed. */
  lemma TitleOnlyForLoanAndGrant(summary: string, name: string)
    requires !Contains(summary, "융자") && !Contains(summary, "보조금") && !Contains(summary, "바우처")
    requires !Contains(summary, "멘토링") && !Contains(summary, "교육")
    requires !Contains(name, "융자") && !Contains(name, "보조금")
    ensures ClassifyFundType(summary, name) == Mixed
  {
  }

  // ---------------------------------------------------------- the requirements

  /** A hashtag and the requirement it adds. */
  datatype TagRule = TagRule(tag: string, requirement: string)

  /** The hashtags that become requirements, in the order they are listed. */
  const TAG_RULES: seq<TagRule> := [
    TagRule("청년", "청년"), TagRule("여성", "여성"), TagRule("중소기업", "중소기업"),
    TagRule("창업기업", "창업기업"), TagRule("예비창업", "예비창업자")]

  /** The fallback when nothing identifies the eligible applicants. */
  const NEEDS_CHECK: string := "공고문 확인 필요"

  /** The labels of the rules whose tag is one of `tags`, in rule order. */
  function FiredLabels(rules: seq<TagRule>, tags: seq<string>): (r: seq<string>)
    ensures |r| <= |rules|
    ensures forall l :: l in r <==> exists k :: 0 <= k < |rules| && rules[k].requirement == l && rules[k].tag in tags
    ensures (forall k :: 0 <= k < |rules| ==> rules[k].tag !in tags) ==> r == []
  {
    if |rules| == 0 then []
    else
      var rest := FiredLabels(rules[1..], tags);
      assert forall k :: 1 <= k < |rules| ==> rules[k] == rules[1..][k - 1];
      if rules[0].tag in tags then [rules[0].requirement] + rest else rest
  }

  /** Labels fire in rule order: the labels of two rule lists in a row are
      those of the first list followed by those of the second. */
  lemma {:induction false} FiredLabelsAppend(a: seq<TagRule>, b: seq<TagRule>, tags: seq<string>)
    ensures FiredLabels(a + b, tags) == FiredLabels(a, tags) + FiredLabels(b, tags)
  {
    if |a| == 0 {
      assert a + b == b;
    } else {
      assert (a + b)[0] == a[0] && (a + b)[1..] == a[1..] + b;
      FiredLabelsAppend(a[1..], b, tags);
    }
  }

  /** A single rule contributes its label exactly when its tag is present. */
  lemma FiredLabelsSingle(x: TagRule, tags: seq<string>)
    ensures FiredLabels([x], tags) == if x.tag in tags then [x.requirement] else []
  {
    assert [x][1..] == [];
  }

  /** Requirements from the comma-separated hashtags (pieces compared exactly,
      without trimming) followed by the target group when it is non-empty;
      the fallback alone when neither gives anything. Never empty. */
  function Requirements(hashtags: string, trgetNm: string): (r: seq<string>)
    ensures |r| >= 1
    ensures var fired := FiredLabels(TAG_RULES, Split(hashtags, ','));
      && (fired == [] && trgetNm == "" ==> r == [NEEDS_CHECK])
      && (fired != [] || trgetNm != "" ==> r == fired + (if trgetNm != "" then [trgetNm] else []))
    ensures forall l :: l in r ==> l == NEEDS_CHECK || l == trgetNm || exists k :: 0 <= k < |TAG_RULES| && TAG_RULES[k].requirement == l
  {
    var fired := FiredLabels(TAG_RULES, Split(hashtags, ','));
    var found := fired + (if trgetNm != "" then [trgetNm] else []);
    if |found| == 0 then [NEEDS_CHECK] else found
  }

  /** The hashtags "청년,창업기업" without a target group give the two requirements. */
  lemma RequirementsExample(youth: string, startup: string)
    requires youth == "청년" && startup == "창업기업"
    ensures Requirements(youth + "," + startup, "") == ["청년", "창업기업"]
  {
    SplitJoin([youth, startup], ',');
    assert Join([youth, startup], ',') == youth + "," + startup;
    var tags := [youth, startup];
    assert "여성" !in tags && "중소기업" !in tags && "예비창업" !in tags;
    assert FiredLabels(TAG_RULES[4..], tags) == [];
    assert FiredLabels(TAG_RULES[3..], tags) == ["창업기업"];
    assert FiredLabels(TAG_RULES[2..], tags) == ["창업기업"];
    assert FiredLabels(TAG_RULES[1..], tags) == ["창업기업"];
  }

  /** Pieces are not trimmed: " 청년" after a comma and a space is no tag,
      so hashtags "창업, 청년" without a target group fall back. */
  lemma UntrimmedTagIgnored(startup: string, youth: string)
    requires startup == "창업" && youth == " 청년"
    ensures Requirements(startup + "," + youth, "") == [NEEDS_CHECK]
  {
    var tags := [startup, youth];
    SplitJoin(tags, ',');
    assert Join(tags, ',') == startup + "," + youth;
    forall k | 0 <= k < |TAG_RULES|
      ensures TAG_RULES[k].tag !in tags
    {
      assert TAG_RULES[k].tag != startup;
      assert |TAG_RULES[k].tag| > 0 && TAG_RULES[k].tag[0] != ' ';
    }
  }

  // --------------------------------------------------------------- conversion

  const AMOUNT_FALLBACK: string := "공고문 참조"
  const BIZINFO_HOST: string := "https://www.bizinfo.go.kr"
  const DESCRIPTION_LENGTH: nat := 200
  const ELLIPSIS: string := "..."

  /** The amount is the first currency expression `amountOf` finds in the
      summary, or the fallback when it finds none. */
  function Amount(summary: string, amountOf: string -> Option<string>): (a: string)
    ensures amountOf(summary).None? ==> a == AMOUNT_FALLBACK
    ensures amountOf(summary).Some? ==> a == amountOf(summary).value
  {
    amountOf(summary).GetOr(AMOUNT_FALLBACK)
  }

  /** The organisation in charge, falling back to the executing one. */
  function Organization(jrsdInsttNm: string, excInsttNm: string): (o: string)
    ensures o == "" ==> jrsdInsttNm == "" && excInsttNm == ""
    ensures o == jrsdInsttNm || o == excInsttNm
    ensures jrsdInsttNm != "" ==> o == jrsdInsttNm
  {
    if jrsdInsttNm != "" then jrsdInsttNm else excInsttNm
  }

  /** At most the first 200 characters of the stripped summary, then "...". */
  function Description(summary: string): (d: string)
    ensures 3 <= |d| <= DESCRIPTION_LENGTH + 3
    ensures d[|d| - 3..] == ELLIPSIS
    ensures d[..|d| - 3] <= StripHtml(summary)
    ensures |d| - 3 == if |StripHtml(summary)| < DESCRIPTION_LENGTH then |StripHtml(summary)| else DESCRIPTION_LENGTH
  {
    var text := StripHtml(summary);
    var n := if |text| < DESCRIPTION_LENGTH then |text| else DESCRIPTION_LENGTH;
    var d := text[..n] + ELLIPSIS;
    assert d[..|d| - 3] == text[..n];
    d
  }

  /** The text in front of the "..." of a description is clean: no "&nbsp;",
      no tag shape, and single plain spaces only. */
  lemma DescriptionClean(summary: string)
    ensures var d := Description(summary);
      var body := d[..|d| - 3];
      NoNbsp(body) && NoTagLeft(body) && NoDoubleSpace(body) && OnlyPlainSpaces(body)
  {
    var text := StripHtml(summary);
    var n := |Description(summary)| - 3;
    assert Description(summary)[..n] == text[0..n];
    SliceKeeps(text, 0, n);
  }

  /** `convertBizinfoToFund`. */
  function ConvertBizinfoToFund(item: BizinfoItem, amountOf: string -> Option<string>): (f: PolicyFund)
    ensures f.id == item.pblancId && f.name == item.pblancNm
    ensures f.organization == Organization(item.jrsdInsttNm, item.excInsttNm)
    ensures f.amount == Amount(item.bsnsSumryCn, amountOf)
    ensures f.fundType == ClassifyFundType(item.bsnsSumryCn, item.pblancNm)
    ensures f.deadline == FormatDateRange(item.reqstBeginEndDe)
    ensures f.requirements == Requirements(item.hashtags, item.trgetNm) && |f.requirements| >= 1
    ensures f.applyUrl == BIZINFO_HOST + item.pblancUrl && BIZINFO_HOST <= f.applyUrl
    ensures f.description == Description(item.bsnsSumryCn)
  {
    PolicyFund(
      item.pblancId,
      item.pblancNm,
      Organization(item.jrsdInsttNm, item.excInsttNm),
      Amount(item.bsnsSumryCn, amountOf),
      ClassifyFundType(item.bsnsSumryCn, item.pblancNm),
      FormatDateRange(item.reqstBeginEndDe),
      Requirements(item.hashtags, item.trgetNm),
      BIZINFO_HOST + item.pblancUrl,
      Description(item.bsnsSumryCn))
  }

  /** Every item of a listing, converted, in order. */
  function ConvertAll(items: seq<BizinfoItem>, amountOf: string -> Option<string>): (funds: seq<PolicyFund>)
    ensures |funds| == |items|
    ensures forall i :: 0 <= i < |items| ==> funds[i] == ConvertBizinfoToFund(items[i], amountOf)
  {
    seq(|items|, i requires 0 <= i < |items| => ConvertBizinfoToFund(items[i], amountOf))
  }

  // ------------------------------------------------------ the region filter

  /** The region names looked for in a fund's title, in search order. */
  const REGION_KEYWORDS: seq<string> := [
    "서울", "부산", "대구", "인천", "광주", "대전", "울산", "세종", "경기",
    "강원", "충북", "충남", "전북", "전남", "경북", "경남", "제주"]

  /** `keywords.find(k => name.includes(k))`: the first keyword in list order
      that occurs in the name, if any. */
  function FindKeyword(keywords: seq<string>, name: string): (r: Option<string>)
    ensures r.None? <==> forall i :: 0 <= i < |keywords| ==> !Contains(name, keywords[i])
    ensures r.Some? ==> exists i ::
      && 0 <= i < |keywords| && keywords[i] == r.value && Contains(name, r.value)
      && (forall j :: 0 <= j < i ==> !Contains(name, keywords[j]))
  {
    if |keywords| == 0 then None
    else if Contains(name, keywords[0]) then Some(keywords[0])
    else
      var r := FindKeyword(keywords[1..], name);
      assert forall i :: 1 <= i < |keywords| ==> keywords[i] == keywords[1..][i - 1];
      if r.Some? then
        var i :| 0 <= i < |keywords[1..]| && keywords[1..][i] == r.value && Contains(name, r.value)
                 && (forall j :: 0 <= j < i ==> !Contains(name, keywords[1..][j]));
        assert keywords[i + 1] == r.value;
        r
      else r
  }

  /** A fund is kept when its title names no region, or when the first region
      it names occurs in the user's region text. Only the title is inspected. */
  function KeepForRegion(fundName: string, region: string): (keep: bool)
    ensures (forall i :: 0 <= i < |REGION_KEYWORDS| ==> !Contains(fundName, REGION_KEYWORDS[i])) ==> keep
  {
    match FindKeyword(REGION_KEYWORDS, fundName)
    case None => true
    case Some(k) => Contains(region, k)
  }

  /** The filter decided by the first region keyword in list order. */
  lemma {:induction false} KeepDecidedByFirstKeyword(fundName: string, region: string, i: int)
    requires 0 <= i < |REGION_KEYWORDS| && Contains(fundName, REGION_KEYWORDS[i])
    requires forall j :: 0 <= j < i ==> !Contains(fundName, REGION_KEYWORDS[j])
    ensures KeepForRegion(fundName, region) <==> Contains(region, REGION_KEYWORDS[i])
  {
    var r := FindKeyword(REGION_KEYWORDS, fundName);
    var i' :| 0 <= i' < |REGION_KEYWORDS| && REGION_KEYWORDS[i'] == r.value && Contains(fundName, r.value)
              && (forall j :: 0 <= j < i' ==> !Contains(fundName, REGION_KEYWORDS[j]));
    assert i' == i;
  }

  /** A dropped fund names, in its title, a region the user's region text
      does not mention. */
  lemma DroppedNamesOtherRegion(fundName: string, region: string)
    requires !KeepForRegion(fundName, region)
    ensures exists i :: 0 <= i < |REGION_KEYWORDS| && Contains(fundName, REGION_KEYWORDS[i]) && !Contains(region, REGION_KEYWORDS[i])
  {
    var k := FindKeyword(REGION_KEYWORDS, fundName);
    var i :| 0 <= i < |REGION_KEYWORDS| && REGION_KEYWORDS[i] == k.value && Contains(fundName, k.value);
  }

  /** A Busan programme is dropped for a user in Seoul. */
  lemma BusanFundDroppedInSeoul(fundName: string, region: string)
    requires fundName == "부산 청년창업 지원" && region == "서울"
    ensures !KeepForRegion(fundName, region)
  {
    var busan := REGION_KEYWORDS[1];
    assert busan == "부산";
    assert Contains(fundName, busan) by {
      assert fundName[0..2] == busan;
      ContainsAt(fundName, busan, 0);
    }
    assert !Contains(fundName, REGION_KEYWORDS[0]) by {
      assert '서' !in fundName;
      NotContainsFirstChar(fundName, REGION_KEYWORDS[0]);
    }
    assert !Contains(region, busan) by {
      assert '부' !in region;
      NotContainsFirstChar(region, busan);
    }
    KeepDecidedByFirstKeyword(fundName, region, 1);
  }

  /** A Seoul programme is kept for a user in "서울 강남". */
  lemma SeoulFundKeptInGangnam(fundName: string, region: string)
    requires fundName == "서울 창업 지원" && region == "서울 강남"
    ensures KeepForRegion(fundName, region)
  {
    assert fundName[0..2] == "서울" == REGION_KEYWORDS[0] && region[0..2] == "서울";
    ContainsAt(fundName, "서울", 0);
    ContainsAt(region, "서울", 0);
    KeepDecidedByFirstKeyword(fundName, region, 0);
  }

  /** `filterByUserConditions`: the funds kept for the user's region, in their
      original order. The founder type is not consulted. */
  function FilterByUserConditions(funds: seq<PolicyFund>, region: string): (r: seq<PolicyFund>)
    ensures |r| <= |funds|
  {
    if |funds| == 0 then []
    else
      var rest := FilterByUserConditions(funds[1..], region);
      if KeepForRegion(funds[0].name, region) then [funds[0]] + rest else rest
  }

  /** The filter keeps exactly the funds that qualify for the region. */
  lemma {:induction false} FilterMembers(funds: seq<PolicyFund>, region: string)
    ensures forall f :: f in FilterByUserConditions(funds, region) <==> f in funds && KeepForRegion(f.name, region)
  {
    if |funds| > 0 {
      FilterMembers(funds[1..], region);
      assert forall f :: f in funds <==> f == funds[0] || f in funds[1..];
    }
  }

  /** Filtering distributes over concatenation, so the kept funds keep their order. */
  lemma {:induction false} FilterAppend(a: seq<PolicyFund>, b: seq<PolicyFund>, region: string)
    ensures FilterByUserConditions(a + b, region)
         == FilterByUserConditions(a, region) + FilterByUserConditions(b, region)
  {
    if |a| > 0 {
      FilterAppend(a[1..], b, region);
      var ab := a + b;
      assert ab[0] == a[0] && ab[1..] == a[1..] + b;
      var head := if KeepForRegion(a[0].name, region) then [a[0]] else [];
      assert FilterByUserConditions(ab, region) == head + FilterByUserConditions(ab[1..], region);
      assert FilterByUserConditions(a, region) == head + FilterByUserConditions(a[1..], region);
    } else {
      assert a + b == b;
    }
  }

  /** When every fund qualifies, the filter returns the listing unchanged. */
  lemma {:induction false} FilterKeepsAll(funds: seq<PolicyFund>, region: string)
    requires forall i :: 0 <= i < |funds| ==> KeepForRegion(funds[i].name, region)
    ensures FilterByUserConditions(funds, region) == funds
  {
    if |funds| > 0 {
      FilterKeepsAll(funds[1..], region);
      assert funds == [funds[0]] + funds[1..];
    }
  }

  // ------------------------------------------------------------------ the tip

  /** The advice attached to a recommendation. */
  datatype Tip =
    | SearchDirectly
    | PreferMentoring
    | PrepareGrantAndLoan
    | ApplyToSeveral
    | FoundCount(count: nat)

  const SEARCH_DIRECTLY_TEXT: string :=
    "현재 조건에 맞는 지원사업이 없습니다. 조건을 변경하거나 기업마당(bizinfo.go.kr)에서 직접 검색해보세요."
  const PREFER_MENTORING_TEXT: string :=
    "예비창업자는 멘토링이 포함된 프로그램을 추천드립니다. 창업 성공률을 높일 수 있습니다."
  const GRANT_AND_LOAN_TEXT: string :=
    "보조금은 상환 의무가 없어 유리하지만 경쟁률이 높습니다. 융자와 보조금을 함께 준비하세요."
  const APPLY_TO_SEVERAL_TEXT: string :=
    "청년 대상 지원사업이 많습니다. 여러 개를 동시에 신청하면 선정 확률이 높아집니다."
  const FOUND_COUNT_SUFFIX: string := "개의 지원사업을 찾았습니다. 신청 기한을 확인하고 서류를 미리 준비하세요."

  /** The text of a tip; the last one starts with the number of funds. */
  function TipText(t: Tip): (s: string)
    ensures t.FoundCount? ==> s == Digits(t.count) + FOUND_COUNT_SUFFIX
  {
    match t
    case SearchDirectly => SEARCH_DIRECTLY_TEXT
    case PreferMentoring => PREFER_MENTORING_TEXT
    case PrepareGrantAndLoan => GRANT_AND_LOAN_TEXT
    case ApplyToSeveral => APPLY_TO_SEVERAL_TEXT
    case FoundCount(n) => Digits(n) + FOUND_COUNT_SUFFIX
  }

  /** `funds.some(f => types includes f.fundType)`, scanning from the front. */
  function AnyOfType(funds: seq<PolicyFund>, types: set<FundType>): (found: bool)
    ensures found <==> exists i :: 0 <= i < |funds| && funds[i].fundType in types
  {
    if |funds| == 0 then false
    else if funds[0].fundType in types then true
    else
      var found := AnyOfType(funds[1..], types);
      assert found ==> exists i :: 0 <= i < |funds| && funds[i].fundType in types by {
        if found {
          var i :| 0 <= i < |funds[1..]| && funds[1..][i].fundType in types;
          assert funds[i + 1] == funds[1..][i];
        }
      }
      assert (exists i :: 0 <= i < |funds| && funds[i].fundType in types) ==> found by {
        if exists i :: 0 <= i < |funds| && funds[i].fundType in types {
          var i :| 0 <= i < |funds| && funds[i].fundType in types;
          assert i > 0 && funds[1..][i - 1] == funds[i];
        }
      }
      found
  }

  /** Some fund is a mentoring or mixed programme. */
  function HasMentoring(funds: seq<PolicyFund>): (found: bool)
    ensures found <==> exists i :: 0 <= i < |funds| && (funds[i].fundType == Mentoring || funds[i].fundType == Mixed)
  {
    AnyOfType(funds, {Mentoring, Mixed})
  }

  /** Some fund is a subsidy. */
  function HasGrant(funds: seq<PolicyFund>): (found: bool)
    ensures found <==> exists i :: 0 <= i < |funds| && funds[i].fundType == Grant
  {
    AnyOfType(funds, {Grant})
  }

  /** Some fund is a loan. */
  function HasLoan(funds: seq<PolicyFund>): (found: bool)
    ensures found <==> exists i :: 0 <= i < |funds| && funds[i].fundType == Loan
  {
    AnyOfType(funds, {Loan})
  }

  /** `generateTip`: the first rule that applies, in this order: no funds; a
      pre-startup founder with a mentoring or mixed fund; both a subsidy and a
      loan; a young founder; otherwise the number of funds found. */
  function GenerateTip(funds: seq<PolicyFund>, stage: Stage, founderType: Option<FounderType>): (t: Tip)
    ensures t == SearchDirectly <==> |funds| == 0
    ensures t == PreferMentoring <==> |funds| > 0 && stage == PreStartup && HasMentoring(funds)
    ensures t == PrepareGrantAndLoan <==>
      && |funds| > 0 && !(stage == PreStartup && HasMentoring(funds))
      && HasGrant(funds) && HasLoan(funds)
    ensures t == ApplyToSeveral <==>
      && |funds| > 0 && !(stage == PreStartup && HasMentoring(funds))
      && !(HasGrant(funds) && HasLoan(funds)) && founderType == Some(Youth)
    ensures t.FoundCount? ==> t.count == |funds| > 0
  {
    if |funds| == 0 then SearchDirectly
    else if stage == PreStartup && HasMentoring(funds) then PreferMentoring
    else if HasGrant(funds) && HasLoan(funds) then PrepareGrantAndLoan
    else if founderType == Some(Youth) then ApplyToSeveral
    else FoundCount(|funds|)
  }

  /** Only a listing consisting of loans alone can hide the mentoring advice
      from a pre-startup founder, since every other type but subsidy counts
      as mentoring or mixed. */
  lemma PreStartupTip(funds: seq<PolicyFund>, founderType: Option<FounderType>)
    requires |funds| > 0
    requires exists i :: 0 <= i < |funds| && funds[i].fundType != Loan && funds[i].fundType != Grant
    ensures GenerateTip(funds, PreStartup, founderType) == PreferMentoring
  {
    var i :| 0 <= i < |funds| && funds[i].fundType != Loan && funds[i].fundType != Grant;
    assert funds[i].fundType == Mentoring || funds[i].fundType == Mixed;
  }

  // --------------------------------------------------------- the whole tool

  datatype UserProfile = UserProfile(
    businessType: string, stage: Stage, region: string, founderType: Option<FounderType>)

  datatype PolicyFundRecommendation = PolicyFundRecommendation(
    userProfile: UserProfile, matchedFunds: seq<PolicyFund>, totalCount: int, tip: Tip)

  const MAX_MATCHED: nat := 10
  const FAILURE_CODE: string := "POLICY_FUND_FAILED"
  const FAILURE_PREFIX: string := "정책지원금 조회 중 오류가 발생했습니다: "
  const FAILURE_SUGGESTION: string := "기업마당(bizinfo.go.kr)에서 직접 검색해보세요."
  const REQUESTED_COUNT: int := 30

  /** The listing search the tool issues: the startup search with the user's
      region, the founder type's label, and 30 results. */
  function StartupSearch(apiKey: string, region: string, founderType: Option<FounderType>,
                         fetch: SearchParams -> Reply): (r: Result<seq<BizinfoItem>, FetchError>)
    ensures apiKey == "" <==> r == Failure(MissingKey)
    ensures apiKey != "" ==>
      var typeName := if founderType.Some? then Some(FounderTypeLabel(founderType.value)) else None;
      var reply := fetch(SearchParams(apiKey, "json", REQUESTED_COUNT, Some("PLD0006"),
                                      Some(StartupHashtags(region, typeName))));
      && (r.Success? <==> reply.Received? && reply.ok && (reply.body.reqErr.None? || reply.body.reqErr.value == ""))
      && (r.Success? ==> r.value == reply.body.jsonArray.GetOr([]))
  {
    var typeName := if founderType.Some? then Some(FounderTypeLabel(founderType.value)) else None;
    StartupParams(apiKey, region, typeName, Some(REQUESTED_COUNT));
    SearchFunds(apiKey, StartupOptions(region, typeName, Some(REQUESTED_COUNT)), fetch)
  }

  /** The matched funds: the converted listing filtered for the region, cut to ten. */
  function MatchFunds(items: seq<BizinfoItem>, region: string, amountOf: string -> Option<string>)
    : (funds: seq<PolicyFund>)
    ensures |funds| <= MAX_MATCHED
    ensures funds <= FilterByUserConditions(ConvertAll(items, amountOf), region)
    ensures |FilterByUserConditions(ConvertAll(items, amountOf), region)| >= MAX_MATCHED ==> |funds| == MAX_MATCHED
    ensures |FilterByUserConditions(ConvertAll(items, amountOf), region)| <= MAX_MATCHED ==>
      funds == FilterByUserConditions(ConvertAll(items, amountOf), region)
    ensures forall f :: f in funds ==> KeepForRegion(f.name, region)
  {
    var kept := FilterByUserConditions(ConvertAll(items, amountOf), region);
    FilterMembers(ConvertAll(items, amountOf), region);
    var funds := if |kept| <= MAX_MATCHED then kept else kept[..MAX_MATCHED];
    assert forall f :: f in funds ==> f in kept;
    funds
  }

  /** `recommendPolicyFunds`. The API key, the HTTP call and the currency
      extractor are parameters; the founder's age is accepted and ignored.
      A failed search becomes the POLICY_FUND_FAILED error carrying the
      search's message; a successful one echoes the user's profile and
      returns at most ten funds, their count and the tip. */
  function RecommendPolicyFunds(
    businessType: string, stage: Stage, region: string, founderType: Option<FounderType>,
    founderAge: Option<int>, apiKey: string, fetch: SearchParams -> Reply,
    amountOf: string -> Option<string>): (r: ApiResult<PolicyFundRecommendation>)
    ensures r.Success? <==> StartupSearch(apiKey, region, founderType, fetch).Success?
    ensures r.Failure? ==>
      && r.error.code == FAILURE_CODE
      && r.error.message == FAILURE_PREFIX + ErrorMessage(StartupSearch(apiKey, region, founderType, fetch).error)
      && r.error.suggestion == FAILURE_SUGGESTION
    ensures r.Success? ==>
      && r.value.userProfile == UserProfile(businessType, stage, region, founderType)
      && r.value.matchedFunds == MatchFunds(StartupSearch(apiKey, region, founderType, fetch).value, region, amountOf)
      && r.value.totalCount == |r.value.matchedFunds| <= MAX_MATCHED
      && r.value.tip == GenerateTip(r.value.matchedFunds, stage, founderType)
  {
    match StartupSearch(apiKey, region, founderType, fetch)
    case Failure(e) => Failure(ApiError(FAILURE_CODE, FAILURE_PREFIX + ErrorMessage(e), FAILURE_SUGGESTION))
    case Success(items) =>
      var matched := MatchFunds(items, region, amountOf);
      Success(PolicyFundRecommendation(
        UserProfile(businessType, stage, region, founderType),
        matched, |matched|, GenerateTip(matched, stage, founderType)))
  }

  /** Without an API key the tool fails with POLICY_FUND_FAILED and the
      missing-key message, whatever the network would have answered. */
  lemma MissingKeyFails(
    businessType: string, stage: Stage, region: string, founderType: Option<FounderType>,
    founderAge: Option<int>, fetch: SearchParams -> Reply, amountOf: string -> Option<string>)
    ensures var r := RecommendPolicyFunds(businessType, stage, region, founderType, founderAge, "", fetch, amountOf);
      r.Failure? && r.error.code == FAILURE_CODE && r.error.message == FAILURE_PREFIX + MISSING_KEY_MESSAGE
  {
  }

  /** Of ten or more kept funds, the matched ones are the first ten. */
  lemma MatchFirstTen(items: seq<BizinfoItem>, region: string, amountOf: string -> Option<string>)
    ensures var kept := FilterByUserConditions(ConvertAll(items, amountOf), region);
      |kept| >= MAX_MATCHED ==> MatchFunds(items, region, amountOf) == kept[..MAX_MATCHED]
  {
    var matched := MatchFunds(items, region, amountOf);
    if |FilterByUserConditions(ConvertAll(items, amountOf), region)| >= MAX_MATCHED {
      assert |matched| == MAX_MATCHED;
    }
  }

  /** When the search succeeds with a listing of which at least ten funds
      survive the region filter, exactly ten are returned: the first ten in
      listing order. */
  lemma TenOfMany(
    businessType: string, stage: Stage, region: string, founderType: Option<FounderType>,
    founderAge: Option<int>, apiKey: string, fetch: SearchParams -> Reply,
    amountOf: string -> Option<string>, items: seq<BizinfoItem>)
    ensures var kept := FilterByUserConditions(ConvertAll(items, amountOf), region);
      StartupSearch(apiKey, region, founderType, fetch) == Success(items) && |kept| >= MAX_MATCHED ==>
      var r := RecommendPolicyFunds(businessType, stage, region, founderType, founderAge, apiKey, fetch, amountOf);
      && r.Success?
      && r.value.totalCount == MAX_MATCHED
      && r.value.matchedFunds == kept[..MAX_MATCHED]
  {
    var kept := FilterByUserConditions(ConvertAll(items, amountOf), region);
    if StartupSearch(apiKey, region, founderType, fetch) == Success(items) && |kept| >= MAX_MATCHED {
      MatchFirstTen(items, region, amountOf);
    }
  }
}
