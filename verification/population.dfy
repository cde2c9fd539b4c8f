/** The population insight rules of `analyzePopulation`: the area record comes
    from the table of known commercial districts or, failing that, from the
    pattern of the inferred district type placed at geocoded coordinates; an
    optional business-fit score is computed when the business type has a fit
    profile; and fixed threshold rules produce an ordered list of insights.
    The district table, the geocoder, the district-type inference, the
    pattern table, the set of business types with a fit profile and the fit
    score are parameters. */
module Population {
  import opened Wrappers
  import opened Envelope
  import opened StartupCostData

  // ------------------------------------------------------------- the records

  datatype Coordinates = Coordinates(latitude: real, longitude: real)

  /** Head counts of an area. */
  datatype Headcount = Headcount(total: int, residential: int, working: int, floating: int)

  /** Percentages of the age groups the rules read. */
  datatype AgeDistribution = AgeDistribution(teens: real, twenties: real, thirties: real, forties: real)

  /** Percentages of men and women. */
  datatype GenderRatio = GenderRatio(male: real, female: real)

  /** Percentages of the day's foot traffic in the periods the rules read. */
  datatype TimeDistribution = TimeDistribution(lunch: real, evening: real, night: real)

  /** The population profile of a district type, without a location. */
  datatype AreaPattern = AreaPattern(
    population: Headcount, ageDistribution: AgeDistribution, genderRatio: GenderRatio,
    timeDistribution: TimeDistribution, characteristics: seq<string>)

  /** The population profile of an area at a location. */
  datatype AreaData = AreaData(
    coordinates: Coordinates, population: Headcount, ageDistribution: AgeDistribution,
    genderRatio: GenderRatio, timeDistribution: TimeDistribution, characteristics: seq<string>)

  /** The fit of a business type to an area; only the score is read. */
  datatype BusinessFit = BusinessFit(score: int)

  /** The collaborators the analysis consults. */
  datatype PopulationEnv = PopulationEnv(
    findAreaData: string -> Option<AreaData>,
    geocode: string -> Option<Coordinates>,
    inferAreaType: string -> string,
    areaPattern: string -> AreaPattern,
    fitProfiles: set<string>,
    fitScore: (AreaData, string) -> BusinessFit)

  // -------------------------------------------------------------- the rules

  /** The insights, one per rule. */
  datatype Insight =
    | OfficeArea
    | ResidentialArea
    | HighFloating
    | YoungCrowd
    | PrimeAgeCrowd
    | FemaleLeaning
    | MaleLeaning
    | LunchPeak
    | EveningPeak
    | NightTraffic
    | HighFit(businessType: string, score: int)
    | LowFit(businessType: string, score: int)

  const RULE_COUNT: nat := 12
  const HIGH_FIT_SCORE: int := 70
  const LOW_FIT_SCORE: int := 50

  /** The position of an insight's rule in the rule chain. */
  function Rank(i: Insight): (k: nat)
    ensures k < RULE_COUNT
  {
    match i
    case OfficeArea => 0
    case ResidentialArea => 1
    case HighFloating => 2
    case YoungCrowd => 3
    case PrimeAgeCrowd => 4
    case FemaleLeaning => 5
    case MaleLeaning => 6
    case LunchPeak => 7
    case EveningPeak => 8
    case NightTraffic => 9
    case HighFit(_, _) => 10
    case LowFit(_, _) => 11
  }

  /** Whether the rule that contributes `x` fires (the fields of the fit
      insights play no part). The residential rule is the else-branch of the
      office rule, and the low-fit rule the else-branch of the high-fit rule. */
  function Holds(x: Insight, a: AreaData, fit: Option<BusinessFit>): (h: bool)
    ensures x == ResidentialArea && h ==> a.population.working <= a.population.residential
    ensures (x.HighFit? || x.LowFit?) && h ==> fit.Some?
    ensures x.LowFit? && h ==> fit.value.score < LOW_FIT_SCORE && fit.value.score < HIGH_FIT_SCORE
  {
    var p := a.population;
    match x
    case OfficeArea => p.working > p.residential
    case ResidentialArea => !(p.working > p.residential) && p.residential > p.working * 2
    case HighFloating => p.floating as real > p.total as real * 0.4
    case YoungCrowd => a.ageDistribution.twenties + a.ageDistribution.teens > 50.0
    case PrimeAgeCrowd => a.ageDistribution.thirties + a.ageDistribution.forties > 50.0
    case FemaleLeaning => a.genderRatio.female > 55.0
    case MaleLeaning => a.genderRatio.male > 55.0
    case LunchPeak => a.timeDistribution.lunch > 25.0
    case EveningPeak => a.timeDistribution.evening > 30.0
    case NightTraffic => a.timeDistribution.night > 15.0
    case HighFit(_, _) => fit.Some? && fit.value.score >= HIGH_FIT_SCORE
    case LowFit(_, _) => fit.Some? && !(fit.value.score >= HIGH_FIT_SCORE) && fit.value.score < LOW_FIT_SCORE
  }

  /** The insight rule `k` contributes; the fit insights quote the business
      type as the user wrote it and the score. */
  function InsightAt(k: nat, businessType: string, fit: Option<BusinessFit>): (i: Insight)
    requires k < RULE_COUNT
    ensures Rank(i) == k
  {
    var score := if fit.Some? then fit.value.score else 0;
    match k
    case 0 => OfficeArea
    case 1 => ResidentialArea
    case 2 => HighFloating
    case 3 => YoungCrowd
    case 4 => PrimeAgeCrowd
    case 5 => FemaleLeaning
    case 6 => MaleLeaning
    case 7 => LunchPeak
    case 8 => EveningPeak
    case 9 => NightTraffic
    case 10 => HighFit(businessType, score)
    case _ => LowFit(businessType, score)
  }

  /** The insights of rules `k` onwards, in rule order: strictly increasing
      ranks, and exactly the insights of the rules that fire. */
  function InsightsFrom(k: nat, a: AreaData, businessType: string, fit: Option<BusinessFit>): (r: seq<Insight>)
    requires k <= RULE_COUNT
    ensures |r| <= RULE_COUNT - k
    ensures forall i :: 0 <= i < |r| ==> k <= Rank(r[i])
    ensures forall i, j :: 0 <= i < j < |r| ==> Rank(r[i]) < Rank(r[j])
    decreases RULE_COUNT - k
  {
    if k == RULE_COUNT then []
    else
      var rest := InsightsFrom(k + 1, a, businessType, fit);
      var x := InsightAt(k, businessType, fit);
      if Holds(x, a, fit) then [x] + rest else rest
  }

  /** Every insight of rules `k` onwards comes from a rule that fires. */
  lemma {:induction false} InsightsFromSound(k: nat, a: AreaData, businessType: string, fit: Option<BusinessFit>)
    requires k <= RULE_COUNT
    ensures var r := InsightsFrom(k, a, businessType, fit);
      forall i :: 0 <= i < |r| ==> Holds(r[i], a, fit)
    decreases RULE_COUNT - k
  {
    if k < RULE_COUNT {
      var r := InsightsFrom(k, a, businessType, fit);
      var rest := InsightsFrom(k + 1, a, businessType, fit);
      var x := InsightAt(k, businessType, fit);
      InsightsFromSound(k + 1, a, businessType, fit);
      if Holds(x, a, fit) {
        assert r == [x] + rest;
      } else {
        assert r == rest;
      }
    }
  }

  /** Rule `k`'s insight heads the insights of rules `k` onwards exactly when rule `k` fires. */
  lemma InsightsFromHead(k: nat, a: AreaData, businessType: string, fit: Option<BusinessFit>)
    requires k < RULE_COUNT
    ensures InsightAt(k, businessType, fit) in InsightsFrom(k, a, businessType, fit)
        <==> Holds(InsightAt(k, businessType, fit), a, fit)
  {
    var rest := InsightsFrom(k + 1, a, businessType, fit);
    assert forall i :: 0 <= i < |rest| ==> Rank(rest[i]) != k;
  }

  /** A later rule's insight is unaffected by whether rule `k` fires. */
  lemma InsightsFromSkip(j: nat, k: nat, a: AreaData, businessType: string, fit: Option<BusinessFit>)
    requires k < j < RULE_COUNT
    ensures InsightAt(j, businessType, fit) in InsightsFrom(k, a, businessType, fit)
        <==> InsightAt(j, businessType, fit) in InsightsFrom(k + 1, a, businessType, fit)
  {
    assert Rank(InsightAt(k, businessType, fit)) != Rank(InsightAt(j, businessType, fit));
  }

  /** The insight of rule `j` is among those of rules `k` onwards exactly when rule `j` fires. */
  lemma {:induction false} InsightsFromHas(j: nat, k: nat, a: AreaData, businessType: string, fit: Option<BusinessFit>)
    requires k <= j < RULE_COUNT
    ensures InsightAt(j, businessType, fit) in InsightsFrom(k, a, businessType, fit)
        <==> Holds(InsightAt(j, businessType, fit), a, fit)
    decreases RULE_COUNT - k
  {
    if j == k {
      InsightsFromHead(k, a, businessType, fit);
    } else {
      InsightsFromHas(j, k + 1, a, businessType, fit);
      InsightsFromSkip(j, k, a, businessType, fit);
    }
  }

  /** All insights, in rule order: at most one per rule, ranks strictly increasing. */
  function Insights(a: AreaData, businessType: string, fit: Option<BusinessFit>): (r: seq<Insight>)
    ensures |r| <= RULE_COUNT
    ensures forall i, j :: 0 <= i < j < |r| ==> Rank(r[i]) < Rank(r[j])
  {
    InsightsFrom(0, a, businessType, fit)
  }

  /** Every insight reported comes from a rule that fires. */
  lemma InsightsSound(a: AreaData, businessType: string, fit: Option<BusinessFit>)
    ensures var r := Insights(a, businessType, fit);
      forall i :: 0 <= i < |r| ==> Holds(r[i], a, fit)
  {
    var r := Insights(a, businessType, fit);
    InsightsFromSound(0, a, businessType, fit);
    assert r == InsightsFrom(0, a, businessType, fit);
  }

  /** The insight of rule `k` is present exactly when rule `k` fires. */
  lemma InsightPresent(a: AreaData, businessType: string, fit: Option<BusinessFit>, k: nat)
    requires k < RULE_COUNT
    ensures InsightAt(k, businessType, fit) in Insights(a, businessType, fit)
        <==> Holds(InsightAt(k, businessType, fit), a, fit)
  {
    InsightsFromHas(k, 0, a, businessType, fit);
  }

  /** The area-type rules: the office insight exactly when more people work
      than live there; the residential one exactly when, otherwise, residents
      outnumber workers two to one; never both. */
  lemma AreaTypeRules(a: AreaData, businessType: string, fit: Option<BusinessFit>)
    ensures var r := Insights(a, businessType, fit);
      var p := a.population;
      && (OfficeArea in r <==> p.working > p.residential)
      && (ResidentialArea in r <==> !(p.working > p.residential) && p.residential > 2 * p.working)
      && !(OfficeArea in r && ResidentialArea in r)
  {
    InsightPresent(a, businessType, fit, 0);
    InsightPresent(a, businessType, fit, 1);
  }

  /** The floating-population rule: more than 40% of the total. */
  lemma FloatingRule(a: AreaData, businessType: string, fit: Option<BusinessFit>)
    ensures HighFloating in Insights(a, businessType, fit)
        <==> a.population.floating as real > 0.4 * a.population.total as real
  {
    InsightPresent(a, businessType, fit, 2);
  }

  /** The age and gender rules, each on a strict threshold. */
  lemma AgeAndGenderRules(a: AreaData, businessType: string, fit: Option<BusinessFit>)
    ensures var r := Insights(a, businessType, fit);
      && (YoungCrowd in r <==> a.ageDistribution.teens + a.ageDistribution.twenties > 50.0)
      && (PrimeAgeCrowd in r <==> a.ageDistribution.thirties + a.ageDistribution.forties > 50.0)
      && (FemaleLeaning in r <==> a.genderRatio.female > 55.0)
      && (MaleLeaning in r <==> a.genderRatio.male > 55.0)
  {
    InsightPresent(a, businessType, fit, 3);
    InsightPresent(a, businessType, fit, 4);
    InsightPresent(a, businessType, fit, 5);
    InsightPresent(a, businessType, fit, 6);
  }

  /** The time-of-day rules, each on a strict threshold. */
  lemma TimeRules(a: AreaData, businessType: string, fit: Option<BusinessFit>)
    ensures var r := Insights(a, businessType, fit);
      && (LunchPeak in r <==> a.timeDistribution.lunch > 25.0)
      && (EveningPeak in r <==> a.timeDistribution.evening > 30.0)
      && (NightTraffic in r <==> a.timeDistribution.night > 15.0)
  {
    InsightPresent(a, businessType, fit, 7);
    InsightPresent(a, businessType, fit, 8);
    InsightPresent(a, businessType, fit, 9);
  }

  /** The fit rules: with a score of 70 or more the high-fit insight quoting
      the business type and the score, below 50 the low-fit one. */
  lemma FitRules(a: AreaData, businessType: string, fit: Option<BusinessFit>)
    ensures var r := Insights(a, businessType, fit);
      && (fit.Some? && fit.value.score >= HIGH_FIT_SCORE ==> HighFit(businessType, fit.value.score) in r)
      && (fit.Some? && fit.value.score < LOW_FIT_SCORE ==> LowFit(businessType, fit.value.score) in r)
  {
    InsightPresent(a, businessType, fit, 10);
    InsightPresent(a, businessType, fit, 11);
  }

  /** Without a score, or with a score from 50 to 69, there is no fit insight. */
  lemma NoFitInsight(a: AreaData, businessType: string, fit: Option<BusinessFit>)
    requires fit.None? || LOW_FIT_SCORE <= fit.value.score < HIGH_FIT_SCORE
    ensures var r := Insights(a, businessType, fit);
      forall i :: 0 <= i < |r| ==> !r[i].HighFit? && !r[i].LowFit?
  {
    var r := Insights(a, businessType, fit);
    InsightsSound(a, businessType, fit);
    forall i | 0 <= i < |r|
      ensures !r[i].HighFit? && !r[i].LowFit?
    {
      assert Holds(r[i], a, fit);
    }
  }

  // ------------------------------------------------------------ the analysis

  datatype PopulationAnalysis = PopulationAnalysis(
    name: string, address: string, coordinates: Coordinates, population: Headcount,
    timeDistribution: TimeDistribution, ageDistribution: AgeDistribution, genderRatio: GenderRatio,
    businessFit: Option<BusinessFit>, characteristics: seq<string>, insights: seq<Insight>)

  const LOCATION_NOT_FOUND: string := "LOCATION_NOT_FOUND"
  const NOT_FOUND_PREFIX: string := "위치를 찾을 수 없습니다: "
  const NOT_FOUND_SUGGESTION: string :=
    "강남역, 홍대입구, 신촌, 건대입구, 명동, 이태원, 여의도, 잠실, 판교, 해운대, 서면 등 주요 상권명을 입력해주세요."

  /** A district-type pattern placed at the given coordinates. */
  function Place(p: AreaPattern, c: Coordinates): AreaData {
    AreaData(c, p.population, p.ageDistribution, p.genderRatio, p.timeDistribution, p.characteristics)
  }

  /** The area record: the known district's record, else the inferred
      district type's pattern at the geocoded coordinates, else nothing. */
  function ResolveArea(location: string, env: PopulationEnv): (r: Option<AreaData>)
    ensures env.findAreaData(location).Some? ==> r == env.findAreaData(location)
    ensures r.None? <==> env.findAreaData(location).None? && env.geocode(location).None?
    ensures env.findAreaData(location).None? && r.Some? ==>
      var p := env.areaPattern(env.inferAreaType(location));
      && r.value.coordinates == env.geocode(location).value
      && r.value.population == p.population
      && r.value.ageDistribution == p.ageDistribution
      && r.value.genderRatio == p.genderRatio
      && r.value.timeDistribution == p.timeDistribution
      && r.value.characteristics == p.characteristics
  {
    match env.findAreaData(location)
    case Some(known) => Some(known)
    case None =>
      match env.geocode(location)
      case None => None
      case Some(c) => Some(Place(env.areaPattern(env.inferAreaType(location)), c))
  }

  /** The fit score, present exactly when a non-empty business type
      normalises to a type with a fit profile. */
  function FitOf(a: AreaData, businessType: Option<string>, env: PopulationEnv): (fit: Option<BusinessFit>)
    ensures fit.Some? <==>
      businessType.Some? && businessType.value != "" && NormalizeBusinessType(businessType.value) in env.fitProfiles
    ensures fit.Some? ==> fit.value == env.fitScore(a, NormalizeBusinessType(businessType.value))
  {
    if businessType.Some? && businessType.value != "" then
      var key := NormalizeBusinessType(businessType.value);
      if key in env.fitProfiles then Some(env.fitScore(a, key)) else None
    else None
  }

  /** `analyzePopulation`. Fails with LOCATION_NOT_FOUND exactly when the
      location is neither a known district nor geocodable; otherwise echoes
      the area record and returns the fit and the ordered insights. */
  function AnalyzePopulation(location: string, businessType: Option<string>, env: PopulationEnv)
    : (r: ApiResult<PopulationAnalysis>)
    ensures r.Failure? <==> env.findAreaData(location).None? && env.geocode(location).None?
    ensures r.Failure? ==>
      r.error == ApiError(LOCATION_NOT_FOUND, NOT_FOUND_PREFIX + location, NOT_FOUND_SUGGESTION)
    ensures r.Success? ==>
      var a := ResolveArea(location, env).value;
      && r.value.name == location && r.value.address == location
      && r.value.coordinates == a.coordinates && r.value.population == a.population
      && r.value.timeDistribution == a.timeDistribution
      && r.value.ageDistribution == a.ageDistribution
      && r.value.genderRatio == a.genderRatio
      && r.value.characteristics == a.characteristics
      && r.value.businessFit == FitOf(a, businessType, env)
      && r.value.insights == Insights(a, businessType.GetOr(""), r.value.businessFit)
  {
    match ResolveArea(location, env)
    case None => Failure(ApiError(LOCATION_NOT_FOUND, NOT_FOUND_PREFIX + location, NOT_FOUND_SUGGESTION))
    case Some(a) =>
      var fit := FitOf(a, businessType, env);
      Success(PopulationAnalysis(
        location, location, a.coordinates, a.population, a.timeDistribution, a.ageDistribution,
        a.genderRatio, fit, a.characteristics, Insights(a, businessType.GetOr(""), fit)))
  }

  /** A known district is analysed without consulting the geocoder: two
      environments that differ only in their geocoder give the same result. */
  lemma KnownAreaNeedsNoGeocoder(location: string, businessType: Option<string>,
                                 env: PopulationEnv, geocode: string -> Option<Coordinates>)
    requires env.findAreaData(location).Some?
    ensures AnalyzePopulation(location, businessType, env)
         == AnalyzePopulation(location, businessType, env.(geocode := geocode))
  {
  }

  /** Without a business type there is neither a fit score nor a fit insight. */
  lemma NoBusinessTypeNoFit(location: string, env: PopulationEnv)
    requires env.findAreaData(location).Some? || env.geocode(location).Some?
    ensures var r := AnalyzePopulation(location, None, env);
      && r.Success? && r.value.businessFit.None?
      && forall i :: 0 <= i < |r.value.insights| ==> !r.value.insights[i].HighFit? && !r.value.insights[i].LowFit?
  {
    var a := ResolveArea(location, env).value;
    NoFitInsight(a, "", None);
  }
}
