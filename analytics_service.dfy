/**
 * `AnalyticsService`: canned report tables, the keyword classifier behind
 * the chat's "natural language" queries, and the industry-specific
 * enrichment of the key-insights bundle. Everything here is a pure
 * function of its arguments: the service's two fields are set once and
 * never read.
 */
module AnalyticsService {
  import opened Wrappers
  import Strings

  // ---------------------------------------------------------------------
  // Report tables
  // ---------------------------------------------------------------------

  /**
   * A metric cell: a fixed decimal string, or the random value
   * `(Math.random() * 10 + 5).toFixed(2)` whose digits are not modelled.
   */
  datatype Metric = Literal(text: string) | RandomSample

  /** One report row: its dimension label and its metric. */
  datatype Row = Row(dimension: string, metric: Metric)

  const UserEngagementType := "userEngagement"
  const TrafficSourcesType := "trafficSources"
  const ConversionType := "conversion"
  const BounceRateType := "bounceRate"

  /** The four keys of the mock data object. */
  const ReportTypes := [UserEngagementType, TrafficSourcesType, ConversionType, BounceRateType]

  /** Seven rows "Day 1" ... "Day 7" with random values. */
  function UserEngagementRows(): seq<Row> {
    seq(7, i requires 0 <= i < 7 => Row("Day " + Strings.Decimal(i + 1), RandomSample))
  }

  const TrafficSourcesRows := [
    Row("Organic Search", Literal("45")),
    Row("Direct", Literal("25")),
    Row("Social", Literal("20")),
    Row("Referral", Literal("10"))
  ]

  const ConversionRows := [
    Row("Mobile", Literal("3.2")),
    Row("Desktop", Literal("4.5")),
    Row("Tablet", Literal("2.8"))
  ]

  const BounceRateRows := [
    Row("/home", Literal("35")),
    Row("/products", Literal("42")),
    Row("/blog", Literal("48")),
    Row("/contact", Literal("28"))
  ]

  /** `getMockData(type).rows`: the table of `typeName`, the user-engagement table otherwise. */
  function MockData(typeName: string): (rows: seq<Row>)
    ensures typeName !in [TrafficSourcesType, ConversionType, BounceRateType] ==> rows == UserEngagementRows()
    ensures typeName == TrafficSourcesType ==> rows == TrafficSourcesRows
    ensures typeName == ConversionType ==> rows == ConversionRows
    ensures typeName == BounceRateType ==> rows == BounceRateRows
  {
    if typeName == TrafficSourcesType then TrafficSourcesRows
    else if typeName == ConversionType then ConversionRows
    else if typeName == BounceRateType then BounceRateRows
    else UserEngagementRows()
  }

  /**
   * `fetchAnalytics(type)`: stands in for an API call and returns the mock
   * data, so whatever the type it answers with one of the four tables,
   * never an empty one.
   */
  function FetchAnalytics(typeName: string): (rows: seq<Row>)
    ensures rows in [UserEngagementRows(), TrafficSourcesRows, ConversionRows, BounceRateRows]
    ensures |rows| > 0
  {
    MockData(typeName)
  }

  /** The user-engagement table has seven rows labelled "Day 1" to "Day 7", all random. */
  lemma UserEngagementShape()
    ensures |UserEngagementRows()| == 7
    ensures forall i :: 0 <= i < 7 ==> UserEngagementRows()[i].metric == RandomSample
    ensures forall i :: 0 <= i < 7 ==>
      UserEngagementRows()[i].dimension == "Day " + [Strings.DigitChar(i + 1)]
    ensures UserEngagementRows()[0].dimension == "Day 1"
    ensures UserEngagementRows()[6].dimension == "Day 7"
  {
    forall i | 0 <= i < 7
      ensures UserEngagementRows()[i].dimension == "Day " + [Strings.DigitChar(i + 1)]
    {
      assert Strings.Decimal(i + 1) == [Strings.DigitChar(i + 1)];
    }
    assert Strings.DigitChar(1) == '1';
    assert Strings.DigitChar(7) == '7';
  }

  /** The other three tables are fixed, with 4, 3 and 4 rows. */
  lemma FixedTablesShape()
    ensures |MockData(TrafficSourcesType)| == 4
    ensures |MockData(ConversionType)| == 3
    ensures |MockData(BounceRateType)| == 4
    ensures forall t :: t in ReportTypes && t != UserEngagementType ==>
      forall i :: 0 <= i < |MockData(t)| ==> MockData(t)[i].metric.Literal?
  {
  }

  // ---------------------------------------------------------------------
  // Query classification
  // ---------------------------------------------------------------------

  /** One entry of the `patterns` object: its key, report type, title and description. */
  datatype Pattern = Pattern(key: string, typeName: string, title: string, description: string)

  /** The entries of `patterns`, in the order `Object.entries` lists them. */
  const Patterns := [
    Pattern("user engagement", UserEngagementType, "User Engagement Over Time", "Average session duration in minutes"),
    Pattern("traffic sources", TrafficSourcesType, "Traffic Sources Distribution", "Sessions by source"),
    Pattern("conversion", ConversionType, "Conversion Rates by Device", "Conversion rate (%)"),
    Pattern("bounce rate", BounceRateType, "Bounce Rates by Page", "Bounce rate (%)")
  ]

  const UnrecognizedQuery := "Query pattern not recognized"

  /** `k` is the first pattern of `ps` whose key occurs in `text`. */
  predicate IsFirstMatch(ps: seq<Pattern>, text: string, k: int) {
    && 0 <= k < |ps|
    && Strings.Contains(text, ps[k].key)
    && forall j :: 0 <= j < k ==> !Strings.Contains(text, ps[j].key)
  }

  /** `Object.entries(patterns).find(([key]) => text.includes(key))`. */
  function FirstMatch(ps: seq<Pattern>, text: string): (r: Option<Pattern>)
    ensures r.None? <==> forall k :: 0 <= k < |ps| ==> !Strings.Contains(text, ps[k].key)
    ensures r.Some? ==> exists k :: IsFirstMatch(ps, text, k) && ps[k] == r.value
    decreases |ps|
  {
    if |ps| == 0 then None
    else if Strings.Contains(text, ps[0].key) then
      assert IsFirstMatch(ps, text, 0);
      Some(ps[0])
    else
      var r := FirstMatch(ps[1..], text);
      if r.Some? then
        var k :| IsFirstMatch(ps[1..], text, k) && ps[1..][k] == r.value;
        assert IsFirstMatch(ps, text, k + 1);
        r
      else
        r
  }

  /** When pattern `k` is the first match, `FirstMatch` returns exactly that pattern. */
  lemma {:induction false} FirstMatchIs(ps: seq<Pattern>, text: string, k: int)
    requires IsFirstMatch(ps, text, k)
    ensures FirstMatch(ps, text) == Some(ps[k])
  {
    if k > 0 {
      assert IsFirstMatch(ps[1..], text, k - 1);
      FirstMatchIs(ps[1..], text, k - 1);
    }
  }

  /** The pattern a query selects: keys are searched for in the lower-cased query. */
  function Classify(query: string): (r: Option<Pattern>)
    ensures r.None? <==> forall k :: 0 <= k < |Patterns| ==> !Strings.Contains(Strings.ToLower(query), Patterns[k].key)
    ensures r.Some? ==> exists k :: IsFirstMatch(Patterns, Strings.ToLower(query), k) && Patterns[k] == r.value
  {
    FirstMatch(Patterns, Strings.ToLower(query))
  }

  /** The object `processNaturalLanguageQuery` resolves with: `{...data, title, description}`. */
  datatype QueryResult = QueryResult(rows: seq<Row>, title: string, description: string)

  /** `processNaturalLanguageQuery(query)`: the data of the first matching pattern, or the error. */
  function ProcessNaturalLanguageQuery(query: string): (r: Result<QueryResult, string>)
    ensures r.Failure? <==>
      forall k :: 0 <= k < |Patterns| ==> !Strings.Contains(Strings.ToLower(query), Patterns[k].key)
    ensures r.Failure? ==> r.error == UnrecognizedQuery
    ensures r.Success? ==> exists k :: (IsFirstMatch(Patterns, Strings.ToLower(query), k) &&
      r.value == QueryResult(MockData(Patterns[k].typeName), Patterns[k].title, Patterns[k].description))
  {
    match Classify(query)
    case None => Failure(UnrecognizedQuery)
    case Some(p) => Success(QueryResult(FetchAnalytics(p.typeName), p.title, p.description))
  }

  /** Letter case does not matter: a query and its lower-cased form get the same answer. */
  lemma QueryIgnoresCase(query: string)
    ensures ProcessNaturalLanguageQuery(Strings.ToLower(query)) == ProcessNaturalLanguageQuery(query)
  {
    Strings.ToLowerIdempotent(query);
  }

  /** A query recognised as pattern `k` gets that pattern's own rows, title and description. */
  lemma QueryAnswersFirstMatch(query: string, k: int)
    requires IsFirstMatch(Patterns, Strings.ToLower(query), k)
    ensures ProcessNaturalLanguageQuery(query) ==
      Success(QueryResult(MockData(Patterns[k].typeName), Patterns[k].title, Patterns[k].description))
  {
    FirstMatchIs(Patterns, Strings.ToLower(query), k);
  }

  // ---------------------------------------------------------------------
  // Key insights
  // ---------------------------------------------------------------------

  /**
   * The insights object: the four report tables and, after enrichment for
   * some industries, a `recommendations` list.
   */
  datatype Insights = Insights(
    userEngagement: seq<Row>,
    trafficSources: seq<Row>,
    conversionRate: seq<Row>,
    bounceRate: seq<Row>,
    recommendations: Option<seq<string>>)

  const EcommerceRecommendations := [
    "Focus on product page conversion rates",
    "Analyze shopping cart abandonment",
    "Monitor revenue by traffic source"
  ]

  const SaasRecommendations := [
    "Track user onboarding completion",
    "Monitor feature adoption rates",
    "Analyze churn indicators"
  ]

  /**
   * `tailorInsightsByIndustry`: the four tables are kept; "E-commerce" and
   * "SaaS" get their three recommendations, any other industry gets the
   * insights back untouched.
   */
  function TailorInsightsByIndustry(insights: Insights, industry: string): (r: Insights)
    ensures r.userEngagement == insights.userEngagement && r.trafficSources == insights.trafficSources
    ensures r.conversionRate == insights.conversionRate && r.bounceRate == insights.bounceRate
    ensures industry == "E-commerce" ==> r.recommendations == Some(EcommerceRecommendations)
    ensures industry == "SaaS" ==> r.recommendations == Some(SaasRecommendations)
    ensures industry != "E-commerce" && industry != "SaaS" ==> r == insights
  {
    if industry == "E-commerce" then insights.(recommendations := Some(EcommerceRecommendations))
    else if industry == "SaaS" then insights.(recommendations := Some(SaasRecommendations))
    else insights
  }

  /** Tailoring twice for the same industry is tailoring once. */
  lemma TailoringIdempotent(insights: Insights, industry: string)
    ensures TailorInsightsByIndustry(TailorInsightsByIndustry(insights, industry), industry)
         == TailorInsightsByIndustry(insights, industry)
  {
  }

  /** `getKeyInsights(industry)`: the four tables fetched by type, then tailored. */
  function GetKeyInsights(industry: string): (r: Insights)
    ensures r.userEngagement == MockData(UserEngagementType)
    ensures r.trafficSources == MockData(TrafficSourcesType)
    ensures r.conversionRate == MockData(ConversionType)
    ensures r.bounceRate == MockData(BounceRateType)
    ensures r.recommendations.Some? <==> industry == "E-commerce" || industry == "SaaS"
  {
    var insights := Insights(
      FetchAnalytics(UserEngagementType),
      FetchAnalytics(TrafficSourcesType),
      FetchAnalytics(ConversionType),
      FetchAnalytics(BounceRateType),
      None);
    TailorInsightsByIndustry(insights, industry)
  }
}
