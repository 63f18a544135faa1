/**
 * The assessment schema of src/schemas.py: the record types, and validation
 * of a decoded JSON value against them (pydantic's `model_validate`).
 * Validation checks every field and reports the failing keys, in field
 * order, each as a path into the input and a kind.
 */
module Schemas {
  import opened Wrappers
  import opened JsonValues
  import opened Text

  // ---------------------------------------------------------------- records

  datatype Market = Market(sizeEstimate: string, topMarkets: seq<string>, competitors: seq<string>)

  datatype Product = Product(category: string, differentiation: string)

  datatype BusinessModel = BusinessModel(revenueStreams: seq<string>, monetizationRisks: seq<string>)

  /** `Union[int, str]`. */
  datatype FoundersCount = Count(n: int) | Label(text: string)

  datatype Team = Team(foundersCount: FoundersCount, strengths: seq<string>, gaps: seq<string>)

  datatype Recommendation = Recommendation(invest: string, rationale: string)

  datatype StartupAssessment = StartupAssessment(
    name: string,
    summary: string,
    market: Market,
    product: Product,
    businessModel: BusinessModel,
    team: Team,
    risks: seq<string>,
    recommendation: Recommendation,
    assumptions: seq<string>)

  // ----------------------------------------------------------------- errors

  /** One step of a path into the input: an object key or an array index. */
  datatype Seg = Key(name: string) | Index(pos: nat)

  type FieldPath = seq<Seg>

  /** A required field that is absent, a value of the wrong JSON kind, or a
      value that a field validator refused. */
  datatype ErrorKind = Missing | WrongType | InvalidValue

  datatype FieldError = FieldError(path: FieldPath, kind: ErrorKind)

  type Errors = seq<FieldError>

  /** Every error lies at or under the path `at`. */
  ghost predicate AllUnder(errs: Errors, at: FieldPath)
  {
    forall e :: e in errs ==> at <= e.path
  }

  function ErrorsOf<T>(r: Result<T, Errors>): Errors
  {
    if r.Success? then [] else r.error
  }

  // ------------------------------------------------------- field validators

  /** The values `invest` may keep; anything else becomes "hold". */
  const ALLOWED_INVEST: set<string> := {"yes", "no", "hold"}

  /** `invest_must_be_valid`: keep an allowed value, coerce any other to "hold". */
  function NormalizeInvest(v: string): (r: string)
    ensures r in ALLOWED_INVEST
    ensures v in ALLOWED_INVEST ==> r == v
    ensures v !in ALLOWED_INVEST ==> r == "hold"
  {
    if v in ALLOWED_INVEST then v else "hold"
  }

  lemma NormalizeInvestIdempotent(v: string)
    ensures NormalizeInvest(NormalizeInvest(v)) == NormalizeInvest(v)
  {
  }

  /** The condition under which `summary_length` raises. */
  predicate BlankSummary(v: string)
  {
    v == [] || |Strip(v)| == 0
  }

  /** `summary_length` refuses exactly the empty and whitespace-only strings. */
  lemma BlankSummaryIffAllSpace(v: string)
    ensures BlankSummary(v) <==> AllSpace(v)
  {
    StripEmptyIffAllSpace(v);
  }

  // ------------------------------------------------------- field extraction

  /** A required `str` field. */
  function RequiredStr(f: map<string, Json>, key: string, at: FieldPath): (r: Result<string, Errors>)
    ensures r.Success? <==> key in f && f[key].JStr?
    ensures r.Success? ==> f[key] == JStr(r.value)
    ensures r.Failure? ==> r.error == [FieldError(at + [Key(key)], if key in f then WrongType else Missing)]
  {
    if key !in f then Failure([FieldError(at + [Key(key)], Missing)])
    else if f[key].JStr? then Success(f[key].s)
    else Failure([FieldError(at + [Key(key)], WrongType)])
  }

  /** The array elements from `from` on that are not strings. */
  function ItemErrors(items: seq<Json>, from: nat, at: FieldPath): (errs: Errors)
    requires from <= |items|
    ensures errs == [] <==> forall i :: from <= i < |items| ==> items[i].JStr?
    ensures AllUnder(errs, at)
    decreases |items| - from
  {
    if from == |items| then []
    else
      var here := if items[from].JStr? then [] else [FieldError(at + [Index(from)], WrongType)];
      assert at <= at + [Index(from)];
      here + ItemErrors(items, from + 1, at)
  }

  function Strings(items: seq<Json>): (xs: seq<string>)
    requires forall i :: 0 <= i < |items| ==> items[i].JStr?
    ensures StrArray(xs) == JArr(items)
  {
    var xs := seq(|items|, i requires 0 <= i < |items| => items[i].s);
    assert StrArray(xs).items == items;
    xs
  }

  /** A `List[str]` value. */
  function StrList(j: Json, at: FieldPath): (r: Result<seq<string>, Errors>)
    ensures r.Success? <==> j.JArr? && forall i :: 0 <= i < |j.items| ==> j.items[i].JStr?
    ensures r.Success? ==> j == StrArray(r.value)
    ensures r.Failure? ==> r.error != [] && AllUnder(r.error, at)
  {
    if !j.JArr? then Failure([FieldError(at, WrongType)])
    else
      var errs := ItemErrors(j.items, 0, at);
      if errs == [] then Success(Strings(j.items)) else Failure(errs)
  }

  /** A `List[str]` field with `default_factory=list`: absence is not an error. */
  function OptionalStrList(f: map<string, Json>, key: string, at: FieldPath): (r: Result<seq<string>, Errors>)
    ensures key !in f ==> r == Success([])
    ensures key in f ==> r == StrList(f[key], at + [Key(key)])
  {
    if key !in f then Success([]) else StrList(f[key], at + [Key(key)])
  }

  // ------------------------------------------------------ record validators

  function ValidateMarket(j: Json, at: FieldPath): (r: Result<Market, Errors>)
    ensures r.Failure? ==> r.error != [] && AllUnder(r.error, at)
  {
    if !j.JObj? then Failure([FieldError(at, WrongType)])
    else
      var size := RequiredStr(j.fields, "size_estimate", at);
      var top := OptionalStrList(j.fields, "top_markets", at);
      var comp := OptionalStrList(j.fields, "competitors", at);
      if size.Success? && top.Success? && comp.Success? then
        Success(Market(size.value, top.value, comp.value))
      else
        Failure(ErrorsOf(size) + ErrorsOf(top) + ErrorsOf(comp))
  }

  function ValidateProduct(j: Json, at: FieldPath): (r: Result<Product, Errors>)
    ensures r.Failure? ==> r.error != [] && AllUnder(r.error, at)
  {
    if !j.JObj? then Failure([FieldError(at, WrongType)])
    else
      var category := RequiredStr(j.fields, "category", at);
      var diff := RequiredStr(j.fields, "differentiation", at);
      if category.Success? && diff.Success? then
        Success(Product(category.value, diff.value))
      else
        Failure(ErrorsOf(category) + ErrorsOf(diff))
  }

  function ValidateBusinessModel(j: Json, at: FieldPath): (r: Result<BusinessModel, Errors>)
    ensures r.Failure? ==> r.error != [] && AllUnder(r.error, at)
  {
    if !j.JObj? then Failure([FieldError(at, WrongType)])
    else
      var streams := OptionalStrList(j.fields, "revenue_streams", at);
      var risks := OptionalStrList(j.fields, "monetization_risks", at);
      if streams.Success? && risks.Success? then
        Success(BusinessModel(streams.value, risks.value))
      else
        Failure(ErrorsOf(streams) + ErrorsOf(risks))
  }

  /** The required `founders_count: Union[int, str]` field. */
  function FoundersCountField(f: map<string, Json>, at: FieldPath): (r: Result<FoundersCount, Errors>)
    ensures r.Success? <==> "founders_count" in f && (f["founders_count"].JInt? || f["founders_count"].JStr?)
    ensures r.Success? && r.value.Count? ==> f["founders_count"] == JInt(r.value.n)
    ensures r.Success? && r.value.Label? ==> f["founders_count"] == JStr(r.value.text)
    ensures r.Failure? ==> r.error == [FieldError(at + [Key("founders_count")], if "founders_count" in f then WrongType else Missing)]
  {
    var path := at + [Key("founders_count")];
    if "founders_count" !in f then Failure([FieldError(path, Missing)])
    else match f["founders_count"]
      case JInt(n) => Success(Count(n))
      case JStr(s) => Success(Label(s))
      case _ => Failure([FieldError(path, WrongType)])
  }

  function ValidateTeam(j: Json, at: FieldPath): (r: Result<Team, Errors>)
    ensures r.Failure? ==> r.error != [] && AllUnder(r.error, at)
  {
    if !j.JObj? then Failure([FieldError(at, WrongType)])
    else
      var count := FoundersCountField(j.fields, at);
      var strengths := OptionalStrList(j.fields, "strengths", at);
      var gaps := OptionalStrList(j.fields, "gaps", at);
      if count.Success? && strengths.Success? && gaps.Success? then
        Success(Team(count.value, strengths.value, gaps.value))
      else
        Failure(ErrorsOf(count) + ErrorsOf(strengths) + ErrorsOf(gaps))
  }

  function ValidateRecommendation(j: Json, at: FieldPath): (r: Result<Recommendation, Errors>)
    ensures r.Failure? ==> r.error != [] && AllUnder(r.error, at)
    ensures r.Success? ==> r.value.invest in ALLOWED_INVEST
  {
    if !j.JObj? then Failure([FieldError(at, WrongType)])
    else
      var invest := RequiredStr(j.fields, "invest", at);
      var rationale := RequiredStr(j.fields, "rationale", at);
      if invest.Success? && rationale.Success? then
        Success(Recommendation(NormalizeInvest(invest.value), rationale.value))
      else
        Failure(ErrorsOf(invest) + ErrorsOf(rationale))
  }

  /** The required `summary` field followed by `summary_length`. */
  function SummaryField(f: map<string, Json>): (r: Result<string, Errors>)
    ensures r.Success? <==> "summary" in f && f["summary"].JStr? && !BlankSummary(f["summary"].s)
    ensures r.Success? ==> f["summary"] == JStr(r.value)
  {
    var s := RequiredStr(f, "summary", []);
    if s.Success? && BlankSummary(s.value) then Failure([FieldError([Key("summary")], InvalidValue)])
    else s
  }

  /** A required nested record field: absent is `Missing`. */
  function MissingField<T>(key: string): Result<T, Errors>
  {
    Failure([FieldError([Key(key)], Missing)])
  }

  function MarketField(f: map<string, Json>): (r: Result<Market, Errors>)
    ensures r.Failure? ==> r.error != []
  {
    if "market" in f then ValidateMarket(f["market"], [Key("market")]) else MissingField("market")
  }

  function ProductField(f: map<string, Json>): (r: Result<Product, Errors>)
    ensures r.Failure? ==> r.error != []
  {
    if "product" in f then ValidateProduct(f["product"], [Key("product")]) else MissingField("product")
  }

  function BusinessModelField(f: map<string, Json>): (r: Result<BusinessModel, Errors>)
    ensures r.Failure? ==> r.error != []
  {
    if "business_model" in f then ValidateBusinessModel(f["business_model"], [Key("business_model")])
    else MissingField("business_model")
  }

  function TeamField(f: map<string, Json>): (r: Result<Team, Errors>)
    ensures r.Failure? ==> r.error != []
  {
    if "team" in f then ValidateTeam(f["team"], [Key("team")]) else MissingField("team")
  }

  function RecommendationField(f: map<string, Json>): (r: Result<Recommendation, Errors>)
    ensures r.Failure? ==> r.error != []
  {
    if "recommendation" in f then ValidateRecommendation(f["recommendation"], [Key("recommendation")])
    else MissingField("recommendation")
  }

  /** What `validate_output` accepts always satisfies the two field validators. */
  ghost predicate WellFormed(a: StartupAssessment)
  {
    && !BlankSummary(a.summary)
    && a.recommendation.invest in ALLOWED_INVEST
  }

  /** `StartupAssessment.model_validate(obj)`. */
  function Validate(j: Json): (r: Result<StartupAssessment, Errors>)
    ensures r.Success? ==> WellFormed(r.value)
    ensures r.Failure? ==> r.error != []
  {
    if !j.JObj? then Failure([FieldError([], WrongType)])
    else
      var f := j.fields;
      var name := RequiredStr(f, "name", []);
      var summary := SummaryField(f);
      var market := MarketField(f);
      var product := ProductField(f);
      var businessModel := BusinessModelField(f);
      var team := TeamField(f);
      var risks := OptionalStrList(f, "risks", []);
      var recommendation := RecommendationField(f);
      var assumptions := OptionalStrList(f, "assumptions", []);
      if && name.Success? && summary.Success? && market.Success? && product.Success?
         && businessModel.Success? && team.Success? && risks.Success?
         && recommendation.Success? && assumptions.Success?
      then
        Success(StartupAssessment(name.value, summary.value, market.value, product.value,
                                  businessModel.value, team.value, risks.value,
                                  recommendation.value, assumptions.value))
      else
        Failure(ErrorsOf(name) + ErrorsOf(summary) + ErrorsOf(market) + ErrorsOf(product)
                + ErrorsOf(businessModel) + ErrorsOf(team) + ErrorsOf(risks)
                + ErrorsOf(recommendation) + ErrorsOf(assumptions))
  }
}
