/**
 * What validation promises, stated against independent definitions: which
 * inputs are accepted (`Conforms`), what the accepted record holds
 * (`Describes`), the round trip through `Encode` (pydantic's `model_dump`),
 * and the errors reported for missing or refused fields.
 */
module SchemaLaws {
  import opened Wrappers
  import opened JsonValues
  import opened Text
  import opened Schemas

  // ------------------------------------------------- reference definitions

  ghost predicate IsStrArray(j: Json)
  {
    j.JArr? && forall i :: 0 <= i < |j.items| ==> j.items[i].JStr?
  }

  ghost predicate HasStr(f: map<string, Json>, k: string)
  {
    k in f && f[k].JStr?
  }

  /** A list field is fine when absent or an array of strings. */
  ghost predicate ListOk(f: map<string, Json>, k: string)
  {
    k !in f || IsStrArray(f[k])
  }

  ghost predicate HasObj(f: map<string, Json>, k: string)
  {
    k in f && f[k].JObj?
  }

  /** A list field holds exactly `xs`, or is absent and `xs` is the default `[]`. */
  ghost predicate ListIs(f: map<string, Json>, k: string, xs: seq<string>)
  {
    if k in f then f[k] == StrArray(xs) else xs == []
  }

  // Per record: which inputs conform, and when an input describes a record
  // (every field copied unchanged, absent lists read as `[]`).

  ghost predicate MarketConforms(j: Json)
  {
    && j.JObj?
    && HasStr(j.fields, "size_estimate")
    && ListOk(j.fields, "top_markets") && ListOk(j.fields, "competitors")
  }

  ghost predicate MarketDescribes(j: Json, m: Market)
  {
    && j.JObj?
    && "size_estimate" in j.fields && j.fields["size_estimate"] == JStr(m.sizeEstimate)
    && ListIs(j.fields, "top_markets", m.topMarkets) && ListIs(j.fields, "competitors", m.competitors)
  }

  ghost predicate ProductConforms(j: Json)
  {
    j.JObj? && HasStr(j.fields, "category") && HasStr(j.fields, "differentiation")
  }

  ghost predicate ProductDescribes(j: Json, p: Product)
  {
    && j.JObj?
    && "category" in j.fields && j.fields["category"] == JStr(p.category)
    && "differentiation" in j.fields && j.fields["differentiation"] == JStr(p.differentiation)
  }

  ghost predicate BusinessModelConforms(j: Json)
  {
    j.JObj? && ListOk(j.fields, "revenue_streams") && ListOk(j.fields, "monetization_risks")
  }

  ghost predicate BusinessModelDescribes(j: Json, b: BusinessModel)
  {
    && j.JObj?
    && ListIs(j.fields, "revenue_streams", b.revenueStreams)
    && ListIs(j.fields, "monetization_risks", b.monetizationRisks)
  }

  ghost predicate CountIs(j: Json, c: FoundersCount)
  {
    match c
    case Count(n) => j == JInt(n)
    case Label(s) => j == JStr(s)
  }

  ghost predicate TeamConforms(j: Json)
  {
    && j.JObj?
    && "founders_count" in j.fields
    && (j.fields["founders_count"].JInt? || j.fields["founders_count"].JStr?)
    && ListOk(j.fields, "strengths") && ListOk(j.fields, "gaps")
  }

  ghost predicate TeamDescribes(j: Json, t: Team)
  {
    && j.JObj?
    && "founders_count" in j.fields && CountIs(j.fields["founders_count"], t.foundersCount)
    && ListIs(j.fields, "strengths", t.strengths) && ListIs(j.fields, "gaps", t.gaps)
  }

  ghost predicate RecommendationConforms(j: Json)
  {
    j.JObj? && HasStr(j.fields, "invest") && HasStr(j.fields, "rationale")
  }

  /** `invest` is the input's value after `invest_must_be_valid`. */
  ghost predicate RecommendationDescribes(j: Json, r: Recommendation)
  {
    && j.JObj?
    && HasStr(j.fields, "invest") && r.invest == NormalizeInvest(j.fields["invest"].s)
    && "rationale" in j.fields && j.fields["rationale"] == JStr(r.rationale)
  }

  /** The inputs the schema accepts, field by field. */
  ghost predicate Conforms(j: Json)
  {
    && j.JObj?
    && var f := j.fields;
    && HasStr(f, "name")
    && HasStr(f, "summary") && !AllSpace(f["summary"].s)
    && "market" in f && MarketConforms(f["market"])
    && "product" in f && ProductConforms(f["product"])
    && "business_model" in f && BusinessModelConforms(f["business_model"])
    && "team" in f && TeamConforms(f["team"])
    && ListOk(f, "risks")
    && "recommendation" in f && RecommendationConforms(f["recommendation"])
    && ListOk(f, "assumptions")
  }

  /** Every field of `a` is the input's field, except `invest`, which is the
      input's value after `invest_must_be_valid`. */
  ghost predicate Describes(j: Json, a: StartupAssessment)
  {
    && j.JObj?
    && var f := j.fields;
    && "name" in f && f["name"] == JStr(a.name)
    && "summary" in f && f["summary"] == JStr(a.summary)
    && "market" in f && MarketDescribes(f["market"], a.market)
    && "product" in f && ProductDescribes(f["product"], a.product)
    && "business_model" in f && BusinessModelDescribes(f["business_model"], a.businessModel)
    && "team" in f && TeamDescribes(f["team"], a.team)
    && ListIs(f, "risks", a.risks)
    && "recommendation" in f && RecommendationDescribes(f["recommendation"], a.recommendation)
    && ListIs(f, "assumptions", a.assumptions)
  }

  // ------------------------------------------------------------- encoding

  function EncodeCount(c: FoundersCount): Json
  {
    match c
    case Count(n) => JInt(n)
    case Label(s) => JStr(s)
  }

  function EncodeMarket(m: Market): Json
  {
    JObj(map[
      "size_estimate" := JStr(m.sizeEstimate),
      "top_markets" := StrArray(m.topMarkets),
      "competitors" := StrArray(m.competitors)])
  }

  function EncodeProduct(p: Product): Json
  {
    JObj(map["category" := JStr(p.category), "differentiation" := JStr(p.differentiation)])
  }

  function EncodeBusinessModel(b: BusinessModel): Json
  {
    JObj(map[
      "revenue_streams" := StrArray(b.revenueStreams),
      "monetization_risks" := StrArray(b.monetizationRisks)])
  }

  function EncodeTeam(t: Team): Json
  {
    JObj(map[
      "founders_count" := EncodeCount(t.foundersCount),
      "strengths" := StrArray(t.strengths),
      "gaps" := StrArray(t.gaps)])
  }

  function EncodeRecommendation(r: Recommendation): Json
  {
    JObj(map["invest" := JStr(r.invest), "rationale" := JStr(r.rationale)])
  }

  /** `model_dump`: the JSON object holding every field of the record. */
  function Encode(a: StartupAssessment): (j: Json)
    ensures j.JObj?
  {
    JObj(map[
      "name" := JStr(a.name),
      "summary" := JStr(a.summary),
      "market" := EncodeMarket(a.market),
      "product" := EncodeProduct(a.product),
      "business_model" := EncodeBusinessModel(a.businessModel),
      "team" := EncodeTeam(a.team),
      "risks" := StrArray(a.risks),
      "recommendation" := EncodeRecommendation(a.recommendation),
      "assumptions" := StrArray(a.assumptions)])
  }

  // ---------------------------------------------------------------- lemmas

  lemma StrArrayInjective(xs: seq<string>, ys: seq<string>)
    requires StrArray(xs) == StrArray(ys)
    ensures xs == ys
  {
    assert |xs| == |ys|;
    forall i | 0 <= i < |xs| ensures xs[i] == ys[i] {
      assert StrArray(xs).items[i] == JStr(xs[i]);
    }
  }

  /** A list field validates to `xs` exactly when it holds `xs` (or is absent
      and `xs == []`). */
  lemma OptionalStrListIs(f: map<string, Json>, k: string, at: FieldPath, xs: seq<string>)
    ensures OptionalStrList(f, k, at) == Success(xs) <==> ListIs(f, k, xs)
  {
    if k in f && f[k] == StrArray(xs) {
      var r := OptionalStrList(f, k, at);
      assert r.Success?;
      StrArrayInjective(r.value, xs);
    }
  }

  lemma OptionalStrListOk(f: map<string, Json>, k: string, at: FieldPath)
    ensures OptionalStrList(f, k, at).Success? <==> ListOk(f, k)
  {
  }

  lemma MarketLaws(j: Json, at: FieldPath, m: Market)
    ensures ValidateMarket(j, at).Success? <==> MarketConforms(j)
    ensures ValidateMarket(j, at) == Success(m) <==> MarketDescribes(j, m)
  {
    if j.JObj? {
      OptionalStrListOk(j.fields, "top_markets", at);
      OptionalStrListOk(j.fields, "competitors", at);
      OptionalStrListIs(j.fields, "top_markets", at, m.topMarkets);
      OptionalStrListIs(j.fields, "competitors", at, m.competitors);
    }
  }

  lemma ProductLaws(j: Json, at: FieldPath, p: Product)
    ensures ValidateProduct(j, at).Success? <==> ProductConforms(j)
    ensures ValidateProduct(j, at) == Success(p) <==> ProductDescribes(j, p)
  {
  }

  lemma BusinessModelLaws(j: Json, at: FieldPath, b: BusinessModel)
    ensures ValidateBusinessModel(j, at).Success? <==> BusinessModelConforms(j)
    ensures ValidateBusinessModel(j, at) == Success(b) <==> BusinessModelDescribes(j, b)
  {
    if j.JObj? {
      OptionalStrListOk(j.fields, "revenue_streams", at);
      OptionalStrListOk(j.fields, "monetization_risks", at);
      OptionalStrListIs(j.fields, "revenue_streams", at, b.revenueStreams);
      OptionalStrListIs(j.fields, "monetization_risks", at, b.monetizationRisks);
    }
  }

  lemma TeamLaws(j: Json, at: FieldPath, t: Team)
    ensures ValidateTeam(j, at).Success? <==> TeamConforms(j)
    ensures ValidateTeam(j, at) == Success(t) <==> TeamDescribes(j, t)
  {
    if j.JObj? {
      OptionalStrListOk(j.fields, "strengths", at);
      OptionalStrListOk(j.fields, "gaps", at);
      OptionalStrListIs(j.fields, "strengths", at, t.strengths);
      OptionalStrListIs(j.fields, "gaps", at, t.gaps);
    }
  }

  lemma RecommendationLaws(j: Json, at: FieldPath, r: Recommendation)
    ensures ValidateRecommendation(j, at).Success? <==> RecommendationConforms(j)
    ensures ValidateRecommendation(j, at) == Success(r) <==> RecommendationDescribes(j, r)
  {
  }

  /** On an object, validation succeeds exactly when every field does, and
      then the record is made of the fields' values. */
  lemma ValidateByFields(f: map<string, Json>)
    ensures var r := Validate(JObj(f));
      && (r.Success? <==>
           && RequiredStr(f, "name", []).Success? && SummaryField(f).Success?
           && MarketField(f).Success? && ProductField(f).Success?
           && BusinessModelField(f).Success? && TeamField(f).Success?
           && OptionalStrList(f, "risks", []).Success?
           && RecommendationField(f).Success? && OptionalStrList(f, "assumptions", []).Success?)
      && (r.Success? ==>
           r.value == StartupAssessment(
             RequiredStr(f, "name", []).value, SummaryField(f).value,
             MarketField(f).value, ProductField(f).value,
             BusinessModelField(f).value, TeamField(f).value,
             OptionalStrList(f, "risks", []).value,
             RecommendationField(f).value, OptionalStrList(f, "assumptions", []).value))
  {
  }

  /** Validation succeeds exactly on the inputs that conform to the schema. */
  lemma ValidateSucceedsIffConforms(j: Json)
    ensures Validate(j).Success? <==> Conforms(j)
  {
    if j.JObj? {
      var f := j.fields;
      ValidateByFields(f);
      if HasStr(f, "summary") {
        BlankSummaryIffAllSpace(f["summary"].s);
      }
      OptionalStrListOk(f, "risks", []);
      OptionalStrListOk(f, "assumptions", []);
      var a: StartupAssessment :| true;
      if "market" in f { MarketLaws(f["market"], [Key("market")], a.market); }
      if "product" in f { ProductLaws(f["product"], [Key("product")], a.product); }
      if "business_model" in f { BusinessModelLaws(f["business_model"], [Key("business_model")], a.businessModel); }
      if "team" in f { TeamLaws(f["team"], [Key("team")], a.team); }
      if "recommendation" in f { RecommendationLaws(f["recommendation"], [Key("recommendation")], a.recommendation); }
    }
  }

  /** Validation yields `a` exactly when the input describes `a` and its summary
      is not blank: accepted fields are copied unchanged, absent lists become
      `[]`, and only `invest` is normalized. */
  lemma ValidateYieldsIffDescribes(j: Json, a: StartupAssessment)
    ensures Validate(j) == Success(a) <==> Describes(j, a) && !BlankSummary(a.summary)
  {
    if j.JObj? {
      var f := j.fields;
      ValidateByFields(f);
      OptionalStrListIs(f, "risks", [], a.risks);
      OptionalStrListIs(f, "assumptions", [], a.assumptions);
      if "market" in f { MarketLaws(f["market"], [Key("market")], a.market); }
      if "product" in f { ProductLaws(f["product"], [Key("product")], a.product); }
      if "business_model" in f { BusinessModelLaws(f["business_model"], [Key("business_model")], a.businessModel); }
      if "team" in f { TeamLaws(f["team"], [Key("team")], a.team); }
      if "recommendation" in f { RecommendationLaws(f["recommendation"], [Key("recommendation")], a.recommendation); }
    }
  }

  lemma EncodeMarketDescribes(m: Market)
    ensures MarketDescribes(EncodeMarket(m), m)
  {
  }

  lemma EncodeProductDescribes(p: Product)
    ensures ProductDescribes(EncodeProduct(p), p)
  {
  }

  lemma EncodeBusinessModelDescribes(b: BusinessModel)
    ensures BusinessModelDescribes(EncodeBusinessModel(b), b)
  {
  }

  lemma EncodeTeamDescribes(t: Team)
    ensures TeamDescribes(EncodeTeam(t), t)
  {
  }

  lemma EncodeRecommendationDescribes(r: Recommendation)
    requires r.invest in ALLOWED_INVEST
    ensures RecommendationDescribes(EncodeRecommendation(r), r)
  {
  }

  /** A record's encoding describes it when its `invest` is already allowed. */
  lemma EncodeDescribes(a: StartupAssessment)
    requires a.recommendation.invest in ALLOWED_INVEST
    ensures Describes(Encode(a), a)
  {
    EncodeMarketDescribes(a.market);
    EncodeProductDescribes(a.product);
    EncodeBusinessModelDescribes(a.businessModel);
    EncodeTeamDescribes(a.team);
    EncodeRecommendationDescribes(a.recommendation);
  }

  /** Encoding a record and validating it gives the record back exactly when
      the record satisfies the field validators. */
  lemma EncodeValidateRoundTrip(a: StartupAssessment)
    ensures Validate(Encode(a)) == Success(a) <==> WellFormed(a)
  {
    if WellFormed(a) {
      EncodeDescribes(a);
      ValidateYieldsIffDescribes(Encode(a), a);
    }
  }

  /** The errors of a failed validation are those of its fields, in field order. */
  lemma ValidateErrorsByFields(f: map<string, Json>)
    requires Validate(JObj(f)).Failure?
    ensures Validate(JObj(f)).error
      == ErrorsOf(RequiredStr(f, "name", [])) + ErrorsOf(SummaryField(f)) + ErrorsOf(MarketField(f))
         + ErrorsOf(ProductField(f)) + ErrorsOf(BusinessModelField(f)) + ErrorsOf(TeamField(f))
         + ErrorsOf(OptionalStrList(f, "risks", [])) + ErrorsOf(RecommendationField(f))
         + ErrorsOf(OptionalStrList(f, "assumptions", []))
  {
  }

  /** An error reported by any field is reported by the whole validation. */
  lemma FieldErrorsReported(f: map<string, Json>, e: FieldError)
    requires || e in ErrorsOf(RequiredStr(f, "name", [])) || e in ErrorsOf(SummaryField(f))
             || e in ErrorsOf(MarketField(f)) || e in ErrorsOf(ProductField(f))
             || e in ErrorsOf(BusinessModelField(f)) || e in ErrorsOf(TeamField(f))
             || e in ErrorsOf(OptionalStrList(f, "risks", [])) || e in ErrorsOf(RecommendationField(f))
             || e in ErrorsOf(OptionalStrList(f, "assumptions", []))
    ensures Validate(JObj(f)).Failure? && e in Validate(JObj(f)).error
  {
    ValidateByFields(f);
    ValidateErrorsByFields(f);
  }

  /** The top-level fields without a default. */
  const REQUIRED_FIELDS: set<string> :=
    {"name", "summary", "market", "product", "business_model", "team", "recommendation"}

  /** A missing required top-level field fails validation, and the errors
      name that field as missing. */
  lemma MissingRequiredFieldNamed(j: Json, k: string)
    requires j.JObj? && k in REQUIRED_FIELDS && k !in j.fields
    ensures Validate(j).Failure?
    ensures FieldError([Key(k)], Missing) in Validate(j).error
  {
    var f := j.fields;
    var e := FieldError([Key(k)], Missing);
    assert [] + [Key(k)] == [Key(k)];
    if k == "name" {
      assert ErrorsOf(RequiredStr(f, "name", [])) == [e];
    } else if k == "summary" {
      assert ErrorsOf(SummaryField(f)) == [e];
    } else if k == "market" {
      assert ErrorsOf(MarketField(f)) == [e];
    } else if k == "product" {
      assert ErrorsOf(ProductField(f)) == [e];
    } else if k == "business_model" {
      assert ErrorsOf(BusinessModelField(f)) == [e];
    } else if k == "team" {
      assert ErrorsOf(TeamField(f)) == [e];
    } else {
      assert ErrorsOf(RecommendationField(f)) == [e];
    }
    FieldErrorsReported(f, e);
  }

  /** The nested fields without a default, as (record field, its field). */
  const REQUIRED_NESTED: set<(string, string)> :=
    {("market", "size_estimate"), ("product", "category"), ("product", "differentiation"),
     ("team", "founders_count"), ("recommendation", "invest"), ("recommendation", "rationale")}

  /** A missing required nested field fails its record, naming the field. */
  lemma MissingNestedFieldInRecord(f: map<string, Json>, outer: string, inner: string)
    requires (outer, inner) in REQUIRED_NESTED
    requires HasObj(f, outer) && inner !in f[outer].fields
    ensures var e := FieldError([Key(outer)] + [Key(inner)], Missing);
            || (outer == "market" && e in ErrorsOf(MarketField(f)))
            || (outer == "product" && e in ErrorsOf(ProductField(f)))
            || (outer == "team" && e in ErrorsOf(TeamField(f)))
            || (outer == "recommendation" && e in ErrorsOf(RecommendationField(f)))
  {
    var g := f[outer].fields;
    if outer == "product" {
      assert FieldError([Key(outer)] + [Key(inner)], Missing) in ErrorsOf(RequiredStr(g, inner, [Key("product")]));
    } else if outer == "recommendation" {
      assert FieldError([Key(outer)] + [Key(inner)], Missing) in ErrorsOf(RequiredStr(g, inner, [Key("recommendation")]));
    }
  }

  /** A missing required nested field fails validation, and the errors name
      its full path as missing. */
  lemma MissingNestedFieldNamed(j: Json, outer: string, inner: string)
    requires j.JObj? && (outer, inner) in REQUIRED_NESTED
    requires HasObj(j.fields, outer) && inner !in j.fields[outer].fields
    ensures Validate(j).Failure?
    ensures FieldError([Key(outer), Key(inner)], Missing) in Validate(j).error
  {
    assert [Key(outer)] + [Key(inner)] == [Key(outer), Key(inner)];
    MissingNestedFieldInRecord(j.fields, outer, inner);
    FieldErrorsReported(j.fields, FieldError([Key(outer), Key(inner)], Missing));
  }

  /** An empty or whitespace-only summary fails validation with an error on
      `summary`. */
  lemma BlankSummaryRejected(j: Json)
    requires j.JObj? && HasStr(j.fields, "summary") && AllSpace(j.fields["summary"].s)
    ensures Validate(j).Failure?
    ensures FieldError([Key("summary")], InvalidValue) in Validate(j).error
  {
    BlankSummaryIffAllSpace(j.fields["summary"].s);
  }

  /** `business_model: {}` is accepted as two empty lists. */
  lemma EmptyBusinessModelAccepted()
    ensures ValidateBusinessModel(JObj(map[]), [Key("business_model")]) == Success(BusinessModel([], []))
  {
  }

  /** `founders_count` accepts any integer and any string, and nothing else. */
  lemma FoundersCountKinds(v: Json)
    ensures FoundersCountField(map["founders_count" := v], []).Success? <==> v.JInt? || v.JStr?
    ensures FoundersCountField(map["founders_count" := JInt(2)], []) == Success(Count(2))
    ensures FoundersCountField(map["founders_count" := JStr("unknown")], []) == Success(Label("unknown"))
    ensures FoundersCountField(map["founders_count" := JStr("many")], []) == Success(Label("many"))
  {
  }
}
