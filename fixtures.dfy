/**
 * The three inputs of src/tests/test_json_output.py, as decoded JSON, and what
 * validating them gives. Each nested record is its own constant so that the
 * proofs can go record by record.
 */
module Fixtures {
  import opened Wrappers
  import opened JsonValues
  import opened Schemas
  import opened SchemaLaws
  import opened Utils

  // VALID_EXAMPLE

  /** The summary of VALID_EXAMPLE, which VALID_JSON_STR of
      src/tests/test_chain.py shares. */
  const ACME_SUMMARY: string :=
    "Marketplace" + " connecting SMBs to local suppliers;" + " target: tier-2 cities;" + " revenue: transaction fee."

  /** That summary starts with a letter, so it is not blank. (The literal is
      written phrase by phrase; the verifier reads the characters of a short
      literal such as the first phrase, not those of a long one.) */
  lemma AcmeSummaryNotBlank()
    ensures !BlankSummary(ACME_SUMMARY)
  {
    assert ACME_SUMMARY[0] == 'M';
    BlankSummaryIffAllSpace(ACME_SUMMARY);
  }

  lemma AcmeWellFormed()
    ensures WellFormed(ACME)
  {
    AcmeSummaryNotBlank();
  }

  /** The record of VALID_EXAMPLE. */
  const ACME: StartupAssessment := StartupAssessment(
    "Acme Market",
    ACME_SUMMARY,
    Market("> $50M", ["India", "SE Asia"], ["Competitor A"]),
    Product("marketplace", "Focus on local logistics and micro-fulfillment."),
    BusinessModel(["transaction fees", "subscription"], ["low take rate", "merchant churn"]),
    Team(Count(2), ["domain experience", "strong ops"], ["no senior sales hire"]),
    ["execution risk", "unit economics"],
    Recommendation("hold", "Early traction but unit economics unproven."),
    ["market size estimated from comparable players"])

  const VALID_MARKET: Json := JObj(map[
    "size_estimate" := JStr("> $50M"),
    "top_markets" := JArr([JStr("India"), JStr("SE Asia")]),
    "competitors" := JArr([JStr("Competitor A")])])
  const VALID_PRODUCT: Json := JObj(map[
    "category" := JStr("marketplace"),
    "differentiation" := JStr("Focus on local logistics and micro-fulfillment.")])
  const VALID_BUSINESS_MODEL: Json := JObj(map[
    "revenue_streams" := JArr([JStr("transaction fees"), JStr("subscription")]),
    "monetization_risks" := JArr([JStr("low take rate"), JStr("merchant churn")])])
  const VALID_TEAM: Json := JObj(map[
    "founders_count" := JInt(2),
    "strengths" := JArr([JStr("domain experience"), JStr("strong ops")]),
    "gaps" := JArr([JStr("no senior sales hire")])])
  const VALID_RECOMMENDATION: Json := JObj(map[
    "invest" := JStr("hold"),
    "rationale" := JStr("Early traction but unit economics unproven.")])

  const VALID_EXAMPLE: Json := JObj(map[
    "name" := JStr("Acme Market"),
    "summary" := JStr(ACME_SUMMARY),
    "market" := VALID_MARKET,
    "product" := VALID_PRODUCT,
    "business_model" := VALID_BUSINESS_MODEL,
    "team" := VALID_TEAM,
    "risks" := JArr([JStr("execution risk"), JStr("unit economics")]),
    "recommendation" := VALID_RECOMMENDATION,
    "assumptions" := JArr([JStr("market size estimated from comparable players")])])

  /** VALID_EXAMPLE lists every field of the schema, holding the values of
      ACME: it is that record's encoding. */
  lemma ValidExampleEncodesAcme()
    ensures VALID_EXAMPLE == Encode(ACME)
  {
    assert StrArray(["India", "SE Asia"]).items == [JStr("India"), JStr("SE Asia")];
    assert StrArray(["Competitor A"]).items == [JStr("Competitor A")];
    assert StrArray(["transaction fees", "subscription"]).items
        == [JStr("transaction fees"), JStr("subscription")];
    assert StrArray(["low take rate", "merchant churn"]).items
        == [JStr("low take rate"), JStr("merchant churn")];
    assert StrArray(["domain experience", "strong ops"]).items
        == [JStr("domain experience"), JStr("strong ops")];
    assert StrArray(["no senior sales hire"]).items == [JStr("no senior sales hire")];
    assert StrArray(["execution risk", "unit economics"]).items
        == [JStr("execution risk"), JStr("unit economics")];
    assert StrArray(["market size estimated from comparable players"]).items
        == [JStr("market size estimated from comparable players")];
    assert VALID_MARKET == EncodeMarket(ACME.market);
    assert VALID_PRODUCT == EncodeProduct(ACME.product);
    assert VALID_BUSINESS_MODEL == EncodeBusinessModel(ACME.businessModel);
    assert VALID_TEAM == EncodeTeam(ACME.team);
    assert VALID_RECOMMENDATION == EncodeRecommendation(ACME.recommendation);
  }

  /** test_valid_example_parses. */
  lemma ValidExampleAccepted()
    ensures var (ok, result) := ValidateOutput(VALID_EXAMPLE);
            ok && result == Model(ACME) && result.assessment.name == "Acme Market"
  {
    ValidExampleEncodesAcme();
    AcmeWellFormed();
    EncodeValidateRoundTrip(ACME);
  }

  // INVALID_EXAMPLE: lacks `summary` and `market`; its `invest` is not allowed.

  const INVALID_PRODUCT: Json := JObj(map["category" := JStr("saas"), "differentiation" := JStr("unknown")])
  const INVALID_TEAM: Json := JObj(map["founders_count" := JStr("unknown")])
  const INVALID_RECOMMENDATION: Json := JObj(map["invest" := JStr("maybe"), "rationale" := JStr("no data")])

  const INVALID_EXAMPLE: Json := JObj(map[
    "name" := JStr("Bad Startup"),
    "product" := INVALID_PRODUCT,
    "business_model" := JObj(map[]),
    "team" := INVALID_TEAM,
    "risks" := JArr([]),
    "recommendation" := INVALID_RECOMMENDATION,
    "assumptions" := JArr([])])

  lemma InvalidExampleRecords()
    ensures ValidateProduct(INVALID_PRODUCT, [Key("product")]).Success?
    ensures ValidateTeam(INVALID_TEAM, [Key("team")]).Success?
    ensures ValidateRecommendation(INVALID_RECOMMENDATION, [Key("recommendation")]) == Success(Recommendation("hold", "no data"))
  {
  }

  lemma InvalidExampleMissing()
    ensures var f := INVALID_EXAMPLE.fields;
            && ErrorsOf(SummaryField(f)) == [FieldError([Key("summary")], Missing)]
            && ErrorsOf(MarketField(f)) == [FieldError([Key("market")], Missing)]
  {
    assert [] + [Key("summary")] == [Key("summary")];
    assert "summary" !in INVALID_EXAMPLE.fields;
    assert "market" !in INVALID_EXAMPLE.fields;
  }

  lemma InvalidExampleScalars()
    ensures var f := INVALID_EXAMPLE.fields;
            && ErrorsOf(RequiredStr(f, "name", [])) == []
            && ErrorsOf(OptionalStrList(f, "risks", [])) == []
            && ErrorsOf(OptionalStrList(f, "assumptions", [])) == []
  {
    var f := INVALID_EXAMPLE.fields;
    assert f["name"] == JStr("Bad Startup");
    assert f["risks"] == JArr([]);
    assert f["assumptions"] == JArr([]);
  }

  lemma InvalidExampleNested()
    ensures var f := INVALID_EXAMPLE.fields;
            && ErrorsOf(ProductField(f)) == []
            && ErrorsOf(BusinessModelField(f)) == []
            && ErrorsOf(TeamField(f)) == []
            && ErrorsOf(RecommendationField(f)) == []
  {
    var f := INVALID_EXAMPLE.fields;
    assert f["product"] == INVALID_PRODUCT;
    assert f["team"] == INVALID_TEAM;
    assert f["recommendation"] == INVALID_RECOMMENDATION;
    assert f["business_model"] == JObj(map[]);
    EmptyBusinessModelAccepted();
    InvalidExampleRecords();
  }

  /** test_invalid_example_fails: only the two missing fields are reported,
      because "maybe" is coerced to "hold" rather than refused. */
  lemma InvalidExampleRejected()
    ensures var (ok, result) := ValidateOutput(INVALID_EXAMPLE);
            && !ok
            && result.errors == [FieldError([Key("summary")], Missing), FieldError([Key("market")], Missing)]
  {
    InvalidExampleMissing();
    InvalidExampleScalars();
    InvalidExampleNested();
    OnlySummaryAndMarketReported(INVALID_EXAMPLE.fields,
                                 FieldError([Key("summary")], Missing), FieldError([Key("market")], Missing));
  }

  /** When only the summary and the market report errors, one each, those
      two are the errors of the whole validation. */
  lemma OnlySummaryAndMarketReported(f: map<string, Json>, e1: FieldError, e2: FieldError)
    requires ErrorsOf(RequiredStr(f, "name", [])) == [] && ErrorsOf(SummaryField(f)) == [e1]
    requires ErrorsOf(MarketField(f)) == [e2] && ErrorsOf(ProductField(f)) == []
    requires ErrorsOf(BusinessModelField(f)) == [] && ErrorsOf(TeamField(f)) == []
    requires ErrorsOf(OptionalStrList(f, "risks", [])) == [] && ErrorsOf(RecommendationField(f)) == []
    requires ErrorsOf(OptionalStrList(f, "assumptions", [])) == []
    ensures var (ok, result) := ValidateOutput(JObj(f));
            !ok && result.errors == [e1, e2]
  {
    FieldErrorsReported(f, e1);
    ValidateErrorsByFields(f);
    assert [] + [e1] + [e2] + [] + [] + [] + [] + [] + [] == [e1, e2];
  }

  // PARTIAL_EXAMPLE

  lemma PartialWellFormed()
    ensures WellFormed(PARTIAL)
  {
    assert PARTIAL.summary[0] == 'A';
    BlankSummaryIffAllSpace(PARTIAL.summary);
  }

  /** The record of PARTIAL_EXAMPLE. */
  const PARTIAL: StartupAssessment := StartupAssessment(
    "Partial Startup",
    "An MVP with limited data.",
    Market("unknown", [], []),
    Product("saas", "unknown"),
    BusinessModel([], []),
    Team(Label("unknown"), [], []),
    [],
    Recommendation("no", "insufficient data"),
    ["insufficient public info"])

  const PARTIAL_EXAMPLE: Json := JObj(map[
    "name" := JStr("Partial Startup"),
    "summary" := JStr("An MVP with limited data."),
    "market" := JObj(map["size_estimate" := JStr("unknown"), "top_markets" := JArr([]), "competitors" := JArr([])]),
    "product" := JObj(map["category" := JStr("saas"), "differentiation" := JStr("unknown")]),
    "business_model" := JObj(map["revenue_streams" := JArr([]), "monetization_risks" := JArr([])]),
    "team" := JObj(map["founders_count" := JStr("unknown"), "strengths" := JArr([]), "gaps" := JArr([])]),
    "risks" := JArr([]),
    "recommendation" := JObj(map["invest" := JStr("no"), "rationale" := JStr("insufficient data")]),
    "assumptions" := JArr([JStr("insufficient public info")])])

  /** PARTIAL_EXAMPLE also lists every field, with empty lists: it is the
      encoding of PARTIAL. */
  lemma PartialExampleEncodesPartial()
    ensures PARTIAL_EXAMPLE == Encode(PARTIAL)
  {
    assert StrArray([]).items == [];
    assert StrArray(["insufficient public info"]).items == [JStr("insufficient public info")];
  }

  /** test_partial_example_parses. */
  lemma PartialExampleAccepted()
    ensures var (ok, result) := ValidateOutput(PARTIAL_EXAMPLE);
            ok && result.assessment.team.foundersCount == Label("unknown")
  {
    PartialExampleEncodesPartial();
    PartialWellFormed();
    EncodeValidateRoundTrip(PARTIAL);
  }
}
