/** `PerformanceSummary`: the campaign-level rollup. Rates, averages and ROI
    are stored as given; nothing is recomputed from the counts. */
module PerformanceSummarySchema {
  import opened Wrappers
  import opened Document

  datatype PerformanceSummary = PerformanceSummary(
    totalCampaignPiecesSent: Number,
    totalCampaignResponses: Number,
    overallResponseRate: Number,
    totalCampaignConversions: Number,
    overallConversionRate: Number,
    totalCampaignConversionValue: Number,
    averageConversionValue: Number,
    campaignRoi: Number)

  const Keys: set<string> := {
    "total_campaign_pieces_sent", "total_campaign_responses", "overall_response_rate",
    "total_campaign_conversions", "overall_conversion_rate", "total_campaign_conversion_value",
    "average_conversion_value", "campaign_roi"}

  predicate Decodable(v: Value)
  {
    && v.Dict?
    && NumberAt(v.entries, "total_campaign_pieces_sent").Ok?
    && NumberAt(v.entries, "total_campaign_responses").Ok?
    && NumberAt(v.entries, "overall_response_rate").Ok?
    && NumberAt(v.entries, "total_campaign_conversions").Ok?
    && NumberAt(v.entries, "overall_conversion_rate").Ok?
    && NumberAt(v.entries, "total_campaign_conversion_value").Ok?
    && NumberAt(v.entries, "average_conversion_value").Ok?
    && NumberAt(v.entries, "campaign_roi").Ok?
  }

  function Canonical(v: Value): Value
    requires v.Dict?
  {
    Dict(Restrict(v.entries, Keys))
  }

  function FromDict(v: Value): (r: Result<PerformanceSummary, DecodeError>)
    ensures r.Ok? <==> Decodable(v)
    ensures r.Ok? ==> ToDict(r.value) == Canonical(v)
  {
    if !v.Dict? then Err(NotADict)
    else
      var m := v.entries;
      var pieces :- NumberAt(m, "total_campaign_pieces_sent");
      var responses :- NumberAt(m, "total_campaign_responses");
      var responseRate :- NumberAt(m, "overall_response_rate");
      var conversions :- NumberAt(m, "total_campaign_conversions");
      var conversionRate :- NumberAt(m, "overall_conversion_rate");
      var value :- NumberAt(m, "total_campaign_conversion_value");
      var average :- NumberAt(m, "average_conversion_value");
      var roi :- NumberAt(m, "campaign_roi");
      Ok(PerformanceSummary(pieces, responses, responseRate, conversions, conversionRate, value, average, roi))
  }

  function ToDict(p: PerformanceSummary): (r: Value)
    ensures r.Dict? && r.entries.Keys == Keys
  {
    Dict(map[
      "total_campaign_pieces_sent" := Num(p.totalCampaignPiecesSent),
      "total_campaign_responses" := Num(p.totalCampaignResponses),
      "overall_response_rate" := Num(p.overallResponseRate),
      "total_campaign_conversions" := Num(p.totalCampaignConversions),
      "overall_conversion_rate" := Num(p.overallConversionRate),
      "total_campaign_conversion_value" := Num(p.totalCampaignConversionValue),
      "average_conversion_value" := Num(p.averageConversionValue),
      "campaign_roi" := Num(p.campaignRoi)])
  }

  lemma RoundTrip(p: PerformanceSummary)
    ensures FromDict(ToDict(p)) == Ok(p)
  {
  }

  lemma DictRoundTrip(v: Value)
    requires Decodable(v) && v.entries.Keys == Keys
    ensures FromDict(v).Ok? && ToDict(FromDict(v).value) == v
  {
    assert Restrict(v.entries, Keys) == v.entries;
  }

  /** A missing key makes the call fail. */
  lemma MissingKeyFails(v: Value, key: string)
    requires v.Dict? && key in Keys && key !in v.entries
    ensures FromDict(v).Err?
  {
  }
}
