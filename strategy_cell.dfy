/** `StrategyCell`: one targeting segment of a campaign with its creative and
    offer assignment and its cumulative counters. */
module StrategyCellSchema {
  import opened Wrappers
  import opened Document

  datatype StrategyCell = StrategyCell(
    cellNo: string,
    cellDescription: string,
    assignedCreativeId: string,
    assignedOfferCode: Option<string>,
    campaignTotalMailed: Number,
    campaignTotalResponses: Number,
    campaignTotalConversions: Number,
    campaignTotalConversionValue: Number)

  const Keys: set<string> := {
    "cell_no", "cell_description", "assigned_creative_id", "assigned_offer_code",
    "campaign_total_mailed", "campaign_total_responses", "campaign_total_conversions",
    "campaign_total_conversion_value"}

  /** The dictionaries `from_dict` accepts: seven required keys of the declared
      kinds; `assigned_offer_code` may be absent, None or a string. */
  predicate Decodable(v: Value)
  {
    && v.Dict?
    && StringAt(v.entries, "cell_no").Ok?
    && StringAt(v.entries, "cell_description").Ok?
    && StringAt(v.entries, "assigned_creative_id").Ok?
    && OptionalStringAt(v.entries, "assigned_offer_code").Ok?
    && NumberAt(v.entries, "campaign_total_mailed").Ok?
    && NumberAt(v.entries, "campaign_total_responses").Ok?
    && NumberAt(v.entries, "campaign_total_conversions").Ok?
    && NumberAt(v.entries, "campaign_total_conversion_value").Ok?
  }

  /** What survives a decode-encode cycle: the schema keys, with an absent
      `assigned_offer_code` written back as an explicit None. */
  function Canonical(v: Value): Value
    requires v.Dict?
  {
    Dict(Restrict(v.entries, Keys)["assigned_offer_code" := GetOrNull(v.entries, "assigned_offer_code")])
  }

  function FromDict(v: Value): (r: Result<StrategyCell, DecodeError>)
    ensures r.Ok? <==> Decodable(v)
    ensures r.Ok? ==> ToDict(r.value) == Canonical(v)
  {
    if !v.Dict? then Err(NotADict)
    else
      var m := v.entries;
      var cellNo :- StringAt(m, "cell_no");
      var description :- StringAt(m, "cell_description");
      var creative :- StringAt(m, "assigned_creative_id");
      var offer :- OptionalStringAt(m, "assigned_offer_code");
      var mailed :- NumberAt(m, "campaign_total_mailed");
      var responses :- NumberAt(m, "campaign_total_responses");
      var conversions :- NumberAt(m, "campaign_total_conversions");
      var value :- NumberAt(m, "campaign_total_conversion_value");
      Ok(StrategyCell(cellNo, description, creative, offer, mailed, responses, conversions, value))
  }

  function ToDict(c: StrategyCell): (r: Value)
    ensures r.Dict? && r.entries.Keys == Keys
    ensures r.entries["assigned_offer_code"] == EncodeOptional(c.assignedOfferCode)
  {
    Dict(map[
      "cell_no" := Str(c.cellNo),
      "cell_description" := Str(c.cellDescription),
      "assigned_creative_id" := Str(c.assignedCreativeId),
      "assigned_offer_code" := EncodeOptional(c.assignedOfferCode),
      "campaign_total_mailed" := Num(c.campaignTotalMailed),
      "campaign_total_responses" := Num(c.campaignTotalResponses),
      "campaign_total_conversions" := Num(c.campaignTotalConversions),
      "campaign_total_conversion_value" := Num(c.campaignTotalConversionValue)])
  }

  lemma RoundTrip(c: StrategyCell)
    ensures FromDict(ToDict(c)) == Ok(c)
  {
  }

  /** Without an `assigned_offer_code` key the cell still decodes, with no
      offer code. */
  lemma AbsentOfferCode(v: Value)
    requires Decodable(v) && "assigned_offer_code" !in v.entries
    ensures FromDict(v).Ok? && FromDict(v).value.assignedOfferCode == None
  {
  }

  /** A dictionary with exactly the eight keys is rebuilt exactly. */
  lemma DictRoundTrip(v: Value)
    requires Decodable(v) && v.entries.Keys == Keys
    ensures FromDict(v).Ok? && ToDict(FromDict(v).value) == v
  {
    assert Canonical(v).entries == v.entries;
  }

  /** A missing key other than `assigned_offer_code` makes the call fail. */
  lemma MissingKeyFails(v: Value, key: string)
    requires v.Dict? && key in Keys && key != "assigned_offer_code" && key !in v.entries
    ensures FromDict(v).Err?
  {
  }
}
