/** `CostDetails`: budget, planned and actual totals and per-piece costs, owning
    one `CostBreakdown`. */
module CostDetailsSchema {
  import opened Wrappers
  import opened Document
  import CostBreakdownSchema

  datatype CostDetails = CostDetails(
    overallBudget: Number,
    totalCampaignCostPlanned: Number,
    totalCampaignCostActual: Number,
    costPerPiecePlanned: Number,
    costPerPieceActual: Number,
    costBreakdown: CostBreakdownSchema.CostBreakdown)

  const Keys: set<string> := {
    "overall_budget", "total_campaign_cost_planned", "total_campaign_cost_actual",
    "cost_per_piece_planned", "cost_per_piece_actual", "cost_breakdown"}

  /** The dictionaries `from_dict` accepts: five numbers and a decodable
      `cost_breakdown` sub-dictionary. */
  predicate Decodable(v: Value)
  {
    && v.Dict?
    && NumberAt(v.entries, "overall_budget").Ok?
    && NumberAt(v.entries, "total_campaign_cost_planned").Ok?
    && NumberAt(v.entries, "total_campaign_cost_actual").Ok?
    && NumberAt(v.entries, "cost_per_piece_planned").Ok?
    && NumberAt(v.entries, "cost_per_piece_actual").Ok?
    && "cost_breakdown" in v.entries
    && CostBreakdownSchema.Decodable(v.entries["cost_breakdown"])
  }

  /** What survives a decode-encode cycle: the schema keys at both levels. */
  function Canonical(v: Value): Value
    requires Decodable(v)
  {
    var m := Restrict(v.entries, Keys);
    Dict(m["cost_breakdown" := CostBreakdownSchema.Canonical(v.entries["cost_breakdown"])])
  }

  function FromDict(v: Value): (r: Result<CostDetails, DecodeError>)
    ensures r.Ok? <==> Decodable(v)
    ensures r.Ok? ==> ToDict(r.value) == Canonical(v)
  {
    if !v.Dict? then Err(NotADict)
    else
      var m := v.entries;
      var budget :- NumberAt(m, "overall_budget");
      var planned :- NumberAt(m, "total_campaign_cost_planned");
      var actual :- NumberAt(m, "total_campaign_cost_actual");
      var perPiecePlanned :- NumberAt(m, "cost_per_piece_planned");
      var perPieceActual :- NumberAt(m, "cost_per_piece_actual");
      if "cost_breakdown" !in m then Err(KeyMissing("cost_breakdown"))
      else
        var breakdown :- CostBreakdownSchema.FromDict(m["cost_breakdown"]);
        Ok(CostDetails(budget, planned, actual, perPiecePlanned, perPieceActual, breakdown))
  }

  function ToDict(c: CostDetails): (r: Value)
    ensures r.Dict? && r.entries.Keys == Keys
    ensures r.entries["cost_breakdown"] == CostBreakdownSchema.ToDict(c.costBreakdown)
  {
    Dict(map[
      "overall_budget" := Num(c.overallBudget),
      "total_campaign_cost_planned" := Num(c.totalCampaignCostPlanned),
      "total_campaign_cost_actual" := Num(c.totalCampaignCostActual),
      "cost_per_piece_planned" := Num(c.costPerPiecePlanned),
      "cost_per_piece_actual" := Num(c.costPerPieceActual),
      "cost_breakdown" := CostBreakdownSchema.ToDict(c.costBreakdown)])
  }

  lemma {:induction false} RoundTrip(c: CostDetails)
    ensures FromDict(ToDict(c)) == Ok(c)
  {
    CostBreakdownSchema.RoundTrip(c.costBreakdown);
  }

  /** A missing key inside the nested breakdown makes the whole call fail. */
  lemma NestedKeyMissing(v: Value, key: string)
    requires v.Dict? && "cost_breakdown" in v.entries
    requires v.entries["cost_breakdown"].Dict?
    requires key in CostBreakdownSchema.Keys && key !in v.entries["cost_breakdown"].entries
    ensures FromDict(v).Err?
  {
  }

  /** A missing top-level key makes the call fail. */
  lemma MissingKeyFails(v: Value, key: string)
    requires v.Dict? && key in Keys && key !in v.entries
    ensures FromDict(v).Err?
  {
  }
}
