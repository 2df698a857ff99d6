/** `CostBreakdown`: the four actual cost components of a campaign. */
module CostBreakdownSchema {
  import opened Wrappers
  import opened Document

  datatype CostBreakdown = CostBreakdown(
    printingCostActual: Number,
    postageCostActual: Number,
    dataCostActual: Number,
    otherCostsActual: Number)

  /** The keys `from_dict` reads and `to_dict` writes. */
  const Keys: set<string> :=
    {"printing_cost_actual", "postage_cost_actual", "data_cost_actual", "other_costs_actual"}

  /** The dictionaries `from_dict` accepts: all four keys hold numbers. */
  predicate Decodable(v: Value)
  {
    && v.Dict?
    && NumberAt(v.entries, "printing_cost_actual").Ok?
    && NumberAt(v.entries, "postage_cost_actual").Ok?
    && NumberAt(v.entries, "data_cost_actual").Ok?
    && NumberAt(v.entries, "other_costs_actual").Ok?
  }

  /** What survives a decode-encode cycle: the schema keys, values untouched. */
  function Canonical(v: Value): Value
    requires v.Dict?
  {
    Dict(Restrict(v.entries, Keys))
  }

  function FromDict(v: Value): (r: Result<CostBreakdown, DecodeError>)
    ensures r.Ok? <==> Decodable(v)
    ensures r.Ok? ==> ToDict(r.value) == Canonical(v)
  {
    if !v.Dict? then Err(NotADict)
    else
      var m := v.entries;
      var printing :- NumberAt(m, "printing_cost_actual");
      var postage :- NumberAt(m, "postage_cost_actual");
      var data :- NumberAt(m, "data_cost_actual");
      var other :- NumberAt(m, "other_costs_actual");
      Ok(CostBreakdown(printing, postage, data, other))
  }

  function ToDict(b: CostBreakdown): (r: Value)
    ensures r.Dict? && r.entries.Keys == Keys
  {
    Dict(map[
      "printing_cost_actual" := Num(b.printingCostActual),
      "postage_cost_actual" := Num(b.postageCostActual),
      "data_cost_actual" := Num(b.dataCostActual),
      "other_costs_actual" := Num(b.otherCostsActual)])
  }

  lemma RoundTrip(b: CostBreakdown)
    ensures FromDict(ToDict(b)) == Ok(b)
  {
  }

  /** A dictionary holding exactly the four keys, with numbers, is rebuilt
      exactly by `to_dict(from_dict(d))`. */
  lemma DictRoundTrip(v: Value)
    requires Decodable(v) && v.entries.Keys == Keys
    ensures FromDict(v).Ok? && ToDict(FromDict(v).value) == v
  {
    assert Restrict(v.entries, Keys) == v.entries;
  }

  /** `data[key]` on an absent key raises, so the whole call fails. */
  lemma MissingKeyFails(v: Value, key: string)
    requires v.Dict? && key in Keys && key !in v.entries
    ensures FromDict(v).Err?
  {
  }
}
