/** `CellMailedThisWeek`: the weekly counters of one strategy cell in a mail
    drop. `cell_no` is a plain string, not checked against the campaign's
    strategy cells. */
module CellMailedSchema {
  import opened Wrappers
  import opened Document

  datatype CellMailedThisWeek = CellMailedThisWeek(
    cellNo: string,
    quantityMailedThisWeek: Number,
    responsesThisWeek: Number,
    conversionsThisWeek: Number,
    conversionValueThisWeek: Number)

  const Keys: set<string> := {
    "cell_no", "quantity_mailed_this_week", "responses_this_week",
    "conversions_this_week", "conversion_value_this_week"}

  predicate Decodable(v: Value)
  {
    && v.Dict?
    && StringAt(v.entries, "cell_no").Ok?
    && NumberAt(v.entries, "quantity_mailed_this_week").Ok?
    && NumberAt(v.entries, "responses_this_week").Ok?
    && NumberAt(v.entries, "conversions_this_week").Ok?
    && NumberAt(v.entries, "conversion_value_this_week").Ok?
  }

  function Canonical(v: Value): Value
    requires v.Dict?
  {
    Dict(Restrict(v.entries, Keys))
  }

  function FromDict(v: Value): (r: Result<CellMailedThisWeek, DecodeError>)
    ensures r.Ok? <==> Decodable(v)
    ensures r.Ok? ==> ToDict(r.value) == Canonical(v)
  {
    if !v.Dict? then Err(NotADict)
    else
      var m := v.entries;
      var cellNo :- StringAt(m, "cell_no");
      var quantity :- NumberAt(m, "quantity_mailed_this_week");
      var responses :- NumberAt(m, "responses_this_week");
      var conversions :- NumberAt(m, "conversions_this_week");
      var value :- NumberAt(m, "conversion_value_this_week");
      Ok(CellMailedThisWeek(cellNo, quantity, responses, conversions, value))
  }

  function ToDict(c: CellMailedThisWeek): (r: Value)
    ensures r.Dict? && r.entries.Keys == Keys
  {
    Dict(map[
      "cell_no" := Str(c.cellNo),
      "quantity_mailed_this_week" := Num(c.quantityMailedThisWeek),
      "responses_this_week" := Num(c.responsesThisWeek),
      "conversions_this_week" := Num(c.conversionsThisWeek),
      "conversion_value_this_week" := Num(c.conversionValueThisWeek)])
  }

  lemma RoundTrip(c: CellMailedThisWeek)
    ensures FromDict(ToDict(c)) == Ok(c)
  {
  }

  lemma DictRoundTrip(v: Value)
    requires Decodable(v) && v.entries.Keys == Keys
    ensures FromDict(v).Ok? && ToDict(FromDict(v).value) == v
  {
    assert Restrict(v.entries, Keys) == v.entries;
  }

  /** A missing key makes the call fail. */
  lemma MissingKeyFails(v: Value, key: string)
    requires v.Dict? && key in Keys && key !in v.entries
    ensures FromDict(v).Err?
  {
  }
}
