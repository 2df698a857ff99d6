/** `CampaignData`: the aggregate root. Identity and descriptive strings, the
    lifecycle dates and status (stored as given, not derived from the dates),
    one `CostDetails`, ordered lists of strategy cells and weekly mail drops,
    and one `PerformanceSummary`. */
module CampaignSchema {
  import opened Wrappers
  import opened Document
  import CostBreakdownSchema
  import CostDetailsSchema
  import StrategyCellSchema
  import WeeklyMailDropSchema
  import CellMailedSchema
  import PerformanceSummarySchema

  datatype Campaign = Campaign(
    campaignId: string,
    campaignName: string,
    description: string,
    campaignGoal: string,
    targetAudienceCriteria: string,
    overallStartDate: string,
    overallEndDate: string,
    campaignStatus: string,
    costDetails: CostDetailsSchema.CostDetails,
    strategyCells: seq<StrategyCellSchema.StrategyCell>,
    weeklyMailDrops: seq<WeeklyMailDropSchema.WeeklyMailDrop>,
    performanceSummary: PerformanceSummarySchema.PerformanceSummary)

  /** The string-typed keys, in the order `from_dict` reads them. */
  const StringKeys: seq<string> := [
    "campaign_id", "campaign_name", "description", "campaign_goal",
    "target_audience_criteria", "overall_start_date", "overall_end_date", "campaign_status"]

  const Keys: set<string> := {
    "campaign_id", "campaign_name", "description", "campaign_goal",
    "target_audience_criteria", "overall_start_date", "overall_end_date", "campaign_status",
    "cost_details", "strategy_cells", "weekly_mail_drops", "performance_summary"}

  /** The keys holding a sub-document or a list of them. */
  const NestedKeys: set<string> := {"cost_details", "strategy_cells", "weekly_mail_drops", "performance_summary"}

  /** The eight string fields, in `StringKeys` order. */
  function Strings(c: Campaign): seq<string>
  {
    [c.campaignId, c.campaignName, c.description, c.campaignGoal,
     c.targetAudienceCriteria, c.overallStartDate, c.overallEndDate, c.campaignStatus]
  }

  /** `[StrategyCell.from_dict(cell) for cell in data["strategy_cells"]]`. */
  function CellsAt(m: map<string, Value>): (r: Result<seq<StrategyCellSchema.StrategyCell>, DecodeError>)
    ensures r.Ok? <==> CellsDecodable(m)
    ensures r.Ok? ==> EncodeList(r.value, StrategyCellSchema.ToDict) == CanonicalCells(m)
  {
    var items :- ItemsAt(m, "strategy_cells");
    var cells :- DecodeList(items, StrategyCellSchema.FromDict);
    assert EncodeList(cells, StrategyCellSchema.ToDict).items == CanonicalCells(m).items;
    Ok(cells)
  }

  predicate CellsDecodable(m: map<string, Value>)
  {
    && ItemsAt(m, "strategy_cells").Ok?
    && var cells := ItemsAt(m, "strategy_cells").value;
       forall i :: 0 <= i < |cells| ==> StrategyCellSchema.Decodable(cells[i])
  }

  function CanonicalCells(m: map<string, Value>): Value
    requires CellsDecodable(m)
  {
    var cells := ItemsAt(m, "strategy_cells").value;
    List(seq(|cells|, i requires 0 <= i < |cells| => StrategyCellSchema.Canonical(cells[i])))
  }

  /** `[WeeklyMailDrop.from_dict(drop) for drop in data["weekly_mail_drops"]]`. */
  function DropsAt(m: map<string, Value>): (r: Result<seq<WeeklyMailDropSchema.WeeklyMailDrop>, DecodeError>)
    ensures r.Ok? <==> DropsDecodable(m)
    ensures r.Ok? ==> EncodeList(r.value, WeeklyMailDropSchema.ToDict) == CanonicalDrops(m)
  {
    var items :- ItemsAt(m, "weekly_mail_drops");
    var drops :- DecodeList(items, WeeklyMailDropSchema.FromDict);
    assert EncodeList(drops, WeeklyMailDropSchema.ToDict).items == CanonicalDrops(m).items;
    Ok(drops)
  }

  predicate DropsDecodable(m: map<string, Value>)
  {
    && ItemsAt(m, "weekly_mail_drops").Ok?
    && var drops := ItemsAt(m, "weekly_mail_drops").value;
       forall i :: 0 <= i < |drops| ==> WeeklyMailDropSchema.Decodable(drops[i])
  }

  function CanonicalDrops(m: map<string, Value>): Value
    requires DropsDecodable(m)
  {
    var drops := ItemsAt(m, "weekly_mail_drops").value;
    List(seq(|drops|, i requires 0 <= i < |drops| => WeeklyMailDropSchema.Canonical(drops[i])))
  }

  /** The documents `from_dict` accepts: the eight strings, and every nested
      sub-document and list element decodable on its own. */
  predicate Decodable(v: Value)
  {
    && v.Dict?
    && StringsAt(v.entries, StringKeys).Ok?
    && "cost_details" in v.entries
    && CostDetailsSchema.Decodable(v.entries["cost_details"])
    && CellsDecodable(v.entries)
    && DropsDecodable(v.entries)
    && "performance_summary" in v.entries
    && PerformanceSummarySchema.Decodable(v.entries["performance_summary"])
  }

  /** What survives a decode-encode cycle: at every level, the schema keys
      only, explicit None for absent optional keys, and lists as lists. */
  function Canonical(v: Value): Value
    requires Decodable(v)
  {
    Dict(Restrict(v.entries, Keys)
      ["cost_details" := CostDetailsSchema.Canonical(v.entries["cost_details"])]
      ["strategy_cells" := CanonicalCells(v.entries)]
      ["weekly_mail_drops" := CanonicalDrops(v.entries)]
      ["performance_summary" := PerformanceSummarySchema.Canonical(v.entries["performance_summary"])])
  }

  function FromDict(v: Value): (r: Result<Campaign, DecodeError>)
    ensures r.Ok? <==> Decodable(v)
  {
    if !v.Dict? then Err(NotADict)
    else
      var m := v.entries;
      var s :- StringsAt(m, StringKeys);
      var costsDoc :- ValueAt(m, "cost_details");
      var costs :- CostDetailsSchema.FromDict(costsDoc);
      var cells :- CellsAt(m);
      var drops :- DropsAt(m);
      var performanceDoc :- ValueAt(m, "performance_summary");
      var performance :- PerformanceSummarySchema.FromDict(performanceDoc);
      Ok(Campaign(s[0], s[1], s[2], s[3], s[4], s[5], s[6], s[7], costs, cells, drops, performance))
  }

  /** `to_dict`: one dictionary holding the eight string entries and the four
      nested ones, written here as the union of those two groups. */
  function ToDict(c: Campaign): (r: Value)
    ensures r.Dict? && r.entries.Keys == Keys
  {
    Dict(StringFields(c) + NestedFields(c))
  }

  /** The string entries of `to_dict` hold the campaign's string fields. */
  lemma ToDictStrings(c: Campaign)
    ensures var m := ToDict(c).entries;
      && m[StringKeys[0]] == Str(c.campaignId) && m[StringKeys[1]] == Str(c.campaignName)
      && m[StringKeys[2]] == Str(c.description) && m[StringKeys[3]] == Str(c.campaignGoal)
      && m[StringKeys[4]] == Str(c.targetAudienceCriteria) && m[StringKeys[5]] == Str(c.overallStartDate)
      && m[StringKeys[6]] == Str(c.overallEndDate) && m[StringKeys[7]] == Str(c.campaignStatus)
  {
  }

  /** The nested entries of `to_dict` hold the encoded sub-documents and lists. */
  lemma ToDictNested(c: Campaign)
    ensures var m := ToDict(c).entries;
      && m["cost_details"] == CostDetailsSchema.ToDict(c.costDetails)
      && m["strategy_cells"] == EncodeList(c.strategyCells, StrategyCellSchema.ToDict)
      && m["weekly_mail_drops"] == EncodeList(c.weeklyMailDrops, WeeklyMailDropSchema.ToDict)
      && m["performance_summary"] == PerformanceSummarySchema.ToDict(c.performanceSummary)
  {
  }

  /** The string-valued entries of `to_dict`. */
  function StringFields(c: Campaign): (r: map<string, Value>)
    ensures r.Keys == Keys - NestedKeys
    ensures r[StringKeys[0]] == Str(c.campaignId) && r[StringKeys[1]] == Str(c.campaignName)
    ensures r[StringKeys[2]] == Str(c.description) && r[StringKeys[3]] == Str(c.campaignGoal)
    ensures r[StringKeys[4]] == Str(c.targetAudienceCriteria) && r[StringKeys[5]] == Str(c.overallStartDate)
    ensures r[StringKeys[6]] == Str(c.overallEndDate) && r[StringKeys[7]] == Str(c.campaignStatus)
  {
    map[
      "campaign_id" := Str(c.campaignId),
      "campaign_name" := Str(c.campaignName),
      "description" := Str(c.description),
      "campaign_goal" := Str(c.campaignGoal),
      "target_audience_criteria" := Str(c.targetAudienceCriteria),
      "overall_start_date" := Str(c.overallStartDate),
      "overall_end_date" := Str(c.overallEndDate),
      "campaign_status" := Str(c.campaignStatus)]
  }

  /** The sub-document and list entries of `to_dict`. */
  function NestedFields(c: Campaign): (r: map<string, Value>)
    ensures r.Keys == NestedKeys
    ensures r["cost_details"] == CostDetailsSchema.ToDict(c.costDetails)
    ensures r["strategy_cells"] == EncodeList(c.strategyCells, StrategyCellSchema.ToDict)
    ensures r["weekly_mail_drops"] == EncodeList(c.weeklyMailDrops, WeeklyMailDropSchema.ToDict)
    ensures r["performance_summary"] == PerformanceSummarySchema.ToDict(c.performanceSummary)
  {
    map[
      "cost_details" := CostDetailsSchema.ToDict(c.costDetails),
      "strategy_cells" := EncodeList(c.strategyCells, StrategyCellSchema.ToDict),
      "weekly_mail_drops" := EncodeList(c.weeklyMailDrops, WeeklyMailDropSchema.ToDict),
      "performance_summary" := PerformanceSummarySchema.ToDict(c.performanceSummary)]
  }

  /** The full nested tree survives `from_dict(to_dict(x))`, lists with their
      length and order (empty lists included). */
  lemma {:induction false} RoundTrip(c: Campaign)
    ensures FromDict(ToDict(c)) == Ok(c)
  {
    var m := ToDict(c).entries;
    ToDictNested(c);
    StringsOfToDict(c);
    CostDetailsSchema.RoundTrip(c.costDetails);
    PerformanceSummarySchema.RoundTrip(c.performanceSummary);
    CellsOfToDict(c);
    DropsOfToDict(c);
  }

  lemma StringsOfToDict(c: Campaign)
    ensures StringsAt(ToDict(c).entries, StringKeys) == Ok(Strings(c))
  {
    ToDictStrings(c);
    StringsOfEntries(c, ToDict(c).entries);
  }

  /** Any document with the schema keys whose string entries hold the
      campaign's fields yields exactly those strings. */
  lemma StringsOfEntries(c: Campaign, m: map<string, Value>)
    requires m.Keys == Keys
    requires m[StringKeys[0]] == Str(c.campaignId) && m[StringKeys[1]] == Str(c.campaignName)
    requires m[StringKeys[2]] == Str(c.description) && m[StringKeys[3]] == Str(c.campaignGoal)
    requires m[StringKeys[4]] == Str(c.targetAudienceCriteria) && m[StringKeys[5]] == Str(c.overallStartDate)
    requires m[StringKeys[6]] == Str(c.overallEndDate) && m[StringKeys[7]] == Str(c.campaignStatus)
    ensures StringsAt(m, StringKeys) == Ok(Strings(c))
  {
    var s := Strings(c);
    forall i | 0 <= i < |StringKeys|
      ensures StringKeys[i] in m && m[StringKeys[i]] == Str(s[i])
    {
      // One case per string key, so that each equation of the requires is used.
      if i < 4 {
        if i == 0 {} else if i == 1 {} else if i == 2 {} else {}
      } else {
        if i == 4 {} else if i == 5 {} else if i == 6 {} else {}
      }
    }
    StringsAtExactly(m, StringKeys, s);
  }

  lemma {:induction false} CellsOfToDict(c: Campaign)
    ensures CellsAt(ToDict(c).entries) == Ok(c.strategyCells)
  {
    ToDictNested(c);
    var cells := c.strategyCells;
    forall i | 0 <= i < |cells|
      ensures StrategyCellSchema.FromDict(StrategyCellSchema.ToDict(cells[i])) == Ok(cells[i])
    {
      StrategyCellSchema.RoundTrip(cells[i]);
    }
    DecodeEncodeList(cells, StrategyCellSchema.ToDict, StrategyCellSchema.FromDict);
  }

  lemma {:induction false} DropsOfToDict(c: Campaign)
    ensures DropsAt(ToDict(c).entries) == Ok(c.weeklyMailDrops)
  {
    ToDictNested(c);
    var drops := c.weeklyMailDrops;
    forall i | 0 <= i < |drops|
      ensures WeeklyMailDropSchema.FromDict(WeeklyMailDropSchema.ToDict(drops[i])) == Ok(drops[i])
    {
      WeeklyMailDropSchema.RoundTrip(drops[i]);
    }
    DecodeEncodeList(drops, WeeklyMailDropSchema.ToDict, WeeklyMailDropSchema.FromDict);
  }

  /** Decoding a stored document and encoding it again keeps exactly the
      schema keys, at every level of nesting. */
  lemma DecodeKeepsSchemaKeys(v: Value)
    requires Decodable(v)
    ensures FromDict(v).Ok? && ToDict(FromDict(v).value) == Canonical(v)
  {
    FromDictParts(v);
    var c := FromDict(v).value;
    StringEntries(v.entries, c);
    NestedEntries(v, c);
    CanonicalEntries(v);
    CanonicalKeys(v);
    SameEntries(v.entries, ToDict(c).entries, Canonical(v).entries);
  }

  /** Two encodings of a campaign document are equal when they have the
      schema keys, agree with `m` on the string keys, and agree on the nested
      keys. */
  lemma SameEntries(m: map<string, Value>, lhs: map<string, Value>, rhs: map<string, Value>)
    requires lhs.Keys == Keys && rhs.Keys == Keys
    requires forall i :: 0 <= i < |StringKeys| ==> StringKeys[i] in m && lhs[StringKeys[i]] == m[StringKeys[i]]
    requires forall k :: k in m && k in Keys && k !in NestedKeys ==> rhs[k] == m[k]
    requires lhs["cost_details"] == rhs["cost_details"]
    requires lhs["strategy_cells"] == rhs["strategy_cells"]
    requires lhs["weekly_mail_drops"] == rhs["weekly_mail_drops"]
    requires lhs["performance_summary"] == rhs["performance_summary"]
    ensures lhs == rhs
  {
    forall k | k in lhs
      ensures lhs[k] == rhs[k]
    {
      if k !in NestedKeys {
        var i := StringKeyIndex(k);
      }
    }
  }

  lemma NestedEntries(v: Value, c: Campaign)
    requires Decodable(v)
    requires c.costDetails == CostDetailsSchema.FromDict(v.entries["cost_details"]).value
    requires c.strategyCells == CellsAt(v.entries).value
    requires c.weeklyMailDrops == DropsAt(v.entries).value
    requires c.performanceSummary == PerformanceSummarySchema.FromDict(v.entries["performance_summary"]).value
    ensures ToDict(c).entries["cost_details"] == Canonical(v).entries["cost_details"]
    ensures ToDict(c).entries["strategy_cells"] == Canonical(v).entries["strategy_cells"]
    ensures ToDict(c).entries["weekly_mail_drops"] == Canonical(v).entries["weekly_mail_drops"]
    ensures ToDict(c).entries["performance_summary"] == Canonical(v).entries["performance_summary"]
  {
    ToDictNested(c);
    CanonicalNested(v);
  }

  lemma CanonicalNested(v: Value)
    requires Decodable(v)
    ensures Canonical(v).entries["cost_details"] == CostDetailsSchema.Canonical(v.entries["cost_details"])
    ensures Canonical(v).entries["strategy_cells"] == CanonicalCells(v.entries)
    ensures Canonical(v).entries["weekly_mail_drops"] == CanonicalDrops(v.entries)
    ensures Canonical(v).entries["performance_summary"] == PerformanceSummarySchema.Canonical(v.entries["performance_summary"])
  {
  }

  /** Every schema key outside `NestedKeys` is one of `StringKeys`. */
  lemma StringKeyIndex(k: string) returns (i: nat)
    requires k in Keys && k !in NestedKeys
    ensures i < |StringKeys| && StringKeys[i] == k
  {
    i := if k == "campaign_id" then 0
      else if k == "campaign_name" then 1
      else if k == "description" then 2
      else if k == "campaign_goal" then 3
      else if k == "target_audience_criteria" then 4
      else if k == "overall_start_date" then 5
      else if k == "overall_end_date" then 6
      else 7;
  }

  lemma CanonicalKeys(v: Value)
    requires Decodable(v)
    ensures Canonical(v).entries.Keys == Keys
  {
    forall k | k in Keys
      ensures k in v.entries
    {
      if k !in NestedKeys {
        var i := StringKeyIndex(k);
      }
    }
  }

  lemma CanonicalEntries(v: Value)
    requires Decodable(v)
    ensures forall k :: k in v.entries && k in Keys && k !in NestedKeys ==> Canonical(v).entries[k] == v.entries[k]
  {
    var m := v.entries;
    var r := Restrict(m, Keys);
    var c := Canonical(v).entries;
    assert c == r["cost_details" := CostDetailsSchema.Canonical(m["cost_details"])]
      ["strategy_cells" := CanonicalCells(m)]
      ["weekly_mail_drops" := CanonicalDrops(m)]
      ["performance_summary" := PerformanceSummarySchema.Canonical(m["performance_summary"])];
    forall k | k in m && k in Keys && k !in NestedKeys
      ensures c[k] == m[k]
    {
      assert k != "cost_details" && k != "strategy_cells" && k != "weekly_mail_drops" && k != "performance_summary";
      assert k in r;
    }
  }

  /** The eight string entries of the re-encoded campaign are the stored ones. */
  lemma StringEntries(m: map<string, Value>, c: Campaign)
    requires StringsAt(m, StringKeys).Ok? && Strings(c) == StringsAt(m, StringKeys).value
    ensures forall i :: 0 <= i < |StringKeys| ==> StringKeys[i] in m && ToDict(c).entries[StringKeys[i]] == m[StringKeys[i]]
  {
    StringsOfToDict(c);
  }

  /** The decoded campaign is built from the pieces the helper decoders return. */
  lemma FromDictParts(v: Value)
    requires Decodable(v)
    ensures FromDict(v).Ok?
    ensures Strings(FromDict(v).value) == StringsAt(v.entries, StringKeys).value
    ensures FromDict(v).value.costDetails == CostDetailsSchema.FromDict(v.entries["cost_details"]).value
    ensures FromDict(v).value.strategyCells == CellsAt(v.entries).value
    ensures FromDict(v).value.weeklyMailDrops == DropsAt(v.entries).value
    ensures FromDict(v).value.performanceSummary
         == PerformanceSummarySchema.FromDict(v.entries["performance_summary"]).value
  {
    var s := StringsAt(v.entries, StringKeys).value;
    assert |s| == |StringKeys| == 8;
    assert s == [s[0], s[1], s[2], s[3], s[4], s[5], s[6], s[7]];
  }

  /** `from_dict` reads nothing but the schema keys: two documents that agree
      on them decode to the same campaign, or fail with the same error. */
  lemma OnlySchemaKeysMatter(v: Value, w: Value)
    requires v.Dict? && w.Dict?
    requires Restrict(v.entries, Keys) == Restrict(w.entries, Keys)
    ensures FromDict(v) == FromDict(w)
  {
    var m, n := v.entries, w.entries;
    AgreeOnKeys(m, n);
    StringKeysAreKeys();
    StringsAgree(m, n, StringKeys);
    NestedAgree(m, n);
  }

  /** Agreement of the restrictions, key by key. */
  lemma AgreeOnKeys(m: map<string, Value>, n: map<string, Value>)
    requires Restrict(m, Keys) == Restrict(n, Keys)
    ensures forall k :: k in Keys ==> (k in m <==> k in n) && (k in m ==> m[k] == n[k])
  {
    forall k | k in Keys
      ensures (k in m <==> k in n) && (k in m ==> m[k] == n[k])
    {
      if k in m { assert k in Restrict(m, Keys); }
      if k in n { assert k in Restrict(n, Keys); }
    }
  }

  lemma StringKeysAreKeys()
    ensures forall k :: k in StringKeys ==> k in Keys
  {
  }

  lemma NestedAgree(m: map<string, Value>, n: map<string, Value>)
    requires forall k :: k in Keys ==> (k in m <==> k in n) && (k in m ==> m[k] == n[k])
    ensures ValueAt(m, "cost_details") == ValueAt(n, "cost_details")
    ensures CellsAt(m) == CellsAt(n)
    ensures DropsAt(m) == DropsAt(n)
    ensures ValueAt(m, "performance_summary") == ValueAt(n, "performance_summary")
  {
    assert "strategy_cells" in Keys && "weekly_mail_drops" in Keys;
    assert ItemsAt(m, "strategy_cells") == ItemsAt(n, "strategy_cells");
    assert ItemsAt(m, "weekly_mail_drops") == ItemsAt(n, "weekly_mail_drops");
  }

  lemma {:induction false} StringsAgree(m: map<string, Value>, n: map<string, Value>, keys: seq<string>)
    requires forall k :: k in keys ==> (k in m <==> k in n) && (k in m ==> m[k] == n[k])
    ensures StringsAt(m, keys) == StringsAt(n, keys)
  {
    if keys != [] {
      assert StringAt(m, keys[0]) == StringAt(n, keys[0]);
      StringsAgree(m, n, keys[1..]);
    }
  }

  /** A campaign document without one of its own schema keys does not
      decode. */
  lemma MissingKeyFails(v: Value, key: string)
    requires v.Dict? && key in Keys && key !in v.entries
    ensures FromDict(v).Err?
  {
    MissingKeyNotDecodable(v, key);
  }

  /** A key missing from the cost details makes the whole campaign fail. */
  lemma DetailsKeyMissing(v: Value, key: string)
    requires v.Dict? && "cost_details" in v.entries && v.entries["cost_details"].Dict?
    requires key in CostDetailsSchema.Keys && key !in v.entries["cost_details"].entries
    ensures FromDict(v).Err?
  {
    CostDetailsSchema.MissingKeyFails(v.entries["cost_details"], key);
  }

  /** A key missing from the cost breakdown inside the cost details makes the
      whole campaign fail. */
  lemma BreakdownKeyMissing(v: Value, key: string)
    requires v.Dict? && "cost_details" in v.entries
    requires var d := v.entries["cost_details"];
      d.Dict? && "cost_breakdown" in d.entries && d.entries["cost_breakdown"].Dict?
    requires key in CostBreakdownSchema.Keys
    requires key !in v.entries["cost_details"].entries["cost_breakdown"].entries
    ensures FromDict(v).Err?
  {
    CostDetailsSchema.NestedKeyMissing(v.entries["cost_details"], key);
  }

  /** A key missing from the performance summary makes the whole campaign
      fail. */
  lemma PerformanceKeyMissing(v: Value, key: string)
    requires v.Dict? && "performance_summary" in v.entries && v.entries["performance_summary"].Dict?
    requires key in PerformanceSummarySchema.Keys && key !in v.entries["performance_summary"].entries
    ensures FromDict(v).Err?
  {
    PerformanceSummarySchema.MissingKeyFails(v.entries["performance_summary"], key);
  }

  /** A required key missing from any one strategy cell makes the whole
      campaign fail. */
  lemma CellKeyMissing(v: Value, k: nat, key: string)
    requires v.Dict? && "strategy_cells" in v.entries && v.entries["strategy_cells"].List?
    requires k < |v.entries["strategy_cells"].items| && v.entries["strategy_cells"].items[k].Dict?
    requires key in StrategyCellSchema.Keys && key != "assigned_offer_code"
    requires key !in v.entries["strategy_cells"].items[k].entries
    ensures FromDict(v).Err?
  {
    StrategyCellSchema.MissingKeyFails(v.entries["strategy_cells"].items[k], key);
  }

  /** A required key missing from any one mail drop makes the whole campaign
      fail. */
  lemma DropKeyMissing(v: Value, k: nat, key: string)
    requires v.Dict? && "weekly_mail_drops" in v.entries && v.entries["weekly_mail_drops"].List?
    requires k < |v.entries["weekly_mail_drops"].items| && v.entries["weekly_mail_drops"].items[k].Dict?
    requires key in WeeklyMailDropSchema.Keys && key != "actual_send_date"
    requires key !in v.entries["weekly_mail_drops"].items[k].entries
    ensures FromDict(v).Err?
  {
    WeeklyMailDropSchema.MissingKeyFails(v.entries["weekly_mail_drops"].items[k], key);
  }

  /** A key missing from one per-cell counter of one mail drop makes the
      whole campaign fail. */
  lemma DropCellKeyMissing(v: Value, k: nat, j: nat, key: string)
    requires v.Dict? && "weekly_mail_drops" in v.entries && v.entries["weekly_mail_drops"].List?
    requires k < |v.entries["weekly_mail_drops"].items|
    requires var drop := v.entries["weekly_mail_drops"].items[k];
      && drop.Dict? && "cells_mailed_this_week" in drop.entries
      && drop.entries["cells_mailed_this_week"].List?
      && j < |drop.entries["cells_mailed_this_week"].items|
      && drop.entries["cells_mailed_this_week"].items[j].Dict?
      && key in CellMailedSchema.Keys
      && key !in drop.entries["cells_mailed_this_week"].items[j].entries
    ensures FromDict(v).Err?
  {
    var drop := v.entries["weekly_mail_drops"].items[k];
    CellMailedSchema.MissingKeyFails(drop.entries["cells_mailed_this_week"].items[j], key);
    WeeklyMailDropSchema.BadCellFails(drop, j);
  }

  lemma MissingKeyNotDecodable(v: Value, key: string)
    requires v.Dict? && key in Keys && key !in v.entries
    ensures !Decodable(v)
  {
    if key !in NestedKeys {
      var i := StringKeyIndex(key);
      assert !StringAt(v.entries, StringKeys[i]).Ok?;
    } else if key == "strategy_cells" {
      assert !CellsDecodable(v.entries);
    } else if key == "weekly_mail_drops" {
      assert !DropsDecodable(v.entries);
    }
  }
}
