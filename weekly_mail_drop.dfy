/** `WeeklyMailDrop`: one mailing event with an optional actual send date and
    the ordered list of per-cell weekly counters. `total_pieces_sent_this_week`
    is stored as given, not checked against the cells. */
module WeeklyMailDropSchema {
  import opened Wrappers
  import opened Document
  import CellMailedSchema

  datatype WeeklyMailDrop = WeeklyMailDrop(
    mailDropId: string,
    mailingWeekStartDate: string,
    plannedSendDate: string,
    actualSendDate: Option<string>,
    totalPiecesSentThisWeek: Number,
    cellsMailedThisWeek: seq<CellMailedSchema.CellMailedThisWeek>)

  const Keys: set<string> := {
    "mail_drop_id", "mailing_week_start_date", "planned_send_date", "actual_send_date",
    "total_pieces_sent_this_week", "cells_mailed_this_week"}

  /** The dictionaries `from_dict` accepts: required keys of the declared kinds,
      an optional `actual_send_date`, and a `cells_mailed_this_week` entry
      whose every element is a decodable cell. */
  predicate Decodable(v: Value)
  {
    && v.Dict?
    && StringAt(v.entries, "mail_drop_id").Ok?
    && StringAt(v.entries, "mailing_week_start_date").Ok?
    && StringAt(v.entries, "planned_send_date").Ok?
    && OptionalStringAt(v.entries, "actual_send_date").Ok?
    && NumberAt(v.entries, "total_pieces_sent_this_week").Ok?
    && ItemsAt(v.entries, "cells_mailed_this_week").Ok?
    && var cells := ItemsAt(v.entries, "cells_mailed_this_week").value;
       forall i :: 0 <= i < |cells| ==> CellMailedSchema.Decodable(cells[i])
  }

  /** What survives a decode-encode cycle: schema keys, an explicit None for an
      absent `actual_send_date`, and each cell in its own canonical form. */
  function Canonical(v: Value): Value
    requires Decodable(v)
  {
    var cells := ItemsAt(v.entries, "cells_mailed_this_week").value;
    Dict(Restrict(v.entries, Keys)
      ["actual_send_date" := GetOrNull(v.entries, "actual_send_date")]
      ["cells_mailed_this_week" :=
        List(seq(|cells|, i requires 0 <= i < |cells| => CellMailedSchema.Canonical(cells[i])))])
  }

  function FromDict(v: Value): (r: Result<WeeklyMailDrop, DecodeError>)
    ensures r.Ok? <==> Decodable(v)
    ensures r.Ok? ==> ToDict(r.value) == Canonical(v)
  {
    if !v.Dict? then Err(NotADict)
    else
      var m := v.entries;
      var dropId :- StringAt(m, "mail_drop_id");
      var weekStart :- StringAt(m, "mailing_week_start_date");
      var planned :- StringAt(m, "planned_send_date");
      var actual :- OptionalStringAt(m, "actual_send_date");
      var pieces :- NumberAt(m, "total_pieces_sent_this_week");
      var items :- ItemsAt(m, "cells_mailed_this_week");
      var cells :- DecodeList(items, CellMailedSchema.FromDict);
      var drop := WeeklyMailDrop(dropId, weekStart, planned, actual, pieces, cells);
      assert EncodeList(cells, CellMailedSchema.ToDict).items
          == seq(|items|, i requires 0 <= i < |items| => CellMailedSchema.Canonical(items[i]));
      Ok(drop)
  }

  function ToDict(w: WeeklyMailDrop): (r: Value)
    ensures r.Dict? && r.entries.Keys == Keys
    ensures r.entries["mail_drop_id"] == Str(w.mailDropId)
    ensures r.entries["mailing_week_start_date"] == Str(w.mailingWeekStartDate)
    ensures r.entries["planned_send_date"] == Str(w.plannedSendDate)
    ensures r.entries["total_pieces_sent_this_week"] == Num(w.totalPiecesSentThisWeek)
    ensures r.entries["actual_send_date"] == EncodeOptional(w.actualSendDate)
    ensures r.entries["cells_mailed_this_week"] == EncodeList(w.cellsMailedThisWeek, CellMailedSchema.ToDict)
  {
    Dict(map[
      "mail_drop_id" := Str(w.mailDropId),
      "mailing_week_start_date" := Str(w.mailingWeekStartDate),
      "planned_send_date" := Str(w.plannedSendDate),
      "actual_send_date" := EncodeOptional(w.actualSendDate),
      "total_pieces_sent_this_week" := Num(w.totalPiecesSentThisWeek),
      "cells_mailed_this_week" := EncodeList(w.cellsMailedThisWeek, CellMailedSchema.ToDict)])
  }

  /** The round trip keeps every field, and the cells list with its length and
      order (an empty list included). */
  lemma {:induction false} RoundTrip(w: WeeklyMailDrop)
    ensures FromDict(ToDict(w)) == Ok(w)
  {
    CellsRoundTrip(w.cellsMailedThisWeek);
  }

  /** The encoded cells list decodes back to the same cells. */
  lemma {:induction false} CellsRoundTrip(cells: seq<CellMailedSchema.CellMailedThisWeek>)
    ensures DecodeList(EncodeList(cells, CellMailedSchema.ToDict).items, CellMailedSchema.FromDict) == Ok(cells)
  {
    forall i | 0 <= i < |cells|
      ensures CellMailedSchema.FromDict(CellMailedSchema.ToDict(cells[i])) == Ok(cells[i])
    {
      CellMailedSchema.RoundTrip(cells[i]);
    }
    DecodeEncodeList(cells, CellMailedSchema.ToDict, CellMailedSchema.FromDict);
  }

  /** One undecodable cell makes the whole drop fail. */
  lemma BadCellFails(v: Value, k: nat)
    requires v.Dict? && "cells_mailed_this_week" in v.entries
    requires v.entries["cells_mailed_this_week"].List?
    requires k < |v.entries["cells_mailed_this_week"].items|
    requires !CellMailedSchema.Decodable(v.entries["cells_mailed_this_week"].items[k])
    ensures FromDict(v).Err?
  {
  }

  /** A missing key other than `actual_send_date` makes the call fail. */
  lemma MissingKeyFails(v: Value, key: string)
    requires v.Dict? && key in Keys && key != "actual_send_date" && key !in v.entries
    ensures FromDict(v).Err?
  {
  }

  /** Without an `actual_send_date` key the drop still decodes, with no
      actual send date. */
  lemma AbsentActualSendDate(v: Value)
    requires Decodable(v) && "actual_send_date" !in v.entries
    ensures FromDict(v).Ok? && FromDict(v).value.actualSendDate == None
  {
  }
}
