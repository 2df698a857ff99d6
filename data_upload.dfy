/** The upload path: column clean-up of an uploaded table, the builder that
    turns one flat row into a nested campaign, and the loop that builds every
    row, skips the rows that fail and hands the rest to the store. */
module DataUpload {
  import opened Wrappers
  import opened Document
  import opened Text
  import Seqs
  import CostBreakdownSchema
  import CostDetailsSchema
  import StrategyCellSchema
  import WeeklyMailDropSchema
  import PerformanceSummarySchema
  import CampaignSchema

  /** One cell of an uploaded table as the CSV or Excel reader produced it. */
  datatype Cell = StrCell(s: string) | IntCell(i: int) | FloatCell(r: real) | NaNCell | NoneCell

  /** What `pd.notnull` rejects. */
  predicate IsNull(c: Cell)
  {
    c.NaNCell? || c.NoneCell?
  }

  /** A column label after `.str.replace(' ', '_').str.lower()`: same
      length, no space and no capital left. */
  function NormalizeColumn(name: string): (r: string)
    ensures |r| == |name|
    ensures forall i :: 0 <= i < |name| ==> r[i] != ' ' && !IsUpper(r[i])
  {
    Lower(ReplaceChar(name, ' ', '_'))
  }

  /** Each space becomes an underscore and each upper-case letter its
      lower-case form; nothing else changes. */
  lemma NormalizeColumnChars(name: string)
    ensures |NormalizeColumn(name)| == |name|
    ensures forall i :: 0 <= i < |name| ==>
      NormalizeColumn(name)[i] == if name[i] == ' ' then '_' else LowerChar(name[i])
  {
  }

  /** Normalising a normalised label changes nothing. */
  lemma NormalizeColumnIdempotent(name: string)
    ensures NormalizeColumn(NormalizeColumn(name)) == NormalizeColumn(name)
  {
    var n := NormalizeColumn(name);
    NormalizeColumnChars(name);
    assert ReplaceChar(n, ' ', '_') == n;
    LowerIdempotent(ReplaceChar(name, ' ', '_'));
  }

  /** How a column stores its cells: a numeric column (`float64`, or
      `int64` when it has no gap) keeps its nulls as NaN, because `None`
      cannot be stored there; an `object` column (text, mixed) can hold
      `None`. */
  datatype Dtype = NumericDtype | ObjectDtype

  /** `df.where(pd.notnull(df), None)` on one cell of a column of the given
      dtype: a null cell becomes `None` in an object column and stays NaN in
      a numeric one. */
  function CleanCell(c: Cell, t: Dtype): (r: Cell)
    ensures !IsNull(c) ==> r == c
    ensures IsNull(c) ==> IsNull(r)
    ensures t == NumericDtype ==> r == c
    ensures t == ObjectDtype ==> !r.NaNCell?
  {
    if IsNull(c) && t == ObjectDtype then NoneCell else c
  }

  function CleanRow(cells: seq<Cell>, dtypes: seq<Dtype>): seq<Cell>
    requires |cells| == |dtypes|
  {
    seq(|cells|, i requires 0 <= i < |cells| => CleanCell(cells[i], dtypes[i]))
  }

  /** Null cells of object columns become `None`, null cells of numeric
      columns stay as they are, every other cell is kept, no NaN is left in
      an object column, and cleaning twice is cleaning once. */
  lemma CleanRowCells(cells: seq<Cell>, dtypes: seq<Dtype>)
    requires |cells| == |dtypes|
    ensures |CleanRow(cells, dtypes)| == |cells|
    ensures forall i :: 0 <= i < |cells| && !IsNull(cells[i]) ==> CleanRow(cells, dtypes)[i] == cells[i]
    ensures forall i :: 0 <= i < |cells| && IsNull(cells[i]) ==>
      CleanRow(cells, dtypes)[i] == if dtypes[i] == ObjectDtype then NoneCell else cells[i]
    ensures forall i :: 0 <= i < |cells| && dtypes[i] == ObjectDtype ==> !CleanRow(cells, dtypes)[i].NaNCell?
    ensures CleanRow(CleanRow(cells, dtypes), dtypes) == CleanRow(cells, dtypes)
  {
  }

  /** A blank cell of a float column survives the clean-up as NaN, and
      `float` of it is NaN rather than an error. */
  lemma BlankFloatCell(cells: seq<Cell>, dtypes: seq<Dtype>, i: nat, key: string, ft: FloatText)
    requires |cells| == |dtypes| && i < |cells|
    requires cells[i] == NaNCell && dtypes[i] == NumericDtype
    ensures CleanRow(cells, dtypes)[i] == NaNCell
    ensures FloatOf(CleanRow(cells, dtypes)[i], key, ft) == Ok(NaN)
  {
  }

  function NormalizeColumns(names: seq<string>): (r: seq<string>)
    ensures |r| == |names|
  {
    seq(|names|, i requires 0 <= i < |names| => NormalizeColumn(names[i]))
  }

  function CleanRows(rows: seq<seq<Cell>>, dtypes: seq<Dtype>): (r: seq<seq<Cell>>)
    requires forall i :: 0 <= i < |rows| ==> |rows[i]| == |dtypes|
    ensures |r| == |rows| && forall i :: 0 <= i < |rows| ==> |r[i]| == |rows[i]|
  {
    seq(|rows|, i requires 0 <= i < |rows| => CleanRow(rows[i], dtypes))
  }

  /** An uploaded table: its column labels, the dtype of each column and
      its rows of cells. */
  class Frame {
    var columns: seq<string>
    var dtypes: seq<Dtype>
    var rows: seq<seq<Cell>>

    /** One dtype per column and one cell per column in every row. */
    ghost predicate Valid()
      reads this
    {
      && |dtypes| == |columns|
      && forall i :: 0 <= i < |rows| ==> |rows[i]| == |columns|
    }

    constructor (columns: seq<string>, dtypes: seq<Dtype>, rows: seq<seq<Cell>>)
      ensures this.columns == columns && this.dtypes == dtypes && this.rows == rows
    {
      this.columns := columns;
      this.dtypes := dtypes;
      this.rows := rows;
    }

    /** `preprocess_dataframe`: renames the columns of this frame in place and
        returns a new frame whose null cells are cleaned column by column. */
    method Preprocess() returns (cleaned: Frame)
      requires Valid()
      modifies this
      ensures columns == NormalizeColumns(old(columns))
      ensures dtypes == old(dtypes) && rows == old(rows)
      ensures fresh(cleaned)
      ensures cleaned.columns == columns && cleaned.dtypes == dtypes
      ensures cleaned.rows == CleanRows(rows, dtypes)
      ensures Valid() && cleaned.Valid()
    {
      columns := NormalizeColumns(columns);
      cleaned := new Frame(columns, dtypes, CleanRows(rows, dtypes));
    }
  }

  /** A row as `iterrows` yields it: each column label with the cells under
      it (more than one when a label occurs twice). */
  type Row = map<string, seq<Cell>>

  function RowOf(columns: seq<string>, cells: seq<Cell>): (row: Row)
    requires |cells| == |columns|
    ensures row.Keys == set k | k in columns
  {
    if columns == [] then map[]
    else
      var n := |columns| - 1;
      var init := RowOf(columns[..n], cells[..n]);
      init[columns[n] := (if columns[n] in init then init[columns[n]] else []) + [cells[n]]]
  }

  /** With distinct labels, each label holds exactly the one cell in its
      position. */
  lemma {:induction false} RowOfDistinct(columns: seq<string>, cells: seq<Cell>, i: nat)
    requires |cells| == |columns| && i < |columns|
    requires forall a, b :: 0 <= a < b < |columns| ==> columns[a] != columns[b]
    ensures RowOf(columns, cells)[columns[i]] == [cells[i]]
  {
    var n := |columns| - 1;
    if i < n {
      RowOfDistinct(columns[..n], cells[..n], i);
    } else {
      assert columns[n] !in columns[..n];
    }
  }

  /** The conversion error `create_campaign_object` reports for a row that
      does not build. */
  datatype UploadError =
    | KeyError(key: string)        // no column with this label
    | DuplicateLabel(key: string)  // more than one column with this label
    | TypeError(key: string)       // `int(None)` or `float(None)`
    | ValueError(key: string)      // a string that is not a number, or `int` of NaN

  /** `row[key]`. */
  function Lookup(row: Row, key: string): (r: Result<Cell, UploadError>)
    ensures r.Ok? <==> key in row && |row[key]| == 1
    ensures r.Ok? ==> row[key] == [r.value]
    ensures key !in row ==> r == Err(KeyError(key))
  {
    if key !in row then Err(KeyError(key))
    else if |row[key]| != 1 then Err(DuplicateLabel(key))
    else Ok(row[key][0])
  }

  /** Python's conversions between floats and their text, which the model
      takes as given. */
  datatype FloatText = FloatText(parse: string -> Option<real>, show: real -> string)

  /** `int(r)` for a float: truncation toward zero. */
  function Trunc(r: real): (n: int)
    ensures 0.0 <= r ==> 0 <= n && n as real <= r < n as real + 1.0
    ensures r < 0.0 ==> n <= 0 && n as real - 1.0 < r <= n as real
  {
    if r >= 0.0 then r.Floor else -((-r).Floor)
  }

  /** `str(cell)`: never fails; text is kept and `None` becomes the
      text "None". */
  function StrOf(c: Cell, ft: FloatText): (r: string)
    ensures c.StrCell? ==> r == c.s
    ensures c.NoneCell? ==> r == "None"
  {
    match c
    case StrCell(s) => s
    case IntCell(i) => IntToString(i)
    case FloatCell(r) => ft.show(r)
    case NaNCell => "nan"
    case NoneCell => "None"
  }

  /** `int(cell)`. */
  function IntOf(c: Cell, key: string): (r: Result<Number, UploadError>)
    ensures r.Ok? ==> r.value.Int?
    ensures r.Err? <==> c.NoneCell? || c.NaNCell? || (c.StrCell? && ParseInt(c.s).None?)
    ensures c.NoneCell? ==> r == Err(TypeError(key))
  {
    match c
    case StrCell(s) => (match ParseInt(s) case Some(i) => Ok(Int(i)) case None => Err(ValueError(key)))
    case IntCell(i) => Ok(Int(i))
    case FloatCell(x) => Ok(Int(Trunc(x)))
    case NaNCell => Err(ValueError(key))
    case NoneCell => Err(TypeError(key))
  }

  /** `float(cell)`. */
  function FloatOf(c: Cell, key: string, ft: FloatText): (r: Result<Number, UploadError>)
    ensures r.Ok? ==> r.value.Float? || r.value.NaN?
    ensures r.Err? <==> c.NoneCell? || (c.StrCell? && ft.parse(c.s).None?)
    ensures c.NoneCell? ==> r == Err(TypeError(key))
  {
    match c
    case StrCell(s) => (match ft.parse(s) case Some(x) => Ok(Float(x)) case None => Err(ValueError(key)))
    case IntCell(i) => Ok(Float(i as real))
    case FloatCell(x) => Ok(Float(x))
    case NaNCell => Ok(NaN)
    case NoneCell => Err(TypeError(key))
  }

  /** `str(row[key])`. */
  function StrAt(row: Row, key: string, ft: FloatText): (r: Result<string, UploadError>)
    ensures r.Ok? <==> Lookup(row, key).Ok?
  {
    var c :- Lookup(row, key);
    Ok(StrOf(c, ft))
  }

  /** `int(row[key])`. */
  function IntAt(row: Row, key: string): (r: Result<Number, UploadError>)
    ensures r.Ok? ==> Lookup(row, key).Ok? && r.value.Int?
  {
    var c :- Lookup(row, key);
    IntOf(c, key)
  }

  /** `float(row[key])`. */
  function FloatAt(row: Row, key: string, ft: FloatText): (r: Result<Number, UploadError>)
    ensures r.Ok? ==> Lookup(row, key).Ok? && (r.value.Float? || r.value.NaN?)
  {
    var c :- Lookup(row, key);
    FloatOf(c, key, ft)
  }

  // The columns each part of the builder reads, by the conversion applied.
  const BreakdownFloatColumns: set<string> :=
    {"printing_cost_actual", "postage_cost_actual", "data_cost_actual", "other_costs_actual"}
  const DetailsFloatColumns: set<string> := {
    "overall_budget", "total_campaign_cost_planned", "total_campaign_cost_actual",
    "cost_per_piece_planned", "cost_per_piece_actual"}
  const CellStrColumns: set<string> :=
    {"cell_no", "cell_description", "assigned_creative_id", "assigned_offer_code"}
  const CellIntColumns: set<string> :=
    {"campaign_total_mailed", "campaign_total_responses", "campaign_total_conversions"}
  const CellFloatColumns: set<string> := {"campaign_total_conversion_value"}
  const DropStrColumns: set<string> :=
    {"mail_drop_id", "mailing_week_start_date", "planned_send_date", "actual_send_date"}
  const DropIntColumns: set<string> := {"total_pieces_sent_this_week"}
  const PerformanceIntColumns: set<string> :=
    {"total_campaign_pieces_sent", "total_campaign_responses", "total_campaign_conversions"}
  const PerformanceFloatColumns: set<string> := {
    "overall_response_rate", "overall_conversion_rate", "total_campaign_conversion_value",
    "average_conversion_value", "campaign_roi"}
  const CampaignStrColumns: set<string> := {
    "campaign_id", "campaign_name", "description", "campaign_goal",
    "target_audience_criteria", "overall_start_date", "overall_end_date", "campaign_status"}

  predicate StrsPresent(row: Row, keys: set<string>)
  {
    forall k :: k in keys ==> Lookup(row, k).Ok?
  }

  predicate IntsCoerce(row: Row, keys: set<string>)
  {
    forall k :: k in keys ==> IntAt(row, k).Ok?
  }

  predicate FloatsCoerce(row: Row, keys: set<string>, ft: FloatText)
  {
    forall k :: k in keys ==> FloatAt(row, k, ft).Ok?
  }

  /** A number `int(...)` produced. */
  predicate Integral(n: Number)
  {
    n.Int?
  }

  /** A number `float(...)` produced. */
  predicate Floating(n: Number)
  {
    n.Float? || n.NaN?
  }

  predicate BreakdownShaped(b: CostBreakdownSchema.CostBreakdown)
  {
    Floating(b.printingCostActual) && Floating(b.postageCostActual) &&
    Floating(b.dataCostActual) && Floating(b.otherCostsActual)
  }

  predicate DetailsShaped(d: CostDetailsSchema.CostDetails)
  {
    Floating(d.overallBudget) && Floating(d.totalCampaignCostPlanned) &&
    Floating(d.totalCampaignCostActual) && Floating(d.costPerPiecePlanned) &&
    Floating(d.costPerPieceActual) && BreakdownShaped(d.costBreakdown)
  }

  predicate CellShaped(c: StrategyCellSchema.StrategyCell)
  {
    c.assignedOfferCode.Some? &&
    Integral(c.campaignTotalMailed) && Integral(c.campaignTotalResponses) &&
    Integral(c.campaignTotalConversions) && Floating(c.campaignTotalConversionValue)
  }

  predicate DropShaped(d: WeeklyMailDropSchema.WeeklyMailDrop)
  {
    d.actualSendDate.Some? && Integral(d.totalPiecesSentThisWeek) && d.cellsMailedThisWeek == []
  }

  predicate PerformanceShaped(p: PerformanceSummarySchema.PerformanceSummary)
  {
    Integral(p.totalCampaignPiecesSent) && Integral(p.totalCampaignResponses) &&
    Integral(p.totalCampaignConversions) && Floating(p.overallResponseRate) &&
    Floating(p.overallConversionRate) && Floating(p.totalCampaignConversionValue) &&
    Floating(p.averageConversionValue) && Floating(p.campaignRoi)
  }

  /** The campaigns the upload builder can produce: one strategy cell, one
      mail drop, an integer wherever `int(...)` is applied and a float
      wherever `float(...)` is. */
  predicate Shaped(c: CampaignSchema.Campaign)
  {
    && DetailsShaped(c.costDetails)
    && |c.strategyCells| == 1 && CellShaped(c.strategyCells[0])
    && |c.weeklyMailDrops| == 1 && DropShaped(c.weeklyMailDrops[0])
    && PerformanceShaped(c.performanceSummary)
  }

  /** Each field of the breakdown is `float` of the column of the same name. */
  function BuildCostBreakdown(row: Row, ft: FloatText): (r: Result<CostBreakdownSchema.CostBreakdown, UploadError>)
    ensures r.Ok? <==> FloatsCoerce(row, BreakdownFloatColumns, ft)
    ensures r.Ok? ==> BreakdownShaped(r.value)
    ensures r.Ok? ==>
      && FloatAt(row, "printing_cost_actual", ft) == Ok(r.value.printingCostActual)
      && FloatAt(row, "postage_cost_actual", ft) == Ok(r.value.postageCostActual)
      && FloatAt(row, "data_cost_actual", ft) == Ok(r.value.dataCostActual)
      && FloatAt(row, "other_costs_actual", ft) == Ok(r.value.otherCostsActual)
  {
    var printing :- FloatAt(row, "printing_cost_actual", ft);
    var postage :- FloatAt(row, "postage_cost_actual", ft);
    var data :- FloatAt(row, "data_cost_actual", ft);
    var other :- FloatAt(row, "other_costs_actual", ft);
    Ok(CostBreakdownSchema.CostBreakdown(printing, postage, data, other))
  }

  /** The cost details around an already built breakdown. */
  function BuildCostDetails(row: Row, breakdown: CostBreakdownSchema.CostBreakdown, ft: FloatText)
    : (r: Result<CostDetailsSchema.CostDetails, UploadError>)
    ensures r.Ok? <==> FloatsCoerce(row, DetailsFloatColumns, ft)
    ensures r.Ok? && BreakdownShaped(breakdown) ==> DetailsShaped(r.value)
    ensures r.Ok? ==>
      && FloatAt(row, "overall_budget", ft) == Ok(r.value.overallBudget)
      && FloatAt(row, "total_campaign_cost_planned", ft) == Ok(r.value.totalCampaignCostPlanned)
      && FloatAt(row, "total_campaign_cost_actual", ft) == Ok(r.value.totalCampaignCostActual)
      && FloatAt(row, "cost_per_piece_planned", ft) == Ok(r.value.costPerPiecePlanned)
      && FloatAt(row, "cost_per_piece_actual", ft) == Ok(r.value.costPerPieceActual)
      && r.value.costBreakdown == breakdown
  {
    var budget :- FloatAt(row, "overall_budget", ft);
    var planned :- FloatAt(row, "total_campaign_cost_planned", ft);
    var actual :- FloatAt(row, "total_campaign_cost_actual", ft);
    var perPiecePlanned :- FloatAt(row, "cost_per_piece_planned", ft);
    var perPieceActual :- FloatAt(row, "cost_per_piece_actual", ft);
    Ok(CostDetailsSchema.CostDetails(budget, planned, actual, perPiecePlanned, perPieceActual, breakdown))
  }

  /** The one strategy cell of a row; the offer code is always present, as
      `str` gives a text even for an empty cell. */
  function BuildStrategyCell(row: Row, ft: FloatText): (r: Result<StrategyCellSchema.StrategyCell, UploadError>)
    ensures r.Ok? ==> CellShaped(r.value)
    ensures r.Ok? ==>
      && StrAt(row, "cell_no", ft) == Ok(r.value.cellNo)
      && StrAt(row, "cell_description", ft) == Ok(r.value.cellDescription)
      && StrAt(row, "assigned_creative_id", ft) == Ok(r.value.assignedCreativeId)
      && r.value.assignedOfferCode.Some? && StrAt(row, "assigned_offer_code", ft) == Ok(r.value.assignedOfferCode.value)
      && IntAt(row, "campaign_total_mailed") == Ok(r.value.campaignTotalMailed)
      && IntAt(row, "campaign_total_responses") == Ok(r.value.campaignTotalResponses)
      && IntAt(row, "campaign_total_conversions") == Ok(r.value.campaignTotalConversions)
      && FloatAt(row, "campaign_total_conversion_value", ft) == Ok(r.value.campaignTotalConversionValue)
  {
    var cellNo :- StrAt(row, "cell_no", ft);
    var description :- StrAt(row, "cell_description", ft);
    var creative :- StrAt(row, "assigned_creative_id", ft);
    var offer :- StrAt(row, "assigned_offer_code", ft);
    var mailed :- IntAt(row, "campaign_total_mailed");
    var responses :- IntAt(row, "campaign_total_responses");
    var conversions :- IntAt(row, "campaign_total_conversions");
    var value :- FloatAt(row, "campaign_total_conversion_value", ft);
    Ok(StrategyCellSchema.StrategyCell(cellNo, description, creative, Some(offer), mailed, responses, conversions, value))
  }

  /** The one mail drop of a row, with an actual send date always present and
      no per-cell counters. */
  function BuildMailDrop(row: Row, ft: FloatText): (r: Result<WeeklyMailDropSchema.WeeklyMailDrop, UploadError>)
    ensures r.Ok? ==> DropShaped(r.value)
    ensures r.Ok? ==>
      && StrAt(row, "mail_drop_id", ft) == Ok(r.value.mailDropId)
      && StrAt(row, "mailing_week_start_date", ft) == Ok(r.value.mailingWeekStartDate)
      && StrAt(row, "planned_send_date", ft) == Ok(r.value.plannedSendDate)
      && r.value.actualSendDate.Some? && StrAt(row, "actual_send_date", ft) == Ok(r.value.actualSendDate.value)
      && IntAt(row, "total_pieces_sent_this_week") == Ok(r.value.totalPiecesSentThisWeek)
  {
    var dropId :- StrAt(row, "mail_drop_id", ft);
    var weekStart :- StrAt(row, "mailing_week_start_date", ft);
    var planned :- StrAt(row, "planned_send_date", ft);
    var actual :- StrAt(row, "actual_send_date", ft);
    var pieces :- IntAt(row, "total_pieces_sent_this_week");
    Ok(WeeklyMailDropSchema.WeeklyMailDrop(dropId, weekStart, planned, Some(actual), pieces, []))
  }

  function BuildPerformance(row: Row, ft: FloatText): (r: Result<PerformanceSummarySchema.PerformanceSummary, UploadError>)
    ensures r.Ok? ==> PerformanceShaped(r.value)
    ensures r.Ok? ==>
      && IntAt(row, "total_campaign_pieces_sent") == Ok(r.value.totalCampaignPiecesSent)
      && IntAt(row, "total_campaign_responses") == Ok(r.value.totalCampaignResponses)
      && FloatAt(row, "overall_response_rate", ft) == Ok(r.value.overallResponseRate)
      && IntAt(row, "total_campaign_conversions") == Ok(r.value.totalCampaignConversions)
      && FloatAt(row, "overall_conversion_rate", ft) == Ok(r.value.overallConversionRate)
      && FloatAt(row, "total_campaign_conversion_value", ft) == Ok(r.value.totalCampaignConversionValue)
      && FloatAt(row, "average_conversion_value", ft) == Ok(r.value.averageConversionValue)
      && FloatAt(row, "campaign_roi", ft) == Ok(r.value.campaignRoi)
  {
    var pieces :- IntAt(row, "total_campaign_pieces_sent");
    var responses :- IntAt(row, "total_campaign_responses");
    var responseRate :- FloatAt(row, "overall_response_rate", ft);
    var conversions :- IntAt(row, "total_campaign_conversions");
    var conversionRate :- FloatAt(row, "overall_conversion_rate", ft);
    var value :- FloatAt(row, "total_campaign_conversion_value", ft);
    var average :- FloatAt(row, "average_conversion_value", ft);
    var roi :- FloatAt(row, "campaign_roi", ft);
    Ok(PerformanceSummarySchema.PerformanceSummary(pieces, responses, responseRate, conversions, conversionRate, value, average, roi))
  }

  /** A strategy cell is built exactly when its four text columns are present
      once and its three integer and one float column convert. */
  lemma StrategyCellAccepts(row: Row, ft: FloatText)
    ensures BuildStrategyCell(row, ft).Ok? <==>
      StrsPresent(row, CellStrColumns) && IntsCoerce(row, CellIntColumns) && FloatsCoerce(row, CellFloatColumns, ft)
  {
    CellColumns(row, ft);
  }

  /** The column tests of a strategy cell, one column at a time. */
  lemma CellColumns(row: Row, ft: FloatText)
    ensures StrsPresent(row, CellStrColumns) <==>
      Lookup(row, "cell_no").Ok? && Lookup(row, "cell_description").Ok? &&
      Lookup(row, "assigned_creative_id").Ok? && Lookup(row, "assigned_offer_code").Ok?
    ensures IntsCoerce(row, CellIntColumns) <==>
      IntAt(row, "campaign_total_mailed").Ok? && IntAt(row, "campaign_total_responses").Ok? &&
      IntAt(row, "campaign_total_conversions").Ok?
    ensures FloatsCoerce(row, CellFloatColumns, ft) <==> FloatAt(row, "campaign_total_conversion_value", ft).Ok?
  {
  }

  /** A mail drop is built exactly when its four text columns are present once
      and its piece count converts. */
  lemma MailDropAccepts(row: Row, ft: FloatText)
    ensures BuildMailDrop(row, ft).Ok? <==> StrsPresent(row, DropStrColumns) && IntsCoerce(row, DropIntColumns)
  {
    var strs := Lookup(row, "mail_drop_id").Ok? && Lookup(row, "mailing_week_start_date").Ok? &&
      Lookup(row, "planned_send_date").Ok? && Lookup(row, "actual_send_date").Ok?;
    assert StrsPresent(row, DropStrColumns) <==> strs;
    assert IntsCoerce(row, DropIntColumns) <==> IntAt(row, "total_pieces_sent_this_week").Ok?;
    assert BuildMailDrop(row, ft).Ok? <==> strs && IntAt(row, "total_pieces_sent_this_week").Ok?;
  }

  /** A performance summary is built exactly when its three integer and five
      float columns convert. */
  lemma PerformanceAccepts(row: Row, ft: FloatText)
    ensures BuildPerformance(row, ft).Ok? <==>
      IntsCoerce(row, PerformanceIntColumns) && FloatsCoerce(row, PerformanceFloatColumns, ft)
  {
    PerformanceColumns(row, ft);
  }

  /** The column tests of a performance summary, one column at a time. */
  lemma PerformanceColumns(row: Row, ft: FloatText)
    ensures IntsCoerce(row, PerformanceIntColumns) <==>
      IntAt(row, "total_campaign_pieces_sent").Ok? && IntAt(row, "total_campaign_responses").Ok? &&
      IntAt(row, "total_campaign_conversions").Ok?
    ensures FloatsCoerce(row, PerformanceFloatColumns, ft) <==>
      FloatAt(row, "overall_response_rate", ft).Ok? && FloatAt(row, "overall_conversion_rate", ft).Ok? &&
      FloatAt(row, "total_campaign_conversion_value", ft).Ok? && FloatAt(row, "average_conversion_value", ft).Ok? &&
      FloatAt(row, "campaign_roi", ft).Ok?
  {
  }

  /** `create_campaign_object`: the parts in the order the source evaluates
      them, then the campaign's own text fields; the first failing
      conversion is the error raised. */
  function Build(row: Row, ft: FloatText): (r: Result<CampaignSchema.Campaign, UploadError>)
    ensures r.Ok? ==> Shaped(r.value)
    ensures r.Ok? ==>
      && BuildCostBreakdown(row, ft) == Ok(r.value.costDetails.costBreakdown)
      && BuildCostDetails(row, r.value.costDetails.costBreakdown, ft) == Ok(r.value.costDetails)
      && BuildStrategyCell(row, ft) == Ok(r.value.strategyCells[0])
      && BuildMailDrop(row, ft) == Ok(r.value.weeklyMailDrops[0])
      && BuildPerformance(row, ft) == Ok(r.value.performanceSummary)
    ensures r.Ok? ==>
      && StrAt(row, "campaign_id", ft) == Ok(r.value.campaignId)
      && StrAt(row, "campaign_name", ft) == Ok(r.value.campaignName)
      && StrAt(row, "description", ft) == Ok(r.value.description)
      && StrAt(row, "campaign_goal", ft) == Ok(r.value.campaignGoal)
      && StrAt(row, "target_audience_criteria", ft) == Ok(r.value.targetAudienceCriteria)
      && StrAt(row, "overall_start_date", ft) == Ok(r.value.overallStartDate)
      && StrAt(row, "overall_end_date", ft) == Ok(r.value.overallEndDate)
      && StrAt(row, "campaign_status", ft) == Ok(r.value.campaignStatus)
  {
    var breakdown :- BuildCostBreakdown(row, ft);
    var details :- BuildCostDetails(row, breakdown, ft);
    var cell :- BuildStrategyCell(row, ft);
    var drop :- BuildMailDrop(row, ft);
    var performance :- BuildPerformance(row, ft);
    var id :- StrAt(row, "campaign_id", ft);
    var name :- StrAt(row, "campaign_name", ft);
    var description :- StrAt(row, "description", ft);
    var goal :- StrAt(row, "campaign_goal", ft);
    var audience :- StrAt(row, "target_audience_criteria", ft);
    var start :- StrAt(row, "overall_start_date", ft);
    var end :- StrAt(row, "overall_end_date", ft);
    var status :- StrAt(row, "campaign_status", ft);
    Ok(CampaignSchema.Campaign(id, name, description, goal, audience, start, end, status,
      details, [cell], [drop], performance))
  }

  const StrColumns: set<string> := CellStrColumns + DropStrColumns + CampaignStrColumns
  const IntColumns: set<string> := CellIntColumns + DropIntColumns + PerformanceIntColumns
  const FloatColumns: set<string> :=
    BreakdownFloatColumns + DetailsFloatColumns + CellFloatColumns + PerformanceFloatColumns

  /** The rows the builder accepts: every text column present exactly once,
      every integer column convertible by `int` and every float column by
      `float`. */
  predicate Accepts(row: Row, ft: FloatText)
  {
    StrsPresent(row, StrColumns) && IntsCoerce(row, IntColumns) && FloatsCoerce(row, FloatColumns, ft)
  }

  lemma CampaignStrsPresent(row: Row)
    ensures StrsPresent(row, CampaignStrColumns) <==>
      && Lookup(row, "campaign_id").Ok? && Lookup(row, "campaign_name").Ok?
      && Lookup(row, "description").Ok? && Lookup(row, "campaign_goal").Ok?
      && Lookup(row, "target_audience_criteria").Ok? && Lookup(row, "overall_start_date").Ok?
      && Lookup(row, "overall_end_date").Ok? && Lookup(row, "campaign_status").Ok?
  {
  }

  lemma StrsPresentUnion(row: Row, a: set<string>, b: set<string>)
    ensures StrsPresent(row, a + b) <==> StrsPresent(row, a) && StrsPresent(row, b)
  {
  }

  lemma IntsCoerceUnion(row: Row, a: set<string>, b: set<string>)
    ensures IntsCoerce(row, a + b) <==> IntsCoerce(row, a) && IntsCoerce(row, b)
  {
  }

  lemma FloatsCoerceUnion(row: Row, a: set<string>, b: set<string>, ft: FloatText)
    ensures FloatsCoerce(row, a + b, ft) <==> FloatsCoerce(row, a, ft) && FloatsCoerce(row, b, ft)
  {
  }

  /** A row builds into a campaign exactly when the builder accepts it; any
      missing column, repeated label or failed conversion makes it fail. */
  lemma BuildAccepts(row: Row, ft: FloatText)
    ensures Build(row, ft).Ok? <==> Accepts(row, ft)
  {
    StrategyCellAccepts(row, ft);
    MailDropAccepts(row, ft);
    PerformanceAccepts(row, ft);
    CampaignStrsPresent(row);
    StrsPresentUnion(row, CellStrColumns, DropStrColumns);
    StrsPresentUnion(row, CellStrColumns + DropStrColumns, CampaignStrColumns);
    IntsCoerceUnion(row, CellIntColumns, DropIntColumns);
    IntsCoerceUnion(row, CellIntColumns + DropIntColumns, PerformanceIntColumns);
    FloatsCoerceUnion(row, BreakdownFloatColumns, DetailsFloatColumns, ft);
    FloatsCoerceUnion(row, BreakdownFloatColumns + DetailsFloatColumns, CellFloatColumns, ft);
    FloatsCoerceUnion(row, BreakdownFloatColumns + DetailsFloatColumns + CellFloatColumns, PerformanceFloatColumns, ft);
    var breakdown := BuildCostBreakdown(row, ft);
    var parts := breakdown.Ok? && BuildCostDetails(row, breakdown.value, ft).Ok? &&
      BuildStrategyCell(row, ft).Ok? && BuildMailDrop(row, ft).Ok? && BuildPerformance(row, ft).Ok?;
    assert Build(row, ft).Ok? <==> parts && StrsPresent(row, CampaignStrColumns);
  }

  /** The cell a number is written to when a campaign is laid out flat. */
  function NumberCell(n: Number): Cell
  {
    match n
    case Int(i) => IntCell(i)
    case Float(r) => FloatCell(r)
    case NaN => NaNCell
  }

  function BreakdownRow(b: CostBreakdownSchema.CostBreakdown): (row: Row)
    ensures row.Keys == BreakdownFloatColumns
  {
    map[
      "printing_cost_actual" := [NumberCell(b.printingCostActual)],
      "postage_cost_actual" := [NumberCell(b.postageCostActual)],
      "data_cost_actual" := [NumberCell(b.dataCostActual)],
      "other_costs_actual" := [NumberCell(b.otherCostsActual)]]
  }

  function DetailsRow(d: CostDetailsSchema.CostDetails): (row: Row)
    ensures row.Keys == DetailsFloatColumns
  {
    map[
      "overall_budget" := [NumberCell(d.overallBudget)],
      "total_campaign_cost_planned" := [NumberCell(d.totalCampaignCostPlanned)],
      "total_campaign_cost_actual" := [NumberCell(d.totalCampaignCostActual)],
      "cost_per_piece_planned" := [NumberCell(d.costPerPiecePlanned)],
      "cost_per_piece_actual" := [NumberCell(d.costPerPieceActual)]]
  }

  function CellRow(c: StrategyCellSchema.StrategyCell): (row: Row)
    requires c.assignedOfferCode.Some?
    ensures row.Keys == CellStrColumns + CellIntColumns + CellFloatColumns
  {
    map[
      "cell_no" := [StrCell(c.cellNo)],
      "cell_description" := [StrCell(c.cellDescription)],
      "assigned_creative_id" := [StrCell(c.assignedCreativeId)],
      "assigned_offer_code" := [StrCell(c.assignedOfferCode.value)],
      "campaign_total_mailed" := [NumberCell(c.campaignTotalMailed)],
      "campaign_total_responses" := [NumberCell(c.campaignTotalResponses)],
      "campaign_total_conversions" := [NumberCell(c.campaignTotalConversions)],
      "campaign_total_conversion_value" := [NumberCell(c.campaignTotalConversionValue)]]
  }

  function DropRow(d: WeeklyMailDropSchema.WeeklyMailDrop): (row: Row)
    requires d.actualSendDate.Some?
    ensures row.Keys == DropStrColumns + DropIntColumns
  {
    map[
      "mail_drop_id" := [StrCell(d.mailDropId)],
      "mailing_week_start_date" := [StrCell(d.mailingWeekStartDate)],
      "planned_send_date" := [StrCell(d.plannedSendDate)],
      "actual_send_date" := [StrCell(d.actualSendDate.value)],
      "total_pieces_sent_this_week" := [NumberCell(d.totalPiecesSentThisWeek)]]
  }

  function PerformanceRow(p: PerformanceSummarySchema.PerformanceSummary): (row: Row)
    ensures row.Keys == PerformanceIntColumns + PerformanceFloatColumns
  {
    map[
      "total_campaign_pieces_sent" := [NumberCell(p.totalCampaignPiecesSent)],
      "total_campaign_responses" := [NumberCell(p.totalCampaignResponses)],
      "overall_response_rate" := [NumberCell(p.overallResponseRate)],
      "total_campaign_conversions" := [NumberCell(p.totalCampaignConversions)],
      "overall_conversion_rate" := [NumberCell(p.overallConversionRate)],
      "total_campaign_conversion_value" := [NumberCell(p.totalCampaignConversionValue)],
      "average_conversion_value" := [NumberCell(p.averageConversionValue)],
      "campaign_roi" := [NumberCell(p.campaignRoi)]]
  }

  function CampaignRow(c: CampaignSchema.Campaign): (row: Row)
    ensures row.Keys == CampaignStrColumns
  {
    map[
      "campaign_id" := [StrCell(c.campaignId)],
      "campaign_name" := [StrCell(c.campaignName)],
      "description" := [StrCell(c.description)],
      "campaign_goal" := [StrCell(c.campaignGoal)],
      "target_audience_criteria" := [StrCell(c.targetAudienceCriteria)],
      "overall_start_date" := [StrCell(c.overallStartDate)],
      "overall_end_date" := [StrCell(c.overallEndDate)],
      "campaign_status" := [StrCell(c.campaignStatus)]]
  }

  /** A campaign laid out as one row of the upload table, each field under
      the column of the same name. */
  function FlatRow(c: CampaignSchema.Campaign): (row: Row)
    requires Shaped(c)
  {
    BreakdownRow(c.costDetails.costBreakdown) + DetailsRow(c.costDetails) + CellRow(c.strategyCells[0]) +
    DropRow(c.weeklyMailDrops[0]) + PerformanceRow(c.performanceSummary) + CampaignRow(c)
  }

  /** Every entry of `part` is in `row`. */
  predicate Holds(row: Row, part: Row)
  {
    forall k :: k in part ==> k in row && row[k] == part[k]
  }

  lemma HoldsUnion(a: Row, b: Row)
    requires a.Keys !! b.Keys
    ensures Holds(a + b, a) && Holds(a + b, b)
  {
  }

  lemma HoldsTransitive(r: Row, s: Row, t: Row)
    requires Holds(r, s) && Holds(s, t)
    ensures Holds(r, t)
  {
  }

  // No column is read by two parts of the builder; split so that each proof
  // compares few column names.

  lemma BreakdownApartFromDetailsAndCell()
    ensures BreakdownFloatColumns !! DetailsFloatColumns
    ensures BreakdownFloatColumns !! CellStrColumns + CellIntColumns + CellFloatColumns
  {
  }

  lemma BreakdownApartFromDropAndPerformance()
    ensures BreakdownFloatColumns !! DropStrColumns + DropIntColumns
    ensures BreakdownFloatColumns !! PerformanceIntColumns + PerformanceFloatColumns
  {
  }

  lemma BreakdownApartFromCampaign()
    ensures BreakdownFloatColumns !! CampaignStrColumns
  {
  }

  lemma DetailsApartFromCellAndDrop()
    ensures DetailsFloatColumns !! CellStrColumns + CellIntColumns + CellFloatColumns
    ensures DetailsFloatColumns !! DropStrColumns + DropIntColumns
  {
  }

  lemma DetailsApartFromPerformanceAndCampaign()
    ensures DetailsFloatColumns !! PerformanceIntColumns + PerformanceFloatColumns
    ensures DetailsFloatColumns !! CampaignStrColumns
  {
  }

  lemma CellApartFromDropAndPerformance()
    ensures CellStrColumns + CellIntColumns + CellFloatColumns !! DropStrColumns + DropIntColumns
    ensures CellStrColumns + CellIntColumns + CellFloatColumns !! PerformanceIntColumns + PerformanceFloatColumns
  {
  }

  lemma CellApartFromCampaign()
    ensures CellStrColumns + CellIntColumns + CellFloatColumns !! CampaignStrColumns
  {
  }

  lemma DropApartFromPerformanceAndCampaign()
    ensures DropStrColumns + DropIntColumns !! PerformanceIntColumns + PerformanceFloatColumns
    ensures DropStrColumns + DropIntColumns !! CampaignStrColumns
  {
  }

  lemma PerformanceApartFromCampaign()
    ensures PerformanceIntColumns + PerformanceFloatColumns !! CampaignStrColumns
  {
  }

  /** Laying a campaign out flat loses nothing: each part's columns keep
      the part's cells. */
  lemma {:induction false} FlatRowHolds(c: CampaignSchema.Campaign)
    requires Shaped(c)
    ensures Holds(FlatRow(c), BreakdownRow(c.costDetails.costBreakdown))
    ensures Holds(FlatRow(c), DetailsRow(c.costDetails))
    ensures Holds(FlatRow(c), CellRow(c.strategyCells[0]))
    ensures Holds(FlatRow(c), DropRow(c.weeklyMailDrops[0]))
    ensures Holds(FlatRow(c), PerformanceRow(c.performanceSummary))
    ensures Holds(FlatRow(c), CampaignRow(c))
  {
    var b, d := BreakdownRow(c.costDetails.costBreakdown), DetailsRow(c.costDetails);
    var cell, drop := CellRow(c.strategyCells[0]), DropRow(c.weeklyMailDrops[0]);
    var p, top := PerformanceRow(c.performanceSummary), CampaignRow(c);
    BreakdownApartFromDetailsAndCell();
    BreakdownApartFromDropAndPerformance();
    BreakdownApartFromCampaign();
    DetailsApartFromCellAndDrop();
    DetailsApartFromPerformanceAndCampaign();
    CellApartFromDropAndPerformance();
    CellApartFromCampaign();
    DropApartFromPerformanceAndCampaign();
    PerformanceApartFromCampaign();
    var r1 := b + d;
    var r2 := r1 + cell;
    var r3 := r2 + drop;
    var r4 := r3 + p;
    HoldsUnion(b, d);
    HoldsUnion(r1, cell);
    HoldsUnion(r2, drop);
    HoldsUnion(r3, p);
    HoldsUnion(r4, top);
    var r5 := r4 + top;
    HoldsTransitive(r5, r4, r3);
    HoldsTransitive(r5, r3, r2);
    HoldsTransitive(r5, r2, r1);
    HoldsTransitive(r5, r1, b);
    HoldsTransitive(r5, r1, d);
    HoldsTransitive(r5, r2, cell);
    HoldsTransitive(r5, r3, drop);
    HoldsTransitive(r5, r4, p);
  }

  lemma FloatColumn(row: Row, key: string, n: Number, ft: FloatText)
    requires key in row && row[key] == [NumberCell(n)] && Floating(n)
    ensures FloatAt(row, key, ft) == Ok(n)
  {
  }

  lemma IntColumn(row: Row, key: string, n: Number)
    requires key in row && row[key] == [NumberCell(n)] && Integral(n)
    ensures IntAt(row, key) == Ok(n)
  {
  }

  lemma StrColumn(row: Row, key: string, s: string, ft: FloatText)
    requires key in row && row[key] == [StrCell(s)]
    ensures StrAt(row, key, ft) == Ok(s)
  {
  }

  lemma BreakdownFromLayout(b: CostBreakdownSchema.CostBreakdown, row: Row, ft: FloatText)
    requires BreakdownShaped(b) && Holds(row, BreakdownRow(b))
    ensures BuildCostBreakdown(row, ft) == Ok(b)
  {
    var m := BreakdownRow(b);
    assert "printing_cost_actual" in m && "postage_cost_actual" in m;
    assert "data_cost_actual" in m && "other_costs_actual" in m;
    FloatColumn(row, "printing_cost_actual", b.printingCostActual, ft);
    FloatColumn(row, "postage_cost_actual", b.postageCostActual, ft);
    FloatColumn(row, "data_cost_actual", b.dataCostActual, ft);
    FloatColumn(row, "other_costs_actual", b.otherCostsActual, ft);
  }

  lemma DetailsFromLayout(d: CostDetailsSchema.CostDetails, row: Row, ft: FloatText)
    requires DetailsShaped(d) && Holds(row, DetailsRow(d))
    ensures BuildCostDetails(row, d.costBreakdown, ft) == Ok(d)
  {
    var m := DetailsRow(d);
    assert "overall_budget" in m && "total_campaign_cost_planned" in m && "total_campaign_cost_actual" in m;
    assert "cost_per_piece_planned" in m && "cost_per_piece_actual" in m;
    FloatColumn(row, "overall_budget", d.overallBudget, ft);
    FloatColumn(row, "total_campaign_cost_planned", d.totalCampaignCostPlanned, ft);
    FloatColumn(row, "total_campaign_cost_actual", d.totalCampaignCostActual, ft);
    FloatColumn(row, "cost_per_piece_planned", d.costPerPiecePlanned, ft);
    FloatColumn(row, "cost_per_piece_actual", d.costPerPieceActual, ft);
  }

  lemma CellFromLayout(c: StrategyCellSchema.StrategyCell, row: Row, ft: FloatText)
    requires CellShaped(c) && Holds(row, CellRow(c))
    ensures BuildStrategyCell(row, ft) == Ok(c)
  {
    var m := CellRow(c);
    assert "cell_no" in m && "cell_description" in m && "assigned_creative_id" in m && "assigned_offer_code" in m;
    assert "campaign_total_mailed" in m && "campaign_total_responses" in m;
    assert "campaign_total_conversions" in m && "campaign_total_conversion_value" in m;
    StrColumn(row, "cell_no", c.cellNo, ft);
    StrColumn(row, "cell_description", c.cellDescription, ft);
    StrColumn(row, "assigned_creative_id", c.assignedCreativeId, ft);
    StrColumn(row, "assigned_offer_code", c.assignedOfferCode.value, ft);
    IntColumn(row, "campaign_total_mailed", c.campaignTotalMailed);
    IntColumn(row, "campaign_total_responses", c.campaignTotalResponses);
    IntColumn(row, "campaign_total_conversions", c.campaignTotalConversions);
    FloatColumn(row, "campaign_total_conversion_value", c.campaignTotalConversionValue, ft);
  }

  lemma DropFromLayout(d: WeeklyMailDropSchema.WeeklyMailDrop, row: Row, ft: FloatText)
    requires DropShaped(d) && Holds(row, DropRow(d))
    ensures BuildMailDrop(row, ft) == Ok(d)
  {
    var m := DropRow(d);
    assert "mail_drop_id" in m && "mailing_week_start_date" in m && "planned_send_date" in m;
    assert "actual_send_date" in m && "total_pieces_sent_this_week" in m;
    StrColumn(row, "mail_drop_id", d.mailDropId, ft);
    StrColumn(row, "mailing_week_start_date", d.mailingWeekStartDate, ft);
    StrColumn(row, "planned_send_date", d.plannedSendDate, ft);
    StrColumn(row, "actual_send_date", d.actualSendDate.value, ft);
    IntColumn(row, "total_pieces_sent_this_week", d.totalPiecesSentThisWeek);
  }

  lemma PerformanceFromLayout(p: PerformanceSummarySchema.PerformanceSummary, row: Row, ft: FloatText)
    requires PerformanceShaped(p) && Holds(row, PerformanceRow(p))
    ensures BuildPerformance(row, ft) == Ok(p)
  {
    var m := PerformanceRow(p);
    assert "total_campaign_pieces_sent" in m && "total_campaign_responses" in m && "overall_response_rate" in m;
    assert "total_campaign_conversions" in m && "overall_conversion_rate" in m;
    assert "total_campaign_conversion_value" in m && "average_conversion_value" in m && "campaign_roi" in m;
    IntColumn(row, "total_campaign_pieces_sent", p.totalCampaignPiecesSent);
    IntColumn(row, "total_campaign_responses", p.totalCampaignResponses);
    FloatColumn(row, "overall_response_rate", p.overallResponseRate, ft);
    IntColumn(row, "total_campaign_conversions", p.totalCampaignConversions);
    FloatColumn(row, "overall_conversion_rate", p.overallConversionRate, ft);
    FloatColumn(row, "total_campaign_conversion_value", p.totalCampaignConversionValue, ft);
    FloatColumn(row, "average_conversion_value", p.averageConversionValue, ft);
    FloatColumn(row, "campaign_roi", p.campaignRoi, ft);
  }

  lemma CampaignTextFromLayout(c: CampaignSchema.Campaign, row: Row, ft: FloatText)
    requires Holds(row, CampaignRow(c))
    ensures StrAt(row, "campaign_id", ft) == Ok(c.campaignId)
    ensures StrAt(row, "campaign_name", ft) == Ok(c.campaignName)
    ensures StrAt(row, "description", ft) == Ok(c.description)
    ensures StrAt(row, "campaign_goal", ft) == Ok(c.campaignGoal)
    ensures StrAt(row, "target_audience_criteria", ft) == Ok(c.targetAudienceCriteria)
    ensures StrAt(row, "overall_start_date", ft) == Ok(c.overallStartDate)
    ensures StrAt(row, "overall_end_date", ft) == Ok(c.overallEndDate)
    ensures StrAt(row, "campaign_status", ft) == Ok(c.campaignStatus)
  {
    var m := CampaignRow(c);
    assert "campaign_id" in m && "campaign_name" in m && "description" in m && "campaign_goal" in m;
    assert "target_audience_criteria" in m && "overall_start_date" in m;
    assert "overall_end_date" in m && "campaign_status" in m;
    StrColumn(row, "campaign_id", c.campaignId, ft);
    StrColumn(row, "campaign_name", c.campaignName, ft);
    StrColumn(row, "description", c.description, ft);
    StrColumn(row, "campaign_goal", c.campaignGoal, ft);
    StrColumn(row, "target_audience_criteria", c.targetAudienceCriteria, ft);
    StrColumn(row, "overall_start_date", c.overallStartDate, ft);
    StrColumn(row, "overall_end_date", c.overallEndDate, ft);
    StrColumn(row, "campaign_status", c.campaignStatus, ft);
  }

  /** The builder assembles a campaign from its parts. */
  lemma BuildFromParts(c: CampaignSchema.Campaign, row: Row, ft: FloatText)
    requires |c.strategyCells| == 1 && |c.weeklyMailDrops| == 1
    requires BuildCostBreakdown(row, ft) == Ok(c.costDetails.costBreakdown)
    requires BuildCostDetails(row, c.costDetails.costBreakdown, ft) == Ok(c.costDetails)
    requires BuildStrategyCell(row, ft) == Ok(c.strategyCells[0])
    requires BuildMailDrop(row, ft) == Ok(c.weeklyMailDrops[0])
    requires BuildPerformance(row, ft) == Ok(c.performanceSummary)
    requires StrAt(row, "campaign_id", ft) == Ok(c.campaignId)
    requires StrAt(row, "campaign_name", ft) == Ok(c.campaignName)
    requires StrAt(row, "description", ft) == Ok(c.description)
    requires StrAt(row, "campaign_goal", ft) == Ok(c.campaignGoal)
    requires StrAt(row, "target_audience_criteria", ft) == Ok(c.targetAudienceCriteria)
    requires StrAt(row, "overall_start_date", ft) == Ok(c.overallStartDate)
    requires StrAt(row, "overall_end_date", ft) == Ok(c.overallEndDate)
    requires StrAt(row, "campaign_status", ft) == Ok(c.campaignStatus)
    ensures Build(row, ft) == Ok(c)
  {
    assert c.strategyCells == [c.strategyCells[0]] && c.weeklyMailDrops == [c.weeklyMailDrops[0]];
  }

  /** Any row that carries a campaign's flat layout, whatever other columns
      it has, builds back into that campaign. */
  lemma BuildFromLayout(c: CampaignSchema.Campaign, row: Row, ft: FloatText)
    requires Shaped(c)
    requires Holds(row, BreakdownRow(c.costDetails.costBreakdown)) && Holds(row, DetailsRow(c.costDetails))
    requires Holds(row, CellRow(c.strategyCells[0])) && Holds(row, DropRow(c.weeklyMailDrops[0]))
    requires Holds(row, PerformanceRow(c.performanceSummary)) && Holds(row, CampaignRow(c))
    ensures Build(row, ft) == Ok(c)
  {
    BreakdownFromLayout(c.costDetails.costBreakdown, row, ft);
    DetailsFromLayout(c.costDetails, row, ft);
    CellFromLayout(c.strategyCells[0], row, ft);
    DropFromLayout(c.weeklyMailDrops[0], row, ft);
    PerformanceFromLayout(c.performanceSummary, row, ft);
    CampaignTextFromLayout(c, row, ft);
    BuildFromParts(c, row, ft);
  }

  /** Every campaign the builder can produce is produced from its own flat
      row: the builder is onto the shaped campaigns. */
  lemma FlatRowRoundTrip(c: CampaignSchema.Campaign, ft: FloatText)
    requires Shaped(c)
    ensures Build(FlatRow(c), ft) == Ok(c)
  {
    FlatRowHolds(c);
    BuildFromLayout(c, FlatRow(c), ft);
  }

  /** A batch of campaigns laid out as upload rows. */
  function FlatRows(cs: seq<CampaignSchema.Campaign>): (rows: seq<Row>)
    requires forall i :: 0 <= i < |cs| ==> Shaped(cs[i])
    ensures |rows| == |cs|
  {
    seq(|cs|, i requires 0 <= i < |cs| => FlatRow(cs[i]))
  }

  /** Uploading the flat layout of a batch rebuilds the whole batch, in
      order, with no error. */
  lemma FlatRowsUpload(cs: seq<CampaignSchema.Campaign>, ft: FloatText)
    requires forall i :: 0 <= i < |cs| ==> Shaped(cs[i])
    ensures Seqs.Successes(FlatRows(cs), Builder(ft)) == cs
    ensures Seqs.Failures(FlatRows(cs), Builder(ft)) == []
  {
    var rows := FlatRows(cs);
    forall i | 0 <= i < |rows|
      ensures Builder(ft)(rows[i]) == Ok(cs[i])
    {
      FlatRowRoundTrip(cs[i], ft);
    }
    Seqs.AllSucceed(rows, Builder(ft));
  }

  /** A None cell under an integer or float column makes the row fail, since
      `int(None)` and `float(None)` raise TypeError. After the clean-up such a
      cell is a blank in a column read as `object`. A blank in a numeric
      column stays NaN, which `float` accepts (`BlankFloatCell`). */
  lemma NoneInNumberColumn(row: Row, key: string, ft: FloatText)
    requires key in IntColumns || key in FloatColumns
    requires key in row && row[key] == [NoneCell]
    ensures Build(row, ft).Err?
  {
    BuildAccepts(row, ft);
    assert IntAt(row, key) == Err(TypeError(key));
    assert FloatAt(row, key, ft) == Err(TypeError(key));
  }

  /** A NaN cell under an integer column makes the row fail, since `int` of
      NaN raises ValueError. */
  lemma NaNInIntColumn(row: Row, key: string, ft: FloatText)
    requires key in IntColumns
    requires key in row && row[key] == [NaNCell]
    ensures Build(row, ft).Err?
  {
    BuildAccepts(row, ft);
    assert IntAt(row, key) == Err(ValueError(key));
  }

  /** An empty offer code is not an error: `str(None)` stores the text
      "None". */
  lemma NoneOfferCode(row: Row, ft: FloatText)
    requires "assigned_offer_code" in row && row["assigned_offer_code"] == [NoneCell]
    requires Build(row, ft).Ok?
    ensures Build(row, ft).value.strategyCells[0].assignedOfferCode == Some("None")
  {
    var cell := Build(row, ft).value.strategyCells[0];
    assert BuildStrategyCell(row, ft) == Ok(cell);
    StrOfNone(row, "assigned_offer_code", ft);
  }

  lemma StrOfNone(row: Row, key: string, ft: FloatText)
    requires key in row && row[key] == [NoneCell]
    ensures StrAt(row, key, ft) == Ok("None")
  {
  }

  /** The rows `iterrows` yields for a table with one cell per column. */
  function RowsOf(columns: seq<string>, rows: seq<seq<Cell>>): (r: seq<Row>)
    requires forall i :: 0 <= i < |rows| ==> |rows[i]| == |columns|
    ensures |r| == |rows| && forall i :: 0 <= i < |rows| ==> r[i] == RowOf(columns, rows[i])
  {
    seq(|rows|, i requires 0 <= i < |rows| => RowOf(columns, rows[i]))
  }

  /** `create_campaign_object` as a value. */
  function Builder(ft: FloatText): Row -> Result<CampaignSchema.Campaign, UploadError>
  {
    row => Build(row, ft)
  }

  /** What the upload reports once its loop is done. */
  datatype UploadReport = NoValidData | Inserted(count: nat)

  /** `upload_to_mongodb` after the connection is open: builds every row,
      reports and skips each row that fails, converts the survivors with
      `to_dict`, and inserts them only if there is at least one. */
  method Upload(frame: Frame, ft: FloatText)
    returns (campaigns: seq<CampaignSchema.Campaign>, batch: seq<Value>, report: UploadReport, errors: seq<UploadError>)
    requires frame.Valid()
    ensures campaigns == Seqs.Successes(RowsOf(frame.columns, frame.rows), Builder(ft))
    ensures errors == Seqs.Failures(RowsOf(frame.columns, frame.rows), Builder(ft))
    ensures |campaigns| + |errors| == |frame.rows|
    ensures |batch| == |campaigns| && forall i :: 0 <= i < |batch| ==> batch[i] == CampaignSchema.ToDict(campaigns[i])
    ensures report == if campaigns == [] then NoValidData else Inserted(|campaigns|)
  {
    var rows := RowsOf(frame.columns, frame.rows);
    campaigns, errors := Seqs.Attempt(rows, Builder(ft));
    batch := seq(|campaigns|, j requires 0 <= j < |campaigns| => CampaignSchema.ToDict(campaigns[j]));
    report := if campaigns == [] then NoValidData else Inserted(|campaigns|);
  }

  /** Something is inserted exactly when at least one row of the table is
      accepted by the builder. */
  lemma InsertsIffSomeRowAccepted(rows: seq<Row>, ft: FloatText)
    ensures Seqs.Successes(rows, Builder(ft)) != [] <==> exists i :: 0 <= i < |rows| && Accepts(rows[i], ft)
  {
    Seqs.NoSuccesses(rows, Builder(ft));
    forall i | 0 <= i < |rows|
      ensures Builder(ft)(rows[i]).Ok? <==> Accepts(rows[i], ft)
    {
      BuildAccepts(rows[i], ft);
    }
  }
}
