# Campaign record pipeline — a Dafny model

The campaign manager keeps direct-mail marketing campaigns in a document
store. A campaign is a nested record. It holds eight text fields, cost
details with a cost breakdown, a list of strategy cells, and a list of weekly
mail drops, each drop with its per-cell counters. It also holds a performance
summary. This project models the path such a record takes through the system:

- **Record classes** (`src/models/*.py`): `to_dict` turns a record into a
  key-value document, and `from_dict` rebuilds a record from one. The schema
  modules (`CostBreakdownSchema` … `CampaignSchema`) model each class as a
  datatype with `FromDict` and `ToDict` over the document tree of `Document`.
- **Upload** (`src/views/data_upload.py`):
  - `preprocess_dataframe` normalises the column labels of an uploaded table
    in place and cleans its nulls: in a text (`object`) column a null becomes
    `None`, while a numeric column keeps its NaN, which `float` accepts. It
    is modelled by the class `DataUpload.Frame`, whose columns carry their
    dtype.
  - `create_campaign_object` converts one flat row into a nested campaign with
    `str`, `int` and `float`. It is modelled by `DataUpload.Build`.
  - `upload_to_mongodb` builds every row, skips the rows that raise, and
    inserts the `to_dict` of the rest. It is modelled by `DataUpload.Upload`.
- **Read path** (`src/database.py`): `get_data` strips the store's `_id`
  from every fetched document and rebuilds it with `from_dict`. A document
  that does not rebuild is skipped. It is modelled by `Database.GetData`.
- **Browsing view** (`src/views/data_view.py`): `DataView` models the status
  and search filters, the page arithmetic, the two summary counts, and the
  campaigns shown in detail for the current page.
- **Sample data** (`populate_csv.py`, `src/populate_db.py`): `SampleData`
  models the random generator, with every random draw and clock reading as an
  input. `SampleFixture` models the fixture campaign of the seeding script.

The main results are these:

- Every record class round-trips through its document.
- Decoding keeps exactly the schema keys and ignores every other key.
- A missing key, at any level, makes the decode fail.
- The upload builder accepts exactly the rows whose columns convert. Every
  campaign it can produce comes back from its own flat row.
- An uploaded batch is read back intact, whatever `_id` values the store
  assigns.
- The filters keep order and let through exactly the matching campaigns.
- The pages cover the rows exactly once.
- With distinct ids, the detailed list is exactly the current page.
- The generator's campaigns have distinct ids, a narrowing funnel, costs that
  add up, and a status that follows the dates. They upload without error.

Modules: `Wrappers` (Option/Result), `Document`, one module per record class,
`Seqs` (order-keeping filters and the try/skip loop), `Text` (the string
functions Python provides), `DataUpload`, `Database`, `DataView`,
`SampleData`, `SampleFixture`.

## Model

| member | source | states |
|---|---|---|
| Document.NumberAt | src/models/cost_breakdown.py:21-26 | `data[key]` succeeds exactly when the key is present with a number, and yields that number |
| Document.StringAt | src/models/campaign_data.py:52-59 | `data[key]` succeeds exactly when the key is present with a string, and yields that string |
| Document.ValueAt | src/models/cost_details.py:35 | `data[key]` succeeds exactly when the key is present, and yields its value |
| Document.StringsAt | src/models/campaign_data.py:51-59 | the keyword arguments are read in order: they all succeed exactly when every key holds a string, and the result lists those strings |
| Document.StringsAtExactly | src/models/campaign_data.py:51-59 | when every key holds the matching string, exactly those strings are read |
| Document.OptionalStringAt | src/models/strategy_cell.py:40 | `data.get(key)` accepts an absent key, None or a string; re-encoding its result gives the value `.get` returns |
| Document.ItemsAt | src/models/weekly_mail_drop.py:36-38 | a comprehension over `data[key]` needs the key; on a list it visits exactly its items |
| Document.Restrict | src/models/campaign_data.py:51-68 | the entries `from_dict` reads are exactly the input's entries under the schema keys, unchanged |
| Document.DecodeList | src/models/campaign_data.py:61-66 | a decoding comprehension succeeds exactly when every element decodes; it keeps length and order; a failure is some element's failure |
| Document.EncodeList | src/models/campaign_data.py:80-81 | an encoding comprehension keeps length and order, element by element |
| Document.DecodeEncodeList | src/models/campaign_data.py:61-66 | decoding an encoded list gives back the list whenever each element round-trips |
| CostBreakdownSchema.FromDict | src/models/cost_breakdown.py:19-26 | decoding succeeds exactly on the decodable dictionaries; re-encoding the result gives the input restricted to the schema keys |
| CostBreakdownSchema.ToDict | src/models/cost_breakdown.py:28-34 | the document has exactly the four schema keys |
| CostBreakdownSchema.RoundTrip | src/models/cost_breakdown.py:19-34 | `from_dict(to_dict(b)) == b` |
| CostBreakdownSchema.DictRoundTrip | src/models/cost_breakdown.py:19-34 | a decodable dictionary with exactly the schema keys comes back unchanged from decode then encode |
| CostBreakdownSchema.MissingKeyFails | src/models/cost_breakdown.py:21-26 | an absent schema key makes the decode fail |
| CostDetailsSchema.FromDict | src/models/cost_details.py:27-36 | decoding succeeds exactly on the decodable dictionaries, the nested breakdown included; re-encoding gives the canonical form |
| CostDetailsSchema.ToDict | src/models/cost_details.py:38-46 | the document has exactly the schema keys, and `cost_breakdown` holds the breakdown's own document |
| CostDetailsSchema.RoundTrip | src/models/cost_details.py:27-46 | `from_dict(to_dict(d)) == d` |
| CostDetailsSchema.NestedKeyMissing | src/models/cost_details.py:35 | a key missing inside the nested breakdown makes the whole decode fail |
| CostDetailsSchema.MissingKeyFails | src/models/cost_details.py:29-36 | an absent top-level key makes the decode fail |
| StrategyCellSchema.FromDict | src/models/strategy_cell.py:34-45 | decoding succeeds exactly on the decodable dictionaries; re-encoding gives the canonical form, with None for an absent offer code |
| StrategyCellSchema.ToDict | src/models/strategy_cell.py:47-57 | the document has exactly the schema keys; `assigned_offer_code` is always present, as None when there is no code |
| StrategyCellSchema.RoundTrip | src/models/strategy_cell.py:34-57 | `from_dict(to_dict(c)) == c`, with or without an offer code |
| StrategyCellSchema.AbsentOfferCode | src/models/strategy_cell.py:40 | with no `assigned_offer_code` key the cell still decodes, with no offer code |
| StrategyCellSchema.DictRoundTrip | src/models/strategy_cell.py:34-57 | a decodable dictionary with exactly the schema keys comes back unchanged |
| StrategyCellSchema.MissingKeyFails | src/models/strategy_cell.py:36-45 | any absent key other than the offer code makes the decode fail |
| CellMailedSchema.FromDict | src/models/cell_mailed_this_week.py:24-32 | decoding succeeds exactly on the decodable dictionaries; re-encoding gives the input restricted to the schema keys |
| CellMailedSchema.ToDict | src/models/cell_mailed_this_week.py:34-41 | the document has exactly the schema keys |
| CellMailedSchema.RoundTrip | src/models/cell_mailed_this_week.py:24-41 | `from_dict(to_dict(x)) == x` |
| CellMailedSchema.DictRoundTrip | src/models/cell_mailed_this_week.py:24-41 | a decodable dictionary with exactly the schema keys comes back unchanged |
| CellMailedSchema.MissingKeyFails | src/models/cell_mailed_this_week.py:26-32 | an absent key makes the decode fail |
| WeeklyMailDropSchema.FromDict | src/models/weekly_mail_drop.py:28-39 | decoding succeeds exactly when the keys are present and every listed cell decodes; re-encoding gives the canonical form |
| WeeklyMailDropSchema.ToDict | src/models/weekly_mail_drop.py:41-49 | the document has exactly the schema keys, each field under its key, and the cells as the list of their documents |
| WeeklyMailDropSchema.RoundTrip | src/models/weekly_mail_drop.py:28-49 | `from_dict(to_dict(w)) == w`, keeping the cells' order and count, an empty list included |
| WeeklyMailDropSchema.CellsRoundTrip | src/models/weekly_mail_drop.py:36-38 | the encoded cells list decodes back to the same cells |
| WeeklyMailDropSchema.BadCellFails | src/models/weekly_mail_drop.py:36-38 | one undecodable cell makes the whole drop fail |
| WeeklyMailDropSchema.MissingKeyFails | src/models/weekly_mail_drop.py:30-39 | any absent key other than `actual_send_date` makes the decode fail |
| WeeklyMailDropSchema.AbsentActualSendDate | src/models/weekly_mail_drop.py:34 | with no `actual_send_date` key the drop still decodes, with no actual send date |
| PerformanceSummarySchema.FromDict | src/models/performance_summary.py:31-42 | decoding succeeds exactly on the decodable dictionaries; re-encoding gives the input restricted to the schema keys |
| PerformanceSummarySchema.ToDict | src/models/performance_summary.py:44-54 | the document has exactly the eight schema keys |
| PerformanceSummarySchema.RoundTrip | src/models/performance_summary.py:31-54 | `from_dict(to_dict(p)) == p` |
| PerformanceSummarySchema.DictRoundTrip | src/models/performance_summary.py:31-54 | a decodable dictionary with exactly the schema keys comes back unchanged |
| PerformanceSummarySchema.MissingKeyFails | src/models/performance_summary.py:33-42 | an absent key makes the decode fail |
| CampaignSchema.FromDict | src/models/campaign_data.py:49-68 | decoding succeeds exactly on the decodable documents, every nested level included |
| CampaignSchema.ToDict | src/models/campaign_data.py:70-84 | the document has exactly the twelve schema keys |
| CampaignSchema.ToDictStrings | src/models/campaign_data.py:72-79 | each of the eight text fields is stored under its own key |
| CampaignSchema.ToDictNested | src/models/campaign_data.py:80-83 | the cost details and summary are stored as their own documents, and the cells and drops as lists of theirs |
| CampaignSchema.StringFields | src/models/campaign_data.py:72-79 | the text part of the document: the eight text keys, each with its field |
| CampaignSchema.NestedFields | src/models/campaign_data.py:80-83 | the nested part of the document: the four nested keys, each with its encoded part |
| CampaignSchema.CellsAt | src/models/campaign_data.py:61-63 | the cells comprehension succeeds exactly when every cell decodes; re-encoding gives the canonical cells |
| CampaignSchema.DropsAt | src/models/campaign_data.py:64-66 | the drops comprehension succeeds exactly when every drop decodes; re-encoding gives the canonical drops |
| CampaignSchema.RoundTrip | src/models/campaign_data.py:49-84 | `from_dict(to_dict(c)) == c` over the whole nested record |
| CampaignSchema.StringsOfToDict | src/models/campaign_data.py:52-59 | the eight text fields read back from the document are the campaign's own |
| CampaignSchema.CellsOfToDict | src/models/campaign_data.py:61-63 | the stored cells list decodes back to the cells, in order |
| CampaignSchema.DropsOfToDict | src/models/campaign_data.py:64-66 | the stored drops list decodes back to the drops, in order |
| CampaignSchema.DecodeKeepsSchemaKeys | src/models/campaign_data.py:49-84 | a decodable document decodes, and re-encoding gives its canonical form: the schema keys, each nested part canonical |
| CampaignSchema.CanonicalKeys | src/models/campaign_data.py:70-84 | the canonical form has exactly the schema keys |
| CampaignSchema.CanonicalEntries | src/models/campaign_data.py:52-59 | the canonical form copies each text entry verbatim |
| CampaignSchema.FromDictParts | src/models/campaign_data.py:51-67 | each field of the decoded campaign is the decode of its own entry |
| CampaignSchema.OnlySchemaKeysMatter | src/models/campaign_data.py:49-68 | two documents that agree on the schema keys decode alike, so extra keys are ignored |
| CampaignSchema.MissingKeyFails | src/models/campaign_data.py:51-67 | a schema key missing from the campaign document makes the decode fail |
| CampaignSchema.DetailsKeyMissing | src/models/campaign_data.py:60 | a key missing from the nested cost details makes the whole campaign fail |
| CampaignSchema.BreakdownKeyMissing | src/models/cost_details.py:35 | a key missing from the cost breakdown inside the cost details makes the whole campaign fail |
| CampaignSchema.CellKeyMissing | src/models/campaign_data.py:61-63 | a required key missing from any one strategy cell makes the whole campaign fail |
| CampaignSchema.DropKeyMissing | src/models/campaign_data.py:64-66 | a required key missing from any one weekly mail drop makes the whole campaign fail |
| CampaignSchema.DropCellKeyMissing | src/models/weekly_mail_drop.py:36-38 | a key missing from any per-cell counter of any drop makes the whole campaign fail |
| CampaignSchema.PerformanceKeyMissing | src/models/campaign_data.py:67 | a key missing from the performance summary makes the whole campaign fail |
| CampaignSchema.MissingKeyNotDecodable | src/models/campaign_data.py:51-67 | a document missing a schema key is not decodable |
| Database.WithoutId | src/database.py:33-34 | the result has no `_id` and every other entry unchanged |
| Database.GetData | src/database.py:29-40 | the campaigns are the documents that rebuild, in the order fetched; each document that does not rebuild gives one error |
| Database.IdNotInSchema | src/database.py:33-35 | `_id` is not a campaign key |
| Database.Rebuild | src/database.py:33-35 | stripping `_id` and decoding gives exactly what decoding the document with its `_id` gives |
| Database.StoredComesBack | src/database.py:33-35 | a stored campaign comes back unchanged, whatever its `_id` |
| Database.IdRemoved | src/database.py:33-34 | deleting `_id` undoes adding it |
| Database.UploadedBatchComesBack | src/database.py:31-39 | reading back an uploaded batch gives every campaign, in the order the documents are fetched, and no error |
| DataUpload.NormalizeColumn | src/views/data_upload.py:61 | a normalised label keeps its length and has no space and no capital left |
| DataUpload.NormalizeColumnChars | src/views/data_upload.py:61 | a normalised label has each space as `_` and each capital in lower case, with nothing else changed |
| DataUpload.NormalizeColumnIdempotent | src/views/data_upload.py:61 | normalising twice is normalising once |
| DataUpload.CleanCell | src/views/data_upload.py:62 | a non-null cell is kept; a null stays null; a numeric column's cell is kept as it is (NaN stays NaN); an object column holds no NaN afterwards |
| DataUpload.CleanRowCells | src/views/data_upload.py:62 | over a row: null cells of object columns become None, null cells of numeric columns stay NaN, other cells are kept, and cleaning twice is cleaning once |
| DataUpload.BlankFloatCell | src/views/data_upload.py:62 | a blank cell of a float column is still NaN after the clean-up, and `float` of it yields NaN rather than an error |
| DataUpload.Frame.constructor | src/views/data_upload.py:59 | a table holding the given labels, column dtypes and rows |
| DataUpload.Frame.Preprocess | src/views/data_upload.py:59-62 | renames this table's columns in place, leaves its dtypes and rows alone, and returns a fresh table whose null cells are cleaned column by column according to the dtype; the one-cell-per-column invariant is kept |
| DataUpload.RowOf | src/views/data_upload.py:169 | a row's labels are exactly the table's column labels |
| DataUpload.RowOfDistinct | src/views/data_upload.py:169 | with distinct labels, each label maps to its own single cell |
| DataUpload.Lookup | src/views/data_upload.py:69 | `row[key]` yields a single cell exactly when the label occurs once; an absent label is a key error |
| DataUpload.Trunc | src/views/data_upload.py:91 | `int` of a float truncates toward zero |
| DataUpload.IntOf | src/views/data_upload.py:91-93 | `int(cell)` fails exactly on None, NaN and text that is not an integer literal; None is a type error |
| DataUpload.FloatOf | src/views/data_upload.py:69-72 | `float(cell)` fails exactly on None and text that is not a float literal; None is a type error |
| DataUpload.StrAt | src/views/data_upload.py:87-90 | `str(row[key])` succeeds exactly when the lookup does |
| DataUpload.BuildCostBreakdown | src/views/data_upload.py:68-73 | built exactly when the four float columns convert; each field is `float` of its column |
| DataUpload.BuildCostDetails | src/views/data_upload.py:76-83 | built exactly when the five float columns convert; each field is `float` of its column, around the given breakdown |
| DataUpload.BuildStrategyCell | src/views/data_upload.py:86-95 | each field is the `str`, `int` or `float` of its column; the offer code is always present |
| DataUpload.BuildMailDrop | src/views/data_upload.py:98-105 | each field is the `str` or `int` of its column; the actual send date is always present; no per-cell counters |
| DataUpload.BuildPerformance | src/views/data_upload.py:108-117 | each field is the `int` or `float` of its column |
| DataUpload.StrategyCellAccepts | src/views/data_upload.py:86-95 | a cell is built exactly when its text columns are present and its number columns convert |
| DataUpload.MailDropAccepts | src/views/data_upload.py:98-105 | a drop is built exactly when its text columns are present and its piece count converts |
| DataUpload.PerformanceAccepts | src/views/data_upload.py:108-117 | a summary is built exactly when its integer and float columns convert |
| DataUpload.Build | src/views/data_upload.py:64-139 | a built campaign has one cell and one drop, each part built from the same row, and each text field `str` of its column |
| DataUpload.BuildAccepts | src/views/data_upload.py:64-139 | a row builds exactly when every text column is present and every number column converts |
| DataUpload.FlatRowRoundTrip | src/views/data_upload.py:64-139 | every campaign the builder can produce is rebuilt from its own flat row |
| DataUpload.FlatRows | src/views/data_upload.py:169 | one flat row per campaign |
| DataUpload.FlatRowsUpload | src/views/data_upload.py:168-175 | the flat rows of a batch all build, giving the batch in order |
| DataUpload.NoneInNumberColumn | src/views/data_upload.py:69-116 | a None cell (a blank in a column read as `object`) under any `int` or `float` column makes the row fail, since `int(None)` and `float(None)` raise TypeError |
| DataUpload.NaNInIntColumn | src/views/data_upload.py:91-116 | a NaN cell under any `int` column makes the row fail, since `int` of NaN raises ValueError |
| DataUpload.NoneOfferCode | src/views/data_upload.py:90 | an empty offer code is stored as the text "None" |
| DataUpload.StrOf | src/views/data_upload.py:87-90 | `str` of a text cell is that text, and `str` of None is "None" |
| DataUpload.StrOfNone | src/views/data_upload.py:87-90 | `str` of an empty cell is "None" |
| DataUpload.RowsOf | src/views/data_upload.py:169 | one row per table row, each pairing labels with cells |
| DataUpload.Upload | src/views/data_upload.py:160-188 | the campaigns are the rows that build, in order; one error per failing row; the batch is their `to_dict`; an insert is reported only for a non-empty batch, with its size |
| DataUpload.InsertsIffSomeRowAccepted | src/views/data_upload.py:180-185 | something is inserted exactly when some row is accepted |
| Seqs.Keep | src/views/data_view.py:73 | a comprehension filter keeps only elements that pass, and is no longer than its input |
| Seqs.KeepIsSubsequence | src/views/data_view.py:73 | a filter's result is a subsequence of its input |
| Seqs.KeepCounts | src/views/data_view.py:73 | a filter keeps every passing element as often as it occurs, and nothing else |
| Seqs.KeepAll | src/views/data_view.py:73 | a filter every element passes changes nothing |
| Seqs.KeepAppend | src/views/data_view.py:73 | filtering distributes over concatenation |
| Seqs.KeepKeep | src/views/data_view.py:72-78 | two filters in a row are one filter on the conjunction |
| Seqs.KeepMap | src/views/data_view.py:85 | filtering after mapping is mapping after filtering on the matching test |
| Seqs.KeepRange | src/views/data_view.py:106-107 | a filter that passes exactly an index range yields that slice |
| Seqs.Successes | src/views/data_upload.py:168-175 | no more successes than attempts |
| Seqs.OutcomeCount | src/views/data_upload.py:168-175 | every attempt is a success or a failure |
| Seqs.SuccessesAreKept | src/views/data_upload.py:168-175 | the successes are the results of the attempts that succeed, in order |
| Seqs.AllSucceed | src/views/data_upload.py:168-175 | when every attempt succeeds, the successes are all the results and there is no failure |
| Seqs.AllFail | src/views/data_upload.py:168-175 | when every attempt fails, there is no success |
| Seqs.SuccessesAppend | src/database.py:31-39 | the loop's outcome splits over a concatenation |
| Seqs.NoSuccesses | src/views/data_upload.py:180-185 | nothing succeeds exactly when every attempt fails |
| Seqs.SuccessesStep | src/database.py:31-39 | one more turn of the loop appends that item's outcome |
| Seqs.Attempt | src/views/data_upload.py:168-175 | the try/skip loop returns exactly the successes and the failures |
| Seqs.Map | src/views/data_view.py:85 | mapping keeps length and applies the function elementwise |
| Seqs.CountSplit | src/views/data_view.py:127 | the elements a test accepts and those it rejects together count all |
| Seqs.KeepCongruent | src/views/data_view.py:73 | filters with the same verdict on each element agree |
| Text.LowerChar | src/views/data_view.py:38 | `lower()` on one character: a capital moves to its lower-case letter, and nothing else changes |
| Text.Lower | src/views/data_view.py:77-78 | lower-casing keeps the length, turns each character into its `LowerChar` (a capital into the letter 32 code points above it), leaves no capital, and keeps every character that is not a capital |
| Text.LowerIdempotent | src/views/data_view.py:77-78 | lower-casing twice is lower-casing once |
| Text.ContainsAt | src/views/data_view.py:77-78 | `t in s` exactly when `t` occurs in `s` at some position |
| Text.ContainsEmpty | src/views/data_view.py:75-78 | the empty text is in every text |
| Text.ReplaceChar | src/views/data_upload.py:61 | `replace(a, b)` keeps the length, turns each `a` into `b`, keeps every other character, and leaves no `a` when `b` differs |
| Text.NatToString | populate_csv.py:77 | `str(n)`: digits only, no leading zero |
| Text.NatToStringValue | populate_csv.py:77 | the digits of `str(n)` read as `n` |
| Text.NatToStringInjective | populate_csv.py:77 | different numbers give different texts |
| Text.NatToStringLength | populate_csv.py:77 | a number below `10^k` has at most `k` digits |
| Text.StripLeft | src/views/data_upload.py:91 | stripping leading blanks leaves a suffix that does not start with a blank |
| Text.StripRight | src/views/data_upload.py:91 | stripping trailing blanks leaves a prefix that does not end with a blank |
| Text.StripLeftRemovesSpace | src/views/data_upload.py:91 | what stripping leading blanks removes is blanks only |
| Text.StripRightRemovesSpace | src/views/data_upload.py:91 | what stripping trailing blanks removes is blanks only |
| Text.Strip | src/views/data_upload.py:91 | the stripped text has no blank at either end, and it is empty exactly when the text is all blanks |
| Text.StripUnspaced | src/views/data_upload.py:91 | a text without blanks at either end is not changed by stripping |
| Text.ParseInt | src/views/data_upload.py:91-93 | `int` of a text succeeds only when the text holds a decimal digit |
| Text.ParseLiteral | src/views/data_upload.py:91-93 | a literal that parses holds a decimal digit |
| Text.ParseIntValue | src/views/data_upload.py:91-93 | `int` of a text that strips to digits `d`, `+d` or `-d` is the value of `d`, with that sign, so padding, a plus sign and leading zeros are accepted |
| Text.ParseIntShape | src/views/data_upload.py:91-93 | conversely, `int` succeeds only on a text that strips to non-empty digits with at most one sign in front |
| Text.DigitsLiteral | src/views/data_upload.py:91-93 | non-empty digits are a literal of their value |
| Text.SignedLiteral | src/views/data_upload.py:91-93 | a sign followed by non-empty digits is a literal of the signed value |
| Text.IntToString | src/views/data_upload.py:87 | `str(i)` is not empty, starts with a minus sign exactly when `i` is negative, and its digits read as the magnitude of `i` and have no leading zero |
| Text.ParseIntToString | src/views/data_upload.py:91-93 | `int(str(i)) == i` |
| Text.IntToStringUnspaced | src/views/data_upload.py:87 | `str(i)` has no blank at either end |
| Text.IntToStringLiteral | src/views/data_upload.py:91-93 | `str(i)` is an integer literal of value `i` |
| Text.NaturalLiteral | src/views/data_upload.py:91-93 | digits read as their value |
| Text.NegativeLiteral | src/views/data_upload.py:91-93 | a minus sign before digits reads as the negated value |
| Text.ZFill | populate_csv.py:77 | `zfill(width)` leaves a text at least `width` long alone; otherwise it inserts the missing number of zeros at the front, or right after a leading `+` or `-` |
| Text.ZFillValue | populate_csv.py:77 | zero-filling digits keeps their value |
| DataView.FilterCampaigns | src/views/data_view.py:68-80 | filtering never lengthens the list |
| DataView.EmptyTermMatchesAll | src/views/data_view.py:75 | the empty term matches every campaign, so skipping it is sound |
| DataView.StatusFilter | src/views/data_view.py:73 | a campaign passes exactly when one of the selected statuses is its status |
| DataView.SearchFilter | src/views/data_view.py:77-78 | a campaign passes exactly when the term occurs, at some position, in its lower-cased name or description |
| DataView.FilterIsKeep | src/views/data_view.py:68-80 | the two filters together are one order-keeping filter on "status listed (or no statuses) and term found" |
| DataView.NoCriteriaKeepsAll | src/views/data_view.py:72-78 | with no statuses and no term, every campaign is kept |
| DataView.FilterKeepsOrder | src/views/data_view.py:68-80 | the filtered list is a subsequence of the input |
| DataView.FilterSound | src/views/data_view.py:72-78 | each kept campaign has a listed status (if any are listed) and the term in its lower-cased name or description |
| DataView.FilterComplete | src/views/data_view.py:72-78 | each passing campaign is kept as often as it occurs, and a failing one not at all |
| DataView.PageCount | src/views/data_view.py:9 | there are no pages exactly when there are no rows |
| DataView.PageCountIsCeiling | src/views/data_view.py:9 | the page count is the least number of pages holding every row |
| DataView.PageBounds | src/views/data_view.py:12-21 | a page the selector allows starts inside the rows and holds one to `size` of them |
| DataView.Page | src/views/data_view.py:20-23 | a page is the slice from its start index to its end index, non-empty and at most `size` long |
| DataView.PagesUpToPrefix | src/views/data_view.py:20-23 | the first `k` pages are the first `k * size` rows |
| DataView.PagesCoverRows | src/views/data_view.py:9-23 | all pages, one after another, are exactly the rows |
| DataView.Flatten | src/views/data_view.py:164-174 | the flat record keeps the campaign's id and status |
| DataView.Summarize | src/views/data_view.py:114-131 | the total is the row count, and the active count does not exceed it |
| DataView.SummaryOfFiltered | src/views/data_view.py:85-127 | the total is the number of filtered campaigns; the active count is those with status exactly "Active"; the rest are not active |
| DataView.Selected | src/views/data_view.py:106-107 | every campaign shown in detail has its id on the page |
| DataView.Shown | src/views/data_view.py:85-93 | the table rows of a page are the flattened campaigns of that page, in order |
| DataView.OnPageIffInPage | src/views/data_view.py:106-107 | with distinct ids, a campaign's id is on the page exactly when the campaign is |
| DataView.SelectedIsPage | src/views/data_view.py:106-107 | with distinct ids, the detailed list is exactly the campaigns of the page |
| DataView.SharedIdIsSelected | src/views/data_view.py:106-107 | a campaign sharing an id with one on the page is shown in detail even when it is on another page |
| SampleData.CostsPositive | populate_csv.py:50-56 | every cost component and both totals are positive, and the budget exceeds the planned cost |
| SampleData.RoundHalfEven | populate_csv.py:119 | `round` lands within half a unit of its argument, strictly nearer when the argument is not halfway, and on an even integer when it is halfway |
| SampleData.Round2 | populate_csv.py:119-124 | `round(x, 2)` is a whole number of cents and moves a value by at most half a cent |
| SampleData.CentsBack | populate_csv.py:119-124 | whole units within half a unit of `100 * x`, divided by 100, are whole cents within half a cent of `x` |
| SampleData.Status | populate_csv.py:67-74 | the status is "Planned", "Completed" or "Active" |
| SampleData.StatusRule | populate_csv.py:67-74 | for a campaign that ends no earlier than it starts, each status holds exactly when its date condition does |
| SampleData.CampaignId | populate_csv.py:77 | the id starts with "CAM" and has at least seven characters |
| SampleData.CampaignIdShape | populate_csv.py:77 | the id is "CAM" and digits reading `i + 1`, seven characters while `i + 1` has at most four digits |
| SampleData.CampaignIdInjective | populate_csv.py:77 | different turns give different ids |
| SampleData.Generated | populate_csv.py:76-125 | each generated record has the shape the upload builder produces |
| SampleData.GenerateSampleData | populate_csv.py:41-129 | the loop produces exactly the records of the turns, one per draw, in turn order |
| SampleData.GeneratedCampaigns | populate_csv.py:41-129 | one record per draw; record `i` is the record of turn `i` with draw `i` |
| SampleData.GeneratedStatus | populate_csv.py:46-47 | a generated status follows the dates, and a campaign lasts at least thirty days |
| SampleData.CostSum | populate_csv.py:55 | the actual cost is the sum of the four breakdown components |
| SampleData.TruncShrinks | populate_csv.py:62-63 | truncating `n * rate` with a rate in [0, 1] stays between 0 and `n` |
| SampleData.Responses | populate_csv.py:62 | with a response rate in [0, 1], the responses are between 0 and the pieces mailed |
| SampleData.Conversions | populate_csv.py:63 | with a conversion rate in [0, 1], the conversions are between 0 and the responses |
| SampleData.PiecesAgree | populate_csv.py:104-118 | cell, drop and summary report the same pieces, and cell and summary the same responses and conversions; the mailing week starts on the start date |
| SampleData.GeneratedIdsDistinct | populate_csv.py:77 | the ids of one run are pairwise distinct |
| SampleData.SampleUploads | populate_csv.py:41-129 | every campaign of a run is uploaded, in order, with no error |
| SampleFixture.FixtureCostSum | src/populate_db.py:384-398 | the fixture's breakdown adds up to its actual cost |
| SampleFixture.FixturePerPieceBase | src/populate_db.py:391-411 | the per-piece costs spread the totals over 20000 pieces, twice the cell's 10000 |
| SampleFixture.FixtureFunnel | src/populate_db.py:400-411 | the fixture cell's conversions ≤ responses ≤ pieces mailed |
| SampleFixture.FixtureWeeklyCell | src/populate_db.py:413-432 | the drop's one cell names a strategy cell and mails the drop's whole piece count |
| SampleFixture.FixtureTotals | src/populate_db.py:400-443 | the summary totals are the cell's totals |
| SampleFixture.SampleCampaign | src/populate_db.py:382-460 | every cell a weekly drop of the fixture mails is one of its strategy cells |
| SampleFixture.FixtureRates | src/populate_db.py:434-441 | the rates are percentages of the totals, and the average is value per conversion |
| SampleFixture.FixtureRoi | src/populate_db.py:442 | the ROI is the generator's formula rounded to two decimals |
| SampleFixture.FixtureRoundTrip | src/populate_db.py:344-379 | the stored fixture decodes back to itself |

## Left out

- CampaignSchema.FromDict, and the FromDict of every other record class: stricter than Python. Python stores whatever value it finds under a key. The model fails with `WrongType` when a value is not of the declared kind, which keeps the record fields typed. Missing keys and nested decoding are as in the source.
- Document.ItemsAt: a non-empty string or dictionary under a list key is reported as `NotADict`. In Python, the element's `from_dict` fails on the characters or keys it iterates over. The outcome, a failed decode, is the same.
- DataUpload.Lookup: a label that occurs twice is an error. In pandas, `row[key]` gives a Series, and `str` of a Series would succeed. Uploaded tables are assumed to have distinct labels; `RowOfDistinct` covers that case.
- Text.Lower, Text.Strip and Text.ParseInt: ASCII only. Python's Unicode case mapping, the non-ASCII whitespace `strip()` and `int()` skip (such as U+0085 and U+00A0) and the non-ASCII decimal digits `int()` accepts are not modelled.
- DataUpload.Frame: the dtype of each column is an input, as the file reader inferred it; the inference itself is not modelled. The clean-up follows the pandas behaviour where `where(notnull, None)` leaves a numeric column's NaN in place; older pandas versions that turned such a column into `object` with `None` are not modelled.
- Text.ParseInt: underscores in integer literals (`int("1_000")`) are not accepted.
- DataUpload.FloatOf: parsing and printing floats (`float("…")`, `str(1.5)`) are the `FloatText` parameter, so the text `"nan"` and `"inf"` are whatever that parameter says. Float values are reals. NaN is a separate case, and infinities are not modelled.
- SampleData.Round2: works over reals. The binary-float representation error of Python's `round(x, 2)` is not modelled.
- Dates: `strftime` is the `Calendar` parameter. `random_date` and `datetime.now()` become fields of `Draw` (day numbers and instants in seconds).
- Random draws: every `random.uniform`, `randint` and `choice` is a field of `Draw`; `ValidDraw` states the ranges.
- SampleData.GenerateSampleData returns the campaigns rather than the flat dictionaries. The dictionary for a campaign is its flat layout, `DataUpload.FlatRow`. The CSV round trip through pandas, with its dtype inference, is not modelled.
- `main()` of both seeding scripts, which does file and database I/O.
- The document store: the connection, `insert_many`, `find`, the `_id` values it assigns (`Database.StoredComesBack` holds for any of them), the newest-first sort order (`GetData` takes the documents in the order fetched), and the 60-second cache and its clearing.
- Reporting through `st.error`, `st.success` and `st.warning`: the model returns the errors and the upload report instead.
- DataUpload.Upload: the error kept for a failing row is the conversion error from `create_campaign_object`, reported at src/views/data_upload.py:137. The second report at line 138, `st.error("Problematic row:", row)`, passes the row where Streamlit accepts only the message. So that call raises in turn, and the bare `raise` at line 139 is not reached. The loop at line 173 catches whichever exception escapes. The set of skipped rows is the same either way, and the model does not distinguish the two exceptions.
- The Streamlit interface: widgets, layout, the detail panels, and the file reader (`read_file`, called from `process_uploaded_file`). The page selector is modelled as a page number between 1 and the page count.
- DataView.Flatten: only the identity and status columns. The money and percent display strings, the average ROI and the total budget metrics are float formatting and are left out.
- The duplicate record classes in `src/populate_db.py` (lines 16-379) repeat the schema modules field for field. They share the schema modules' model.
- The pydantic models in `src/models/base_models.py`, the FastAPI service and `src/models/main.py` are not part of this model.
