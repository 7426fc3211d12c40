/** `GoogleSheetsFetchTool._run`: read the form's response sheet and map its
    latest row, by column position, into a structured response. The Sheets
    API call is a parameter; credential loading in the constructor is not
    modelled. */
module SheetsFetch {
  import opened Wrappers

  /** One sheet row as the Sheets API returns it: formatted cell strings, with
      trailing empty cells dropped. */
  type Row = seq<string>

  datatype UserInfo = UserInfo(name: string, email: string)

  datatype WorkoutData = WorkoutData(
    didWorkout: string,
    musclesTrained: string,
    didCardio: string,
    exercises: string,
    experiencedPain: string,
    painDetails: string)

  /** The `response_dict` built from the latest row. */
  datatype FormResponse = FormResponse(timestamp: string, userInfo: UserInfo, workoutData: WorkoutData)

  /** The two dictionaries `_run` returns:
      `{"response": ..., "status": "success"}` and `{"error": ..., "status": "error"}`. */
  datatype SheetReply = Found(response: FormResponse) | SheetError(error: string)

  /** The range every fetch reads, whatever range the caller passes. */
  const ResponseRange: string := "Form Responses 1!A:Z"
  const NoResponsesMessage: string := "No responses found in the sheet"
  const FetchFailedPrefix: string := "Failed to fetch sheet data: "
  /** `str(IndexError)` for a list subscript out of range. */
  const IndexErrorMessage: string := "list index out of range"

  /** Number of columns the mapping reads: timestamp and eight answers. */
  const ColumnCount: nat := 9

  /** The Sheets `values().get(spreadsheetId, range).execute()` call, reduced to
      the reply's `values` entry (absent or present) or the message of the
      exception it raised. */
  type SheetsApi = (string, string) -> Result<Option<seq<Row>>, string>

  /** `row[i] if len(row) > i else default`. */
  function CellOr(row: Row, i: nat, default: string): string {
    if |row| > i then row[i] else default
  }

  /** The value a missing column takes: "No" for the three yes/no answers
      (columns 3, 5 and 7), the empty string for the others. */
  function ColumnDefault(k: nat): string {
    if k == 3 || k == 5 || k == 7 then "No" else ""
  }

  /** The row-to-record mapping. The timestamp is read unguarded, so an empty
      row raises `IndexError`; every other column falls back to its default
      when the row is too short. */
  function MapRow(row: Row): Result<FormResponse, string> {
    if |row| == 0 then Failure(IndexErrorMessage)
    else
      Success(FormResponse(
        row[0],
        UserInfo(CellOr(row, 1, ""), CellOr(row, 2, "")),
        WorkoutData(
          CellOr(row, 3, "No"),
          CellOr(row, 4, ""),
          CellOr(row, 5, "No"),
          CellOr(row, 6, ""),
          CellOr(row, 7, "No"),
          CellOr(row, 8, ""))))
  }

  /** Everything `_run` does after the API call returned `values`. */
  function ParseValues(values: Option<seq<Row>>): SheetReply {
    if values.None? || |values.value| < 2 then SheetError(NoResponsesMessage)
    else
      var latest := values.value[|values.value| - 1];
      match MapRow(latest)
      case Success(r) => Found(r)
      case Failure(e) => SheetError(FetchFailedPrefix + e)
  }

  /** `GoogleSheetsFetchTool._run(range_name)`: the range argument is replaced by
      `ResponseRange`; an exception from the API call becomes an error reply. */
  function Run(sheetId: string, rangeName: string, api: SheetsApi): SheetReply {
    match api(sheetId, ResponseRange)
    case Failure(e) => SheetError(FetchFailedPrefix + e)
    case Success(values) => ParseValues(values)
  }

  // ---------------------------------------------------------------------
  // Reference view of a record as a row of nine cells.

  /** Field `k` of a record, by the column it is read from. */
  function Column(r: FormResponse, k: nat): string
    requires k < ColumnCount
  {
    match k
    case 0 => r.timestamp
    case 1 => r.userInfo.name
    case 2 => r.userInfo.email
    case 3 => r.workoutData.didWorkout
    case 4 => r.workoutData.musclesTrained
    case 5 => r.workoutData.didCardio
    case 6 => r.workoutData.exercises
    case 7 => r.workoutData.experiencedPain
    case _ => r.workoutData.painDetails
  }

  /** A record written back as the nine cells it was read from. */
  function ToRow(r: FormResponse): (row: Row)
    ensures |row| == ColumnCount
  {
    [r.timestamp, r.userInfo.name, r.userInfo.email,
     r.workoutData.didWorkout, r.workoutData.musclesTrained, r.workoutData.didCardio,
     r.workoutData.exercises, r.workoutData.experiencedPain, r.workoutData.painDetails]
  }

  /** The default-filled cells, column by column. */
  const DefaultRow: Row := ["", "", "", "No", "", "No", "", "No", ""]

  /** A row cut to nine cells and completed with the column defaults. */
  function Padded(row: Row): Row {
    if |row| >= ColumnCount then row[..ColumnCount] else row + DefaultRow[|row|..]
  }

  // ---------------------------------------------------------------------
  // Properties.

  /** The mapping reads column `k` when the row has it, verbatim (an empty
      cell stays empty), and takes the column's default otherwise. */
  lemma ColumnRule(row: Row, k: nat)
    requires |row| >= 1 && k < ColumnCount
    ensures MapRow(row).Success?
    ensures Column(MapRow(row).value, k) == if k < |row| then row[k] else ColumnDefault(k)
  {
  }

  /** The record is exactly the row cut to nine columns and padded with the
      defaults: later columns are ignored and only missing ones are filled. */
  lemma RecordIsPaddedRow(row: Row)
    requires |row| >= 1
    ensures MapRow(row).Success? && ToRow(MapRow(row).value) == Padded(row)
  {
    var r := MapRow(row).value;
    var p := Padded(row);
    assert |p| == ColumnCount;
    forall k | 0 <= k < ColumnCount ensures ToRow(r)[k] == p[k] {
      assert DefaultRow[k] == ColumnDefault(k);
    }
  }

  /** Columns after the ninth are never read. */
  lemma ExtraColumnsIgnored(row: Row)
    requires |row| > ColumnCount
    ensures MapRow(row) == MapRow(row[..ColumnCount])
  {
  }

  /** Writing a record as a row and mapping it back gives the record. */
  lemma MapRowOfToRow(r: FormResponse)
    ensures MapRow(ToRow(r)) == Success(r)
  {
  }

  /** A sheet yields "No responses found" exactly when it has no `values` or
      no row beyond the header. */
  lemma NoResponsesIff(values: Option<seq<Row>>)
    ensures ParseValues(values) == SheetError(NoResponsesMessage)
            <==> values.None? || |values.value| < 2
  {
    if values.Some? && |values.value| >= 2 {
      var e := ParseValues(values);
      if e.SheetError? {
        assert e.error[0] == 'F';
      }
    }
  }

  /** Only the last row is read; the header row and earlier responses do not
      influence the result. */
  lemma OnlyLastRowRead(v1: seq<Row>, v2: seq<Row>)
    requires |v1| >= 2 && |v2| >= 2
    requires v1[|v1| - 1] == v2[|v2| - 1]
    ensures ParseValues(Some(v1)) == ParseValues(Some(v2))
  {
  }

  /** An empty latest row raises `IndexError`, which is reported as a fetch
      failure. */
  lemma EmptyLatestRowFails(values: seq<Row>)
    requires |values| >= 2 && values[|values| - 1] == []
    ensures ParseValues(Some(values)) == SheetError(FetchFailedPrefix + IndexErrorMessage)
  {
  }

  /** A successful reply holds exactly the mapping of the last row. */
  lemma FoundIsLatestRow(values: Option<seq<Row>>)
    ensures ParseValues(values).Found? <==>
              values.Some? && |values.value| >= 2 && values.value[|values.value| - 1] != []
    ensures ParseValues(values).Found? ==>
              ToRow(ParseValues(values).response) == Padded(values.value[|values.value| - 1])
  {
    if ParseValues(values).Found? {
      RecordIsPaddedRow(values.value[|values.value| - 1]);
    }
  }

  /** The caller's range never matters: the fetch always reads `ResponseRange`. */
  lemma RangeArgumentIgnored(sheetId: string, a: string, b: string, api: SheetsApi)
    ensures Run(sheetId, a, api) == Run(sheetId, b, api)
  {
  }

  /** Every error reply is "No responses found" or a fetch failure message. */
  lemma ErrorMessages(sheetId: string, rangeName: string, api: SheetsApi)
    ensures var r := Run(sheetId, rangeName, api);
            r.SheetError? ==>
              r.error == NoResponsesMessage
              || (|r.error| >= |FetchFailedPrefix| && r.error[..|FetchFailedPrefix|] == FetchFailedPrefix)
  {
  }
}
