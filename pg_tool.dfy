/** The `workout_summaries` table behind `insert_summary_tool` and
    `fetch_latest_summary_tool`. The table is held in memory as a map from
    the `date` key to the other five columns, and follows the SQL text: an
    upsert on `date`, and a read of the row with the greatest date. Dates are
    ISO `YYYY-MM-DD` strings, ordered lexicographically. */
module PgTool {
  import opened Wrappers
  import opened Text
  import Calendar

  /** The `summary` dictionary passed to the insert tool, key by key
      (`None` = key absent, read as SQL NULL by `summary.get`). */
  datatype SummaryInput = SummaryInput(
    date: Option<string>,
    gym: Option<string>,
    muscleTrained: Option<string>,
    summary: Option<string>,
    painExperienced: Option<bool>,
    painDetails: Option<string>)

  /** The non-key columns of one row (`None` = NULL). */
  datatype SummaryRow = SummaryRow(
    gym: Option<string>,
    muscleTrained: Option<string>,
    summary: Option<string>,
    painExperienced: Option<bool>,
    painDetails: Option<string>)

  /** A whole row, as `dict(row)` returns it. */
  datatype StoredSummary = StoredSummary(date: string, row: SummaryRow)

  /** What the fetch tool returns when it gets through to the database: the
      message for an empty table, or the latest row. */
  datatype Latest = NoSummaries(message: string) | LatestSummary(summary: StoredSummary)

  /** What the tools raise: `ValueError` with its message, and the database's
      not-null violation on a column. */
  datatype ToolError = ValueError(message: string) | NotNullViolation(column: string)

  const DatabaseUrlNotSetMessage: string := "DATABASE_URL environment variable not set."
  const NoSummariesMessage: string := "No summaries found."

  function InsertedMessage(date: string): string {
    "Inserted/Updated summary for " + date
  }

  /** The values the insert writes: each column is `summary.get(<column>)`. */
  function RowOf(s: SummaryInput): SummaryRow {
    SummaryRow(s.gym, s.muscleTrained, s.summary, s.painExperienced, s.painDetails)
  }

  /** `INSERT ... ON CONFLICT (date) DO UPDATE SET <every other column> = EXCLUDED.<column>`. */
  function Upsert(rows: map<string, SummaryRow>, date: string, row: SummaryRow): map<string, SummaryRow> {
    rows[date := row]
  }

  /** `date` is the first key under `ORDER BY date DESC`. */
  predicate IsLatest(date: string, dates: set<string>) {
    date in dates && forall d :: d in dates ==> !LexLess(date, d)
  }

  class SummaryTable {
    /** `DATABASE_URL`, read once when the tools' module is loaded. */
    const databaseUrl: Option<string>
    var rows: map<string, SummaryRow>

    constructor (databaseUrl: Option<string>, rows: map<string, SummaryRow>)
      ensures this.databaseUrl == databaseUrl && this.rows == rows
    {
      this.databaseUrl := databaseUrl;
      this.rows := rows;
    }

    /** `insert_summary_tool(summary)`. Without a database URL nothing is
        touched; otherwise the row for the summary's date is created or
        overwritten and no other row changes. */
    method InsertSummary(summary: SummaryInput) returns (r: Result<string, ToolError>)
      modifies this
      ensures !IsSet(databaseUrl) ==> r == Failure(ValueError(DatabaseUrlNotSetMessage)) && rows == old(rows)
      ensures IsSet(databaseUrl) && summary.date.None? ==> r == Failure(NotNullViolation("date")) && rows == old(rows)
      ensures IsSet(databaseUrl) && summary.date.Some? ==>
                && r == Success(InsertedMessage(summary.date.value))
                && rows == Upsert(old(rows), summary.date.value, RowOf(summary))
    {
      if !IsSet(databaseUrl) {
        return Failure(ValueError(DatabaseUrlNotSetMessage));
      }
      match summary.date
      case None =>
        r := Failure(NotNullViolation("date"));
      case Some(date) =>
        rows := rows[date := RowOf(summary)];
        r := Success(InsertedMessage(date));
    }

    /** `fetch_latest_summary_tool()`: the row with the greatest date, or
        the "No summaries found." reply on an empty table. It reads the table
        and changes nothing. */
    method FetchLatestSummary() returns (r: Result<Latest, ToolError>)
      ensures !IsSet(databaseUrl) ==> r == Failure(ValueError(DatabaseUrlNotSetMessage))
      ensures IsSet(databaseUrl) && rows == map[] ==> r == Success(NoSummaries(NoSummariesMessage))
      ensures IsSet(databaseUrl) && rows != map[] ==>
                && r.Success? && r.value.LatestSummary?
                && IsLatest(r.value.summary.date, rows.Keys)
                && rows[r.value.summary.date] == r.value.summary.row
    {
      if !IsSet(databaseUrl) {
        return Failure(ValueError(DatabaseUrlNotSetMessage));
      }
      if rows == map[] {
        return Success(NoSummaries(NoSummariesMessage));
      }
      LatestExists(rows.Keys);
      var date :| date in rows && IsLatest(date, rows.Keys);
      r := Success(LatestSummary(StoredSummary(date, rows[date])));
    }
  }

  // ---------------------------------------------------------------------
  // Properties of the table operations.

  /** Every non-empty set of dates has a latest one. */
  lemma {:induction false} LatestExists(dates: set<string>)
    requires dates != {}
    ensures exists d :: IsLatest(d, dates)
    decreases |dates|
  {
    var x :| x in dates;
    var rest := dates - {x};
    if rest == {} {
      assert dates == {x};
      LexLessIrreflexive(x);
      assert IsLatest(x, dates);
    } else {
      LatestExists(rest);
      var m :| IsLatest(m, rest);
      if LexLess(m, x) {
        forall d | d in dates ensures !LexLess(x, d) {
          if d == x {
            LexLessIrreflexive(x);
          } else if LexLess(x, d) {
            LexLessTransitive(m, x, d);
            assert false;
          }
        }
        assert IsLatest(x, dates);
      } else {
        assert IsLatest(m, dates);
      }
    }
  }

  /** The latest date is unique, so the fetch's answer is determined by the table. */
  lemma LatestUnique(a: string, b: string, dates: set<string>)
    requires IsLatest(a, dates) && IsLatest(b, dates)
    ensures a == b
  {
    if a != b {
      LexLessTotal(a, b);
    }
  }

  /** After an upsert there is exactly one row for the date, holding the new
      values, every other row is unchanged, and a row was added only if the
      date was new. */
  lemma UpsertSpec(rows: map<string, SummaryRow>, date: string, row: SummaryRow)
    ensures var after := Upsert(rows, date, row);
            && after.Keys == rows.Keys + {date}
            && after[date] == row
            && (forall d :: d in rows && d != date ==> after[d] == rows[d])
            && |after| == if date in rows then |rows| else |rows| + 1
  {
    var after := Upsert(rows, date, row);
    if date !in rows {
      assert after.Keys == rows.Keys + {date};
    } else {
      assert after.Keys == rows.Keys;
    }
  }

  /** Inserting twice under one date is the same as inserting the second
      payload once: one row, carrying the second payload. */
  lemma UpsertTwice(rows: map<string, SummaryRow>, date: string, first: SummaryRow, second: SummaryRow)
    ensures Upsert(Upsert(rows, date, first), date, second) == Upsert(rows, date, second)
  {
  }

  /** Inserting a summary dated no earlier than every stored one makes it the
      row the fetch returns. */
  lemma LatestAfterUpsert(rows: map<string, SummaryRow>, date: string, row: SummaryRow)
    requires forall d :: d in rows ==> !LexLess(date, d)
    ensures IsLatest(date, Upsert(rows, date, row).Keys)
  {
    LexLessIrreflexive(date);
  }

  /** When every stored key is a `YYYY-MM-DD` date, the row the fetch returns
      is for the chronologically latest date. */
  lemma LatestIsLatestDate(date: string, dates: set<string>)
    requires IsLatest(date, dates)
    requires forall d :: d in dates ==> Calendar.ParseIsoDate(d).Some?
    ensures forall d :: d in dates ==>
              !Calendar.Before(Calendar.ParseIsoDate(date).value, Calendar.ParseIsoDate(d).value)
  {
    forall d | d in dates
      ensures !Calendar.Before(Calendar.ParseIsoDate(date).value, Calendar.ParseIsoDate(d).value)
    {
      Calendar.FormattedParse(date);
      Calendar.FormattedParse(d);
      Calendar.IsoDateOrder(Calendar.ParseIsoDate(date).value, Calendar.ParseIsoDate(d).value);
    }
  }
}
