# Gym Manager — a Dafny model of its tools and pipeline wiring

Gym Manager is a multi-agent assistant built on CrewAI. Each day it mails a
feedback survey. It reads the latest Google Form answer from a Google Sheet
and summarises it into a Postgres table. Its agents then produce a pain
review, tomorrow's workout plan, a nutrition plan and a meal plan, and each
result is written to a dated Markdown file.

This project models the deterministic core of that system in Dafny and proves
what each piece promises:

- `SheetsFetch` (`tools/sheets_fetch.py`): maps the last sheet row, column by
  column, into a response record. Missing columns take their defaults. The
  error replies and the exception path are modelled too.
- `FormResponseTool` (`tools/form_response.py`): normalises the sheet tool's
  reply into `{"status", "data" | "error"}`.
- `PgTool` (`tools/pg_tool.py`): the `workout_summaries` table, as a class
  holding a map from date to row. `InsertSummary` is the upsert on `date`.
  `FetchLatestSummary` returns the row with the greatest date. Both check
  `DATABASE_URL` first.
- `YouTubeSearch` (`tools/youtube_search_tool.py`): the key check, the search
  query, and the reduction of the reply to at most three links, one per line.
- `GymCrew` (`crew.py`):
  - the six Pydantic output models, with strict validation and `model_dump`;
  - `str.format` on task descriptions;
  - the goal and recipient checks made while tasks are built;
  - the fixed order of agents and tasks;
  - the result mapping of the `gmail_send_email` tool.
- `GymMain` (`main.py`):
  - the dated output-file map;
  - `assign_output_files`, a loop that sets `output_file` on task objects in place;
  - `run_full_pipeline`, which assigns the files before kickoff;
  - the console test `cmd.strip().lower() == "run"`.
- Supporting modules:
  - `Wrappers`: `Option` and `Result`.
  - `Text`: Python's truthiness, `isspace`, `strip`, `lower`, `join`, a
    newline split, and code-point string order.
  - `Calendar`: dates, `strftime("%Y-%m-%d")` and its inverse, and the proof
    that rendered dates compare as strings in chronological order.

External services are function-typed parameters that return a value or the
message of an exception. They are:

- the Google Sheets call;
- the Serper POST;
- the Composio Gmail tool.

Environment variables are `Option<string>` inputs, where `None` means unset:
`DATABASE_URL`, `SERPER_API_KEY`, `goal` and `RECIPIENT_EMAIL`. The task
configuration is a map of maps. The clock is a `Calendar.Date` input.

The model follows the code as written:

- the code has no retries on tool failure;
- it has no lock against overlapping runs;
- it does not validate the Postgres summary against a schema;
- memory is not limited to a week, since `WEEK_MEMORY` and
  `SHORT_TERM_MEMORY` are plain CrewAI memory objects.

## Model

| member | source | states |
|---|---|---|
| `SheetsFetch.ColumnRule` | src/gym_manager/tools/sheets_fetch.py:76-90 | A non-empty row always maps. Field k is the row's cell k verbatim when the row has it. Otherwise it is the column default: "No" for the three yes/no answers, "" for the rest. |
| `SheetsFetch.RecordIsPaddedRow` | src/gym_manager/tools/sheets_fetch.py:76-90 | The record, read back as nine cells, is exactly the row cut to nine columns and completed with the defaults. |
| `SheetsFetch.ExtraColumnsIgnored` | src/gym_manager/tools/sheets_fetch.py:76-90 | Columns after the ninth never affect the record. |
| `SheetsFetch.MapRowOfToRow` | src/gym_manager/tools/sheets_fetch.py:76-90 | Writing a record as its nine cells and mapping them back gives the same record. |
| `SheetsFetch.NoResponsesIff` | src/gym_manager/tools/sheets_fetch.py:57-62 | The reply is "No responses found in the sheet" exactly when `values` is missing or has no row beyond the header. |
| `SheetsFetch.OnlyLastRowRead` | src/gym_manager/tools/sheets_fetch.py:64-66 | Two sheets with the same last row give the same reply: the header and earlier rows are never used. |
| `SheetsFetch.EmptyLatestRowFails` | src/gym_manager/tools/sheets_fetch.py:76-101 | An empty last row raises IndexError on the timestamp. That comes back as "Failed to fetch sheet data: list index out of range". |
| `SheetsFetch.FoundIsLatestRow` | src/gym_manager/tools/sheets_fetch.py:56-95 | The reply is a success exactly when there are at least two rows and the last is non-empty. Its response is then the padded last row. |
| `SheetsFetch.RangeArgumentIgnored` | src/gym_manager/tools/sheets_fetch.py:42-54 | The range the caller passes never changes the reply, because the fetch always reads "Form Responses 1!A:Z". |
| `SheetsFetch.ErrorMessages` | src/gym_manager/tools/sheets_fetch.py:57-101 | Every error reply is either the no-responses message or starts with "Failed to fetch sheet data: ". |
| `FormResponseTool.ToolResult.Status` | src/gym_manager/tools/form_response.py:26-35 | The status is only ever "success" or "error", and it is "success" exactly for a fetched result. |
| `FormResponseTool.PassesSheetReplyThrough` | src/gym_manager/tools/form_response.py:24-35 | A success reply's response becomes the data unchanged. An error reply keeps its message. |
| `FormResponseTool.SuccessIff` | src/gym_manager/tools/form_response.py:26-30 | The result is a success exactly when the status is "success" and a response is present, and then the data is that response. |
| `FormResponseTool.ErrorMessageOrDefault` | src/gym_manager/tools/form_response.py:31-35 | A non-success reply gives its own error, or "Unknown error fetching form response" when it has none. |
| `FormResponseTool.ExceptionsCaught` | src/gym_manager/tools/form_response.py:36-40 | Anything raised is reported as "Error while fetching form response: " followed by the message. |
| `FormResponseTool.ArgumentsIgnored` | src/gym_manager/tools/form_response.py:22-25 | The call's arguments never change the result. |
| `FormResponseTool.FetchedIff` | src/gym_manager/tools/form_response.py:22-40 | End to end, the tool succeeds exactly when the sheet has a non-empty last row below the header. Its data is then that row, padded. |
| `PgTool.SummaryTable.InsertSummary` | src/gym_manager/tools/pg_tool.py:10-45 | Without `DATABASE_URL` it raises and the table is untouched. A summary without a date is rejected and the table is untouched. Otherwise the table becomes the upsert of the summary's row under its date, and the result is "Inserted/Updated summary for <date>". |
| `PgTool.SummaryTable.FetchLatestSummary` | src/gym_manager/tools/pg_tool.py:47-61 | Without `DATABASE_URL` it raises. On an empty table it returns "No summaries found.". Otherwise it returns a stored row whose date is not below any other date. |
| `PgTool.LatestExists` | src/gym_manager/tools/pg_tool.py:55-59 | Every non-empty table has a greatest date, so the fetch always has a row to return. |
| `PgTool.LatestUnique` | src/gym_manager/tools/pg_tool.py:55-59 | The greatest date is unique, so the fetched row is determined by the table. |
| `PgTool.LatestIsLatestDate` | src/gym_manager/tools/pg_tool.py:55 | When every key is a YYYY-MM-DD date, the fetched row's date is chronologically the latest. |
| `PgTool.UpsertSpec` | src/gym_manager/tools/pg_tool.py:25-33 | After an upsert the date has exactly the new row and every other row is unchanged. The row count grows by one only for a new date. |
| `PgTool.UpsertTwice` | src/gym_manager/tools/pg_tool.py:28-33 | Upserting twice under one date equals upserting the second row once. |
| `PgTool.LatestAfterUpsert` | src/gym_manager/tools/pg_tool.py:25-59 | A summary dated no earlier than every stored one becomes the one the fetch returns. |
| `YouTubeSearch.Top` | src/gym_manager/tools/youtube_search_tool.py:26 | The slice is a prefix of the results of length min(n, 3). |
| `YouTubeSearch.Links` | src/gym_manager/tools/youtube_search_tool.py:26 | Link extraction succeeds exactly when every item has a link, and then returns them in order. Otherwise it raises KeyError('link'). |
| `YouTubeSearch.NoKeyNoRequest` | src/gym_manager/tools/youtube_search_tool.py:16-17 | Without an API key the answer is the fixed message, whatever the service would do. |
| `YouTubeSearch.OnlySiteQuerySent` | src/gym_manager/tools/youtube_search_tool.py:19-25 | The answer depends only on the reply to the POST of "site:youtube.com <query>", sent with the key. |
| `YouTubeSearch.NoResults` | src/gym_manager/tools/youtube_search_tool.py:26-28 | A missing or empty `organic` list gives "No YouTube results found.". |
| `YouTubeSearch.MissingLinkReported` | src/gym_manager/tools/youtube_search_tool.py:26-31 | A result without a link among the first three is reported as "Error during YouTube search: 'link'". |
| `YouTubeSearch.TopLinksOnePerLine` | src/gym_manager/tools/youtube_search_tool.py:26-29 | Splitting the answer on newlines gives back the first min(n, 3) links in order, provided no link contains a newline. |
| `Text.StripLeading` | src/gym_manager/main.py:56 | The result is a suffix of the input, everything removed is whitespace, and it does not start with whitespace. |
| `Text.StripTrailing` | src/gym_manager/main.py:56 | The result is a prefix of the input, everything removed is whitespace, and it does not end with whitespace. |
| `Text.StripPadded` | src/gym_manager/main.py:56 | Stripping whitespace from around a word that neither starts nor ends with whitespace gives the word. |
| `Text.SplitJoin` | src/gym_manager/tools/youtube_search_tool.py:29 | Splitting a join on its separator gives back the parts when no part contains the separator. |
| `Text.LexLessTransitive` | src/gym_manager/tools/pg_tool.py:55 | The string order used by ORDER BY is transitive. |
| `Text.LexLessTotal` | src/gym_manager/tools/pg_tool.py:55 | Any two distinct keys are ordered one way or the other. |
| `Calendar.IsoDateInjective` | src/gym_manager/main.py:22 | Two valid dates render to the same `%Y-%m-%d` text exactly when they are equal. |
| `Calendar.ParseFormatted` | src/gym_manager/main.py:22 | Parsing a rendered date gives back the date. |
| `Calendar.FormattedParse` | src/gym_manager/main.py:22 | Every string that parses is the rendering of the date it parses to. |
| `Calendar.IsoDateOrder` | src/gym_manager/tools/pg_tool.py:55 | Rendered dates compare as strings exactly as the dates compare in time. |
| `GymCrew.DumpConforms` | src/gym_manager/crew.py:73-108 | Every instance of each of the six models dumps to exactly its declared fields, in order, with their declared types. |
| `GymCrew.ValidateDump` | src/gym_manager/crew.py:73-108 | Validating a model's dump gives back the instance. |
| `GymCrew.DumpValidated` | src/gym_manager/crew.py:73-108 | Whatever validation accepts is an instance of the requested model whose dump is the record itself. |
| `GymCrew.FormatBraceFree` | src/gym_manager/crew.py:230 | `str.format` leaves a template without braces unchanged. |
| `GymCrew.FormatField` | src/gym_manager/crew.py:245 | A `{name}` field after brace-free text is replaced by the value. |
| `GymCrew.CrewOrder` | src/gym_manager/crew.py:277-294 | A built crew runs send_daily_survey, summarize_responses, review_pain, generate_workout_plan, nutrition_plan and chef_meal_plan, in that order, each with its output model. It lists survey_agent, summarizer, trainer, doctor, nutritionist and chef. |
| `GymCrew.MissingGoalFails` | src/gym_manager/crew.py:225-232 | Without a goal, the workout and nutrition tasks raise "Goal environment variable not set." before reading their configuration, and no crew is built. |
| `GymCrew.MissingRecipientFails` | src/gym_manager/crew.py:256-263 | Without a recipient no crew is built. When the survey entry exists, the error is "RECIPIENT_EMAIL environment variable not set.". |
| `GymCrew.SurveyConfigReadFirst` | src/gym_manager/crew.py:256-258 | A missing `send_daily_survey_task` entry is a KeyError raised before any environment check. |
| `GymCrew.SurveySubstitution` | src/gym_manager/crew.py:256-273 | The survey task carries the Gmail tool. Its configuration keeps every key and changes only `description`, formatted with the recipient. |
| `GymCrew.OnlySurveyHasTools` | src/gym_manager/crew.py:287-294 | In a built crew only the first task, the survey, has a tool of its own. |
| `GymCrew.GoalSubstitution` | src/gym_manager/crew.py:240-247 | A built goal task's configuration keeps every key and changes only `description`, which is the template formatted with the goal. |
| `GymCrew.GoalPlaceholderReplaced` | src/gym_manager/crew.py:225-232 | A goal task whose description is `pre{goal}post` is built with description `pre<goal>post`; every other setting of its entry is kept. |
| `GymCrew.RecipientPlaceholderReplaced` | src/gym_manager/crew.py:256-273 | A survey description `pre{recipient_email}post` becomes `pre<recipient>post`; every other setting of the entry is kept, and the task gets the Gmail tool. |
| `GymCrew.CrewBuildsIff` | src/gym_manager/crew.py:215-294 | The crew is built exactly when `goal` and `RECIPIENT_EMAIL` are set, all six entries exist, and the survey, workout and nutrition entries have a description that formats with their keyword. The other three descriptions are never formatted. |
| `GymCrew.CrewBuildsWithPlaceholders` | src/gym_manager/crew.py:225-294 | With `{recipient_email}` and `{goal}` in the three formatted descriptions, the crew builds with those placeholders filled, and the other three entries are used as they are, braces and all. |
| `GymCrew.UserGoalTaskOutsideCrew` | src/gym_manager/crew.py:215-218 | `user_goal_task` reads `check_gym_plans_task`, validates to `gym_knowledge`, and is not one of the crew's tasks. |
| `GymCrew.BodyArgumentIgnored` | src/gym_manager/crew.py:110-122 | The answer depends only on the tool's reply to one request: the survey HTML with `is_html` set, under the given subject or "Daily Gym Feedback". The `body` argument never matters. |
| `GymCrew.SendResultMapping` | src/gym_manager/crew.py:110-130 | The answer is "Email sent successfully!" exactly when the tool exists, did not raise and reported `successful`. A missing tool gives "Error: Gmail tool not initialized.". Otherwise the answer is "Error sending email: " followed by the exception or the reply's error, which defaults to "Unknown error". |
| `GymMain.PathJoin` | src/gym_manager/main.py:33 | The joined path starts with the directory and ends with the file name, with exactly one `/` added unless the directory is empty or already ends with one. An absolute name replaces the directory. |
| `GymMain.AssignOutputFiles` | src/gym_manager/main.py:20-33 | Every task whose id is a file-map key gets its dated file inside the output directory. Every other task keeps its output file. |
| `GymMain.RunFullPipeline` | src/gym_manager/main.py:40-44 | The files kickoff finds are the ones just assigned, so each mapped task runs with today's file. |
| `GymMain.FileMapCoversPipelineTasks` | src/gym_manager/main.py:23-29 | The file map's keys are exactly the crew's tasks other than the survey. |
| `GymMain.FileNameInjective` | src/gym_manager/main.py:24-28 | A file name determines both its prefix and its date. |
| `GymMain.FileMapInjective` | src/gym_manager/main.py:22-29 | No two tasks, on the same day or on different days, share an output file. |
| `GymMain.RunCommandAccepted` | src/gym_manager/main.py:56 | "run" in any letter case, surrounded by any whitespace, starts a run. |
| `GymMain.RunCommandOnly` | src/gym_manager/main.py:56 | Only such input starts a run. |

## Left out

- CrewAI itself is not modelled. That covers agents, LLM calls, the sequential process, memory and knowledge sources, and the `@CrewBase`, `@agent`, `@task` and `@crew` decorators. The agent configuration lookups (`agents_config[...]`) and the agents' tool lists are not modelled either; agents are represented by name only.
- Task building follows the explicit list in `crew()`. If the library's decorators build every `@task` method earlier, in declaration order, the first error raised could differ. `user_goal_task` would then also be built, so a missing `check_gym_plans_task` entry would also stop the crew. The model does not capture either effect.
- `GymMain.AssignOutputFiles`: `task.id` is an input string. In CrewAI a task's `id` is a generated UUID, and then no task matches the file map and nothing is assigned. The model shows what the loop does for any ids.
- `os.makedirs(OUTPUT_DIR)`, file writing, `print`, `input()`, `time.sleep` and the `schedule` loop are I/O and are left out, and so is `run_daily_survey`, which only calls kickoff.
- `GymCrew.FormatField`: `str.format` is modelled for plain `{name}` fields, `{{` and `}}`. The model differs from Python in these cases:
  - conversions and format specs such as `{goal!r}` and `{goal:>10}` are treated as unknown fields, so the model reports an error where Python formats them;
  - `{goal[0]}` and `{goal.attr}` are also unknown fields in the model, where Python indexes the value or looks up the attribute;
  - `{}` and `{0}` give a missing-key error in the model, where Python raises IndexError. Both are errors, but of a different kind.
- `GymCrew.DumpValidated`: validation is the strict form: exact fields, in order, with exact types. Pydantic's coercions, such as "true" to `bool` or a string to `DateTime`, and its tolerance of missing optional or extra fields are not modelled.
- `Text.Lower` is ASCII `str.lower`. For the `run` test that makes no difference, because no other character lowercases to `r`, `u` or `n`.
- `Calendar.IsoDate` covers years 1000 to 9999. `strftime` of an earlier year is not modelled.
- `PgTool.SummaryTable.InsertSummary`: the table definition is not part of this model. The model takes `date` as the table's key and NOT NULL, so a summary without a date is rejected. Postgres connection errors, transactions and type coercion of the values are not modelled.
- `PgTool.SummaryTable.FetchLatestSummary`: dates are compared as strings. `Calendar.IsoDateOrder` shows this agrees with a DATE column's order for YYYY-MM-DD keys.
- `SheetsFetch.Run`: service credentials, building the Sheets client, and the `header_to_index` dictionary are left out. The dictionary is computed but never used.
- `GymCrew.GmailSendEmail`: the survey HTML from `get_survey_email()` is a parameter. It is a constant string and not part of this model. Composio login and tool lookup are reduced to an optional send function.
- The `auth.py` OAuth script and the repository's tests are not part of this model.
