/** `FormResponseFetchTool._run`: call the sheets tool and normalise its reply
    into `{"status": "success", "data": ...}` or `{"status": "error", "error": ...}`. */
module FormResponseTool {
  import opened Wrappers
  import SheetsFetch

  /** The wrapped tool's reply as a dictionary, key by key (`None` = key absent). */
  datatype ReplyDict = ReplyDict(
    status: Option<string>,
    response: Option<SheetsFetch.FormResponse>,
    error: Option<string>)

  /** The dictionary `_run` returns. */
  datatype ToolResult = Fetched(data: SheetsFetch.FormResponse) | FetchError(error: string) {

    /** The `"status"` entry: the only two values it ever takes. */
    function Status(): (s: string)
      ensures s == "success" || s == "error"
      ensures s == "success" <==> Fetched?
    {
      if Fetched? then "success" else "error"
    }
  }

  const UnknownErrorMessage: string := "Unknown error fetching form response"
  const ExceptionPrefix: string := "Error while fetching form response: "
  /** `str(KeyError("response"))`. */
  const ResponseKeyError: string := "'response'"

  /** The dictionary `GoogleSheetsFetchTool._run` returns for each of its replies. */
  function AsDict(reply: SheetsFetch.SheetReply): ReplyDict {
    match reply
    case Found(r) => ReplyDict(Some("success"), Some(r), None)
    case SheetError(e) => ReplyDict(Some("error"), None, Some(e))
  }

  /** The normalisation, given what the wrapped call returned or raised. A
      success status without a `"response"` key raises `KeyError`, which is
      caught like any other exception. */
  function Normalise(call: Result<ReplyDict, string>): ToolResult {
    match call
    case Failure(e) => FetchError(ExceptionPrefix + e)
    case Success(d) =>
      if d.status == Some("success") then
        if d.response.Some? then Fetched(d.response.value)
        else FetchError(ExceptionPrefix + ResponseKeyError)
      else FetchError(d.error.GetOr(UnknownErrorMessage))
  }

  /** `FormResponseFetchTool._run(*args, **kwargs)` over the sheets tool of the
      given sheet and Sheets API. The arguments are accepted and never read. */
  function Run(args: seq<string>, sheetId: string, api: SheetsFetch.SheetsApi): ToolResult {
    Normalise(Success(AsDict(SheetsFetch.Run(sheetId, SheetsFetch.ResponseRange, api))))
  }

  // ---------------------------------------------------------------------
  // Properties.

  /** A success reply is passed through with its response unchanged, and an
      error reply keeps its message. */
  lemma PassesSheetReplyThrough(reply: SheetsFetch.SheetReply)
    ensures Normalise(Success(AsDict(reply))) ==
              match reply
              case Found(r) => Fetched(r)
              case SheetError(e) => FetchError(e)
  {
  }

  /** The result is a success exactly when the wrapped reply says `"success"`
      and carries a response, and then its data is that response. */
  lemma SuccessIff(d: ReplyDict)
    ensures Normalise(Success(d)).Fetched? <==> d.status == Some("success") && d.response.Some?
    ensures Normalise(Success(d)).Fetched? ==> Normalise(Success(d)).data == d.response.value
  {
  }

  /** A non-success reply keeps its error message, or gets the default one
      when it has none. */
  lemma ErrorMessageOrDefault(d: ReplyDict)
    requires d.status != Some("success")
    ensures Normalise(Success(d)) == FetchError(if d.error.Some? then d.error.value else UnknownErrorMessage)
  {
  }

  /** Whatever is raised is caught and reported under the fixed prefix. */
  lemma ExceptionsCaught(e: string)
    ensures Normalise(Failure(e)) == FetchError(ExceptionPrefix + e)
  {
  }

  /** The call's arguments never change the result. */
  lemma ArgumentsIgnored(a: seq<string>, b: seq<string>, sheetId: string, api: SheetsFetch.SheetsApi)
    ensures Run(a, sheetId, api) == Run(b, sheetId, api)
  {
  }

  /** End to end: the tool succeeds exactly when the sheet has a non-empty
      latest row below the header, and its data is that row padded with the
      column defaults. */
  lemma FetchedIff(args: seq<string>, sheetId: string, api: SheetsFetch.SheetsApi)
    ensures var call := api(sheetId, SheetsFetch.ResponseRange);
            Run(args, sheetId, api).Fetched? <==>
              && call.Success? && call.value.Some?
              && |call.value.value| >= 2
              && call.value.value[|call.value.value| - 1] != []
    ensures var call := api(sheetId, SheetsFetch.ResponseRange);
            Run(args, sheetId, api).Fetched? ==>
              SheetsFetch.ToRow(Run(args, sheetId, api).data)
                == SheetsFetch.Padded(call.value.value[|call.value.value| - 1])
  {
    var call := api(sheetId, SheetsFetch.ResponseRange);
    PassesSheetReplyThrough(SheetsFetch.Run(sheetId, SheetsFetch.ResponseRange, api));
    if call.Success? {
      SheetsFetch.FoundIsLatestRow(call.value);
    }
  }
}
