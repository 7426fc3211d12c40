/** `youtube_search_tool(query)`: ask the Serper search API for YouTube pages
    and return up to three result links, one per line. The HTTP POST (with
    `resp.json()`) is a parameter. */
module YouTubeSearch {
  import opened Wrappers
  import opened Text

  /** One entry of the reply's `organic` list; only its `link` is read. */
  datatype OrganicItem = OrganicItem(link: Option<string>)

  /** The decoded reply; only its `organic` list is read (`None` = key absent). */
  datatype SearchReply = SearchReply(organic: Option<seq<OrganicItem>>)

  /** The POST the tool makes: URL, `X-API-KEY` header and the `q` payload. */
  datatype SearchRequest = SearchRequest(url: string, apiKey: string, q: string)

  /** `requests.post(...).json()`: the decoded reply, or the message of what it raised. */
  type SerperApi = SearchRequest -> Result<SearchReply, string>

  const SearchUrl: string := "https://google.serper.dev/search"
  const NoKeyMessage: string := "Error: SERPER_API_KEY not set in environment."
  const NoResultsMessage: string := "No YouTube results found."
  const ErrorPrefix: string := "Error during YouTube search: "
  /** `str(KeyError("link"))`. */
  const LinkKeyError: string := "'link'"
  const MaxLinks: nat := 3

  /** The search payload restricts the query to youtube.com. */
  function SiteQuery(query: string): string {
    "site:youtube.com " + query
  }

  /** `items[:3]`. */
  function Top(items: seq<OrganicItem>): (top: seq<OrganicItem>)
    ensures |top| <= MaxLinks && |top| <= |items| && top == items[..|top|]
    ensures |top| == if |items| < MaxLinks then |items| else MaxLinks
  {
    if |items| <= MaxLinks then items else items[..MaxLinks]
  }

  /** `[item["link"] for item in items]`: the links in order, or `KeyError`
      when an item has none. */
  function Links(items: seq<OrganicItem>): (r: Result<seq<string>, string>)
    ensures r.Success? <==> forall i :: 0 <= i < |items| ==> items[i].link.Some?
    ensures r.Success? ==>
              |r.value| == |items| && forall i :: 0 <= i < |items| ==> r.value[i] == items[i].link.value
    ensures r.Failure? ==> r.error == LinkKeyError
  {
    if items == [] then Success([])
    else if items[0].link.None? then Failure(LinkKeyError)
    else
      match Links(items[1..])
      case Failure(e) => Failure(e)
      case Success(rest) => Success([items[0].link.value] + rest)
  }

  function Search(apiKey: Option<string>, query: string, post: SerperApi): string {
    if !IsSet(apiKey) then NoKeyMessage
    else
      match post(SearchRequest(SearchUrl, apiKey.value, SiteQuery(query)))
      case Failure(e) => ErrorPrefix + e
      case Success(reply) =>
        match Links(Top(reply.organic.GetOr([])))
        case Failure(e) => ErrorPrefix + e
        case Success(links) => if links == [] then NoResultsMessage else Join("\n", links)
  }

  // ---------------------------------------------------------------------
  // Properties.

  /** Without an API key the tool answers with a fixed message, whatever the
      search service would have done: no request is made. */
  lemma NoKeyNoRequest(apiKey: Option<string>, query: string, p1: SerperApi, p2: SerperApi)
    requires !IsSet(apiKey)
    ensures Search(apiKey, query, p1) == NoKeyMessage == Search(apiKey, query, p2)
  {
  }

  /** The only request that matters is the POST of `"site:youtube.com " + query`
      to the search URL with the key. */
  lemma OnlySiteQuerySent(apiKey: Option<string>, query: string, p1: SerperApi, p2: SerperApi)
    requires IsSet(apiKey)
    requires p1(SearchRequest(SearchUrl, apiKey.value, SiteQuery(query)))
             == p2(SearchRequest(SearchUrl, apiKey.value, SiteQuery(query)))
    ensures Search(apiKey, query, p1) == Search(apiKey, query, p2)
  {
  }

  /** A missing or empty `organic` list gives the fixed "no results" message. */
  lemma NoResults(apiKey: Option<string>, query: string, post: SerperApi)
    requires IsSet(apiKey)
    requires post(SearchRequest(SearchUrl, apiKey.value, SiteQuery(query))) == Success(SearchReply(None))
             || post(SearchRequest(SearchUrl, apiKey.value, SiteQuery(query))) == Success(SearchReply(Some([])))
    ensures Search(apiKey, query, post) == NoResultsMessage
  {
  }

  /** An item without `"link"` among the first three makes the tool report the
      `KeyError`; items after the third are never looked at. */
  lemma MissingLinkReported(apiKey: Option<string>, query: string, post: SerperApi, k: nat)
    requires IsSet(apiKey)
    requires var call := post(SearchRequest(SearchUrl, apiKey.value, SiteQuery(query)));
             call.Success? && call.value.organic.Some?
             && k < |call.value.organic.value| && k < MaxLinks
             && call.value.organic.value[k].link.None?
    ensures Search(apiKey, query, post) == ErrorPrefix + LinkKeyError
  {
    var items := post(SearchRequest(SearchUrl, apiKey.value, SiteQuery(query))).value.organic.value;
    assert Top(items)[k] == items[k];
  }

  /** With at least one result, the answer is the links of the first three
      results, in their original order, one per line: splitting it on newlines
      gives them back, provided no link itself holds a newline. */
  lemma TopLinksOnePerLine(apiKey: Option<string>, query: string, post: SerperApi)
    requires IsSet(apiKey)
    requires var call := post(SearchRequest(SearchUrl, apiKey.value, SiteQuery(query)));
             && call.Success? && call.value.organic.Some? && call.value.organic.value != []
             && forall i :: 0 <= i < |call.value.organic.value| && i < MaxLinks ==>
                  call.value.organic.value[i].link.Some?
                  && '\n' !in call.value.organic.value[i].link.value
    ensures var items := post(SearchRequest(SearchUrl, apiKey.value, SiteQuery(query))).value.organic.value;
            var lines := Split(Search(apiKey, query, post), '\n');
            && |lines| == (if |items| < MaxLinks then |items| else MaxLinks)
            && forall i :: 0 <= i < |lines| ==> lines[i] == items[i].link.value
  {
    var items := post(SearchRequest(SearchUrl, apiKey.value, SiteQuery(query))).value.organic.value;
    var top := Top(items);
    assert forall i :: 0 <= i < |top| ==> top[i] == items[i];
    var links := Links(top).value;
    SplitJoin(links, '\n');
  }
}
