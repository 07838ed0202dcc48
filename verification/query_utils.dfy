/** QueryUtils: fetch the feed, join the body lines, extract the articles.
    The static field mResponseCode is threaded explicitly as a QueryState;
    the network, URL syntax and the JSON text parser are given as Services. */
module QueryUtils {
  import opened Wrappers
  import opened TextUtils
  import opened JsonValues
  import opened Articles
  import opened LineReader

  const HttpOk: int := 200

  /** The static mResponseCode. Java initialises it to 0 and only a status
      actually read from a connection ever overwrites it. */
  datatype QueryState = QueryState(responseCode: int)

  const InitialState: QueryState := QueryState(0)

  /** getHttpRequestResponseCode */
  function GetHttpRequestResponseCode(state: QueryState): (code: int)
    ensures state == InitialState ==> code == 0
    ensures QueryState(code) == state
  {
    state.responseCode
  }

  // ---------------------------------------------------------------------------
  // extractArticles

  /** An element of `results` that the loop body turns into an article:
      an object with string webTitle and webUrl and an object `fields`
      holding a string thumbnail. */
  predicate IsArticleJson(element: Json)
  {
    && element.JObject?
    && "webTitle" in element.members && element.members["webTitle"].JString?
    && "webUrl" in element.members && element.members["webUrl"].JString?
    && "fields" in element.members && element.members["fields"].JObject?
    && "thumbnail" in element.members["fields"].members
    && element.members["fields"].members["thumbnail"].JString?
  }

  /** The article an element satisfying IsArticleJson describes. */
  function ArticleOf(element: Json): NewsArticle
    requires IsArticleJson(element)
  {
    NewsArticle(element.members["webTitle"].text,
                element.members["webUrl"].text,
                element.members["fields"].members["thumbnail"].text)
  }

  /** One pass of the loop body: getJSONObject(i), getString("webTitle"),
      getString("webUrl"), getJSONObject("fields"), getString("thumbnail");
      None is a JSONException thrown by any of them. */
  function ReadArticle(element: Json): (r: Option<NewsArticle>)
    ensures r.Some? <==> IsArticleJson(element)
    ensures r.Some? ==> r.value == ArticleOf(element)
  {
    if !element.JObject? then None
    else
      var article := element.members;
      var webTitle := GetString(article, "webTitle");
      if webTitle.None? then None
      else
        var webUrl := GetString(article, "webUrl");
        if webUrl.None? then None
        else
          var otherFields := GetObject(article, "fields");
          if otherFields.None? then None
          else
            var thumbnailUrl := GetString(otherFields.value, "thumbnail");
            if thumbnailUrl.None? then None
            else Some(NewsArticle(webTitle.value, webUrl.value, thumbnailUrl.value))
  }

  /** The for loop over `results` inside the single try: articles are added
      in order until the first element whose body throws; what was added
      before the exception is kept. */
  function CollectArticles(results: seq<Json>): (articles: seq<NewsArticle>)
    ensures |articles| <= |results|
    ensures forall i :: 0 <= i < |articles| ==>
              IsArticleJson(results[i]) && articles[i] == ArticleOf(results[i])
    ensures |articles| < |results| ==> !IsArticleJson(results[|articles|])
  {
    if |results| == 0 then []
    else
      match ReadArticle(results[0])
      case None => []
      case Some(article) => [article] + CollectArticles(results[1..])
  }

  /** new JSONObject(text), then getJSONObject("response"), then
      getJSONArray("results"); None is the JSONException any of them raises. */
  function ResultsOf(root: Option<Json>): Option<seq<Json>>
  {
    if root.None? || !root.value.JObject? then None
    else
      var response := GetObject(root.value.members, "response");
      if response.None? then None else GetArray(response.value, "results")
  }

  /** extractArticles: null for a null or zero-length string; otherwise a list,
      empty when the document has the wrong shape, else the collected prefix. */
  function ExtractArticles(json: Option<string>, parse: string -> Option<Json>): (r: Option<seq<NewsArticle>>)
    ensures r.None? <==> IsEmpty(json)
    ensures r.Some? && ResultsOf(parse(json.value)).None? ==> r.value == []
    ensures r.Some? && ResultsOf(parse(json.value)).Some? ==>
              |r.value| <= |ResultsOf(parse(json.value)).value|
  {
    if IsEmpty(json) then None
    else
      match ResultsOf(parse(json.value))
      case None => Some([])
      case Some(results) => Some(CollectArticles(results))
  }

  /** When every element of `results` is well formed the list holds exactly
      one article per element, in the order of the document. */
  lemma ExtractAllArticles(json: string, parse: string -> Option<Json>, results: seq<Json>)
    requires |json| > 0
    requires ResultsOf(parse(json)) == Some(results)
    requires forall i :: 0 <= i < |results| ==> IsArticleJson(results[i])
    ensures ExtractArticles(Some(json), parse).Some?
    ensures |ExtractArticles(Some(json), parse).value| == |results|
    ensures forall i :: 0 <= i < |results| ==>
              ExtractArticles(Some(json), parse).value[i] == ArticleOf(results[i])
  {
  }

  /** Partial-result rule: if element k is the first malformed one, the list
      is exactly the articles of elements 0 .. k-1. */
  lemma ExtractUpToFirstMalformed(json: string, parse: string -> Option<Json>, results: seq<Json>, k: nat)
    requires |json| > 0
    requires ResultsOf(parse(json)) == Some(results)
    requires k < |results| && !IsArticleJson(results[k])
    requires forall i :: 0 <= i < k ==> IsArticleJson(results[i])
    ensures ExtractArticles(Some(json), parse) == Some(seq(k, i requires 0 <= i < k => ArticleOf(results[i])))
  {
    var articles := CollectArticles(results);
    assert articles == seq(k, i requires 0 <= i < k => ArticleOf(results[i]));
  }

  // ---------------------------------------------------------------------------
  // createURL, readFromStream, makeHttpRequest, fetchNewsData

  datatype Url = Url(spec: string)

  /** What the body of a 200 response does when the app reads it. */
  datatype BodyTransfer =
    | StreamUnavailable       // getInputStream throws
    | Stream(chars: seq<char>, readFails: bool, closeFails: bool)
                              // decoded characters; whether a readLine throws
                              // part way; whether close() throws

  /** What one connection attempt does: throw before a status is known
      (openConnection, connect, getResponseCode), or answer with a status. */
  datatype Transport =
    | ConnectFails
    | Answered(status: int, body: BodyTransfer)

  /** The collaborators the source calls but that are not modelled. */
  datatype Services = Services(
    urlIsWellFormed: string -> bool,       // new URL(spec) does not throw MalformedURLException
    connect: Url -> Transport,             // HttpURLConnection GET with its timeouts
    parseJson: string -> Option<Json>)     // new JSONObject(text) before the object check

  /** createURL: null when the string is not a well-formed URL. */
  function CreateUrl(url: string, urlIsWellFormed: string -> bool): (r: Option<Url>)
    ensures r.Some? <==> urlIsWellFormed(url)
    ensures r.Some? ==> r.value.spec == url
  {
    if urlIsWellFormed(url) then Some(Url(url)) else None
  }

  /** readFromStream: every line readLine returns, appended in order. The
      result is the input with its line terminators removed; a null stream,
      or one with no lines, gives the empty string. */
  function ReadFromStream(inputStream: Option<seq<char>>): (output: string)
    ensures inputStream.None? ==> output == ""
    ensures inputStream.Some? ==> output == RemoveTerminators(inputStream.value)
    ensures TerminatorFree(output)
  {
    if inputStream.None? then ""
    else
      ReadLinesKeepText(inputStream.value);
      Concat(ReadLines(inputStream.value))
  }

  /** Terminator-free lines sent one per "\n" come back joined. */
  lemma ReadFromStreamJoinsLines(lines: seq<string>)
    requires forall i :: 0 <= i < |lines| ==> TerminatorFree(lines[i])
    ensures ReadFromStream(Some(Render(lines))) == Concat(lines)
  {
    ReadLinesOfRender(lines);
  }

  /** How makeHttpRequest ends: with a body, or with the IOException that
      close() raises in the finally block escaping to the caller. */
  datatype HttpOutcome = Returned(body: string) | Threw

  datatype HttpRequest = HttpRequest(state: QueryState, outcome: HttpOutcome)

  /** makeHttpRequest. The status is recorded as soon as it is read, before
      the body is touched; exceptions inside the try are caught and leave
      the body "". */
  function MakeHttpRequest(state: QueryState, url: Option<Url>, connect: Url -> Transport): (r: HttpRequest)
    ensures url.None? ==> r == HttpRequest(state, Returned(""))
    ensures url.Some? && connect(url.value).ConnectFails? ==> r == HttpRequest(state, Returned(""))
    ensures url.Some? && connect(url.value).Answered? ==>
              r.state == QueryState(connect(url.value).status)
    ensures url.Some? && connect(url.value).Answered? && connect(url.value).status != HttpOk ==>
              r.outcome == Returned("")
    ensures r.outcome.Threw? <==>
              url.Some? && connect(url.value).Answered? && connect(url.value).status == HttpOk &&
              connect(url.value).body.Stream? && connect(url.value).body.closeFails
    ensures url.Some? && connect(url.value).Answered? && connect(url.value).status == HttpOk &&
            connect(url.value).body.Stream? && !connect(url.value).body.readFails ==>
              r.outcome.Threw? || r.outcome == Returned(RemoveTerminators(connect(url.value).body.chars))
    ensures url.Some? && connect(url.value).Answered? && connect(url.value).status == HttpOk &&
            (connect(url.value).body.StreamUnavailable? ||
             (connect(url.value).body.readFails && !connect(url.value).body.closeFails)) ==>
              r.outcome == Returned("")
    ensures r.outcome.Returned? && r.outcome.body != "" ==>
              url.Some? && r.state.responseCode == HttpOk
    ensures r.outcome.Returned? ==> TerminatorFree(r.outcome.body)
  {
    if url.None? then HttpRequest(state, Returned(""))
    else
      match connect(url.value)
      case ConnectFails => HttpRequest(state, Returned(""))
      case Answered(responseCode, body) =>
        var recorded := QueryState(responseCode);
        if responseCode != HttpOk then HttpRequest(recorded, Returned(""))
        else
          match body
          case StreamUnavailable => HttpRequest(recorded, Returned(""))
          case Stream(chars, readFails, closeFails) =>
            if closeFails then HttpRequest(recorded, Threw)
            else if readFails then HttpRequest(recorded, Returned(""))
            else
              HttpRequest(recorded, Returned(ReadFromStream(Some(chars))))
  }

  /** What fetchNewsData hands back, with the state it leaves behind. */
  datatype Fetched = Fetched(state: QueryState, articles: Option<seq<NewsArticle>>)

  /** fetchNewsData: createURL, makeHttpRequest (an escaping IOException is
      caught and leaves the body ""), then extractArticles. */
  function FetchNewsData(state: QueryState, url: string, services: Services): (r: Fetched)
    ensures !services.urlIsWellFormed(url) ==> r == Fetched(state, None)
    ensures services.urlIsWellFormed(url) && services.connect(Url(url)).ConnectFails? ==>
              r == Fetched(state, None)
    ensures services.urlIsWellFormed(url) && services.connect(Url(url)).Answered? ==>
              r.state == QueryState(services.connect(Url(url)).status)
    ensures r.articles.Some? <==>
              && services.urlIsWellFormed(url)
              && services.connect(Url(url)).Answered?
              && services.connect(Url(url)).status == HttpOk
              && services.connect(Url(url)).body.Stream?
              && !services.connect(Url(url)).body.readFails
              && !services.connect(Url(url)).body.closeFails
              && |RemoveTerminators(services.connect(Url(url)).body.chars)| > 0
    ensures r.articles.Some? ==>
              && r.state.responseCode == HttpOk
              && r.articles == ExtractArticles(Some(RemoveTerminators(services.connect(Url(url)).body.chars)), services.parseJson)
  {
    var queryUrl := CreateUrl(url, services.urlIsWellFormed);
    var request := MakeHttpRequest(state, queryUrl, services.connect);
    var jsonResponse := if request.outcome.Returned? then request.outcome.body else "";
    Fetched(request.state, ExtractArticles(Some(jsonResponse), services.parseJson))
  }
}
