/** NewsActivity as pure transitions of what the screen shows: the text of
    the empty view, the adapter's list and the progress indicator. */
module NewsScreen {
  import opened Wrappers
  import opened TextUtils
  import opened JsonValues
  import opened Articles
  import opened LineReader
  import opened QueryUtils
  import opened ArticleLoader

  /** The query the app sends: football keyword and section, newest first. */
  const TheGuardianRequestUrl: string :=
    "https://content.guardianapis.com/search?q=football&format=json&section=football&show-fields=thumbnail&order-by=newest&api-key=test"

  /** Text of the empty view: the layout's own, or one of the three messages. */
  datatype Message = LayoutText | NoInternet | BadResponseCode | NoNewsFound

  datatype Screen = Screen(message: Message, list: seq<NewsArticle>, indicatorVisible: bool)

  /** ArrayAdapter.clear */
  function Clear(list: seq<NewsArticle>): seq<NewsArticle>
  {
    []
  }

  /** ArrayAdapter.addAll: appends after what is already there. */
  function AddAll(list: seq<NewsArticle>, items: seq<NewsArticle>): seq<NewsArticle>
  {
    list + items
  }

  datatype Created = Created(screen: Screen, loaderStarted: bool)

  /** onCreate: a fresh, empty adapter; with a connection the loader is
      initialised, without one the indicator is hidden and no_internet shown. */
  function OnCreate(connected: bool): (r: Created)
    ensures r.loaderStarted <==> connected
    ensures r.screen.list == []
    ensures !connected ==> r.screen.message == NoInternet && !r.screen.indicatorVisible
    ensures connected ==> r.screen.message == LayoutText && r.screen.indicatorVisible
  {
    var shown := Screen(LayoutText, [], true);
    if connected then Created(shown, true)
    else Created(shown.(indicatorVisible := false, message := NoInternet), false)
  }

  /** onCreateLoader: a loader for the fixed query URL. */
  function OnCreateLoader(): (loader: NewsArticleLoader)
    ensures loader.url == Some(TheGuardianRequestUrl) && !IsEmpty(loader.url)
  {
    NewLoader(Some(TheGuardianRequestUrl))
  }

  /** onLoadFinished: hide the indicator, clear the adapter, then check the
      recorded status first and the list second. */
  function OnLoadFinished(screen: Screen, responseCode: int, articles: Option<seq<NewsArticle>>): (r: Screen)
    ensures !r.indicatorVisible
    ensures responseCode != HttpOk ==> r.message == BadResponseCode && r.list == []
    ensures responseCode == HttpOk && articles.Some? && |articles.value| > 0 ==>
              r.list == articles.value && r.message == screen.message
    ensures responseCode == HttpOk && (articles.None? || |articles.value| == 0) ==>
              r.message == NoNewsFound && r.list == []
  {
    var cleared := screen.(indicatorVisible := false, list := Clear(screen.list));
    if responseCode != HttpOk then cleared.(message := BadResponseCode)
    else if articles.Some? && |articles.value| > 0 then cleared.(list := AddAll(cleared.list, articles.value))
    else cleared.(message := NoNewsFound)
  }

  /** onLoaderReset: appends an empty list, which leaves the screen as it was. */
  function OnLoaderReset(screen: Screen): (r: Screen)
    ensures r == screen
  {
    screen.(list := AddAll(screen.list, []))
  }

  /** onLoaderReset as its comment describes it: the adapter lets go of the
      loader's data. */
  function OnLoaderResetClearing(screen: Screen): (r: Screen)
    ensures r.list == []
    ensures r.message == screen.message && r.indicatorVisible == screen.indicatorVisible
  {
    screen.(list := Clear(screen.list))
  }

  /** After a delivery of one article, the reset as written still shows it;
      the clearing reset does not. */
  lemma ResetKeepsDeliveredArticles(article: NewsArticle)
    ensures var delivered := OnLoadFinished(OnCreate(true).screen, HttpOk, Some([article]));
      && OnLoaderReset(delivered).list == [article]
      && OnLoaderResetClearing(delivered).list == []
  {
  }

  /** A delivery replaces the list: what the screen showed before has no
      influence on the list afterwards, and everything in it was delivered. */
  lemma DeliveryReplacesList(before: Screen, other: Screen, responseCode: int, articles: Option<seq<NewsArticle>>)
    ensures OnLoadFinished(before, responseCode, articles).list == OnLoadFinished(other, responseCode, articles).list
    ensures forall a :: a in OnLoadFinished(before, responseCode, articles).list ==>
              articles.Some? && a in articles.value
  {
  }

  /** The screen and the recorded status after one run of the app. */
  datatype Session = Session(screen: Screen, state: QueryState)

  /** onCreate, and with a connection the loader's start, its background load
      and the delivery of its result. Connectivity is decided first, the
      status second and the list third, so exactly one outcome holds, and the
      indicator ends hidden. */
  function Launch(connected: bool, state: QueryState, services: Services): (r: Session)
    ensures !r.screen.indicatorVisible
    ensures r.screen.message == NoInternet <==> !connected
    ensures !connected ==> r.state == state && r.screen.list == []
    ensures connected ==> r.state == LoadInBackground(OnCreateLoader(), state, services).state
    ensures connected && r.state.responseCode != HttpOk ==> r.screen.list == []
    ensures connected && r.state.responseCode == HttpOk ==>
              var delivered := LoadInBackground(OnCreateLoader(), state, services).articles;
              r.screen.list == (if delivered.Some? then delivered.value else [])
    ensures r.screen.message == BadResponseCode <==> connected && r.state.responseCode != HttpOk
    ensures r.screen.message == NoNewsFound <==>
              connected && r.state.responseCode == HttpOk && r.screen.list == []
    ensures r.screen.message == LayoutText <==>
              connected && r.state.responseCode == HttpOk && r.screen.list != []
  {
    var created := OnCreate(connected);
    if !created.loaderStarted then Session(created.screen, state)
    else
      var loader := OnStartLoading(OnCreateLoader());
      // forceLoad() is what runs loadInBackground; without it nothing is delivered
      if !loader.loadForced then Session(created.screen, state)
      else
        var fetched := LoadInBackground(loader, state, services);
        Session(OnLoadFinished(created.screen, GetHttpRequestResponseCode(fetched.state), fetched.articles),
                fetched.state)
  }

  /** A 200 answer whose body lists n > 0 well-formed results shows exactly
      those n articles, in order. */
  lemma LaunchShowsEveryArticle(state: QueryState, services: Services, chars: seq<char>, results: seq<Json>)
    requires services.urlIsWellFormed(TheGuardianRequestUrl)
    requires services.connect(Url(TheGuardianRequestUrl)) == Answered(HttpOk, Stream(chars, false, false))
    requires |RemoveTerminators(chars)| > 0
    requires ResultsOf(services.parseJson(RemoveTerminators(chars))) == Some(results)
    requires |results| > 0 && forall i :: 0 <= i < |results| ==> IsArticleJson(results[i])
    ensures var r := Launch(true, state, services);
      && r.state.responseCode == HttpOk
      && |r.screen.list| == |results|
      && (forall i :: 0 <= i < |results| ==> r.screen.list[i] == ArticleOf(results[i]))
  {
    ExtractAllArticles(RemoveTerminators(chars), services.parseJson, results);
  }

  /** A 200 answer with an empty `results` array shows no_news_found, not bad_response_code. */
  lemma LaunchWithNoResults(state: QueryState, services: Services, chars: seq<char>)
    requires services.urlIsWellFormed(TheGuardianRequestUrl)
    requires services.connect(Url(TheGuardianRequestUrl)) == Answered(HttpOk, Stream(chars, false, false))
    requires |RemoveTerminators(chars)| > 0
    requires ResultsOf(services.parseJson(RemoveTerminators(chars))) == Some([])
    ensures Launch(true, state, services).screen.message == NoNewsFound
    ensures Launch(true, state, services).screen.list == []
  {
  }

  /** Any other status shows bad_response_code and no list, whatever the body. */
  lemma LaunchWithBadStatus(state: QueryState, services: Services, status: int, body: BodyTransfer)
    requires services.urlIsWellFormed(TheGuardianRequestUrl)
    requires services.connect(Url(TheGuardianRequestUrl)) == Answered(status, body)
    requires status != HttpOk
    ensures Launch(true, state, services) ==
              Session(Screen(BadResponseCode, [], false), QueryState(status))
  {
  }

  /** The empty-URL branch writes no status, so its delivery is judged by the
      status left from before: bad_response_code on a first run, since the
      recorded code starts at 0. */
  lemma EmptyUrlDeliveryUsesOldStatus(url: Option<string>, state: QueryState, services: Services, screen: Screen)
    requires IsEmpty(url)
    ensures var fetched := LoadInBackground(OnStartLoading(NewLoader(url)), state, services);
      && fetched.state == state
      && OnLoadFinished(screen, GetHttpRequestResponseCode(fetched.state), fetched.articles).message
         == (if state.responseCode == HttpOk then NoNewsFound else BadResponseCode)
    ensures var fetched := LoadInBackground(OnStartLoading(NewLoader(url)), InitialState, services);
      OnLoadFinished(screen, GetHttpRequestResponseCode(fetched.state), fetched.articles).message == BadResponseCode
  {
  }

  /** A failure before any status is read writes no status: after an earlier
      200 the run shows no_news_found rather than an error. */
  lemma ConnectFailureAfterSuccessShowsNoNews(services: Services)
    requires services.urlIsWellFormed(TheGuardianRequestUrl)
    requires services.connect(Url(TheGuardianRequestUrl)) == ConnectFails
    ensures Launch(true, QueryState(HttpOk), services) ==
              Session(Screen(NoNewsFound, [], false), QueryState(HttpOk))
    ensures Launch(true, InitialState, services) ==
              Session(Screen(BadResponseCode, [], false), InitialState)
  {
  }
}
