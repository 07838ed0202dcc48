/** NewsArticleLoader: the background loader the activity creates. */
module ArticleLoader {
  import opened Wrappers
  import opened TextUtils
  import opened QueryUtils

  /** mUrl is assigned by the constructor and never again; loadForced records
      that forceLoad() has been asked for; a run loads only once it is set. */
  datatype NewsArticleLoader = NewsArticleLoader(url: Option<string>, loadForced: bool)

  /** The constructor. */
  function NewLoader(url: Option<string>): (loader: NewsArticleLoader)
    ensures loader.url == url && !loader.loadForced
  {
    NewsArticleLoader(url, false)
  }

  /** onStartLoading: always forceLoad(), whatever happened before; the URL stays. */
  function OnStartLoading(loader: NewsArticleLoader): (started: NewsArticleLoader)
    ensures started.loadForced
    ensures started.url == loader.url
  {
    loader.(loadForced := true)
  }

  /** loadInBackground: a null or empty URL gives an empty, non-null list without
      touching the network or the recorded status; otherwise fetchNewsData's
      answer, null included, is passed on unchanged. */
  function LoadInBackground(loader: NewsArticleLoader, state: QueryState, services: Services): (r: Fetched)
    ensures IsEmpty(loader.url) ==> r == Fetched(state, Some([]))
    ensures !IsEmpty(loader.url) ==> r == FetchNewsData(state, loader.url.value, services)
  {
    if IsEmpty(loader.url) then Fetched(state, Some([]))
    else FetchNewsData(state, loader.url.value, services)
  }
}
