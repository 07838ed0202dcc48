# UK Football News — fetch, parse and display, in Dafny

This project models the core of an Android news reader. The reader fetches the
newest football articles from The Guardian's content API and lists them with
thumbnails. The core is the pipeline from a query URL to what the screen shows:

- `QueryUtils` builds the URL, makes the HTTP request and records the response
  code in a static field (`mResponseCode`). It joins the body lines into one
  string and turns the JSON into `NewsArticle` records.
- `NewsArticleLoader` runs that fetch in the background for a fixed URL.
- `NewsActivity` decides, from connectivity, the recorded response code and the
  delivered list, which message the empty view shows, what the list holds and
  whether the progress indicator is visible.

Everything is modelled functionally:

- The static response code is an explicit `QueryState`. It starts at 0.
- The articles are an immutable `NewsArticle` datatype.
- The screen is a `Screen` value.
- The collaborators the code calls but does not implement are parameters.
  They are gathered in `QueryUtils.Services`: whether `new URL(...)` accepts a
  string, what a connection attempt does (`Transport`), and what the JSON text
  parser makes of a string.
- A connection attempt either fails before a status is read, or answers with a
  status and a body transfer. The body can be unavailable, fail part way through
  reading, or fail on close.
- Java `null` is `Option.None`.

Modules, one per file:

| file | module | models |
|---|---|---|
| wrappers.dfy | `Wrappers` | `Option` for nullable references |
| text_utils.dfy | `TextUtils` | `TextUtils.isEmpty` |
| json_values.dfy | `JsonValues` | org.json values and `getJSONObject` / `getJSONArray` / `getString` |
| line_reader.dfy | `LineReader` | `BufferedReader.readLine` over the decoded characters |
| articles.dfy | `Articles` | `NewsArticle.java` |
| query_utils.dfy | `QueryUtils` | `QueryUtils.java` |
| article_loader.dfy | `ArticleLoader` | `NewsArticleLoader.java` |
| news_screen.dfy | `NewsScreen` | `NewsActivity.java` and end-to-end runs |

Some behaviour of the code that a reader might not expect, and that the model
keeps:

- **Blank body.** A body of blanks is not treated as empty. Only a null or
  zero-length string makes `extractArticles` return null.
- **Status on transport failure.** The status is not recorded when the
  connection fails before a status is read. The old value stays, and it is 0 if
  nothing was ever written.
- **`onLoaderReset`.** It does not clear the list. It appends an empty list (see
  Findings).
- **Repeated start.** `onStartLoading` does not ignore a repeated start. Every
  start calls `forceLoad`.
- **Non-200 status.** `fetchNewsData` returns null for a non-200 status, because
  the empty body makes `extractArticles` return null.

One consequence of keeping the status in a static field:
`NewsScreen.ConnectFailureAfterSuccessShowsNoNews` shows that a connection
failure after an earlier 200 shows `no_news_found` rather than an error.

## Model

| member | source | states |
|---|---|---|
| `Articles.ConstructThenGet` | app/src/main/java/com/example/android/ukfootballnews/NewsArticle.java:28-49 | getters return the constructor arguments in order for any strings; the section is "Section: Football" for every article |
| `LineReader.ReadLines` | app/src/main/java/com/example/android/ukfootballnews/QueryUtils.java:210-215 | the lines read contain no terminator, and there are none exactly when the stream is empty |
| `LineReader.ReadLinesKeepText` | app/src/main/java/com/example/android/ukfootballnews/QueryUtils.java:210-215 | appending every line read gives the stream's characters with the line terminators removed |
| `LineReader.ReadLinesOfRender` | app/src/main/java/com/example/android/ukfootballnews/QueryUtils.java:210-215 | reading back terminator-free lines each sent with "\n" gives exactly those lines |
| `QueryUtils.ReadFromStream` | app/src/main/java/com/example/android/ukfootballnews/QueryUtils.java:203-218 | readFromStream gives "" for a null stream and otherwise the text with its line terminators removed; the result holds no terminator |
| `QueryUtils.ReadFromStreamJoinsLines` | app/src/main/java/com/example/android/ukfootballnews/QueryUtils.java:203-218 | a body of newline-terminated lines is read as their concatenation |
| `QueryUtils.ReadArticle` | app/src/main/java/com/example/android/ukfootballnews/QueryUtils.java:100-116 | an element gives an article exactly when it is an object with string webTitle and webUrl and an object fields with string thumbnail, and the article holds those three strings |
| `QueryUtils.CollectArticles` | app/src/main/java/com/example/android/ukfootballnews/QueryUtils.java:84-127 | the list is never longer than results; it is the articles of a prefix of the elements, in order; it stops only at a malformed element |
| `QueryUtils.ExtractArticles` | app/src/main/java/com/example/android/ukfootballnews/QueryUtils.java:71-130 | null exactly for a null or zero-length string; a wrong root, missing response or missing results gives an empty list; the list is never longer than results |
| `QueryUtils.ExtractAllArticles` | app/src/main/java/com/example/android/ukfootballnews/QueryUtils.java:97-120 | when all n elements are well formed the list has n articles, article i coming from element i |
| `QueryUtils.ExtractUpToFirstMalformed` | app/src/main/java/com/example/android/ukfootballnews/QueryUtils.java:84-127 | if element k is the first malformed one, the result is exactly the articles of elements 0 to k-1 |
| `QueryUtils.GetHttpRequestResponseCode` | app/src/main/java/com/example/android/ukfootballnews/QueryUtils.java:224-226 | the getter exposes the whole recorded state, the last status written, and gives 0 before any write |
| `QueryUtils.CreateUrl` | app/src/main/java/com/example/android/ukfootballnews/QueryUtils.java:138-147 | null exactly when the string is not a well-formed URL; otherwise a URL for that string |
| `QueryUtils.MakeHttpRequest` | app/src/main/java/com/example/android/ukfootballnews/QueryUtils.java:152-197 | a null URL or a failure before the status leaves the code alone and returns ""; any status read is recorded whatever happens to the body; a non-200 returns ""; a 200 whose stream is unavailable, or whose read fails before a good close, returns ""; only a failing close escapes; a non-empty body means 200 was recorded; a full read returns the text without terminators |
| `QueryUtils.FetchNewsData` | app/src/main/java/com/example/android/ukfootballnews/QueryUtils.java:44-65 | a malformed URL or a connect failure returns null with the code unchanged; a read status is recorded; the list is non-null exactly for a 200 whose body was read and closed and is non-empty, and it is then the extraction of that body |
| `ArticleLoader.NewLoader` | app/src/main/java/com/example/android/ukfootballnews/NewsArticleLoader.java:29-33 | the loader holds the URL it was constructed with |
| `ArticleLoader.OnStartLoading` | app/src/main/java/com/example/android/ukfootballnews/NewsArticleLoader.java:36-39 | every start forces a load and keeps the URL |
| `ArticleLoader.LoadInBackground` | app/src/main/java/com/example/android/ukfootballnews/NewsArticleLoader.java:42-52 | a null or empty URL gives a non-null empty list and leaves the recorded code alone; otherwise fetchNewsData's answer is returned unchanged, null included |
| `NewsScreen.OnCreate` | app/src/main/java/com/example/android/ukfootballnews/NewsActivity.java:98-116 | the loader starts exactly when connected; without a connection the indicator is hidden and no_internet is shown; the list starts empty |
| `NewsScreen.OnCreateLoader` | app/src/main/java/com/example/android/ukfootballnews/NewsActivity.java:120-125 | the loader gets the fixed query URL, which is not empty |
| `NewsScreen.OnLoadFinished` | app/src/main/java/com/example/android/ukfootballnews/NewsActivity.java:128-154 | the indicator ends hidden; a code other than 200 shows bad_response_code with an empty list; a 200 with a non-empty list shows exactly that list; a 200 with a null or empty list shows no_news_found |
| `NewsScreen.DeliveryReplacesList` | app/src/main/java/com/example/android/ukfootballnews/NewsActivity.java:132-148 | the list after a delivery does not depend on the list before, and holds only delivered articles |
| `NewsScreen.OnLoaderReset` | app/src/main/java/com/example/android/ukfootballnews/NewsActivity.java:157-162 | the reset as written leaves the screen unchanged |
| `NewsScreen.OnLoaderResetClearing` | app/src/main/java/com/example/android/ukfootballnews/NewsActivity.java:157-159 | the reset as its comment intends: the list is emptied and nothing else changes |
| `NewsScreen.ResetKeepsDeliveredArticles` | app/src/main/java/com/example/android/ukfootballnews/NewsActivity.java:159 | after delivering one article, the reset as written still shows it and the clearing reset does not |
| `NewsScreen.Launch` | app/src/main/java/com/example/android/ukfootballnews/NewsActivity.java:98-153 | onCreate, then with a connection the loader's start, background load and delivery; the recorded state is the loader's; after a 200 the list shown is exactly the delivered list (empty for null), and after any other recorded code it is empty; connectivity first, status second, emptiness third: no_internet exactly when offline, bad_response_code exactly when online with a code other than 200, no_news_found exactly when a 200 left an empty list; the indicator ends hidden |
| `NewsScreen.LaunchShowsEveryArticle` | app/src/main/java/com/example/android/ukfootballnews/NewsActivity.java:144-148 | a 200 with n > 0 well-formed results shows exactly those n articles in order |
| `NewsScreen.LaunchWithNoResults` | app/src/main/java/com/example/android/ukfootballnews/NewsActivity.java:149-152 | a 200 with an empty results array shows no_news_found and an empty list |
| `NewsScreen.LaunchWithBadStatus` | app/src/main/java/com/example/android/ukfootballnews/NewsActivity.java:135-142 | any other status shows bad_response_code, an empty list and a hidden indicator, and records that status |
| `NewsScreen.EmptyUrlDeliveryUsesOldStatus` | app/src/main/java/com/example/android/ukfootballnews/NewsArticleLoader.java:47-48 | the empty-URL branch keeps the old code, so the delivery shows no_news_found after an earlier 200 and bad_response_code otherwise, including on a first run |
| `NewsScreen.ConnectFailureAfterSuccessShowsNoNews` | app/src/main/java/com/example/android/ukfootballnews/QueryUtils.java:169-173 | a connect failure writes no status: after an earlier 200 it shows no_news_found, on a first run bad_response_code |

## Left out

- HTTP transport is not modelled. That covers `HttpURLConnection`, the 10000 ms read and 15000 ms connect timeouts, `disconnect` and the GET itself. A connection attempt is an abstract `Transport` value.
- `QueryUtils.FetchNewsData`: only IOException failures are modelled. The cast of `openConnection()` to `HttpURLConnection` throws ClassCastException for a well-formed URL with a non-HTTP scheme (such as `file:` or `ftp:`). Nothing catches it, so such a URL would crash the load instead of returning a value. This cannot happen with the fixed https query URL the app uses.
- `QueryUtils.MakeHttpRequest`: the same ClassCastException is not modelled; a `Transport` value always stands for an HTTP connection.
- JSON text parsing is not modelled. org.json's parser is a parameter (`Services.parseJson`), and documents are the abstract `Json` datatype.
- `QueryUtils.ReadArticle`: org.json's `getString` converts numbers and booleans to text, JSON null to "null", and a nested object or array to its JSON text, but this model treats every non-string member as missing. As a result it throws in some cases where the library would return a string.
- Character decoding by `InputStreamReader` (the charset) is left out. The stream is modelled as already-decoded characters.
- `QueryUtils.MakeHttpRequest`: the second `getResponseCode()` call inside the error log line is not modelled. The status read before it is used.
- The async lifecycle is left out because it is framework concurrency. That covers `LoaderManager.initLoader` (including reuse of an existing loader), `AsyncTaskLoader` threading, the hand-off back to the main thread, and delivery cancellation. The code adds no logic of its own there.
- `NewsArticleAdapter.getView` is left out. It inflates row views and loads thumbnails with Picasso, which is UI.
- The item click that sends a browser `Intent`, `ConnectivityManager` (modelled as a boolean input) and all logging are platform glue and are left out.
- The layout is not part of this model. The progress indicator is assumed visible when the activity is created, and the empty view's initial text is `LayoutText`.
- The fixed query URL is kept as the exact constant; contracts use only that it is non-empty. So in the shipped app the loader's empty-URL branch is never taken.

## Findings

| source | as written | input that shows it | evidently intended | confidence | as-written member | corrected member |
|---|---|---|---|---|---|---|
| app/src/main/java/com/example/android/ukfootballnews/NewsActivity.java:159 | `onLoaderReset` appends an empty list to the adapter, so the adapter keeps every article it held | a reset after a delivery of one article: the list still shows that article | clear the adapter, as the comment on the line says ("remove references to Loader data") | medium, not executed | `NewsScreen.ResetKeepsDeliveredArticles` | `NewsScreen.OnLoaderResetClearing` |
