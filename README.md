# Nearby-search prospect fetcher: a Dafny model

This project models `get_google_places` in `app.py`. It is the one routine of the
prospecting app that does real work. It queries the places nearby-search API for a location,
radius and keyword, and follows the API's `next_page_token` pagination. It normalises every
place record into a table row and returns either every row or an error message.

The model has three modules:

- `Options` (`options.dfy`): the optional value used for JSON fields that may be absent and
  for the two Python result slots.
- `Places` (`places.dfy`): one raw place record (`RawPlace`) and its normalised row
  (`Business`). It holds the pure per-record normalisation `Normalize` and the category text
  (`", ".join(types[:3])`). It also holds the map link, and a splitter that is the inverse of
  the category join.
- `Fetcher` (`fetcher.dfy`): the response datatypes, the request parameters and a trace of
  events. `GetGooglePlaces` is an imperative method with the source's `while True` loop, its
  accumulator and its early returns. It is proved against `Fetch`, a declarative
  specification of the returned pair, and against `Trace`, the sequence of requests and
  pauses it must produce.

How the HTTP provider is modelled:

- The provider is a finite sequence of responses. The i-th request the routine sends is
  answered by `provider[i]`.
- A response is `Raised(message)` or `Http(status, body)`. `Raised` stands for `requests.get`
  or `response.json()` raising, and `message` is `str(e)`. Decoding comes before the status
  check, so an undecodable body takes the `Raised` path whatever its status.
- The body has an optional `results` list, an optional `next_page_token` and an optional
  `error_message`.
- The loop stops on a response when it raised, when its status is not 200, or when its token
  is absent or empty (`Stops`).
- The source loops forever on a provider that never stops it. The method therefore requires
  `Terminates(provider)`: some response stops the loop. The ghost index `FirstStop` is the
  loop's measure.
- `time.sleep(2)` is a `Wait(2)` event in the trace.

Behaviour kept from the code:

- A place without `place_id` gets the link `...?q=place_id:None`. This is what the Python
  f-string produces.
- A 200 page without a `results` key contributes no rows.
- The loop stops on an absent or an empty token (`if not next_page_token`, app.py:57-58).
- The code sleeps exactly 2 seconds (`time.sleep(2)`, app.py:61) before each further
  request; the model records `Wait(2)`.

## Model

| member | source | states |
|---|---|---|
| Places.CategoryTags | app.py:52 | the category tags are at most 3, are a prefix of `types` in original order, and are exactly 3 when `types` has 3 or more |
| Places.CategoryMissing | app.py:41 | `Category`: a missing `types` key, or an empty list, gives the empty category |
| Places.SplitJoin | app.py:52 | joining a non-empty list of comma-free tags with ", " (`Join`) and splitting the text again gives the same tags back |
| Places.CategoryRoundTrip | app.py:41-52 | for a non-empty list of comma-free tags, the category text (`Category`) splits back into exactly the first min(3, len(types)) tags, in order |
| Places.NormalizeFields | app.py:36-50 | `Normalize`: a missing rating becomes 0 and a missing review count becomes 0; present values are copied; name and address are copied, absent or not |
| Places.MapsLinkRoundTrip | app.py:40-44 | `MapsLink`: the map link is the fixed prefix followed by the place id, so the id can be read back from the link; a missing `place_id` gives the prefix followed by "None" |
| Places.PageRecordsPrefix | app.py:46-53 | normalising one more record appends exactly its row at the end |
| Fetcher.InitialRequest | app.py:17-22 | `InitialParams`: for any latitude and longitude text, the first request carries radius, keyword and key, and a location made of the latitude, a comma and the longitude; when the latitude has no comma, that comma is the first one |
| Fetcher.FirstStopFrom | app.py:25-58 | the first response at or after i that stops the loop (`Stops`: raised, non-200, or an absent or empty token), with no stopping response between i and it |
| Fetcher.FirstStop | app.py:25-58 | the last request sent is the first stopping response, and every earlier response continues the loop |
| Fetcher.Final | app.py:30-31 | at the stopping response exactly one of the two result slots is filled; an error leaves the rows empty whatever came before |
| Fetcher.Fetch | app.py:14-70 | the returned pair of one fetch has exactly one slot filled |
| Fetcher.AppendPage | app.py:34-53 | the inner loop appends exactly the page's normalised rows, in order, to the accumulator |
| Fetcher.GetGooglePlaces | app.py:14-70 | the loop returns the pair `Fetch` specifies, and sends exactly the requests and pauses of `Trace` up to the stopping response |
| Fetcher.RowsSplit | app.py:46 | the rows of adjacent runs of pages are concatenated in page order |
| Fetcher.FetchStopsAt | app.py:30-31 | a first response that stops the loop decides the outcome alone, with no earlier rows |
| Fetcher.FinalPrefix | app.py:31 | rows gathered before the stopping response stay in front on success and are dropped on error |
| Fetcher.FetchStep | app.py:25-65 | a 200 page with a token puts its rows ahead of all later rows and passes any later error through unchanged |
| Fetcher.FetchIgnoresLater | app.py:56-58 | responses after the stopping one are never read and do not change the outcome |
| Fetcher.SuccessRows | app.py:25-70 | a successful fetch returns the rows of every page read, up to and including the stopping one, concatenated in page order, and no error |
| Fetcher.PageOrder | app.py:46 | on success, page j's rows occupy the slice right after pages 0..j-1 and right before page j+1 |
| Fetcher.TraceShape | app.py:61-65 | requests and pauses alternate: request j is at position 2j with its parameters, and a 2-second pause precedes every request but the first |
| Fetcher.LaterRequests | app.py:56-65 | every request after the first carries only the key and the non-empty token of the preceding 200 page |
| Fetcher.SucceedsIffAllPagesOk | app.py:30-31 | the fetch succeeds if and only if every response up to the stopping one is a 200 page; an error never comes with rows |
| Fetcher.EmptyPageSucceeds | app.py:34 | a lone 200 page with no results, or no results key, and no usable token succeeds with an empty list, not an error |
| Fetcher.ErrorStatusMessage | app.py:30-31 | `ErrorText`: a non-200 response gives no rows and "Error API: " followed by the provider's message, or "Error API: Unknown Error" |
| Fetcher.TwoPages | app.py:25-70 | a page with a token, then a last page, gives the first page's rows followed by the second's |
| Fetcher.LaterErrorDiscardsRows | app.py:67-68 | an error on the second request discards the first page's rows and returns only the error |

## Left out

- The Streamlit page set-up, sidebar, input widgets, spinner, alerts and result table
  (app.py:7-11, app.py:73-121). They are presentation, and the fetcher takes the resolved
  inputs as parameters.
- The choice between the secret store and a typed API key (app.py:81-86). This is
  configuration I/O; the fetcher receives the resolved key.
- The HTTP call and the JSON decoding (app.py:27-28). They are replaced by the provider
  sequence. The base URL is not part of the parameters, because the request always goes to
  the same endpoint.
- Exceptions raised while a decoded body is processed, such as a body that is not an object
  or `types` elements that are not strings. Each field is modelled as absent or present with
  the expected type; the model does not capture other shapes, such as a string `types`,
  which `[:3]` slices into characters without raising.
- JSON null values. In the source, a key holding null makes `dict.get` return None, not the
  default. A null `rating` or `user_ratings_total` therefore stays None where the model gives
  0, and a null `error_message` gives "Error API: None" where the model gives
  "Error API: Unknown Error". A null `types` or `results` raises TypeError and takes the error
  path (app.py:67-68), where the model gives an empty category or no rows.
- The duration of `time.sleep(2)` (app.py:61). It is an abstract wait event of 2 seconds;
  there is no clock reasoning.
- The pandas table, the CSV encoding and the download button (app.py:117-130). These are
  library wrappers.
- Ratings are copied as exact `real` values. Python floats and float arithmetic are not
  modelled, and there is no arithmetic on ratings.
- The text of `str(e)` is taken as given in `Raised(message)`.
- GetGooglePlaces: it requires that some response stops the loop. A provider that always
  returns a 200 page with a token makes the source loop forever, which a terminating method
  cannot model.
