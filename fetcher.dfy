/** The paginated nearby-search fetch `get_google_places` (app.py, lines 14-70).

    The HTTP provider is abstracted as a finite sequence of responses: the
    i-th request the routine issues is answered by `provider[i]`. The routine
    records what it sends, and every pause it takes, as a trace of events. */
module Fetcher {
  import opened Options
  import opened Places

  /** The decoded JSON body of one response. */
  datatype Body = Body(
    results: Option<seq<RawPlace>>,
    nextPageToken: Option<string>,
    errorMessage: Option<string>)

  /** What one request yields: either `requests.get` or `response.json()`
      raised (the message is `str(e)`), or a decoded body with its HTTP status.
      Decoding precedes the status check, so an undecodable body of any status
      is `Raised`. */
  datatype Response =
    | Raised(message: string)
    | Http(status: int, body: Body)

  /** The query parameters of one request. */
  datatype Params =
    | Initial(location: string, radius: int, keyword: string, key: string)
    | NextPage(pagetoken: string, key: string)

  /** Observable steps of one fetch: a request sent, or a pause in seconds. */
  datatype Event = Request(params: Params) | Wait(seconds: nat)

  /** The returned pair `(places, error)`. */
  datatype Outcome = Outcome(places: Option<seq<Business>>, error: Option<string>)

  const StatusOk: int := 200
  const PageTokenDelay: nat := 2
  const ErrorPrefix: string := "Error API: "
  const UnknownError: string := "Unknown Error"

  /** The first request: location "lat,lng", radius, keyword and key. */
  function InitialParams(apiKey: string, lat: string, lng: string, radius: int, keyword: string): Params
  {
    Initial(lat + "," + lng, radius, keyword, apiKey)
  }

  /** The first request carries the search; its location is the latitude text,
      a comma, and the longitude text. When the latitude has no comma, the first
      comma of the location is the separator, so both parts read back. */
  lemma InitialRequest(apiKey: string, lat: string, lng: string, radius: int, keyword: string)
    ensures var p := InitialParams(apiKey, lat, lng, radius, keyword);
            && p.Initial? && p.radius == radius && p.keyword == keyword && p.key == apiKey
            && |p.location| == |lat| + 1 + |lng|
            && p.location[..|lat|] == lat && p.location[|lat|] == ','
            && p.location[|lat| + 1..] == lng
            && (NoComma(lat) ==> forall j :: 0 <= j < |lat| ==> p.location[j] != ',')
  {
  }

  /** The message returned for a non-200 status. */
  function ErrorText(errorMessage: Option<string>): string
  {
    ErrorPrefix + errorMessage.GetOr(UnknownError)
  }

  /** `results.get('results', [])`. */
  function ResultsOf(body: Body): seq<RawPlace>
  {
    body.results.GetOr([])
  }

  /** The loop goes on exactly when the token is present and not empty (`not next_page_token`). */
  predicate HasNextPage(body: Body)
  {
    body.nextPageToken.Some? && body.nextPageToken.value != ""
  }

  /** A response after which the routine issues no further request. */
  predicate Stops(r: Response)
  {
    r.Raised? || r.status != StatusOk || !HasNextPage(r.body)
  }

  /** Some response at index `i` or later stops the loop. */
  ghost predicate StopsFrom(provider: seq<Response>, i: nat)
  {
    exists j :: i <= j < |provider| && Stops(provider[j])
  }

  /** The routine terminates on `provider` exactly when some response stops it. */
  ghost predicate Terminates(provider: seq<Response>)
  {
    StopsFrom(provider, 0)
  }

  /** The first stopping response at index `i` or later. */
  function FirstStopFrom(provider: seq<Response>, i: nat): (k: nat)
    requires StopsFrom(provider, i)
    ensures i <= k < |provider| && Stops(provider[k])
    ensures forall j :: i <= j < k ==> !Stops(provider[j])
    decreases |provider| - i
  {
    if Stops(provider[i]) then i else FirstStopFrom(provider, i + 1)
  }

  /** The index of the last request issued: the first stopping response. */
  function FirstStop(provider: seq<Response>): (k: nat)
    requires Terminates(provider)
    ensures k < |provider| && Stops(provider[k])
    ensures forall j :: 0 <= j < k ==> !Stops(provider[j])
  {
    FirstStopFrom(provider, 0)
  }

  /** The rows a response contributes: those of a 200 page, none otherwise. */
  function PageOf(r: Response): seq<Business>
  {
    if r.Http? && r.status == StatusOk then PageRecords(ResultsOf(r.body)) else []
  }

  /** The rows of pages `lo` to `hi - 1`, page after page, each page's rows in its own order. */
  function Rows(pages: seq<Response>, lo: nat, hi: nat): seq<Business>
    requires lo <= hi <= |pages|
    decreases hi
  {
    if hi == lo then [] else Rows(pages, lo, hi - 1) + PageOf(pages[hi - 1])
  }

  /** The outcome fixed by the stopping response `r` once `before` holds the rows
      of the pages ahead of it: an exception or a non-200 status gives an error
      and no rows, whatever `before` holds; a 200 page adds its own rows. */
  function Final(r: Response, before: seq<Business>): (o: Outcome)
    ensures o.places.Some? != o.error.Some?
  {
    match r
    case Raised(message) => Outcome(None, Some(message))
    case Http(status, body) =>
      if status != StatusOk then Outcome(None, Some(ErrorText(body.errorMessage)))
      else Outcome(Some(before + PageRecords(ResultsOf(body))), None)
  }

  /** What the routine returns: the stopping response decides, given the rows
      of every page before it. */
  function Fetch(provider: seq<Response>): (o: Outcome)
    requires Terminates(provider)
    ensures o.places.Some? != o.error.Some?
  {
    var k := FirstStop(provider);
    Final(provider[k], Rows(provider, 0, k))
  }

  /** The next-page token a response carries, or "" when it has none. */
  function TokenOf(r: Response): string
  {
    if r.Http? then r.body.nextPageToken.GetOr("") else ""
  }

  /** The parameters of request number `j`: the initial set, then only the
      previous page's token and the key. */
  function RequestParams(first: Params, apiKey: string, provider: seq<Response>, j: nat): Params
    requires j <= |provider|
  {
    if j == 0 then first
    else NextPage(TokenOf(provider[j - 1]), apiKey)
  }

  /** The events of the first `n` requests: each request after the first is
      preceded by a pause of `PageTokenDelay` seconds. */
  function Trace(first: Params, apiKey: string, provider: seq<Response>, n: nat): seq<Event>
    requires n <= |provider|
    decreases n
  {
    if n == 0 then []
    else if n == 1 then [Request(first)]
    else Trace(first, apiKey, provider, n - 1) + [Wait(PageTokenDelay), Request(RequestParams(first, apiKey, provider, n - 1))]
  }

  /** The inner `for place in ...` loop: normalises each record of one page and
      appends its row to the accumulator. */
  method AppendPage(acc: seq<Business>, results: seq<RawPlace>) returns (out: seq<Business>)
    ensures out == acc + PageRecords(results)
  {
    out := acc;
    var n := 0;
    while n < |results|
      invariant 0 <= n <= |results|
      invariant out == acc + PageRecords(results[..n])
    {
      PageRecordsPrefix(results, n);
      out := out + [Normalize(results[n])];
      n := n + 1;
    }
    assert results[..n] == results;
  }

  /** One more request extends the trace by a pause (unless it is the first) and the request. */
  lemma TraceStep(first: Params, apiKey: string, provider: seq<Response>, i: nat)
    requires i < |provider|
    ensures Trace(first, apiKey, provider, i + 1) ==
            (if i == 0 then [] else Trace(first, apiKey, provider, i) + [Wait(PageTokenDelay)])
            + [Request(RequestParams(first, apiKey, provider, i))]
  {
  }

  /** A stopping response reached with no stop before it is the last one read, and decides the outcome. */
  lemma FetchAtStop(provider: seq<Response>, i: nat)
    requires Terminates(provider) && i <= FirstStop(provider) && Stops(provider[i])
    ensures i == FirstStop(provider)
    ensures Fetch(provider) == Final(provider[i], Rows(provider, 0, i))
  {
  }

  /** `get_google_places(api_key, lat, lng, radius, keyword)` against `provider`. */
  method GetGooglePlaces(apiKey: string, lat: string, lng: string, radius: int, keyword: string,
                         provider: seq<Response>)
    returns (places: Option<seq<Business>>, error: Option<string>, trace: seq<Event>)
    requires Terminates(provider)
    ensures Outcome(places, error) == Fetch(provider)
    ensures trace == Trace(InitialParams(apiKey, lat, lng, radius, keyword), apiKey, provider, FirstStop(provider) + 1)
  {
    ghost var first := InitialParams(apiKey, lat, lng, radius, keyword);
    ghost var k := FirstStop(provider);
    var acc: seq<Business> := [];
    var params := InitialParams(apiKey, lat, lng, radius, keyword);
    var i := 0;
    trace := [];
    while true
      invariant 0 <= i <= k
      invariant acc == Rows(provider, 0, i)
      invariant params == RequestParams(first, apiKey, provider, i)
      invariant trace == if i == 0 then [] else Trace(first, apiKey, provider, i) + [Wait(PageTokenDelay)]
      decreases k - i
    {
      var response := provider[i];
      trace := trace + [Request(params)];
      TraceStep(first, apiKey, provider, i);
      ghost var before := acc;
      if Stops(response) {
        FetchAtStop(provider, i);
      }
      if response.Raised? {
        return None, Some(response.message), trace;
      }
      var body := response.body;
      if response.status != StatusOk {
        return None, Some(ErrorText(body.errorMessage)), trace;
      }
      acc := AppendPage(acc, ResultsOf(body));
      if !HasNextPage(body) {
        break;
      }
      assert !Stops(provider[i]) && i < k;
      trace := trace + [Wait(PageTokenDelay)];
      params := NextPage(body.nextPageToken.value, apiKey);
      i := i + 1;
    }
    places, error := Some(acc), None;
  }


  lemma ConcatAssoc<T>(a: seq<T>, b: seq<T>, c: seq<T>)
    ensures (a + b) + c == a + (b + c)
  {
  }

  /** Rows of adjacent page ranges concatenate. */
  lemma {:induction false} RowsSplit(pages: seq<Response>, lo: nat, mid: nat, hi: nat)
    requires lo <= mid <= hi <= |pages|
    ensures Rows(pages, lo, hi) == Rows(pages, lo, mid) + Rows(pages, mid, hi)
    decreases hi
  {
    if hi > mid {
      RowsSplit(pages, lo, mid, hi - 1);
      ConcatAssoc(Rows(pages, lo, mid), Rows(pages, mid, hi - 1), PageOf(pages[hi - 1]));
    } else {
      assert Rows(pages, mid, hi) == [];
    }
  }

  /** Dropping the first page shifts every index down by one. */
  lemma {:induction false} RowsShift(pages: seq<Response>, lo: nat, hi: nat)
    requires 1 <= lo <= hi <= |pages|
    ensures Rows(pages, lo, hi) == Rows(pages[1..], lo - 1, hi - 1)
    decreases hi
  {
    if hi > lo {
      RowsShift(pages, lo, hi - 1);
      assert pages[1..][hi - 2] == pages[hi - 1];
    }
  }

  /** Responses beyond `hi` do not change the rows of pages before it. */
  lemma {:induction false} RowsExtend(pages: seq<Response>, later: seq<Response>, lo: nat, hi: nat)
    requires lo <= hi <= |pages|
    ensures Rows(pages + later, lo, hi) == Rows(pages, lo, hi)
    decreases hi
  {
    if hi > lo {
      RowsExtend(pages, later, lo, hi - 1);
      assert (pages + later)[hi - 1] == pages[hi - 1];
    }
  }

  lemma {:induction false} FirstStopExtend(provider: seq<Response>, later: seq<Response>, i: nat)
    requires StopsFrom(provider, i)
    ensures StopsFrom(provider + later, i)
    ensures FirstStopFrom(provider + later, i) == FirstStopFrom(provider, i)
    decreases |provider| - i
  {
    var j :| i <= j < |provider| && Stops(provider[j]);
    assert (provider + later)[j] == provider[j];
    assert (provider + later)[i] == provider[i];
    if !Stops(provider[i]) {
      FirstStopExtend(provider, later, i + 1);
    }
  }

  /** A response that stops the loop as the first one decides the outcome on its own. */
  lemma FetchStopsAt(provider: seq<Response>)
    requires |provider| > 0 && Stops(provider[0])
    ensures Terminates(provider) && FirstStop(provider) == 0
    ensures Fetch(provider) == Final(provider[0], [])
  {
  }

  lemma FirstStopStep(provider: seq<Response>)
    requires |provider| > 0 && Terminates(provider) && !Stops(provider[0])
    ensures Terminates(provider[1..])
    ensures FirstStop(provider) == 1 + FirstStop(provider[1..])
    ensures provider[FirstStop(provider)] == provider[1..][FirstStop(provider[1..])]
  {
  }

  lemma RowsStep(provider: seq<Response>, k: nat)
    requires 1 <= k <= |provider|
    ensures Rows(provider, 0, k) == PageOf(provider[0]) + Rows(provider[1..], 0, k - 1)
  {
    RowsSplit(provider, 0, 1, k);
    RowsShift(provider, 1, k);
    RowsOne(provider, 0);
  }

  /** The rows of a single page. */
  lemma RowsOne(pages: seq<Response>, i: nat)
    requires i < |pages|
    ensures Rows(pages, i, i + 1) == PageOf(pages[i])
  {
  }

  /** Rows collected ahead of the stopping response stay ahead in a success and vanish in an error. */
  lemma FinalPrefix(r: Response, a: seq<Business>, b: seq<Business>)
    ensures Final(r, a + b) ==
              if Final(r, b).places.Some? then Outcome(Some(a + Final(r, b).places.value), None)
              else Final(r, b)
  {
    if r.Http? && r.status == StatusOk {
      ConcatAssoc(a, b, PageRecords(ResultsOf(r.body)));
    }
  }

  /** A 200 page with a next-page token contributes its rows ahead of the rows
      of the remaining pages, and passes any later error through unchanged. */
  lemma FetchStep(provider: seq<Response>)
    requires |provider| > 0 && Terminates(provider) && !Stops(provider[0])
    ensures Terminates(provider[1..])
    ensures var rest := Fetch(provider[1..]);
            Fetch(provider) ==
              if rest.places.Some? then Outcome(Some(PageOf(provider[0]) + rest.places.value), None)
              else rest
  {
    FirstStopStep(provider);
    var k := FirstStop(provider);
    RowsStep(provider, k);
    FinalPrefix(provider[k], PageOf(provider[0]), Rows(provider[1..], 0, k - 1));
  }

  /** The routine never reads a response after the one that stops it. */
  lemma FetchIgnoresLater(provider: seq<Response>, later: seq<Response>)
    requires Terminates(provider)
    ensures Terminates(provider + later)
    ensures FirstStop(provider + later) == FirstStop(provider)
    ensures Fetch(provider + later) == Fetch(provider)
  {
    FirstStopExtend(provider, later, 0);
    var k := FirstStop(provider);
    assert (provider + later)[k] == provider[k];
    RowsExtend(provider, later, 0, k);
  }

  /** A successful fetch returns the rows of every page read, up to and
      including the stopping one, concatenated in page order. */
  lemma SuccessRows(provider: seq<Response>)
    requires Terminates(provider) && Fetch(provider).places.Some?
    ensures Fetch(provider).places.value == Rows(provider, 0, FirstStop(provider) + 1)
    ensures Fetch(provider).error == None
  {
  }

  /** On success, page `j`'s rows sit in the result right after the rows of
      pages 0 to j-1, and right before those of page j+1: rows keep page order. */
  lemma PageOrder(provider: seq<Response>, j: nat)
    requires Terminates(provider) && Fetch(provider).places.Some?
    requires j <= FirstStop(provider)
    ensures var rows := Fetch(provider).places.value;
            var lo := |Rows(provider, 0, j)|;
            var hi := lo + |PageOf(provider[j])|;
            && hi <= |rows|
            && rows[..lo] == Rows(provider, 0, j)
            && rows[lo..hi] == PageOf(provider[j])
            && hi == |Rows(provider, 0, j + 1)|
  {
    var k := FirstStop(provider);
    var rows := Fetch(provider).places.value;
    SuccessRows(provider);
    RowsSplit(provider, 0, j + 1, k + 1);
    var lo := |Rows(provider, 0, j)|;
    var mid := Rows(provider, 0, j) + PageOf(provider[j]);
    assert rows == mid + Rows(provider, j + 1, k + 1);
    assert rows[..lo] == mid[..lo];
    assert rows[lo..lo + |PageOf(provider[j])|] == mid[lo..];
  }

  /** The trace alternates requests and pauses: request `j` stands at position
      2j and carries `RequestParams(j)`, and a pause of `PageTokenDelay` seconds
      comes before every request but the first. */
  lemma {:induction false} TraceShape(first: Params, apiKey: string, provider: seq<Response>, n: nat)
    requires 1 <= n <= |provider|
    ensures var t := Trace(first, apiKey, provider, n);
            && |t| == 2 * n - 1
            && (forall j :: 0 <= j < n ==> t[2 * j] == Request(RequestParams(first, apiKey, provider, j)))
            && (forall j :: 0 < j < n ==> t[2 * j - 1] == Wait(PageTokenDelay))
    decreases n
  {
    if n > 1 {
      TraceShape(first, apiKey, provider, n - 1);
    }
  }

  /** Every request after the first carries only the key and the non-empty
      token of the page just before it, which was a 200 page. */
  lemma LaterRequests(first: Params, apiKey: string, provider: seq<Response>, j: nat)
    requires Terminates(provider) && 0 < j <= FirstStop(provider)
    ensures provider[j - 1].Http? && provider[j - 1].status == StatusOk && HasNextPage(provider[j - 1].body)
    ensures RequestParams(first, apiKey, provider, j) == NextPage(provider[j - 1].body.nextPageToken.value, apiKey)
    ensures RequestParams(first, apiKey, provider, j).pagetoken != ""
  {
  }

  /** The routine succeeds exactly when every response it reads, up to and
      including the stopping one, is a 200 page; otherwise it returns no rows. */
  lemma SucceedsIffAllPagesOk(provider: seq<Response>)
    requires Terminates(provider)
    ensures Fetch(provider).places.Some? <==>
            forall j :: 0 <= j <= FirstStop(provider) ==> provider[j].Http? && provider[j].status == StatusOk
    ensures Fetch(provider).error.Some? ==> Fetch(provider).places == None
  {
  }

  /** A lone 200 page with no results (an empty list or no `results` key) and
      no usable token succeeds with no rows: "no results" is not an error. */
  lemma EmptyPageSucceeds(results: Option<seq<RawPlace>>, token: Option<string>, message: Option<string>)
    requires results == None || results == Some([])
    requires token == None || token == Some("")
    ensures Terminates([Http(StatusOk, Body(results, token, message))])
    ensures Fetch([Http(StatusOk, Body(results, token, message))]) == Outcome(Some([]), None)
  {
    var body := Body(results, token, message);
    FetchStopsAt([Http(StatusOk, body)]);
    assert PageRecords(ResultsOf(body)) == [];
    var none: seq<Business> := [];
    assert Final(Http(StatusOk, body), []) == Outcome(Some(none + none), None);
    assert none + none == none;
  }

  /** A lone non-200 response gives no rows and the provider's message after
      "Error API: ", or "Error API: Unknown Error" when it sent none. */
  lemma ErrorStatusMessage(status: int, body: Body)
    requires status != StatusOk
    ensures Terminates([Http(status, body)])
    ensures body.errorMessage.Some? ==>
              Fetch([Http(status, body)]) == Outcome(None, Some("Error API: " + body.errorMessage.value))
    ensures body.errorMessage.None? ==>
              Fetch([Http(status, body)]) == Outcome(None, Some("Error API: Unknown Error"))
  {
    FetchStopsAt([Http(status, body)]);
    assert ErrorText(None) == "Error API: Unknown Error";
  }

  /** A page with a token followed by a last page gives the first page's rows
      and then the second's. */
  lemma TwoPages(first: Body, second: Body, later: seq<Response>)
    requires HasNextPage(first) && !HasNextPage(second)
    ensures Terminates([Http(StatusOk, first), Http(StatusOk, second)] + later)
    ensures Fetch([Http(StatusOk, first), Http(StatusOk, second)] + later) ==
            Outcome(Some(PageRecords(ResultsOf(first)) + PageRecords(ResultsOf(second))), None)
  {
    var provider := [Http(StatusOk, first), Http(StatusOk, second)];
    assert provider[1..] == [Http(StatusOk, second)];
    FetchStopsAt(provider[1..]);
    assert Terminates(provider) by { assert Stops(provider[1]); }
    FetchStep(provider);
    FetchIgnoresLater(provider, later);
    var own := PageRecords(ResultsOf(second));
    assert Fetch(provider[1..]) == Outcome(Some([] + own), None);
    assert [] + own == own;
  }

  /** An error on the second request discards the rows of the first page. */
  lemma LaterErrorDiscardsRows(first: Body, failed: Response, later: seq<Response>)
    requires HasNextPage(first)
    requires failed.Raised? || failed.status != StatusOk
    ensures Terminates([Http(StatusOk, first), failed] + later)
    ensures Fetch([Http(StatusOk, first), failed] + later).places == None
    ensures Fetch([Http(StatusOk, first), failed] + later).error == Final(failed, []).error
  {
    var provider := [Http(StatusOk, first), failed];
    assert provider[1..] == [failed];
    FetchStopsAt(provider[1..]);
    assert Terminates(provider) by { assert Stops(provider[1]); }
    FetchStep(provider);
    FetchIgnoresLater(provider, later);
  }
}
