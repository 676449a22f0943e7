/**
 * The Searxng search engine: one POST request per result page, every page
 * fetched, the pages' records turned into search hits and concatenated in page
 * order, and the list cut to the number of results asked for. The HTTP call
 * (including `raise_for_status` and the validation of the JSON records) is a
 * function from request to page outcome.
 */
module Searxng {
  import opened Common
  import opened Strings
  import opened SearchTypes

  /** One entry of the `results` array of Searxng's JSON answer. */
  datatype SearxngRecord = SearxngRecord(url: string, title: string, content: string)

  /** A form field value: the request mixes strings and integers. */
  datatype FormValue = Text(text: string) | Number(number: int)

  /** The POST request for one page: target, headers, timeout and form data. */
  datatype PageRequest = PageRequest(url: string, userAgent: string, timeout: int, data: map<string, FormValue>)

  /** What fetching one page gives: its validated records, or the exception it raised. */
  datatype PageOutcome = Page(records: seq<SearxngRecord>) | PageFailure(reason: string)

  /** The form fields every page request carries. */
  const FixedKeys: set<string> := {"q", "format", "pageno", "safesearch", "language", "category_general"}

  /** The query sent to Searxng: a non-empty `website` narrows it with a `site:` operator. */
  function QueryText(params: SearchParams): (q: string)
    ensures StartsWith(q, params.query)
    ensures params.website.None? || params.website.value == [] ==> q == params.query
    ensures params.website.Some? && params.website.value != [] ==>
      q[|params.query|..] == " site:" + params.website.value
  {
    if params.website.Some? && params.website.value != [] then params.query + " site:" + params.website.value
    else params.query
  }

  /** The request for page number `pageno` (counted from 1). */
  function PageRequestFor(config: SearxngConfig, params: SearchParams, pageno: nat): (req: PageRequest)
    ensures req.url == config.baseUrl + "search"
    ensures req.userAgent == config.search.userAgent && req.timeout == config.search.timeout
    ensures req.data.Keys == FixedKeys + (if params.timeRange.Some? then {"time_range"} else {})
    ensures "time_range" in req.data <==> params.timeRange.Some?
    ensures params.timeRange.Some? ==> req.data["time_range"] == Text(params.timeRange.value.Value())
    ensures req.data["q"] == Text(QueryText(params))
    ensures req.data["pageno"] == Text(NatToString(pageno))
    ensures req.data["format"] == Text("json") && req.data["language"] == Text("auto")
    ensures req.data["safesearch"] == Number(0) && req.data["category_general"] == Number(1)
  {
    var data := map[
      "q" := Text(QueryText(params)),
      "format" := Text("json"),
      "pageno" := Text(NatToString(pageno)),
      "safesearch" := Number(0),
      "language" := Text("auto"),
      "category_general" := Number(1)];
    PageRequest(
      config.baseUrl + "search",
      config.search.userAgent,
      config.search.timeout,
      if params.timeRange.Some? then data["time_range" := Text(params.timeRange.value.Value())] else data)
  }

  /** Python's `range(n)` is empty for a negative `n`. */
  function PageCount(config: SearxngConfig): nat
  {
    if config.search.maxPages > 0 then config.search.maxPages else 0
  }

  /** The requests of one search, pages 1 .. max_pages in order. */
  function Requests(config: SearxngConfig, params: SearchParams): (reqs: seq<PageRequest>)
    ensures |reqs| == PageCount(config)
  {
    seq(PageCount(config), i requires 0 <= i => PageRequestFor(config, params, i + 1))
  }

  /**
   * The loop of `search` that builds the request of every page: the form data
   * is a fresh dictionary per page, whose query is extended in place when a
   * website is given and which gains `time_range` when one is given.
   */
  method BuildRequests(config: SearxngConfig, params: SearchParams) returns (reqs: seq<PageRequest>)
    ensures reqs == Requests(config, params)
  {
    reqs := [];
    var pageNum := 0;
    while pageNum < config.search.maxPages
      invariant 0 <= pageNum && |reqs| == pageNum
      invariant pageNum <= PageCount(config)
      invariant forall i :: 0 <= i < pageNum ==> reqs[i] == PageRequestFor(config, params, i + 1)
    {
      var searchUrl := config.baseUrl + "search";
      var data := map[
        "q" := Text(params.query),
        "format" := Text("json"),
        "pageno" := Text(NatToString(pageNum + 1)),
        "safesearch" := Number(0),
        "language" := Text("auto"),
        "category_general" := Number(1)];
      if params.website.Some? && params.website.value != [] {
        data := data["q" := Text(data["q"].text + " site:" + params.website.value)];
      }
      if params.timeRange.Some? {
        data := data["time_range" := Text(params.timeRange.value.Value())];
      }
      assert data == PageRequestFor(config, params, pageNum + 1).data;
      reqs := reqs + [PageRequest(searchUrl, config.search.userAgent, config.search.timeout, data)];
      pageNum := pageNum + 1;
    }
  }

  /** Every page carries its own number, and `int()` reads that number back. */
  lemma PageNumbersRoundTrip(config: SearxngConfig, params: SearchParams, i: nat)
    requires i < PageCount(config)
    ensures Requests(config, params)[i].data["pageno"].text == NatToString(i + 1)
    ensures ParseInt(Requests(config, params)[i].data["pageno"].text) == Some(i + 1)
  {
    ParseIntToString(i + 1);
  }

  /** No two requests of a search ask for the same page. */
  lemma PageNumbersDistinct(config: SearxngConfig, params: SearchParams, i: nat, j: nat)
    requires i < j < PageCount(config)
    ensures Requests(config, params)[i].data["pageno"] != Requests(config, params)[j].data["pageno"]
  {
    if Requests(config, params)[i].data["pageno"] == Requests(config, params)[j].data["pageno"] {
      NatToStringInjective(i + 1, j + 1);
    }
  }

  /** A valid configuration always sends at least one request, the first asking for page "1". */
  lemma ValidConfigRequestsFirstPage(config: SearxngConfig, params: SearchParams)
    requires config.Valid()
    ensures |Requests(config, params)| >= 1
    ensures Requests(config, params)[0].data["pageno"] == Text("1")
  {
  }

  /**
   * What `asyncio.gather` over the page fetches gives: all pages in request
   * order, or the failure of the first request (in request order) that failed.
   */
  function FetchAll(reqs: seq<PageRequest>, fetch: PageRequest -> PageOutcome): (r: Result<seq<seq<SearxngRecord>>>)
    ensures r.Success? ==> |r.value| == |reqs|
    ensures r.Success? ==> forall i :: 0 <= i < |reqs| ==> fetch(reqs[i]) == Page(r.value[i])
  {
    if reqs == [] then Success([])
    else
      var init :- FetchAll(reqs[..|reqs| - 1], fetch);
      match fetch(reqs[|reqs| - 1])
      case PageFailure(reason) => Failure(reason)
      case Page(records) => Success(init + [records])
  }

  /** The gather succeeds exactly when every single page does. */
  lemma {:induction false} FetchAllSucceeds(reqs: seq<PageRequest>, fetch: PageRequest -> PageOutcome)
    ensures FetchAll(reqs, fetch).Success? <==> forall i :: 0 <= i < |reqs| ==> fetch(reqs[i]).Page?
  {
    if reqs != [] {
      var init := reqs[..|reqs| - 1];
      FetchAllSucceeds(init, fetch);
      assert forall i :: 0 <= i < |init| ==> init[i] == reqs[i];
    }
  }

  /** The records of all pages, in page order. */
  function Flatten(pages: seq<seq<SearxngRecord>>): (records: seq<SearxngRecord>)
  {
    if pages == [] then [] else Flatten(pages[..|pages| - 1]) + pages[|pages| - 1]
  }

  /** Concatenating two runs of pages concatenates their records. */
  lemma {:induction false} FlattenAppend(a: seq<seq<SearxngRecord>>, b: seq<seq<SearxngRecord>>)
    ensures Flatten(a + b) == Flatten(a) + Flatten(b)
    decreases |b|
  {
    if b == [] {
      assert a + b == a;
    } else {
      var b' := b[..|b| - 1];
      assert (a + b)[..|a + b| - 1] == a + b';
      assert (a + b)[|a + b| - 1] == b[|b| - 1];
      FlattenAppend(a, b');
    }
  }

  /** The total number of records over all pages. */
  function TotalCount(pages: seq<seq<SearxngRecord>>): (n: nat)
  {
    if pages == [] then 0 else TotalCount(pages[..|pages| - 1]) + |pages[|pages| - 1]|
  }

  /** Flattening loses and invents no record. */
  lemma {:induction false} FlattenLength(pages: seq<seq<SearxngRecord>>)
    ensures |Flatten(pages)| == TotalCount(pages)
  {
    if pages != [] {
      FlattenLength(pages[..|pages| - 1]);
    }
  }

  /** Page order is kept: record `j` of page `k` sits right after all records of the earlier pages. */
  lemma FlattenPageOrder(pages: seq<seq<SearxngRecord>>, k: nat, j: nat)
    requires k < |pages| && j < |pages[k]|
    ensures TotalCount(pages[..k]) + j < |Flatten(pages)|
    ensures Flatten(pages)[TotalCount(pages[..k]) + j] == pages[k][j]
  {
    assert pages == pages[..k] + ([pages[k]] + pages[k + 1..]);
    FlattenAppend(pages[..k], [pages[k]] + pages[k + 1..]);
    FlattenAppend([pages[k]], pages[k + 1..]);
    assert Flatten([pages[k]]) == pages[k] by {
      assert [pages[k]][..0] == [];
    }
    FlattenLength(pages[..k]);
  }

  /** The records `search` returns, or the failure it raises. */
  function SearchOutcome(config: SearxngConfig, params: SearchParams, fetch: PageRequest -> PageOutcome): Result<seq<SearxngRecord>>
  {
    var pages :- FetchAll(Requests(config, params), fetch);
    Success(PyPrefix(Flatten(pages), params.numResults))
  }

  /**
   * The answer is the first `num_results` records of the concatenated pages,
   * so it holds min(num_results, total) records; a failure of any one page fails
   * the whole search and no partial list is returned.
   */
  lemma SearchTruncates(config: SearxngConfig, params: SearchParams, fetch: PageRequest -> PageOutcome)
    requires params.Valid()
    ensures SearchOutcome(config, params, fetch).Success? <==>
      forall i :: 0 <= i < PageCount(config) ==> fetch(Requests(config, params)[i]).Page?
    ensures SearchOutcome(config, params, fetch).Success? ==>
      var records := SearchOutcome(config, params, fetch).value;
      var all := Flatten(FetchAll(Requests(config, params), fetch).value);
      |records| == (if params.numResults < |all| then params.numResults else |all|) &&
      records == all[..|records|]
  {
    FetchAllSucceeds(Requests(config, params), fetch);
  }

  /**
   * When every page returns `k` records, the search returns min(num_results,
   * max_pages * k) of them: two pages of one record each give two hits.
   */
  lemma {:induction false} UniformPagesCount(config: SearxngConfig, params: SearchParams, fetch: PageRequest -> PageOutcome, k: nat)
    requires params.Valid()
    requires forall i :: 0 <= i < PageCount(config) ==>
      fetch(Requests(config, params)[i]).Page? && |fetch(Requests(config, params)[i]).records| == k
    ensures SearchOutcome(config, params, fetch).Success?
    ensures var total := PageCount(config) * k;
      |SearchOutcome(config, params, fetch).value| == if params.numResults < total then params.numResults else total
  {
    var reqs := Requests(config, params);
    FetchAllSucceeds(reqs, fetch);
    var pages := FetchAll(reqs, fetch).value;
    UniformTotal(pages, k);
    FlattenLength(pages);
  }

  lemma {:induction false} UniformTotal(pages: seq<seq<SearxngRecord>>, k: nat)
    requires forall i :: 0 <= i < |pages| ==> |pages[i]| == k
    ensures TotalCount(pages) == |pages| * k
  {
    if pages != [] {
      UniformTotal(pages[..|pages| - 1], k);
    }
  }

  /** A search hit carries exactly the record's url, title and content. */
  predicate Mirrors(hit: SearchResult, record: SearxngRecord)
    reads hit
  {
    hit.url == record.url && hit.title == record.title && hit.content == record.content
  }

  /** `_parse_search_results`: one new hit per record, same fields, same order. */
  method ParseSearchResults(records: seq<SearxngRecord>) returns (hits: seq<SearchResult>)
    ensures |hits| == |records|
    ensures forall i :: 0 <= i < |records| ==> fresh(hits[i]) && Mirrors(hits[i], records[i])
  {
    hits := [];
    for i := 0 to |records|
      invariant |hits| == i
      invariant forall j :: 0 <= j < i ==> fresh(hits[j]) && Mirrors(hits[j], records[j])
    {
      var hit := new SearchResult(records[i].url, records[i].title, records[i].content);
      hits := hits + [hit];
    }
  }

  /** The `gather` over all page fetches, each page fetched in request order. */
  method FetchPages(reqs: seq<PageRequest>, fetch: PageRequest -> PageOutcome)
    returns (gathered: Result<seq<seq<SearxngRecord>>>)
    ensures gathered == FetchAll(reqs, fetch)
  {
    gathered := Success([]);
    var i := 0;
    while i < |reqs|
      invariant 0 <= i <= |reqs|
      invariant gathered == FetchAll(reqs[..i], fetch)
    {
      assert reqs[..i + 1][..i] == reqs[..i];
      if gathered.Success? {
        var outcome := fetch(reqs[i]);
        if outcome.PageFailure? {
          gathered := Failure(outcome.reason);
        } else {
          gathered := Success(gathered.value + [outcome.records]);
        }
      }
      i := i + 1;
    }
    assert reqs[..i] == reqs;
  }

  /** The loop of `search` that parses each page and extends the hit list with it. */
  method ParsePages(pages: seq<seq<SearxngRecord>>) returns (results: seq<SearchResult>)
    ensures |results| == |Flatten(pages)|
    ensures forall j :: 0 <= j < |results| ==> fresh(results[j]) && Mirrors(results[j], Flatten(pages)[j])
  {
    results := [];
    var k := 0;
    while k < |pages|
      invariant 0 <= k <= |pages|
      invariant |results| == |Flatten(pages[..k])|
      invariant forall j :: 0 <= j < |results| ==> fresh(results[j]) && Mirrors(results[j], Flatten(pages[..k])[j])
    {
      assert pages[..k + 1][..k] == pages[..k];
      var pageResults := ParseSearchResults(pages[k]);
      results := results + pageResults;
      k := k + 1;
    }
    assert pages[..k] == pages;
  }

  /**
   * `search`: build every page request, fetch them all, turn each page into
   * hits and extend the list page by page, then cut it to `num_results`.
   */
  method Search(config: SearxngConfig, params: SearchParams, fetch: PageRequest -> PageOutcome)
    returns (r: Result<seq<SearchResult>>)
    ensures r.Success? <==> SearchOutcome(config, params, fetch).Success?
    ensures r.Failure? ==> r.error == SearchOutcome(config, params, fetch).error
    ensures r.Success? ==>
      var records := SearchOutcome(config, params, fetch).value;
      |r.value| == |records| &&
      forall i :: 0 <= i < |records| ==> fresh(r.value[i]) && Mirrors(r.value[i], records[i])
  {
    var reqs := BuildRequests(config, params);
    var gathered := FetchPages(reqs, fetch);
    if gathered.Failure? {
      return Failure(gathered.error);
    }
    var results := ParsePages(gathered.value);
    r := Success(PyPrefix(results, params.numResults));
  }
}
