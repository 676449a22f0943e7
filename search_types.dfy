/**
 * The records the web-search pipeline passes around: the search hit whose
 * content is rewritten in place, the parameters of one search, and the
 * configuration shared by the search engine and the scraper.
 */
module SearchTypes {
  import opened Common

  /**
   * One search hit. The same object travels from the search engine through the
   * scraper, which overwrites `content` in place; `url` and `title` are set once.
   */
  class SearchResult {
    const url: string
    const title: string
    var content: string

    constructor (url: string, title: string, content: string)
      ensures this.url == url && this.title == title && this.content == content
    {
      this.url := url;
      this.title := title;
      this.content := content;
    }
  }

  /** The time filter of a search; each member stands for its string value. */
  datatype SearchTimeRange = Day | Month | Year
  {
    function Value(): string
    {
      match this
      case Day => "day"
      case Month => "month"
      case Year => "year"
    }
  }

  /** `SearchTimeRange(s)`: looks a member up by its value and raises `ValueError` otherwise. */
  function TimeRangeFromValue(s: string): (r: Result<SearchTimeRange>)
    ensures r.Success? ==> r.value.Value() == s
    ensures r.Failure? ==> forall t: SearchTimeRange :: t.Value() != s
  {
    if s == "day" then Success(Day)
    else if s == "month" then Success(Month)
    else if s == "year" then Success(Year)
    else Failure("ValueError: '" + s + "' is not a valid SearchTimeRange")
  }

  /** Every member is found again from its own value, so the three values are distinct. */
  lemma TimeRangeRoundTrip(t: SearchTimeRange)
    ensures TimeRangeFromValue(t.Value()) == Success(t)
  {
  }

  /** The parameters of one search. */
  datatype SearchParams = SearchParams(
    query: string,
    website: Option<string>,
    numResults: int,
    timeRange: Option<SearchTimeRange>)
  {
    /** The field bound the record validates on construction. */
    predicate Valid()
    {
      numResults >= 1
    }
  }

  /**
   * `SearchParams(query=..., ...)`: `query` has no default; the others default to
   * no website, ten results and no time range; `num_results` below 1 is rejected.
   */
  function NewSearchParams(
    query: string,
    website: Option<string> := None,
    numResults: int := 10,
    timeRange: Option<SearchTimeRange> := None): (r: Result<SearchParams>)
    ensures r.Success? <==> numResults >= 1
    ensures r.Success? ==> r.value.Valid()
    ensures r.Success? ==> r.value == SearchParams(query, website, numResults, timeRange)
  {
    if numResults >= 1 then Success(SearchParams(query, website, numResults, timeRange))
    else Failure("ValidationError: num_results must be greater than or equal to 1")
  }

  /** With only a query, a search asks for ten results, on any site, at any time. */
  lemma SearchParamsDefaults(query: string)
    ensures NewSearchParams(query) == Success(SearchParams(query, None, 10, None))
  {
  }

  const DefaultUserAgent: string :=
    "Mozilla/5.0 (Windows NT 10.0; Win64; x64) AppleWebKit/537.36 (KHTML, like Gecko) Chrome/118.0.0.0 Safari/537.36"

  /** Configuration shared by the search engine and the scraper. */
  datatype SearchConfig = SearchConfig(
    resultsPerPage: int,
    maxPages: int,
    userAgent: string,
    timeout: int)
  {
    predicate Valid()
    {
      resultsPerPage >= 1 && maxPages >= 1 && timeout >= 1
    }
  }

  /** `SearchConfig(...)`: every bound field is at least 1; defaults 10 per page, 3 pages, 10 seconds. */
  function NewSearchConfig(
    resultsPerPage: int := 10,
    maxPages: int := 3,
    userAgent: string := DefaultUserAgent,
    timeout: int := 10): (r: Result<SearchConfig>)
    ensures r.Success? <==> resultsPerPage >= 1 && maxPages >= 1 && timeout >= 1
    ensures r.Success? ==> r.value.Valid()
    ensures r.Success? ==> r.value == SearchConfig(resultsPerPage, maxPages, userAgent, timeout)
  {
    if resultsPerPage < 1 then Failure("ValidationError: results_per_page must be greater than or equal to 1")
    else if maxPages < 1 then Failure("ValidationError: max_pages must be greater than or equal to 1")
    else if timeout < 1 then Failure("ValidationError: timeout must be greater than or equal to 1")
    else Success(SearchConfig(resultsPerPage, maxPages, userAgent, timeout))
  }

  /** The configuration of the Searxng engine: a `SearchConfig` plus the instance's base URL. */
  datatype SearxngConfig = SearxngConfig(search: SearchConfig, baseUrl: string)
  {
    predicate Valid()
    {
      search.Valid()
    }
  }

  const DefaultSearxngUrl: string := "https://searx.space/"

  function NewSearxngConfig(
    baseUrl: string := DefaultSearxngUrl,
    resultsPerPage: int := 10,
    maxPages: int := 3,
    userAgent: string := DefaultUserAgent,
    timeout: int := 10): (r: Result<SearxngConfig>)
    ensures r.Success? <==> resultsPerPage >= 1 && maxPages >= 1 && timeout >= 1
    ensures r.Success? ==> r.value.Valid() && r.value.baseUrl == baseUrl
    ensures r.Success? ==> r.value.search == SearchConfig(resultsPerPage, maxPages, userAgent, timeout)
  {
    var c :- NewSearchConfig(resultsPerPage, maxPages, userAgent, timeout);
    Success(SearxngConfig(c, baseUrl))
  }

  /** The defaults: 10 results per page, 3 pages, a 10-second timeout, the public searx.space instance. */
  lemma SearchConfigDefaults()
    ensures NewSearchConfig() == Success(SearchConfig(10, 3, DefaultUserAgent, 10))
    ensures NewSearxngConfig() == Success(SearxngConfig(SearchConfig(10, 3, DefaultUserAgent, 10), "https://searx.space/"))
  {
  }
}
