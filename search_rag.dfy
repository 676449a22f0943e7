/**
 * The retrieval pipeline: one search, whose hits go once, unchanged, to the
 * scraper, whose answer is returned as it is. The search engine is the Searxng
 * engine and the scraper the per-URL scraper, both with their outside calls
 * given as functions.
 */
module SearchRag {
  import opened Common
  import opened SearchTypes
  import opened WebScraping
  import opened Searxng

  /** A pipeline: the engine's configuration and page fetch, and the scraper with its network. */
  datatype Pipeline = Pipeline(
    engine: SearxngConfig,
    fetch: PageRequest -> PageOutcome,
    scraper: Scraper,
    net: Net)

  /** A hit once it has been scraped: the same url and title, the content as the scraper leaves it. */
  function Scraped(p: Pipeline, record: SearxngRecord): (hit: SearxngRecord)
    ensures hit.url == record.url && hit.title == record.title
    ensures !PageEffect(p.scraper, p.net, record.url).Replace? ==> hit.content == record.content
  {
    SearxngRecord(record.url, record.title, Apply(PageEffect(p.scraper, p.net, record.url), record.content))
  }

  /** Some hit's scraping task raised. */
  predicate AnyRaises(p: Pipeline, records: seq<SearxngRecord>)
  {
    exists i :: 0 <= i < |records| && PageEffect(p.scraper, p.net, records[i].url).Raise?
  }

  /** What scraping does to each of the search's records, in order. */
  function Effects(p: Pipeline, records: seq<SearxngRecord>): (effects: seq<Effect>)
    ensures |effects| == |records|
    ensures forall i :: 0 <= i < |records| ==> effects[i] == PageEffect(p.scraper, p.net, records[i].url)
  {
    seq(|records|, i requires 0 <= i < |records| => PageEffect(p.scraper, p.net, records[i].url))
  }

  /**
   * What `search_and_retrieve` answers: the search's failure if it fails (the
   * scraper then never runs), otherwise the exception of the first hit whose
   * scraping raised, otherwise every hit as scraped.
   */
  function Retrieve(p: Pipeline, params: SearchParams): (r: Result<seq<SearxngRecord>>)
    ensures SearchOutcome(p.engine, params, p.fetch).Failure? ==> r == SearchOutcome(p.engine, params, p.fetch)
  {
    var records :- SearchOutcome(p.engine, params, p.fetch);
    if AnyRaises(p, records) then
      FirstRaiseMeaning(Effects(p, records));
      Failure(FirstRaise(Effects(p, records)).value)
    else Success(seq(|records|, i requires 0 <= i < |records| => Scraped(p, records[i])))
  }

  /**
   * The pipeline never returns more than `num_results` hits, and hit `i` is the
   * search's hit `i`: same url and title, in the search engine's order.
   */
  lemma RetrieveKeepsSearchOrder(p: Pipeline, params: SearchParams)
    requires params.Valid()
    ensures Retrieve(p, params).Success? ==>
      var records := SearchOutcome(p.engine, params, p.fetch).value;
      var hits := Retrieve(p, params).value;
      |hits| == |records| <= params.numResults &&
      forall i :: 0 <= i < |hits| ==> hits[i].url == records[i].url && hits[i].title == records[i].title
  {
    SearchTruncates(p.engine, params, p.fetch);
  }

  /** A hit whose URL the scraper routes to a strategy that fails open comes back as the search gave it. */
  lemma FailedScrapeKeepsSearchContent(p: Pipeline, params: SearchParams, i: nat)
    requires Retrieve(p, params).Success?
    requires i < |Retrieve(p, params).value|
    requires !PageEffect(p.scraper, p.net, SearchOutcome(p.engine, params, p.fetch).value[i].url).Replace?
    ensures Retrieve(p, params).value[i] == SearchOutcome(p.engine, params, p.fetch).value[i]
  {
  }

  /** `search_and_retrieve`: search once, scrape the hits once, return what the scraper returns. */
  method SearchAndRetrieve(p: Pipeline, params: SearchParams) returns (r: Result<seq<SearchResult>>)
    ensures r.Success? <==> Retrieve(p, params).Success?
    ensures SearchOutcome(p.engine, params, p.fetch).Failure? ==> r == Failure(SearchOutcome(p.engine, params, p.fetch).error)
    ensures r.Failure? ==> r == Failure(Retrieve(p, params).error)
    ensures r.Success? ==>
      var hits := Retrieve(p, params).value;
      |r.value| == |hits| &&
      forall i :: 0 <= i < |hits| ==> fresh(r.value[i]) && Mirrors(r.value[i], hits[i])
  {
    var found := Search(p.engine, params, p.fetch);
    if found.Failure? {
      return Failure(found.error);
    }
    var scraped, effects := Scrape(p.scraper, p.net, found.value);
    assert effects == Effects(p, SearchOutcome(p.engine, params, p.fetch).value);
    FirstRaiseMeaning(effects);
    if scraped.Failure? {
      return Failure(scraped.error);
    }
    r := Success(scraped.value);
  }
}
