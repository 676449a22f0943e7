/**
 * The per-URL scraper: a dispatch rule picks one of three strategies (static
 * HTTP fetch, headless-browser render, Reddit API), and each strategy either
 * overwrites the hit's `content` or leaves it as it was. The network, the
 * browser, the Reddit client and the HTML parser are collaborators whose
 * answers are given as functions.
 */
module WebScraping {
  import opened Common
  import opened Strings
  import opened SearchTypes

  // ---------------------------------------------------------------------------
  // Collaborators

  /** The request the static strategy sends: the URL with the configured user agent and timeout. */
  datatype HttpRequest = HttpRequest(url: string, userAgent: string, timeout: int)

  /**
   * What `client.get(...)` followed by `raise_for_status()` can do: answer with a
   * status and a body, raise an `httpx.HTTPError` (transport failure, timeout),
   * or raise an exception of some other kind.
   */
  datatype HttpOutcome =
    | Response(status: int, text: string)
    | HttpError(reason: string)
    | OtherError(reason: string)

  /** What the headless crawler does: return a page whose `markdown` may be `None`, or raise. */
  datatype CrawlOutcome = Crawled(markdown: Option<string>) | CrawlError(reason: string)

  /** One entry of `submission.comments.list()`: a comment or a "more comments" placeholder. */
  datatype CommentNode = Comment(score: int, body: string) | MoreComments

  datatype Submission = Submission(title: string, score: int, selftext: string, comments: seq<CommentNode>)

  /** The shared HTTP client and the headless crawler, as the answers they give. */
  datatype Net = Net(get: HttpRequest -> HttpOutcome, crawl: string -> CrawlOutcome)

  /**
   * The scraper's configuration. `parse` stands for `html_parser.parse`, which sets
   * `content` from an HTML body; `redditClient` answers `submission(url=...)` or raises.
   */
  datatype Scraper = Scraper(
    config: SearchConfig,
    parse: string -> string,
    redditClient: Option<string -> Result<Submission>>,
    staticWebsites: seq<string>,
    redditPrefix: string)

  const DefaultRedditPrefix: string := "https://www.reddit.com"

  /** A scraper built with the field defaults: no Reddit client, no static sites, the reddit.com prefix. */
  function NewScraper(config: SearchConfig, parse: string -> string): Scraper
  {
    Scraper(config, parse, None, [], DefaultRedditPrefix)
  }

  // ---------------------------------------------------------------------------
  // Dispatch

  datatype Strategy = Static | Reddit | Dynamic

  /** `any(site in url for site in sites)`. */
  function AnyContained(sites: seq<string>, url: string): (b: bool)
    ensures b <==> exists k :: 0 <= k < |sites| && Contains(url, sites[k])
  {
    if sites == [] then false
    else if Contains(url, sites[0]) then true
    else
      var b := AnyContained(sites[1..], url);
      assert forall k :: 1 <= k < |sites| ==> sites[k] == sites[1..][k - 1];
      b
  }

  /**
   * The strategy for a URL. The static allow-list is checked first, then the
   * Reddit prefix (only with a client); everything else is rendered.
   */
  function Route(s: Scraper, url: string): (k: Strategy)
    ensures k == Static <==> exists site :: site in s.staticWebsites && Contains(url, site)
    ensures k == Reddit <==>
      (forall site :: site in s.staticWebsites ==> !Contains(url, site)) &&
      StartsWith(url, s.redditPrefix) && s.redditClient.Some?
  {
    if AnyContained(s.staticWebsites, url) then
      var k :| 0 <= k < |s.staticWebsites| && Contains(url, s.staticWebsites[k]);
      assert s.staticWebsites[k] in s.staticWebsites;
      Static
    else if StartsWith(url, s.redditPrefix) && s.redditClient.Some? then Reddit
    else Dynamic
  }

  /**
   * The allow-list is checked before the Reddit prefix: when a listed site
   * occurs in the prefix itself, every Reddit URL is fetched statically, even
   * with a Reddit client configured.
   */
  lemma RedditUrlOnAllowListIsStatic(s: Scraper, site: string, url: string)
    requires site in s.staticWebsites && Contains(s.redditPrefix, site)
    requires StartsWith(url, s.redditPrefix)
    ensures Route(s, url) == Static
  {
    ContainsInPrefix(url, s.redditPrefix, site);
  }

  /** With the defaults (no client, no allow-list) every URL is rendered dynamically. */
  lemma DefaultScraperRendersEverything(config: SearchConfig, parse: string -> string, url: string)
    ensures Route(NewScraper(config, parse), url) == Dynamic
  {
  }

  // ---------------------------------------------------------------------------
  // What a strategy does to `content`

  /** A strategy either replaces `content`, keeps it, or lets an exception escape. */
  datatype Effect = Replace(content: string) | Keep | Raise(reason: string)

  function Apply(e: Effect, content: string): string
  {
    if e.Replace? then e.content else content
  }

  predicate IsSuccessStatus(status: int)
  {
    200 <= status < 300
  }

  /**
   * The static strategy: a 2xx response is handed to the parser; a non-2xx status
   * or an `httpx.HTTPError` keeps the content; any other exception escapes.
   */
  function StaticEffect(s: Scraper, net: Net, url: string): Effect
  {
    match net.get(HttpRequest(url, s.config.userAgent, s.config.timeout))
    case Response(status, text) => if IsSuccessStatus(status) then Replace(s.parse(text)) else Keep
    case HttpError(_) => Keep
    case OtherError(reason) => Raise(reason)
  }

  /** The dynamic strategy: the page's markdown as a string (`str(None)` when absent); keeps on failure. */
  function DynamicEffect(net: Net, url: string): Effect
  {
    match net.crawl(url)
    case Crawled(markdown) => Replace(if markdown.Some? then markdown.value else "None")
    case CrawlError(_) => Keep
  }

  /** The Reddit strategy: the formatted thread; keeps on failure; raises without a client. */
  function RedditEffect(s: Scraper, url: string): Effect
  {
    match s.redditClient
    case None => Raise("Reddit client is not initialized")
    case Some(client) =>
      match client(url)
      case Success(submission) => Replace(RedditContent(submission))
      case Failure(_) => Keep
  }

  /** What scraping one URL does, after dispatch. */
  function PageEffect(s: Scraper, net: Net, url: string): Effect
  {
    match Route(s, url)
    case Static => StaticEffect(s, net, url)
    case Reddit => RedditEffect(s, url)
    case Dynamic => DynamicEffect(net, url)
  }

  /** On an HTTP failure the static strategy keeps the content and never consults the parser. */
  lemma StaticFailureKeepsContent(s: Scraper, net: Net, url: string, otherParse: string -> string)
    requires
      var answer := net.get(HttpRequest(url, s.config.userAgent, s.config.timeout));
      answer.HttpError? || (answer.Response? && !IsSuccessStatus(answer.status))
    ensures StaticEffect(s, net, url) == Keep
    ensures StaticEffect(s.(parse := otherParse), net, url) == Keep
  {
  }

  /** The dynamic strategy never raises, and keeps the content exactly when the crawler fails. */
  lemma DynamicFailOpen(net: Net, url: string)
    ensures !DynamicEffect(net, url).Raise?
    ensures DynamicEffect(net, url) == Keep <==> net.crawl(url).CrawlError?
  {
  }

  /**
   * Once dispatch has chosen Reddit the client exists, so the strategy never
   * raises; it keeps the content exactly when the client fails.
   */
  lemma RedditFailOpen(s: Scraper, url: string)
    requires Route(s, url) == Reddit
    ensures !RedditEffect(s, url).Raise?
    ensures RedditEffect(s, url) == Keep <==> s.redditClient.value(url).Failure?
  {
  }

  /** Only a non-HTTP exception during a static fetch escapes the scraper. */
  lemma PageEffectRaises(s: Scraper, net: Net, url: string)
    ensures PageEffect(s, net, url).Raise? <==>
      Route(s, url) == Static && net.get(HttpRequest(url, s.config.userAgent, s.config.timeout)).OtherError?
  {
  }

  /** Applying a page's effect twice is applying it once. */
  lemma ApplyIdempotent(e: Effect, content: string)
    ensures Apply(e, Apply(e, content)) == Apply(e, content)
  {
  }

  // ---------------------------------------------------------------------------
  // Reddit thread text

  function Header(submission: Submission): string
  {
    "Title: " + submission.title + " (Upvotes:" + IntToString(submission.score) + ")\nContent: " +
    submission.selftext + "\nComments:\n"
  }

  /** The line for the entry at enumerate index `i`; a placeholder contributes nothing. */
  function CommentLine(i: nat, node: CommentNode): string
  {
    match node
    case MoreComments => ""
    case Comment(score, body) => NatToString(i) + ". (Upvotes:" + IntToString(score) + ") " + body + "\n"
  }

  /** The lines for `nodes`, whose first entry has enumerate index `from`. */
  function CommentLines(nodes: seq<CommentNode>, from: nat): string
  {
    if nodes == [] then "" else CommentLine(from, nodes[0]) + CommentLines(nodes[1..], from + 1)
  }

  /** The whole content the Reddit strategy writes for a submission. */
  function RedditContent(submission: Submission): string
  {
    Header(submission) + CommentLines(submission.comments, 0)
  }

  lemma {:induction false} CommentLinesAppend(nodes: seq<CommentNode>, node: CommentNode, from: nat)
    ensures CommentLines(nodes + [node], from) == CommentLines(nodes, from) + CommentLine(from + |nodes|, node)
  {
    if nodes != [] {
      assert (nodes + [node])[1..] == nodes[1..] + [node];
      CommentLinesAppend(nodes[1..], node, from + 1);
      ConcatAssoc(CommentLine(from, nodes[0]), CommentLines(nodes[1..], from + 1), CommentLine(from + |nodes|, node));
    } else {
      assert [node][1..] == [];
      assert CommentLines([node], from) == CommentLine(from, node) + CommentLines([], from + 1);
    }
  }

  /** Extending the enumerated prefix by one entry appends that entry's line. */
  lemma CommentLinesStep(nodes: seq<CommentNode>, i: nat)
    requires i < |nodes|
    ensures CommentLines(nodes[..i + 1], 0) == CommentLines(nodes[..i], 0) + CommentLine(i, nodes[i])
  {
    assert nodes[..i + 1] == nodes[..i] + [nodes[i]];
    CommentLinesAppend(nodes[..i], nodes[i], 0);
  }

  /** A placeholder prints nothing but still uses up its index: the next comment is numbered one higher. */
  lemma {:induction false} PlaceholderSkipsIndex(nodes: seq<CommentNode>, from: nat)
    ensures CommentLines([MoreComments] + nodes, from) == CommentLines(nodes, from + 1)
  {
    assert ([MoreComments] + nodes)[1..] == nodes;
  }

  /**
   * Builds the thread text as the source does: the header, then one line per
   * comment in API order, numbered by its position in the list.
   */
  method FormatSubmission(submission: Submission) returns (content: string)
    ensures content == RedditContent(submission)
  {
    var nodes := submission.comments;
    content := "Title: " + submission.title + " (Upvotes:" + IntToString(submission.score) + ")\nContent: " +
      submission.selftext + "\nComments:\n";
    assert nodes[..0] == [];
    var i := 0;
    while i < |nodes|
      invariant 0 <= i <= |nodes|
      invariant content == Header(submission) + CommentLines(nodes[..i], 0)
    {
      CommentLinesStep(nodes, i);
      if nodes[i].MoreComments? {
        i := i + 1;
        continue;
      }
      var line := NatToString(i) + ". (Upvotes:" + IntToString(nodes[i].score) + ") " + nodes[i].body + "\n";
      ConcatAssoc(Header(submission), CommentLines(nodes[..i], 0), line);
      content := content + line;
      i := i + 1;
    }
    assert nodes[..i] == nodes;
  }

  // ---------------------------------------------------------------------------
  // The strategies and the scraper, updating hits in place

  /** The outcome of a strategy that raised, if any. */
  function Raised(e: Effect): Option<string>
  {
    if e.Raise? then Some(e.reason) else None
  }

  method FetchStatic(s: Scraper, net: Net, result: SearchResult) returns (raised: Option<string>)
    modifies result
    ensures result.content == Apply(StaticEffect(s, net, result.url), old(result.content))
    ensures raised == Raised(StaticEffect(s, net, result.url))
  {
    raised := None;
    var answer := net.get(HttpRequest(result.url, s.config.userAgent, s.config.timeout));
    match answer {
      case Response(status, text) =>
        if IsSuccessStatus(status) {
          result.content := s.parse(text);
        }
      case HttpError(_) =>
      case OtherError(reason) =>
        raised := Some(reason);
    }
  }

  method FetchDynamic(net: Net, result: SearchResult) returns (raised: Option<string>)
    modifies result
    ensures result.content == Apply(DynamicEffect(net, result.url), old(result.content))
    ensures raised == None
  {
    raised := None;
    var answer := net.crawl(result.url);
    if answer.Crawled? {
      result.content := if answer.markdown.Some? then answer.markdown.value else "None";
    }
  }

  method FetchReddit(s: Scraper, result: SearchResult) returns (raised: Option<string>)
    modifies result
    ensures result.content == Apply(RedditEffect(s, result.url), old(result.content))
    ensures raised == Raised(RedditEffect(s, result.url))
  {
    if s.redditClient.None? {
      return Some("Reddit client is not initialized");
    }
    raised := None;
    var answer := s.redditClient.value(result.url);
    if answer.Success? {
      var content := FormatSubmission(answer.value);
      result.content := content;
    }
  }

  /** `_fetch_and_parse_page`: dispatch, then run the chosen strategy on the hit. */
  method FetchAndParsePage(s: Scraper, net: Net, result: SearchResult) returns (raised: Option<string>)
    modifies result
    ensures result.content == Apply(PageEffect(s, net, result.url), old(result.content))
    ensures raised == Raised(PageEffect(s, net, result.url))
  {
    var url := result.url;
    if AnyContained(s.staticWebsites, url) {
      raised := FetchStatic(s, net, result);
    } else if StartsWith(url, s.redditPrefix) && s.redditClient.Some? {
      raised := FetchReddit(s, result);
    } else {
      raised := FetchDynamic(net, result);
    }
  }

  /**
   * The exception `asyncio.gather` re-raises for tasks with these effects: that
   * of the first task, in order, that raised, if any did.
   */
  function FirstRaise(effects: seq<Effect>): Option<string>
  {
    if effects == [] then None
    else
      var init := FirstRaise(effects[..|effects| - 1]);
      if init.Some? then init else Raised(effects[|effects| - 1])
  }

  /** An exception is re-raised exactly when some task raises. */
  lemma {:induction false} FirstRaiseMeaning(effects: seq<Effect>)
    ensures FirstRaise(effects).None? <==> forall j :: 0 <= j < |effects| ==> !effects[j].Raise?
  {
    if effects != [] {
      var init := effects[..|effects| - 1];
      FirstRaiseMeaning(init);
      assert forall j :: 0 <= j < |init| ==> init[j] == effects[j];
    }
  }

  /** When task `j` is the first that raises, its exception is the one re-raised. */
  lemma {:induction false} FirstRaiseAt(effects: seq<Effect>, j: int)
    requires 0 <= j < |effects| && effects[j].Raise?
    requires forall m :: 0 <= m < j ==> !effects[m].Raise?
    ensures FirstRaise(effects) == Some(effects[j].reason)
  {
    var init := effects[..|effects| - 1];
    if j < |effects| - 1 {
      assert forall m :: 0 <= m <= j ==> init[m] == effects[m];
      FirstRaiseAt(init, j);
    } else {
      assert forall m :: 0 <= m < j ==> init[m] == effects[m];
      FirstRaiseMeaning(init);
    }
  }

  /** The contents of the hits, in order. */
  function ContentsOf(results: seq<SearchResult>): (contents: seq<string>)
    reads set x | x in results
    ensures |contents| == |results| && forall j :: 0 <= j < |results| ==> contents[j] == results[j].content
  {
    seq(|results|, j requires 0 <= j < |results| reads set x | x in results => results[j].content)
  }

  /** What each hit's strategy does, in order. */
  function EffectsOf(s: Scraper, net: Net, results: seq<SearchResult>): (effects: seq<Effect>)
    ensures |effects| == |results| && forall j :: 0 <= j < |results| ==> effects[j] == PageEffect(s, net, results[j].url)
  {
    seq(|results|, j requires 0 <= j < |results| => PageEffect(s, net, results[j].url))
  }

  /**
   * Hit `j` holds the result of effect `j` on content `j` when it is one of the
   * objects in `done`, and content `j` otherwise.
   */
  ghost predicate ScrapedSoFar(results: seq<SearchResult>, effects: seq<Effect>, done: set<SearchResult>, contents: seq<string>)
    reads set x | x in results
  {
    && |effects| == |contents| == |results|
    && forall j :: 0 <= j < |results| ==>
      results[j].content == if results[j] in done then Apply(effects[j], contents[j]) else contents[j]
  }

  /** Task `i` of `scrape`: scrape hit `i` in place. */
  method ScrapeHit(s: Scraper, net: Net, results: seq<SearchResult>, i: int,
                   ghost effects: seq<Effect>, ghost done: set<SearchResult>, ghost orig: seq<string>)
    returns (raised: Option<string>)
    requires 0 <= i < |results| && ScrapedSoFar(results, effects, done, orig)
    requires effects == EffectsOf(s, net, results)
    modifies results[i]
    ensures ScrapedSoFar(results, effects, done + {results[i]}, orig)
    ensures raised == Raised(effects[i])
  {
    var hit := results[i];
    raised := FetchAndParsePage(s, net, hit);
    forall j | 0 <= j < |results|
      ensures results[j].content == if results[j] in done + {hit} then Apply(effects[j], orig[j]) else orig[j]
    {
      if results[j] == hit {
        ApplyIdempotent(effects[j], orig[j]);
      } else {
        assert results[j].content == old(results[j].content);
      }
    }
  }

  /**
   * `scrape`: one task per hit, joined in input order. Every hit's content is
   * replaced or kept; the returned list is the input list itself; the call fails
   * exactly when some task let an exception escape, with the first such exception.
   */
  method Scrape(s: Scraper, net: Net, results: seq<SearchResult>) returns (r: Result<seq<SearchResult>>, ghost effects: seq<Effect>)
    modifies set x | x in results
    ensures effects == EffectsOf(s, net, results)
    ensures forall j :: 0 <= j < |results| ==> results[j].content == Apply(effects[j], old(results[j].content))
    ensures r.Success? <==> FirstRaise(effects).None?
    ensures r.Failure? ==> Some(r.error) == FirstRaise(effects)
    ensures r.Success? ==> r.value == results
  {
    var failure: Option<string> := None;
    effects := EffectsOf(s, net, results);
    ghost var orig := ContentsOf(results);
    ghost var done: set<SearchResult> := {};
    var i := 0;
    while i < |results|
      invariant 0 <= i <= |results|
      invariant ScrapedSoFar(results, effects, done, orig)
      invariant forall j :: 0 <= j < i ==> results[j] in done
      invariant failure == FirstRaise(effects[..i])
    {
      var raised := ScrapeHit(s, net, results, i, effects, done, orig);
      ghost var doneBefore := done;
      done := done + {results[i]};
      assert forall j :: 0 <= j <= i ==> results[j] in done by {
        forall j | 0 <= j <= i ensures results[j] in done {
          if j < i { assert results[j] in doneBefore; }
        }
      }
      assert effects[..i + 1][..i] == effects[..i];
      if failure.None? && raised.Some? {
        failure := raised;
      }
      i := i + 1;
    }
    assert effects[..i] == effects;
    if failure.Some? {
      r := Failure(failure.value);
    } else {
      r := Success(results);
    }
  }

}
