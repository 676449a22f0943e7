/**
 * The Open WebUI web-search tool: the validation of the query list, the
 * request parameters built for each query (with the time range picked from a
 * free-form string), the in-place clean-up of every result inside its query
 * group, and the excerpt helper. The search API is a function from request
 * parameters to outcome; the text clean-up is `TextProcessing`.
 */
module WebSearchTool {
  import opened Common
  import opened Strings
  import opened TextProcessing

  /** The tool's settings (`Tools.Valves`). */
  datatype Valves = Valves(apiUrl: string, numResults: int, pageContentWordsLimit: int, citationLinks: bool)

  const DefaultValves: Valves := Valves("https://example.com/search", 3, 5000, false)

  /** At most this many queries are accepted in one call. */
  const MaxQueries: nat := 3

  const InvalidQueriesMessage: string := "Invalid queries format, please provide a list of queries"
  const TooManyQueriesMessage: string := "Too many queries, please reduce the number of queries"

  // ---------------------------------------------------------------------------
  // Excerpts

  /**
   * `generate_excerpt`: content no longer than `maxLength` is returned as it
   * is; longer content is cut with `content[:maxLength]` and marked with "...".
   */
  function GenerateExcerpt(content: string, maxLength: int := 200): (r: string)
    ensures |content| <= maxLength ==> r == content
    ensures |content| > maxLength ==>
      |r| >= 3 && r[|r| - 3..] == "..." && StartsWith(content, r[..|r| - 3])
    ensures |content| > maxLength >= 0 ==> |r| == maxLength + 3
  {
    if |content| > maxLength then
      var cut := PyPrefix(content, maxLength);
      var r := cut + "...";
      assert r[..|r| - 3] == cut;
      r
    else content
  }

  /** The default excerpt keeps 200 characters of a longer text and adds "...". */
  lemma DefaultExcerptLength(content: string)
    requires |content| > 200
    ensures |GenerateExcerpt(content)| == 203
    ensures GenerateExcerpt(content)[..200] == content[..200]
  {
  }

  // ---------------------------------------------------------------------------
  // Request parameters

  /** The `time_range` entry of the request: missing, `None`, or one of the keywords. */
  datatype TimeRangeParam = Absent | NoneValue | Keyword(word: string)

  /** The keywords, in the order they are tried. */
  const TimeRangeKeywords: seq<string> := ["day", "month", "year"]

  /**
   * The time range sent for the tool's `time_range` argument: `None` for an
   * empty argument; otherwise the first keyword, in the order day, month,
   * year, that occurs in the lower-cased argument; and no entry at all when
   * none occurs.
   */
  function SelectTimeRange(timeRange: string): TimeRangeParam
  {
    if timeRange == [] then NoneValue
    else
      var low := Lower(timeRange);
      if Contains(low, "day") then Keyword("day")
      else if Contains(low, "month") then Keyword("month")
      else if Contains(low, "year") then Keyword("year")
      else Absent
  }

  /**
   * The selected range is `None` exactly for an empty argument, no entry
   * exactly when no keyword occurs, and otherwise the first keyword in the
   * list order that occurs in the lower-cased argument.
   */
  lemma SelectTimeRangeMeaning(timeRange: string)
    ensures var r := SelectTimeRange(timeRange);
      && (r.NoneValue? <==> timeRange == [])
      && (r.Absent? <==>
        timeRange != [] && forall k :: 0 <= k < |TimeRangeKeywords| ==> !Contains(Lower(timeRange), TimeRangeKeywords[k]))
      && (r.Keyword? ==>
        exists k :: 0 <= k < |TimeRangeKeywords| && r.word == TimeRangeKeywords[k] &&
          Contains(Lower(timeRange), TimeRangeKeywords[k]) &&
          forall m :: 0 <= m < k ==> !Contains(Lower(timeRange), TimeRangeKeywords[m]))
  {
    assert TimeRangeKeywords[0] == "day" && TimeRangeKeywords[1] == "month" && TimeRangeKeywords[2] == "year";
  }

  /** The keyword order decides, not the position in the text: "Month or Day" asks for a day. */
  lemma KeywordOrderWins()
    ensures SelectTimeRange("Month or Day") == Keyword("day")
  {
    var low := Lower("Month or Day");
    assert low == "month or day";
    assert OccursAt(low, "day", 9);
  }

  /** The parameters of one request to the search API. */
  datatype RequestParams = RequestParams(
    query: string,
    numberOfResults: int,
    timeRange: TimeRangeParam,
    website: Option<string>)

  /** The request for one query: the valve's result count, the selected time range, and the website if non-empty. */
  function QueryParams(valves: Valves, query: string, timeRange: string, website: string): (p: RequestParams)
    ensures p.query == query && p.numberOfResults == valves.numResults
    ensures p.timeRange == SelectTimeRange(timeRange)
    ensures p.website.Some? <==> website != []
    ensures p.website.Some? ==> p.website.value == website
  {
    RequestParams(query, valves.numResults, SelectTimeRange(timeRange), if website == [] then None else Some(website))
  }

  /**
   * The parameter building of `call_search_and_scrape_query`: a dictionary
   * filled step by step, the time range found by a loop over the keywords
   * that stops at the first hit.
   */
  method BuildQueryParams(valves: Valves, query: string, timeRange: string, website: string)
    returns (p: RequestParams)
    ensures p == QueryParams(valves, query, timeRange, website)
  {
    var tr: TimeRangeParam;
    if timeRange != [] {
      tr := Absent;
      var low := Lower(timeRange);
      assert TimeRangeKeywords[0] == "day" && TimeRangeKeywords[1] == "month" && TimeRangeKeywords[2] == "year";
      var i := 0;
      while i < |TimeRangeKeywords|
        invariant 0 <= i <= |TimeRangeKeywords|
        invariant forall k :: 0 <= k < i ==> !Contains(low, TimeRangeKeywords[k])
      {
        if Contains(low, TimeRangeKeywords[i]) {
          tr := Keyword(TimeRangeKeywords[i]);
          break;
        }
        i := i + 1;
      }
    } else {
      tr := NoneValue;
    }
    var site: Option<string>;
    if website != [] {
      site := Some(website);
    } else {
      site := None;
    }
    p := RequestParams(query, valves.numResults, tr, site);
  }

  // ---------------------------------------------------------------------------
  // Query groups and their in-place processing

  /** What the search API answers for one request: its `results` entry (possibly missing), or the exception it raised. */
  datatype ApiOutcome = ApiOk(results: Option<seq<map<string, string>>>) | ApiFailure(reason: string)

  /** One query's results (`SearchResults`), rewritten in place by `process_results`. */
  class QueryGroup {
    var query: string
    var results: seq<map<string, string>>

    constructor (query: string, results: seq<map<string, string>>)
      ensures this.query == query && this.results == results
    {
      this.query := query;
      this.results := results;
    }
  }

  /** No group object is listed twice. */
  predicate Distinct(groups: seq<QueryGroup>)
  {
    forall i, j :: 0 <= i < j < |groups| ==> groups[i] != groups[j]
  }

  /** Appending a group not yet listed keeps the list free of repeats. */
  lemma DistinctAppend(groups: seq<QueryGroup>, g: QueryGroup)
    requires Distinct(groups) && g !in groups
    ensures Distinct(groups + [g])
  {
  }

  /** Every result carries a `content` entry. */
  predicate AllHaveContent(results: seq<map<string, string>>)
  {
    forall k :: 0 <= k < |results| ==> "content" in results[k]
  }

  /** The results of one group after processing, when each of them has a `content` entry. */
  function ProcessedResults(results: seq<map<string, string>>, limit: int, t: UnicodeTables): (out: seq<map<string, string>>)
    requires AllHaveContent(results)
    ensures |out| == |results|
    ensures forall k :: 0 <= k < |results| ==> ProcessSearchResult(results[k], limit, t) == Success(out[k])
  {
    seq(|results|, k requires 0 <= k < |results| => ProcessSearchResult(results[k], limit, t).value)
  }

  /**
   * The loop over `original` stopped at entry `j`: `step` raised there, every
   * earlier entry was replaced by what `step` gave, and the rest are as they were.
   */
  ghost predicate StoppedAt(
    original: seq<map<string, string>>, results: seq<map<string, string>>,
    step: map<string, string> -> Result<map<string, string>>, j: int)
  {
    && 0 <= j < |original| == |results|
    && step(original[j]).Failure?
    && (forall m :: 0 <= m < j ==> step(original[m]) == Success(results[m]))
    && (forall m :: j <= m < |original| ==> results[m] == original[m])
  }

  /**
   * A group left behind by `KeyError('content')` at result `j`: result `j` has
   * no `content`, the earlier ones are processed, the rest untouched.
   */
  ghost predicate PartlyProcessed(original: seq<map<string, string>>, results: seq<map<string, string>>, limit: int, t: UnicodeTables, j: int)
  {
    && 0 <= j < |original| == |results|
    && "content" !in original[j]
    && (forall m :: 0 <= m < j ==> ProcessSearchResult(original[m], limit, t) == Success(results[m]))
    && (forall m :: j <= m < |original| ==> results[m] == original[m])
  }

  /**
   * The inner loop of `process_results` over one group: each result is
   * replaced by its processed form, in place; the first result without
   * `content` raises `KeyError('content')`.
   */
  method ProcessGroup(g: QueryGroup, limit: int, t: UnicodeTables) returns (raised: Option<string>)
    modifies g
    ensures g.query == old(g.query) && |g.results| == |old(g.results)|
    ensures raised.None? <==> AllHaveContent(old(g.results))
    ensures raised.Some? ==> raised.value == "'content'"
    ensures raised.Some? ==> exists j :: PartlyProcessed(old(g.results), g.results, limit, t, j)
    ensures raised.None? ==> g.results == ProcessedResults(old(g.results), limit, t)
  {
    var original := g.results;
    var step := r => ProcessSearchResult(r, limit, t);
    var results;
    results, raised := MapUntilRaise(original, step);
    StepIsProcessing(original, results, raised, step, limit, t);
    g.results := results;
  }

  /** What `MapUntilRaise` promises, read for the step that processes one search result. */
  lemma StepIsProcessing(
    original: seq<map<string, string>>, results: seq<map<string, string>>, raised: Option<string>,
    step: map<string, string> -> Result<map<string, string>>, limit: int, t: UnicodeTables)
    requires forall r :: step(r) == ProcessSearchResult(r, limit, t)
    requires |results| == |original|
    requires raised.None? <==> forall j :: 0 <= j < |original| ==> step(original[j]).Success?
    requires raised.Some? ==> exists j :: StoppedAt(original, results, step, j) && step(original[j]) == Failure(raised.value)
    requires raised.None? ==> forall j :: 0 <= j < |original| ==> step(original[j]) == Success(results[j])
    ensures raised.None? <==> AllHaveContent(original)
    ensures raised.Some? ==> raised.value == "'content'"
    ensures raised.Some? ==> exists j :: PartlyProcessed(original, results, limit, t, j)
    ensures raised.None? ==> results == ProcessedResults(original, limit, t)
  {
    if raised.Some? {
      var j :| StoppedAt(original, results, step, j) && step(original[j]) == Failure(raised.value);
      assert ProcessSearchResult(original[j], limit, t).Failure?;
      forall m | 0 <= m < j
        ensures ProcessSearchResult(original[m], limit, t) == Success(results[m])
      {
        assert step(original[m]) == Success(results[m]);
      }
      assert PartlyProcessed(original, results, limit, t, j);
    } else {
      var out := ProcessedResults(original, limit, t);
      forall k | 0 <= k < |original|
        ensures results[k] == out[k]
      {
        assert step(original[k]) == Success(results[k]);
      }
    }
  }

  /**
   * The loop of `ProcessGroup` on the list itself: each entry is replaced by
   * what `step` gives for it, and the first entry for which `step` raises
   * stops the loop, leaving the earlier entries replaced and the rest as they were.
   */
  method MapUntilRaise(original: seq<map<string, string>>, step: map<string, string> -> Result<map<string, string>>)
    returns (results: seq<map<string, string>>, raised: Option<string>)
    ensures |results| == |original|
    ensures raised.None? <==> forall j :: 0 <= j < |original| ==> step(original[j]).Success?
    ensures raised.Some? ==> exists j :: StoppedAt(original, results, step, j) && step(original[j]) == Failure(raised.value)
    ensures raised.None? ==> forall j :: 0 <= j < |original| ==> step(original[j]) == Success(results[j])
  {
    results := original;
    var i := 0;
    while i < |results|
      invariant 0 <= i <= |results| == |original|
      invariant forall j :: 0 <= j < i ==> step(original[j]) == Success(results[j])
      invariant forall j :: i <= j < |results| ==> results[j] == original[j]
    {
      var processed := step(results[i]);
      if processed.Failure? {
        assert StoppedAt(original, results, step, i);
        return results, Some(processed.error);
      }
      results := results[i := processed.value];
      i := i + 1;
    }
    raised := None;
  }

  /**
   * `process_results`: every group's results are replaced in place, keeping
   * the number and order of groups and of results; a result without `content`
   * stops the processing with `KeyError('content')`.
   */
  method ProcessResults(groups: seq<QueryGroup>, limit: int, t: UnicodeTables) returns (r: Result<seq<QueryGroup>>)
    requires Distinct(groups)
    modifies set g | g in groups
    ensures forall i :: 0 <= i < |groups| ==>
      groups[i].query == old(groups[i].query) && |groups[i].results| == |old(groups[i].results)|
    ensures r.Success? <==> forall i :: 0 <= i < |groups| ==> AllHaveContent(old(groups[i].results))
    ensures r.Failure? ==> r.error == "'content'"
    ensures r.Success? ==> r.value == groups
    ensures r.Success? ==> forall i :: 0 <= i < |groups| ==>
      groups[i].results == ProcessedResults(old(groups[i].results), limit, t)
    ensures r.Failure? ==> exists i ::
      && 0 <= i < |groups|
      && (forall j :: 0 <= j < i ==>
            AllHaveContent(old(groups[j].results)) &&
            groups[j].results == ProcessedResults(old(groups[j].results), limit, t))
      && (exists k :: PartlyProcessed(old(groups[i].results), groups[i].results, limit, t, k))
      && (forall j :: i < j < |groups| ==> groups[j].results == old(groups[j].results))
  {
    var i := 0;
    while i < |groups|
      invariant 0 <= i <= |groups|
      invariant forall j :: 0 <= j < |groups| ==>
        groups[j].query == old(groups[j].query) && |groups[j].results| == |old(groups[j].results)|
      invariant forall j :: 0 <= j < i ==>
        AllHaveContent(old(groups[j].results)) && groups[j].results == ProcessedResults(old(groups[j].results), limit, t)
      invariant forall j :: i <= j < |groups| ==> groups[j].results == old(groups[j].results)
    {
      var raised := ProcessGroup(groups[i], limit, t);
      if raised.Some? {
        r := Failure(raised.value);
        assert 0 <= i < |groups|;
        return;
      }
      i := i + 1;
    }
    r := Success(groups);
  }

  // ---------------------------------------------------------------------------
  // The tool call

  /** The tool's `queries` argument: a list, or anything else the caller passed. */
  datatype QueriesArg = NotAList | QueryList(items: seq<string>)

  /** One query group as it is serialised into the reply. */
  datatype QueryAnswer = QueryAnswer(query: string, results: seq<map<string, string>>)

  /** The reply of `search_web`: an error message, or the processed query groups. */
  /**
   * What `search_web` gives back: a JSON error object, the dumped groups, or a
   * `KeyError` that escapes the call (its text is the quoted key).
   */
  datatype Reply = ErrorReply(error: string) | Answers(groups: seq<QueryAnswer>) | Raised(key: string)

  /** `call_search_and_scrape_query` for one query: a missing `results` entry counts as no results. */
  function AnswerFor(valves: Valves, query: string, timeRange: string, website: string, api: RequestParams -> ApiOutcome): Result<QueryAnswer>
  {
    match api(QueryParams(valves, query, timeRange, website))
    case ApiFailure(reason) => Failure(reason)
    case ApiOk(results) => Success(QueryAnswer(query, if results.Some? then results.value else []))
  }

  /** `search_and_scrape`: all queries, answers in query order, or the failure of the first query that failed. */
  function GatherAnswers(valves: Valves, queries: seq<string>, timeRange: string, website: string, api: RequestParams -> ApiOutcome)
    : (r: Result<seq<QueryAnswer>>)
    ensures r.Success? ==> |r.value| == |queries|
    ensures r.Success? ==> forall i :: 0 <= i < |queries| ==>
      AnswerFor(valves, queries[i], timeRange, website, api) == Success(r.value[i])
  {
    if queries == [] then Success([])
    else
      var init :- GatherAnswers(valves, queries[..|queries| - 1], timeRange, website, api);
      var last :- AnswerFor(valves, queries[|queries| - 1], timeRange, website, api);
      Success(init + [last])
  }

  /** `process_results` on the gathered answers, as values. */
  function ProcessAnswers(answers: seq<QueryAnswer>, limit: int, t: UnicodeTables): (r: Result<seq<QueryAnswer>>)
    ensures r.Success? <==> forall i :: 0 <= i < |answers| ==> AllHaveContent(answers[i].results)
    ensures r.Failure? ==> r.error == "'content'"
    ensures r.Success? ==> |r.value| == |answers| && forall i :: 0 <= i < |answers| ==>
      r.value[i].query == answers[i].query && |r.value[i].results| == |answers[i].results|
  {
    if forall i :: 0 <= i < |answers| ==> AllHaveContent(answers[i].results) then
      Success(seq(|answers|, i requires 0 <= i < |answers| =>
        QueryAnswer(answers[i].query, ProcessedResults(answers[i].results, limit, t))))
    else Failure("'content'")
  }

  // ---------------------------------------------------------------------------
  // Citation events

  /** The first key among `content`, `url` and `title` that building a citation event finds missing. */
  function CitationMissingKey(result: map<string, string>): (r: Option<string>)
    ensures r.None? <==> "content" in result && "url" in result && "title" in result
    ensures r.Some? ==> r.value == "'content'" || r.value == "'url'" || r.value == "'title'"
  {
    if "content" !in result then Some("'content'")
    else if "url" !in result then Some("'url'")
    else if "title" !in result then Some("'title'")
    else None
  }

  /** The `KeyError` of the first result of one group that cannot be cited. */
  function ResultsCitationError(results: seq<map<string, string>>): (r: Option<string>)
    ensures r.None? <==> forall k :: 0 <= k < |results| ==> CitationMissingKey(results[k]).None?
    ensures r.Some? ==> exists k :: 0 <= k < |results| && CitationMissingKey(results[k]) == r
  {
    if results == [] then None
    else
      var init := ResultsCitationError(results[..|results| - 1]);
      if init.Some? then init else CitationMissingKey(results[|results| - 1])
  }

  /** The `KeyError` of the first result, group by group, that cannot be cited. */
  function CitationError(groups: seq<QueryAnswer>): (r: Option<string>)
    ensures r.None? <==> forall i :: 0 <= i < |groups| ==> ResultsCitationError(groups[i].results).None?
    ensures r.Some? ==> exists i :: 0 <= i < |groups| && ResultsCitationError(groups[i].results) == r
  {
    if groups == [] then None
    else
      var init := CitationError(groups[..|groups| - 1]);
      if init.Some? then init else ResultsCitationError(groups[|groups| - 1].results)
  }

  /** Once a result of a group cannot be cited, no later result changes the error. */
  lemma {:induction false} ResultsCitationErrorFrom(results: seq<map<string, string>>, n: nat)
    requires n <= |results|
    requires ResultsCitationError(results[..n]).Some?
    ensures ResultsCitationError(results) == ResultsCitationError(results[..n])
    decreases |results| - n
  {
    if n < |results| {
      assert results[..n + 1][..n] == results[..n];
      ResultsCitationErrorFrom(results, n + 1);
    } else {
      assert results[..n] == results;
    }
  }

  /** Once a group holds a result that cannot be cited, no later group changes the error. */
  lemma {:induction false} CitationErrorFrom(groups: seq<QueryAnswer>, n: nat)
    requires n <= |groups|
    requires CitationError(groups[..n]).Some?
    ensures CitationError(groups) == CitationError(groups[..n])
    decreases |groups| - n
  {
    if n < |groups| {
      assert groups[..n + 1][..n] == groups[..n];
      CitationErrorFrom(groups, n + 1);
    } else {
      assert groups[..n] == groups;
    }
  }

  /**
   * The citation loop of `search_web`: one event per result, group by group,
   * each reading `content`, `url` and `title`; the first missing key escapes.
   * The emitter itself is a parameter of the tool and is not modelled.
   */
  method EmitCitations(groups: seq<QueryAnswer>) returns (raised: Option<string>)
    ensures raised == CitationError(groups)
  {
    for i := 0 to |groups|
      invariant CitationError(groups[..i]).None?
    {
      var results := groups[i].results;
      for k := 0 to |results|
        invariant ResultsCitationError(results[..k]).None?
      {
        assert results[..k + 1][..k] == results[..k];
        var missing := CitationMissingKey(results[k]);
        if missing.Some? {
          ResultsCitationErrorFrom(results, k + 1);
          assert groups[..i + 1][..i] == groups[..i];
          CitationErrorFrom(groups, i + 1);
          return missing;
        }
      }
      assert results[..|results|] == results;
      assert groups[..i + 1][..i] == groups[..i];
    }
    assert groups[..|groups|] == groups;
    raised := None;
  }

  /** What `search_web` replies; `hasEmitter` says whether an event emitter was passed. */
  function SearchWebReply(
    valves: Valves, queries: QueriesArg, timeRange: string, website: string,
    api: RequestParams -> ApiOutcome, t: UnicodeTables, hasEmitter: bool): Reply
  {
    if queries.NotAList? then ErrorReply(InvalidQueriesMessage)
    else if |queries.items| > MaxQueries then ErrorReply(TooManyQueriesMessage)
    else
      match GatherAnswers(valves, queries.items, timeRange, website, api)
      case Failure(e) => ErrorReply(e)
      case Success(answers) =>
        if answers == [] then Answers([])
        else
          match ProcessAnswers(answers, valves.pageContentWordsLimit, t)
          case Failure(e) => ErrorReply(e)
          case Success(processed) =>
            if valves.citationLinks && hasEmitter && CitationError(processed).Some? then Raised(CitationError(processed).value)
            else Answers(processed)
  }

  /** A malformed or over-long query list is refused before the search API is consulted. */
  lemma RejectedBeforeSearch(
    valves: Valves, queries: QueriesArg, timeRange: string, website: string,
    api: RequestParams -> ApiOutcome, otherApi: RequestParams -> ApiOutcome, t: UnicodeTables, hasEmitter: bool)
    requires queries.NotAList? || |queries.items| > MaxQueries
    ensures SearchWebReply(valves, queries, timeRange, website, api, t, hasEmitter).ErrorReply?
    ensures SearchWebReply(valves, queries, timeRange, website, api, t, hasEmitter)
         == SearchWebReply(valves, queries, timeRange, website, otherApi, t, hasEmitter)
  {
  }

  /**
   * A successful reply has one group per query, in query order, each with as
   * many results as the API returned, and every content tidy and within the
   * word limit.
   */
  lemma AnswersShape(
    valves: Valves, queries: seq<string>, timeRange: string, website: string,
    api: RequestParams -> ApiOutcome, t: UnicodeTables, hasEmitter: bool)
    requires SearchWebReply(valves, QueryList(queries), timeRange, website, api, t, hasEmitter).Answers?
    ensures var groups := SearchWebReply(valves, QueryList(queries), timeRange, website, api, t, hasEmitter).groups;
      |queries| <= MaxQueries && |groups| == |queries| &&
      forall i :: 0 <= i < |groups| ==>
        groups[i].query == queries[i] &&
        |groups[i].results| == |GatherAnswers(valves, queries, timeRange, website, api).value[i].results| &&
        forall k :: 0 <= k < |groups[i].results| ==>
          "content" in groups[i].results[k] && Tidy(groups[i].results[k]["content"]) &&
          (valves.pageContentWordsLimit >= 0 ==>
            |Split(groups[i].results[k]["content"])| <= valves.pageContentWordsLimit)
  {
    var answers := GatherAnswers(valves, queries, timeRange, website, api).value;
    if answers != [] {
      var processed := ProcessAnswers(answers, valves.pageContentWordsLimit, t).value;
      forall i, k | 0 <= i < |processed| && 0 <= k < |processed[i].results|
        ensures "content" in processed[i].results[k] && Tidy(processed[i].results[k]["content"])
        ensures valves.pageContentWordsLimit >= 0 ==>
          |Split(processed[i].results[k]["content"])| <= valves.pageContentWordsLimit
      {
        assert processed[i].results == ProcessedResults(answers[i].results, valves.pageContentWordsLimit, t);
        ProcessedContent(answers[i].results[k], valves.pageContentWordsLimit, t);
      }
    }
  }

  /** A result a citation event cannot name: it has no `url` or no `title`. */
  predicate LacksSource(result: map<string, string>)
  {
    "url" !in result || "title" !in result
  }

  /**
   * With `CITATION_LINKS` on and an emitter given, a reply that would have
   * listed the groups raises instead exactly when some result lacks `url` or
   * `title` (processing always leaves `content`), and the escaping `KeyError`
   * names one of those two keys.
   */
  lemma CitationNeedsUrlAndTitle(
    valves: Valves, queries: seq<string>, timeRange: string, website: string,
    api: RequestParams -> ApiOutcome, t: UnicodeTables)
    requires valves.citationLinks
    requires SearchWebReply(valves, QueryList(queries), timeRange, website, api, t, false).Answers?
    ensures var answers := GatherAnswers(valves, queries, timeRange, website, api).value;
      var reply := SearchWebReply(valves, QueryList(queries), timeRange, website, api, t, true);
      && (reply.Raised? <==>
            exists i, k :: 0 <= i < |answers| && 0 <= k < |answers[i].results| && LacksSource(answers[i].results[k]))
      && (reply.Raised? ==> reply.key == "'url'" || reply.key == "'title'")
      && (!reply.Raised? ==> reply == SearchWebReply(valves, QueryList(queries), timeRange, website, api, t, false))
  {
    var answers := GatherAnswers(valves, queries, timeRange, website, api).value;
    if answers != [] {
      var limit := valves.pageContentWordsLimit;
      var processed := ProcessAnswers(answers, limit, t).value;
      forall i, k | 0 <= i < |processed| && 0 <= k < |processed[i].results|
        ensures CitationMissingKey(processed[i].results[k]).None? <==> !LacksSource(answers[i].results[k])
        ensures CitationMissingKey(processed[i].results[k]) != Some("'content'")
      {
        assert processed[i].results == ProcessedResults(answers[i].results, limit, t);
        ProcessedKeys(answers[i].results[k], limit, t);
      }
    }
  }

  /**
   * `call_search_and_scrape_query`: build the parameters, call the API, and
   * wrap its `results` entry (none when missing) in a new group.
   */
  method CallQuery(valves: Valves, query: string, timeRange: string, website: string, api: RequestParams -> ApiOutcome)
    returns (r: Result<QueryGroup>)
    ensures r.Success? <==> AnswerFor(valves, query, timeRange, website, api).Success?
    ensures r.Failure? ==> r.error == AnswerFor(valves, query, timeRange, website, api).error
    ensures r.Success? ==> fresh(r.value)
    ensures r.Success? ==> AnswerFor(valves, query, timeRange, website, api).value == QueryAnswer(r.value.query, r.value.results)
  {
    var params := BuildQueryParams(valves, query, timeRange, website);
    var outcome := api(params);
    if outcome.ApiFailure? {
      return Failure(outcome.reason);
    }
    var results := if outcome.results.Some? then outcome.results.value else [];
    var g := new QueryGroup(query, results);
    r := Success(g);
  }

  /**
   * `search_and_scrape`: one API call per query, each answer becoming a new
   * query group, the groups in query order; the first failing call fails all.
   */
  method GatherGroups(valves: Valves, queries: seq<string>, timeRange: string, website: string, api: RequestParams -> ApiOutcome)
    returns (r: Result<seq<QueryGroup>>)
    ensures r.Success? <==> GatherAnswers(valves, queries, timeRange, website, api).Success?
    ensures r.Failure? ==> r.error == GatherAnswers(valves, queries, timeRange, website, api).error
    ensures r.Success? ==>
      var answers := GatherAnswers(valves, queries, timeRange, website, api).value;
      |r.value| == |answers| &&
      (forall i :: 0 <= i < |answers| ==>
        fresh(r.value[i]) && r.value[i].query == answers[i].query && r.value[i].results == answers[i].results) &&
      Distinct(r.value)
  {
    var groups: seq<QueryGroup> := [];
    ghost var answers: seq<QueryAnswer> := [];
    var i := 0;
    while i < |queries|
      invariant 0 <= i <= |queries|
      invariant GatherAnswers(valves, queries[..i], timeRange, website, api) == Success(answers)
      invariant |groups| == |answers|
      invariant forall j :: 0 <= j < |answers| ==>
        fresh(groups[j]) && groups[j].query == answers[j].query && groups[j].results == answers[j].results
      invariant Distinct(groups)
    {
      GatherStep(valves, queries, timeRange, website, api, i);
      var call := CallQuery(valves, queries[i], timeRange, website, api);
      if call.Failure? {
        GatherFailsFrom(valves, queries, timeRange, website, api, i + 1);
        return Failure(call.error);
      }
      var g := call.value;
      DistinctAppend(groups, g);
      groups := groups + [g];
      answers := answers + [QueryAnswer(g.query, g.results)];
      i := i + 1;
    }
    assert queries[..i] == queries;
    r := Success(groups);
  }

  /** One more query either fails the gather with its reason or appends its answer. */
  lemma GatherStep(
    valves: Valves, queries: seq<string>, timeRange: string, website: string,
    api: RequestParams -> ApiOutcome, i: nat)
    requires i < |queries|
    requires GatherAnswers(valves, queries[..i], timeRange, website, api).Success?
    ensures var answer := AnswerFor(valves, queries[i], timeRange, website, api);
      var next := GatherAnswers(valves, queries[..i + 1], timeRange, website, api);
      && (answer.Failure? ==> next == Failure(answer.error))
      && (answer.Success? ==> next == Success(GatherAnswers(valves, queries[..i], timeRange, website, api).value + [answer.value]))
  {
    assert queries[..i + 1][..i] == queries[..i];
    assert queries[..i + 1][i] == queries[i];
  }

  /** Once the first `n` queries fail, the whole gather fails with the same reason. */
  lemma {:induction false} GatherFailsFrom(
    valves: Valves, queries: seq<string>, timeRange: string, website: string,
    api: RequestParams -> ApiOutcome, n: nat)
    requires n <= |queries|
    requires GatherAnswers(valves, queries[..n], timeRange, website, api).Failure?
    ensures GatherAnswers(valves, queries, timeRange, website, api)
         == GatherAnswers(valves, queries[..n], timeRange, website, api)
    decreases |queries| - n
  {
    if n < |queries| {
      assert queries[..n + 1][..n] == queries[..n];
      GatherFailsFrom(valves, queries, timeRange, website, api, n + 1);
    } else {
      assert queries[..n] == queries;
    }
  }

  /** The serialisation of the groups into the reply, group by group. */
  method DumpGroups(groups: seq<QueryGroup>) returns (answers: seq<QueryAnswer>)
    ensures |answers| == |groups|
    ensures forall i :: 0 <= i < |groups| ==> answers[i] == QueryAnswer(groups[i].query, groups[i].results)
  {
    answers := [];
    for i := 0 to |groups|
      invariant |answers| == i
      invariant forall j :: 0 <= j < i ==> answers[j] == QueryAnswer(groups[j].query, groups[j].results)
    {
      answers := answers + [QueryAnswer(groups[i].query, groups[i].results)];
    }
  }

  /**
   * `search_web`: validate the query list, search every query, process the
   * results in place, emit one citation per result when `CITATION_LINKS` is on
   * and an emitter is given, and reply with the groups or with the first error.
   */
  method SearchWeb(
    valves: Valves, queries: QueriesArg, timeRange: string, website: string,
    api: RequestParams -> ApiOutcome, t: UnicodeTables, hasEmitter: bool) returns (reply: Reply)
    ensures reply == SearchWebReply(valves, queries, timeRange, website, api, t, hasEmitter)
  {
    if queries.NotAList? {
      return ErrorReply(InvalidQueriesMessage);
    }
    if |queries.items| > MaxQueries {
      return ErrorReply(TooManyQueriesMessage);
    }
    var found := GatherGroups(valves, queries.items, timeRange, website, api);
    if found.Failure? {
      return ErrorReply(found.error);
    }
    var groups := found.value;
    ghost var answers := GatherAnswers(valves, queries.items, timeRange, website, api).value;
    if groups == [] {
      return Answers([]);
    }
    var processed := ProcessResults(groups, valves.pageContentWordsLimit, t);
    if processed.Failure? {
      return ErrorReply(processed.error);
    }
    var dumped := DumpGroups(groups);
    assert dumped == ProcessAnswers(answers, valves.pageContentWordsLimit, t).value;
    if valves.citationLinks && hasEmitter {
      var raised := EmitCitations(dumped);
      if raised.Some? {
        return Raised(raised.value);
      }
    }
    reply := Answers(dumped);
  }
}
