# Web-search retrieval and football fixtures — a Dafny model

This project models the retrieval core of a small collection of Python RAG
tools:

- **Searxng search engine.** It sends one form POST per result page to a Searxng
  instance. The query gets a `site:` suffix and an optional time range, and
  the pages are flattened in page order and cut to `num_results`.
- **Web scraper.** It overwrites the `content` of each search hit in place,
  using one of three strategies chosen per URL. A static allow-list selects a
  plain HTTP fetch plus an HTML parser, a Reddit prefix selects the Reddit API
  when a client is configured, and every other URL is rendered by a headless
  crawler. Every strategy fails open except for exceptions the static path does
  not catch.
- **Search-and-retrieve pipeline.** It runs one search and hands the hits
  unchanged to the scraper.
- **Open WebUI `search_web` tool.** It validates the query list, builds the API
  parameters (a time range picked from free text by keyword order), and
  rewrites every result's `content` in place. The rewrite applies NFKC
  normalisation, collapses whitespace, strips, drops "Symbol, other"
  characters and truncates to a word limit.
- **fbref fixture reader.** It parses tournament names and `"h–a"` scores,
  filters schedule rows by a string date window, and builds matches per
  tournament for windows in the current year.

The modules are:

| file | module | contents |
|---|---|---|
| `common.dfy` | `Common` | `Option`, `Result`, and Python's `s[:n]` |
| `strings.dfy` | `Strings` | the Python string operations the code relies on: `in`, `startswith`, ASCII `lower()`, `isspace`, `split()`/`" ".join`, `split(sep)`, `int()`, `str()`, `strip()`, string `<=` |
| `search_types.dfy` | `SearchTypes` | `SearchResult` (a class: its `content` is updated in place; `url` and `title` are `const`, since no code of the core assigns them after construction), `SearchTimeRange`, `SearchParams`, `SearchConfig`, `SearxngConfig` |
| `web_scraper.dfy` | `WebScraping` | dispatch, the three strategies, Reddit thread text, `scrape` |
| `searxng.dfy` | `Searxng` | request building, the gather, flattening and truncation, `search` |
| `search_rag.dfy` | `SearchRag` | `search_and_retrieve` |
| `text_processing.dfy` | `TextProcessing` | `TextProcessor` |
| `web_search_tool.dfy` | `WebSearchTool` | `Tools.search_web` and its helpers, `HelpFunctions.generate_excerpt` |
| `fbref.dfy` | `Fbref` | `TournamentEnum.from_str`, `Score.from_str`, `FbrefFetcher.get_matches`/`parse_matches` |

Outside calls are parameters of the model:

- the HTTP client;
- the headless crawler;
- the Reddit client;
- the HTML parser;
- the Searxng page fetch;
- the search API of the tool;
- `pd.read_html`;
- the clock (`now`);
- the two Unicode tables (NFKC and the So category).

The model does not fix their behaviour. It states what the code does with each
answer they can give.

Behaviour of the code worth noting:

- The static strategy catches only `httpx.HTTPError`. Any other exception
  escapes and fails the whole `scrape`.
- A crawl whose `markdown` is `None` writes the text `"None"`.
- The static allow-list is checked before the Reddit prefix.
- `scrape` returns the very objects it was given.
- Reddit comments are numbered by their index in `comments.list()`, so
  "more comments" placeholders use up numbers.

## Model

| member | source | states |
|---|---|---|
| SearchTypes.SearchResult.constructor | py_tools/src/rags/web_search/search_result.py:3-7 | a hit holds exactly the url, title and content it was built with |
| SearchTypes.TimeRangeFromValue | rags/src/rags/web_search/search_params.py:5-8 | looking a time range up by value finds the member with that value, and fails only when no member has it |
| SearchTypes.TimeRangeRoundTrip | rags/src/rags/web_search/search_params.py:5-8 | every time range is found again from its own value, so the values "day", "month" and "year" are distinct |
| SearchTypes.NewSearchParams | rags/src/rags/web_search/search_params.py:10-15 | construction succeeds exactly when `num_results >= 1` (`ge=1`), and the record then holds the given fields |
| SearchTypes.SearchParamsDefaults | rags/src/rags/web_search/search_params.py:12-15 | with only a query the search has no website, ten results and no time range |
| SearchTypes.NewSearchConfig | rags/src/rags/web_search/config.py:3-11 | construction succeeds exactly when results per page, max pages and timeout are all at least 1 |
| SearchTypes.NewSearxngConfig | rags/src/rags/web_search/config.py:13-15 | the Searxng config adds `base_url` to the same validated search settings |
| SearchTypes.SearchConfigDefaults | rags/src/rags/web_search/config.py:3-15 | the defaults are 10 results per page, 3 pages, the Chrome 118 user agent, a 10 s timeout and `https://searx.space/` |
| WebScraping.AnyContained | py_tools/src/rags/web_search/web_scraper.py:36 | `any(site in url ...)` is true exactly when some allow-listed site occurs in the URL |
| WebScraping.Route | py_tools/src/rags/web_search/web_scraper.py:33-41 | the static strategy is chosen exactly when a listed site occurs in the URL; Reddit is chosen exactly when no listed site occurs, the URL starts with the prefix and a client exists; everything else is rendered |
| WebScraping.RedditUrlOnAllowListIsStatic | py_tools/src/rags/web_search/web_scraper.py:36-39 | because the allow-list is checked first, a listed site that occurs in the Reddit prefix sends every Reddit URL to the static fetch, even when a Reddit client is configured |
| WebScraping.DefaultScraperRendersEverything | py_tools/src/rags/web_search/web_scraper.py:14-41 | with the field defaults (no client, no allow-list) every URL goes to the headless crawler |
| WebScraping.StaticFailureKeepsContent | py_tools/src/rags/web_search/web_scraper.py:55-64 | on a non-2xx status or an `HTTPError` the static strategy keeps the content, whatever the parser would have done |
| WebScraping.DynamicFailOpen | py_tools/src/rags/web_search/web_scraper.py:43-53 | the crawler strategy never raises, and it keeps the content exactly when the crawl fails |
| WebScraping.RedditFailOpen | py_tools/src/rags/web_search/web_scraper.py:66-83 | once dispatch has chosen Reddit, the strategy never raises, and it keeps the content exactly when the API call fails |
| WebScraping.StaticEffect | py_tools/src/rags/web_search/web_scraper.py:55-64 | the static strategy's effect: a 2xx response replaces the content by the parse of its body, a non-2xx status or an `HTTPError` keeps it, any other exception escapes (no ensures; its meaning is stated by `StaticFailureKeepsContent` and `PageEffectRaises`) |
| WebScraping.DynamicEffect | py_tools/src/rags/web_search/web_scraper.py:43-53 | the crawler strategy's effect: the page markdown, `"None"` when absent, or the content kept on failure (no ensures; stated by `DynamicFailOpen`) |
| WebScraping.RedditEffect | py_tools/src/rags/web_search/web_scraper.py:66-83 | the Reddit strategy's effect: it raises without a client, replaces the content by the thread text, or keeps it when the API fails (no ensures; stated by `RedditFailOpen`) |
| WebScraping.PageEffect | py_tools/src/rags/web_search/web_scraper.py:33-83 | scraping one URL is the effect of the strategy dispatch picks (no ensures; stated by `PageEffectRaises` and `Route`) |
| WebScraping.RedditContent | py_tools/src/rags/web_search/web_scraper.py:74-78 | the thread text is the header followed by the numbered comment lines (no ensures; stated by `FormatSubmission`, `CommentLinesStep` and `PlaceholderSkipsIndex`) |
| WebScraping.PageEffectRaises | py_tools/src/rags/web_search/web_scraper.py:33-83 | scraping a URL raises exactly when it goes to the static strategy and the client raises something other than `HTTPError` |
| WebScraping.ApplyIdempotent | py_tools/src/rags/web_search/web_scraper.py:28-29 | scraping a hit a second time (the same object listed twice) leaves the content the first pass left |
| WebScraping.CommentLinesStep | py_tools/src/rags/web_search/web_scraper.py:75-78 | each further entry of the comment list adds exactly its own line after the lines so far |
| WebScraping.PlaceholderSkipsIndex | py_tools/src/rags/web_search/web_scraper.py:75-77 | a "more comments" placeholder prints nothing but uses up its enumerate index |
| WebScraping.FormatSubmission | py_tools/src/rags/web_search/web_scraper.py:74-78 | the accumulated text is the header, then one numbered line per real comment in list order |
| WebScraping.FetchStatic | py_tools/src/rags/web_search/web_scraper.py:55-64 | the hit's content becomes the parse of a 2xx body and is otherwise kept; only a non-HTTP exception is reported |
| WebScraping.FetchDynamic | py_tools/src/rags/web_search/web_scraper.py:43-53 | the content becomes the page markdown (`"None"` when absent) or is kept on failure; nothing is raised |
| WebScraping.FetchReddit | py_tools/src/rags/web_search/web_scraper.py:66-83 | without a client it raises; otherwise the content becomes the thread text or is kept on failure |
| WebScraping.FetchAndParsePage | py_tools/src/rags/web_search/web_scraper.py:33-41 | the hit's content is updated by the strategy dispatch picks for its URL, and the call reports exactly what that strategy raised |
| WebScraping.FirstRaiseMeaning | py_tools/src/rags/web_search/web_scraper.py:29 | the gather re-raises nothing exactly when no hit's strategy raises |
| WebScraping.FirstRaiseAt | py_tools/src/rags/web_search/web_scraper.py:29 | when hit `j` is the first, in list order, whose strategy raises, its exception is the one the gather re-raises |
| WebScraping.ScrapeHit | py_tools/src/rags/web_search/web_scraper.py:28-29 | running one hit's task updates that hit's content by its URL's strategy, leaves every other listed hit as it was, and reports that strategy's exception |
| WebScraping.Scrape | py_tools/src/rags/web_search/web_scraper.py:24-31 | every hit's content is replaced or kept by its URL's strategy; the call fails exactly when some hit's strategy raises, with the exception of the first such hit, and otherwise returns the input list itself |
| Searxng.QueryText | py_tools/src/rags/web_search/searxng_search_engine.py:63-64 | the query is sent as is, followed by `" site:" + website` exactly when a non-empty website is given |
| Searxng.PageRequestFor | py_tools/src/rags/web_search/searxng_search_engine.py:50-67 | each page is posted to `base_url + "search"` with the configured user agent and timeout; the form has exactly the six fixed keys plus `time_range` when one is given, with `pageno` the page number as text, `format=json`, `language=auto`, `safesearch=0`, `category_general=1` |
| Searxng.Requests | py_tools/src/rags/web_search/searxng_search_engine.py:48-70 | one request per page in `range(max_pages)` (none for a non-positive count) |
| Searxng.BuildRequests | py_tools/src/rags/web_search/searxng_search_engine.py:48-70 | the loop that builds and mutates each form produces exactly the per-page requests |
| Searxng.PageNumbersRoundTrip | py_tools/src/rags/web_search/searxng_search_engine.py:56 | page `i` sends `str(i + 1)`, which reads back as `i + 1` |
| Searxng.PageNumbersDistinct | py_tools/src/rags/web_search/searxng_search_engine.py:56 | no two pages send the same `pageno` |
| Searxng.ValidConfigRequestsFirstPage | py_tools/src/rags/web_search/searxng_search_engine.py:48-56 | a valid config sends at least one request, and the first asks for page "1" |
| Searxng.FetchAll | py_tools/src/rags/web_search/searxng_search_engine.py:72 | a successful gather returns, for every request in order, the records its page returned |
| Searxng.FetchAllSucceeds | py_tools/src/rags/web_search/searxng_search_engine.py:72 | the gather succeeds exactly when every page fetch succeeds |
| Searxng.FlattenAppend | py_tools/src/rags/web_search/searxng_search_engine.py:74-76 | extending page by page concatenates the pages' records |
| Searxng.FlattenLength | py_tools/src/rags/web_search/searxng_search_engine.py:74-76 | the flattened list holds as many records as all pages together |
| Searxng.FlattenPageOrder | py_tools/src/rags/web_search/searxng_search_engine.py:74-76 | record `j` of page `k` sits after every record of the earlier pages, at its offset within page `k` |
| Searxng.SearchTruncates | py_tools/src/rags/web_search/searxng_search_engine.py:72-78 | the search succeeds exactly when every page succeeds, and then returns the first `min(num_results, total)` records in page order |
| Searxng.UniformPagesCount | py_tools/src/rags/web_search/searxng_search_engine.py:48-78 | when every page returns `k` records, the search returns `min(num_results, max_pages * k)` records |
| Searxng.ParseSearchResults | py_tools/src/rags/web_search/searxng_search_engine.py:30-38 | one new hit per record, in order, holding the record's url, title and content |
| Searxng.FetchPages | py_tools/src/rags/web_search/searxng_search_engine.py:69-72 | awaiting the page tasks in order gives the gather's outcome |
| Searxng.ParsePages | py_tools/src/rags/web_search/searxng_search_engine.py:74-76 | the extended list holds a new hit for each flattened record, in order |
| Searxng.SearchOutcome | py_tools/src/rags/web_search/searxng_search_engine.py:41-78 | the records `search` returns, or the failure of a page (no ensures; stated by `SearchTruncates` and `UniformPagesCount`) |
| Searxng.Search | py_tools/src/rags/web_search/searxng_search_engine.py:41-78 | the search fails exactly when a page fails, with that error; otherwise every returned hit is new and mirrors the truncated flattened record at its index |
| SearchRag.Scraped | py_tools/src/rags/web_search/web_scraper.py:28-29 | a hit keeps its url and title through scraping, and its content unless its strategy replaced it |
| SearchRag.Retrieve | rags/src/rags/web_search/search_rag.py:14-18 | a failed search is the pipeline's answer, and the scraper never runs |
| SearchRag.RetrieveKeepsSearchOrder | rags/src/rags/web_search/search_rag.py:14-18 | a successful retrieval returns at most `num_results` hits, hit `i` having the url and title of the search's hit `i` |
| SearchRag.FailedScrapeKeepsSearchContent | rags/src/rags/web_search/search_rag.py:16-17 | a hit whose scraping fails open comes back exactly as the search returned it |
| SearchRag.SearchAndRetrieve | rags/src/rags/web_search/search_rag.py:14-18 | the pipeline succeeds exactly when search and scraping both do, passes the search's error on, fails with exactly the answer's error (the first raising hit's exception when scraping fails), and returns new hits mirroring the scraped records in search order |
| TextProcessing.CollapseSpaces | py_tools/src/owui/tools/web_search.py:211 | after `re.sub(r"\s+", " ", _)` the only whitespace is a single space between non-spaces; the text never grows, is empty only if the input is, and starts with a space exactly when the input starts with whitespace |
| TextProcessing.CollapseKeepsWords | py_tools/src/owui/tools/web_search.py:211 | collapsing whitespace keeps the words, in order |
| TextProcessing.SingleSpacedTidy | py_tools/src/owui/tools/web_search.py:211-212 | single-spaced text with no whitespace at either end is words joined by single spaces |
| Strings.LeadingSpaces | py_tools/src/owui/tools/web_search.py:212 | `lstrip()` removes exactly the whitespace run that begins the text: every removed character is whitespace and the next is not |
| Strings.TrailingSpaces | py_tools/src/owui/tools/web_search.py:212 | `rstrip()` removes exactly the whitespace run that ends the text: every removed character is whitespace and the one before is not |
| TextProcessing.TrimLeftKeepsWords | py_tools/src/owui/tools/web_search.py:212 | `lstrip()` removes no word |
| TextProcessing.TrimRightKeepsWords | py_tools/src/owui/tools/web_search.py:212 | `rstrip()` removes no word |
| TextProcessing.StripKeepsWords | py_tools/src/owui/tools/web_search.py:212 | `strip()` removes no word |
| TextProcessing.StripSingleSpaced | py_tools/src/owui/tools/web_search.py:211-212 | stripping collapsed text gives tidy text with the same words |
| TextProcessing.CollapseThenStrip | py_tools/src/owui/tools/web_search.py:211-212 | collapse then strip equals `" ".join(s.split())` |
| TextProcessing.RemoveSymbols | py_tools/src/owui/tools/web_search.py:216-217 | `remove_emojis` leaves no character of category So and never lengthens the text |
| TextProcessing.RemoveSymbolsCounts | py_tools/src/owui/tools/web_search.py:216-217 | every character outside So is kept as often as it occurs; none in So is kept |
| TextProcessing.RemoveSymbolsAppend | py_tools/src/owui/tools/web_search.py:217 | removal works character by character, so it distributes over concatenation |
| TextProcessing.RemoveSymbolsClean | py_tools/src/owui/tools/web_search.py:217 | text without So characters is returned unchanged |
| TextProcessing.FormatText | py_tools/src/owui/tools/web_search.py:207-214 | `format_text` is NFKC, whitespace collapse, strip, then symbol removal (no ensures; stated by `FormatTextMeaning`) |
| TextProcessing.FormatTextMeaning | py_tools/src/owui/tools/web_search.py:207-214 | `format_text` leaves no So character, and equals symbol removal applied to the words of the NFKC form joined by single spaces |
| TextProcessing.RemoveSymbolsSingle | py_tools/src/owui/tools/web_search.py:217 | a single character is dropped exactly when it is in So |
| TextProcessing.RemoveLoneSymbol | py_tools/src/owui/tools/web_search.py:217 | a lone So character between two parts without any is removed and the parts are kept, side by side |
| TextProcessing.FormatJoinedWords | py_tools/src/owui/tools/web_search.py:207-214 | words already joined by single spaces, left alone by NFKC, lose only their So characters |
| TextProcessing.SymbolBetweenWordsLeavesDoubleSpace | py_tools/src/owui/tools/web_search.py:207-214 | because symbols are removed after whitespace normalisation, a So character standing alone between two words leaves a double space |
| TextProcessing.LeadingSymbolLeavesSpace | py_tools/src/owui/tools/web_search.py:207-214 | a So character standing alone before the first word leaves a leading space |
| TextProcessing.TruncateToNWords | py_tools/src/owui/tools/web_search.py:227-230 | `truncate_to_n_words` joins `tokens[:limit]` with single spaces (no ensures; stated by `TruncateToNWordsMeaning`) |
| TextProcessing.TruncateToNWordsMeaning | py_tools/src/owui/tools/web_search.py:227-230 | the result is tidy and its words are exactly `tokens[:limit]` (a negative limit drops words from the end) |
| TextProcessing.TruncateKeepsLeadingWords | py_tools/src/owui/tools/web_search.py:227-230 | for a non-negative limit the first `min(limit, word count)` words survive, in order |
| TextProcessing.TruncateShortText | py_tools/src/owui/tools/web_search.py:227-230 | text within the limit keeps all its words, and tidy text comes back unchanged |
| TextProcessing.ProcessSearchResult | py_tools/src/owui/tools/web_search.py:219-225 | processing fails exactly when `content` is missing, with `KeyError('content')` |
| TextProcessing.ProcessedKeys | py_tools/src/owui/tools/web_search.py:224 | a processed result has the same keys, and every key other than `content` keeps its value |
| TextProcessing.ProcessedContent | py_tools/src/owui/tools/web_search.py:219-225 | the new `content` is tidy text whose words are the first `limit` words of the formatted content, and at most `limit` of them |
| WebSearchTool.GenerateExcerpt | py_tools/src/owui/tools/web_search.py:29-30 | content within the limit is returned as is; longer content becomes a prefix of it plus "...", of length `max_length + 3` |
| WebSearchTool.DefaultExcerptLength | py_tools/src/owui/tools/web_search.py:29-30 | the default excerpt keeps the first 200 characters and is 203 long |
| WebSearchTool.SelectTimeRange | py_tools/src/owui/tools/web_search.py:175-181 | the time range sent for a free-text argument (no ensures; stated by `SelectTimeRangeMeaning` and `KeywordOrderWins`) |
| WebSearchTool.SelectTimeRangeMeaning | py_tools/src/owui/tools/web_search.py:175-181 | an empty argument sends `None`; otherwise the first of day, month, year occurring in the lower-cased text is sent, and no entry when none occurs |
| WebSearchTool.KeywordOrderWins | py_tools/src/owui/tools/web_search.py:176-179 | keyword order, not position in the text, decides: "Month or Day" asks for a day |
| WebSearchTool.QueryParams | py_tools/src/owui/tools/web_search.py:171-186 | a request carries the query, the valve's result count, the selected time range, and the website exactly when it is non-empty |
| WebSearchTool.BuildQueryParams | py_tools/src/owui/tools/web_search.py:171-186 | the dictionary built with the breaking keyword loop is those parameters |
| WebSearchTool.QueryGroup.constructor | py_tools/src/owui/tools/web_search.py:52-54 | a group holds its query and results |
| WebSearchTool.ProcessedResults | py_tools/src/owui/tools/web_search.py:199-203 | a group's processed results are, index by index, the processed form of each result |
| WebSearchTool.MapUntilRaise | py_tools/src/owui/tools/web_search.py:199-203 | the loop rewriting results one by one stops at the first raise and reports that result's error; every result before it holds its rewrite, it and every later result are unchanged; without a raise every result is replaced by its rewrite |
| WebSearchTool.StepIsProcessing | py_tools/src/owui/tools/web_search.py:199-203 | with `process_search_result` as the rewrite, the loop raises `'content'` exactly when some result lacks `content`; it then stops at a result lacking `content`, with the results before it processed and the rest unchanged; otherwise it gives the processed results |
| WebSearchTool.ProcessGroup | py_tools/src/owui/tools/web_search.py:199-203 | the group's results are replaced in place by their processed forms; a missing `content` raises `'content'`, leaving the results before the first such result processed and the rest unchanged; query and result count are unchanged |
| WebSearchTool.DistinctAppend | py_tools/src/owui/tools/web_search.py:164-167 | a new group appended to groups without repeats leaves no repeats |
| WebSearchTool.ProcessResults | py_tools/src/owui/tools/web_search.py:196-204 | every group is processed in place and the same list returned; it fails with `'content'` exactly when some result lacks `content`, and then the groups before the failing one are fully processed, the failing group partly (as `ProcessGroup` states) and the later groups untouched |
| WebSearchTool.GatherAnswers | py_tools/src/owui/tools/web_search.py:164-167 | on success there is one answer per query, in query order, each the API's answer to that query's parameters |
| WebSearchTool.ProcessAnswers | py_tools/src/owui/tools/web_search.py:196-204 | processing succeeds exactly when every result has `content`, keeping the queries and result counts |
| WebSearchTool.AnswerFor | py_tools/src/owui/tools/web_search.py:169-193 | one query's answer: the API's failure, or the query with its `results` entry (none when missing) (no ensures; stated by `CallQuery` and `GatherAnswers`) |
| WebSearchTool.CitationMissingKey | py_tools/src/owui/tools/web_search.py:145-151 | building a citation event fails exactly when `content`, `url` or `title` is missing, with the first of them as the `KeyError` |
| WebSearchTool.ResultsCitationError | py_tools/src/owui/tools/web_search.py:143-153 | a group's results can all be cited exactly when none misses a key; otherwise the error is some result's missing key |
| WebSearchTool.CitationError | py_tools/src/owui/tools/web_search.py:142-153 | all groups can be cited exactly when each group's results can; otherwise the error is some group's |
| WebSearchTool.ResultsCitationErrorFrom | py_tools/src/owui/tools/web_search.py:143-153 | once a result cannot be cited, later results of the group do not change the error |
| WebSearchTool.CitationErrorFrom | py_tools/src/owui/tools/web_search.py:142-153 | once a group holds a result that cannot be cited, later groups do not change the error |
| WebSearchTool.EmitCitations | py_tools/src/owui/tools/web_search.py:141-153 | the nested citation loop raises the first missing key, group by group and result by result, or nothing |
| WebSearchTool.SearchWebReply | py_tools/src/owui/tools/web_search.py:81-162 | what `search_web` gives back: the validation errors, then the API's error, then the processing error, then an escaping citation `KeyError`, otherwise the processed groups (no ensures; stated by `RejectedBeforeSearch`, `AnswersShape` and `CitationNeedsUrlAndTitle`) |
| WebSearchTool.CitationNeedsUrlAndTitle | py_tools/src/owui/tools/web_search.py:129-153 | with `CITATION_LINKS` on and an emitter, a reply that would list the groups raises instead exactly when some result lacks `url` or `title`, the `KeyError` naming one of them; otherwise the reply is the same as without an emitter |
| WebSearchTool.RejectedBeforeSearch | py_tools/src/owui/tools/web_search.py:98-112 | a non-list or more than three queries gives an error reply that does not depend on the search API |
| WebSearchTool.AnswersShape | py_tools/src/owui/tools/web_search.py:129-162 | a successful reply has one group per query in order, as many results as the API returned, every content tidy and within the word limit |
| WebSearchTool.CallQuery | py_tools/src/owui/tools/web_search.py:169-193 | one API call: the call fails exactly when the API raises, with its reason; otherwise a new group holds the query and the `results` entry (none when missing) |
| WebSearchTool.GatherStep | py_tools/src/owui/tools/web_search.py:164-167 | one more query either fails the gather with its reason or appends its answer after the earlier ones |
| WebSearchTool.GatherGroups | py_tools/src/owui/tools/web_search.py:164-194 | one new, distinct group per query holding the API's results (none when `results` is missing); the first failing call fails all |
| WebSearchTool.GatherFailsFrom | py_tools/src/owui/tools/web_search.py:166-167 | once a prefix of the queries fails, the whole gather fails with the same error |
| WebSearchTool.DumpGroups | py_tools/src/owui/tools/web_search.py:162 | the reply holds each group's query and results, in order |
| WebSearchTool.SearchWeb | py_tools/src/owui/tools/web_search.py:81-162 | the tool's reply: the validation errors, then the API's error, then the processing error, then the citation loop's `KeyError` when `CITATION_LINKS` is on and an emitter is given, otherwise the processed groups |
| Fbref.TournamentIdsDistinct | py_tools/src/rags/football/fbref.py:9-17 | the eight tournaments have distinct fbref ids |
| Fbref.FindTournament | py_tools/src/rags/football/fbref.py:21-23 | the loop finds a listed tournament whose lower-cased name equals the lower-cased text, and finds none exactly when no name matches |
| Fbref.TournamentFromStr | py_tools/src/rags/football/fbref.py:19-24 | a name is found case-insensitively; the lookup fails exactly when no tournament matches, with `Invalid tournament name: <text>` |
| Fbref.LowerNamesDistinct | py_tools/src/rags/football/fbref.py:21-22 | no two tournaments share a lower-cased name, so the match is unambiguous |
| Fbref.TournamentNameRoundTrip | py_tools/src/rags/football/fbref.py:19-24 | any casing of a tournament's name finds that tournament |
| Fbref.TournamentLookupIgnoresCase | py_tools/src/rags/football/fbref.py:22 | two texts equal up to case find the same tournament or both fail |
| Fbref.ScoreFromStr | py_tools/src/rags/football/fbref.py:35-38 | a score needs exactly two en-dash-separated parts, each read by `int()`, and succeeds exactly when both read |
| Fbref.ScoreRoundTrip | py_tools/src/rags/football/fbref.py:35-38 | `"h–a"` written from two integers reads back as those integers |
| Fbref.ScoreNeedsTwoParts | py_tools/src/rags/football/fbref.py:37 | a text with no dash or with two dashes fails to unpack |
| Fbref.FilterRows | py_tools/src/rags/football/fbref.py:101-103 | every kept row has a date within the window, compared as strings |
| Fbref.FilterRowsAppend | py_tools/src/rags/football/fbref.py:101-103 | the mask works row by row, so it distributes over concatenation |
| Fbref.FilterRowsCounts | py_tools/src/rags/football/fbref.py:101-103 | every row in the window is kept as often as it occurs; none outside is kept |
| Fbref.OneDayWindow | py_tools/src/rags/football/fbref.py:101-102 | a window of one day keeps exactly the rows dated that day |
| Fbref.WiderWindow | py_tools/src/rags/football/fbref.py:101-102 | a row inside a window is inside every window that contains it |
| Fbref.RowToMatch | py_tools/src/rags/football/fbref.py:106-116 | a row reads exactly when it has a week, a date and a readable or missing score; the match keeps week, date, time and teams, and has a score exactly when the row has one, that score being the row's score text read by `Score.from_str` |
| Fbref.RowsToMatches | py_tools/src/rags/football/fbref.py:104-117 | on success there is one match per row, in order, each that row's reading |
| Fbref.RowsToMatchesStep | py_tools/src/rags/football/fbref.py:104-117 | one more row either passes on its failure or appends its match |
| Fbref.ParseMatches | py_tools/src/rags/football/fbref.py:97-118 | the appending loop returns the masked rows' matches, or the first row's failure |
| Fbref.RowsToMatchesFailsFrom | py_tools/src/rags/football/fbref.py:104-117 | once a prefix of rows fails, the whole reading fails with the same error |
| Fbref.ParsedMatches | py_tools/src/rags/football/fbref.py:97-118 | `parse_matches` as a value: the masked rows, each read (no ensures; stated by `ParsedMatchesInWindow` and `ParseMatches`) |
| Fbref.ParsedMatchesInWindow | py_tools/src/rags/football/fbref.py:97-118 | every parsed match lies in the window, one per kept row, scored exactly when its row was |
| Fbref.Pad2 | py_tools/src/rags/football/fbref.py:80-81 | a month or day field is two digits that read back as the number |
| Fbref.Strf | py_tools/src/rags/football/fbref.py:80-81 | `%Y-%m-%d` ends with two-digit month and day fields separated by dashes, and the three fields read back as year, month and day |
| Fbref.SeasonMatches | py_tools/src/rags/football/fbref.py:87-93 | on success the dictionary's keys are the requested tournaments, each mapped to the parsed matches of its schedule page |
| Fbref.GetMatchesYears | py_tools/src/rags/football/fbref.py:75-95 | a start in an earlier year raises `NotImplementedError`; an end in another year gives an empty dictionary; without dates today's matches of every tournament are read |
| Fbref.GetMatchesOutcome | py_tools/src/rags/football/fbref.py:67-95 | what `get_matches` gives for `now`: the defaulted dates, the year checks and the season read (no ensures; stated by `GetMatchesYears`) |
| Fbref.GetMatches | py_tools/src/rags/football/fbref.py:67-95 | the method's outcome is the defaulted, year-checked season read |
| Fbref.SeasonMatchesStep | py_tools/src/rags/football/fbref.py:88-93 | one more tournament either passes on its schedule's failure or adds its parsed matches under its own key |
| Fbref.ReadSeason | py_tools/src/rags/football/fbref.py:88-93 | the loop filling the dictionary one tournament at a time gives the season read, stopping at the first failure |
| Fbref.SeasonMatchesFailsFrom | py_tools/src/rags/football/fbref.py:88-93 | once a prefix of tournaments fails, the whole read fails with the same error |
| Strings.Contains | py_tools/src/rags/web_search/web_scraper.py:36 | `sub in s` holds exactly when `sub` occurs at some position of `s` |
| Strings.OccursAtStart | py_tools/src/rags/web_search/web_scraper.py:36 | occurring at position 0 is being a prefix |
| Strings.OccursAtShift | py_tools/src/rags/web_search/web_scraper.py:36 | occurring at position `i + 1` of a text is occurring at position `i` of its tail |
| Strings.ContainsInPrefix | py_tools/src/rags/web_search/web_scraper.py:36 | a site that occurs in a prefix of the URL occurs in the URL |
| Strings.Lower | py_tools/src/rags/football/fbref.py:22 | `lower()` keeps the length and lower-cases each character in its place (ASCII letters only) |
| Strings.Strip | py_tools/src/owui/tools/web_search.py:212 | `strip()` is `rstrip()` after `lstrip()` (no ensures; stated by `LeadingSpaces`, `TrailingSpaces` and `StripKeepsWords`) |
| Strings.TrimLeft | py_tools/src/owui/tools/web_search.py:212 | `lstrip()` drops the leading whitespace run (no ensures; stated by `LeadingSpaces`) |
| Strings.TrimRight | py_tools/src/owui/tools/web_search.py:212 | `rstrip()` drops the trailing whitespace run (no ensures; stated by `TrailingSpaces`) |
| Strings.Split | py_tools/src/owui/tools/web_search.py:228 | `split()` returns non-empty words without whitespace |
| Strings.Join | py_tools/src/owui/tools/web_search.py:230 | `" ".join(words)` (no ensures; stated by `SplitJoin` and `JoinSplitTidy`) |
| Strings.JoinSplitTidy | py_tools/src/owui/tools/web_search.py:230 | tidy text is the single-space join of its own words |
| Strings.SplitJoin | py_tools/src/owui/tools/web_search.py:228-230 | splitting the single-space join of words gives those words back |
| Strings.SplitOn | py_tools/src/rags/football/fbref.py:37 | `split(sep)` returns at least one part and no part holds the separator |
| Strings.JoinSplitOn | py_tools/src/rags/football/fbref.py:37 | joining the parts of `split(sep)` with `sep` gives the text back |
| Strings.NatToString | py_tools/src/rags/web_search/searxng_search_engine.py:56 | `str(n)` is one or more decimal digits without a leading zero |
| Strings.NatToStringValue | py_tools/src/rags/web_search/searxng_search_engine.py:56 | the digits of `str(n)` read back as `n` |
| Strings.NatToStringInjective | py_tools/src/rags/web_search/searxng_search_engine.py:56 | different numbers print differently |
| Strings.ParseInt | py_tools/src/rags/football/fbref.py:38 | `int()` on a base-10 literal with optional whitespace and sign (no ensures; stated by `ParseIntToString`) |
| Strings.ParseIntToString | py_tools/src/rags/football/fbref.py:38 | `int(str(n)) == n` for every integer |
| Strings.LexLe | py_tools/src/rags/football/fbref.py:101-102 | string `<=` compares by code point (no ensures; stated by `LexLeTransitive` and `LexLeTotal`) |
| Strings.LexLeTransitive | py_tools/src/rags/football/fbref.py:101-102 | string `<=` is transitive |
| Strings.LexLeTotal | py_tools/src/rags/football/fbref.py:101-102 | any two strings are ordered one way or the other |
| Common.PyPrefixNonNegative | py_tools/src/owui/tools/web_search.py:229 | for `n >= 0`, `s[:n]` is the first `min(n, len(s))` items |

## Left out

- HTTP, the headless crawler (crawl4ai/Playwright), asyncpraw, `requests`, `pd.read_html`, the HTML parser and the clock are function parameters. The model states what the code does with every answer they give, not what they answer.
- Concurrency (`asyncio.gather`) is modelled as sequential evaluation in list order. When several tasks raise, the model reports the first failure by index, while Python reports whichever exception reaches `gather` first.
- `print`/`traceback` logging, `EventEmitter` status events and JSON serialisation of the reply are left out. They are side channels that do not change the returned data.
- `WebSearchTool.EmitCitations`: only the `KeyError` of a result without `content`, `url` or `title` is modelled. The events sent and an exception raised by the emitter itself are not.
- Unicode NFKC normalisation and the general-category table are uninterpreted parameters, because their tables are not part of this model.
- Python's Unicode-aware `lower()` is modelled for ASCII letters only. `int()` accepting underscores and non-ASCII digits is not modelled.
- `HttpUrl` validation and normalisation of result URLs (e.g. an added trailing slash) is left out. URLs are kept as the strings the engine returned.
- `Searxng.PageRequestFor`: `SearxngConfig.base_url` is an `HttpUrl` too, and its normalisation is not modelled either. A base URL given as `http://host` becomes `http://host/`, so the code posts to `http://host/search` where the model's `base_url + "search"` gives `http://hostsearch`.
- `results_per_page` is validated but never sent by the code, so it plays no further part. `HelpFunctions.get_base_url` is not used by the core and is left out.
- The expected-goals columns (`float(xG)`) and the `strptime` parse of date and time are left out. `Match` keeps the date and time texts, so a malformed time is not rejected.
- The closing of the shared HTTP client is left out. The Rust and Go code and the FastAPI routes are not part of this model.
- `WebSearchTool.ProcessResults`: it requires the groups to be distinct objects, which they always are when built by `GatherGroups`.
- `WebSearchTool.QueryGroup.constructor`: result dictionaries are values, so aliasing of one dictionary between groups is not captured.
- The search API's `results` entry is modelled as a list of string dictionaries, although the API may return any JSON.
- `Fbref.Strf`: `%Y` prints the year unpadded, as glibc does; the zero-padding to four digits of other C libraries is not modelled.
