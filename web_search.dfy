/** The web tools of `tools/web_search.py`. HTTP and HTML parsing are not
    modelled: the search tool receives the result blocks the parser found, the
    scrape tool the page text left once scripts and styles are removed. */
module WebSearch {
  import opened Wrappers
  import opened Text
  import opened ToolBase

  const WebSearchParameters: seq<ToolParameter> := [
    Parameter("query", "string", "Search query to look up on the web"),
    OptionalParameter("num_results", "integer", "Number of search results to return", Int(5))
  ]

  const WebScrapeParameters: seq<ToolParameter> := [
    Parameter("url", "string", "URL of the web page to scrape"),
    OptionalParameter("max_length", "integer", "Maximum length of content to return", Int(5000))
  ]

  const DefaultNumResults := 5
  const DefaultMaxLength := 5000

  /** Python truthiness of an optional string argument. */
  predicate IsGiven(s: Option<string>) {
    s.Some? && s.value != ""
  }

  // ---------------------------------------------------------------- web_search

  /** The `a.result__a` element of a block: its stripped text and its `href`, if any. */
  datatype TitleLink = TitleLink(text: string, href: Option<string>)

  /** One `div.result` block: an optional title link and an optional snippet text. */
  datatype ResultBlock = ResultBlock(title: Option<TitleLink>, snippet: Option<string>)

  /** What fetching and parsing the results page gives: its blocks in page order, or the failure. */
  datatype SearchPage = SearchFailed(reason: string) | ResultsPage(blocks: seq<ResultBlock>)

  datatype SearchResult = SearchResult(title: string, url: string, snippet: string)

  /** The result of `WebSearchTool.execute`. */
  datatype SearchOutcome =
    | SearchError(error: string)
    | Found(query: string, results: seq<SearchResult>, totalFound: nat)

  /** The entry for a block with a title link: `href` defaults to "" and a missing
      snippet element gives "". */
  function ResultOf(b: ResultBlock): SearchResult
    requires b.title.Some?
  {
    SearchResult(b.title.value.text, b.title.value.href.GetOr(""), b.snippet.GetOr(""))
  }

  /** The entries of the titled blocks, in page order; untitled blocks are skipped. */
  function Titled(blocks: seq<ResultBlock>): (results: seq<SearchResult>)
    ensures |results| <= |blocks|
  {
    if blocks == [] then []
    else
      var init, last := blocks[..|blocks| - 1], blocks[|blocks| - 1];
      Titled(init) + (if last.title.Some? then [ResultOf(last)] else [])
  }

  /** The results are exactly the entries of the titled blocks, one per block
      when every block has a title. */
  lemma {:induction false} TitledMembers(blocks: seq<ResultBlock>)
    ensures forall r :: r in Titled(blocks) <==> exists b :: b in blocks && b.title.Some? && r == ResultOf(b)
    ensures (forall b :: b in blocks ==> b.title.Some?) ==> |Titled(blocks)| == |blocks|
  {
    if blocks != [] {
      var init, last := blocks[..|blocks| - 1], blocks[|blocks| - 1];
      TitledMembers(init);
      assert blocks == init + [last];
    }
  }

  /** Blocks are handled one at a time: the entries of two runs of blocks are the
      entries of the first followed by those of the second, so results keep page order. */
  lemma {:induction false} TitledAppend(front: seq<ResultBlock>, back: seq<ResultBlock>)
    ensures Titled(front + back) == Titled(front) + Titled(back)
  {
    if back == [] {
      assert front + back == front;
    } else {
      var init, last := back[..|back| - 1], back[|back| - 1];
      var whole := front + back;
      assert whole[..|whole| - 1] == front + init && whole[|whole| - 1] == last;
      TitledAppend(front, init);
    }
  }

  /** How many blocks the enumerate loop looks at before `i >= num_results` breaks it. */
  function Scanned(numResults: int, available: nat): (n: nat)
    ensures n <= available
    ensures n <= numResults || n == 0
  {
    if numResults <= 0 then 0 else if numResults < available then numResults else available
  }

  /** `WebSearchTool.execute`: the titled blocks among the first `num_results`
      blocks, so never more than `num_results` results. */
  method Search(query: Option<string>, numResults: Option<int>, page: SearchPage) returns (r: SearchOutcome)
    ensures !IsGiven(query) ==> r == SearchError("Query parameter is required")
    ensures IsGiven(query) && page.SearchFailed? ==> r == SearchError("Web search failed: " + page.reason)
    ensures r.Found? <==> IsGiven(query) && page.ResultsPage?
    ensures r.Found? ==> r.query == query.value && r.totalFound == |r.results|
    ensures r.Found? ==> r.results == Titled(page.blocks[..Scanned(numResults.GetOr(DefaultNumResults), |page.blocks|)])
    ensures r.Found? ==> |r.results| <= numResults.GetOr(DefaultNumResults) || r.results == []
  {
    if !IsGiven(query) {
      return SearchError("Query parameter is required");
    }
    match page {
      case SearchFailed(reason) => return SearchError("Web search failed: " + reason);
      case ResultsPage(blocks) =>
        var limit := numResults.GetOr(DefaultNumResults);
        var results: seq<SearchResult> := [];
        var i := 0;
        while i < |blocks|
          invariant 0 <= i <= |blocks|
          invariant i <= limit || i == 0
          invariant results == Titled(blocks[..i])
        {
          if i >= limit {
            break;
          }
          var block := blocks[i];
          assert blocks[..i + 1][..i] == blocks[..i];
          if block.title.Some? {
            results := results + [ResultOf(block)];
          }
          i := i + 1;
        }
        assert i == Scanned(limit, |blocks|);
        return Found(query.value, results, |results|);
    }
  }

  // ---------------------------------------------------------------- web_scrape

  /** What fetching the page gives: its text once scripts and styles are removed, or the failure. */
  datatype ScrapePage = ScrapeFailed(reason: string) | PageText(text: string)

  /** The result of `WebScrapeTool.execute`. */
  datatype ScrapeOutcome =
    | ScrapeError(error: string)
    | Scraped(url: string, content: string, length: nat)

  /** The stripped phrases of one line: `phrase.strip() for phrase in line.split("  ")`. */
  function Phrases(line: string): (chunks: seq<string>)
    ensures forall c :: c in chunks ==> IsStripped(c) && NoDoubleSpace(c)
  {
    var pieces := SplitOnDoubleSpace(line);
    var chunks := seq(|pieces|, i requires 0 <= i < |pieces| => Strip(pieces[i]));
    assert forall i :: 0 <= i < |pieces| ==> pieces[i] in pieces;
    chunks
  }

  /** All chunks of all (stripped) lines, in text order. */
  function Chunks(lines: seq<string>): (chunks: seq<string>)
    ensures forall c :: c in chunks ==> IsStripped(c) && NoDoubleSpace(c)
  {
    if lines == [] then [] else Phrases(Strip(lines[0])) + Chunks(lines[1..])
  }

  /** The non-empty chunks, in order. */
  function NonEmpty(chunks: seq<string>): (kept: seq<string>)
    ensures |kept| <= |chunks|
  {
    if chunks == [] then []
    else
      var rest := NonEmpty(chunks[1..]);
      if chunks[0] == [] then rest else [chunks[0]] + rest
  }

  /** The kept chunks are exactly the non-empty ones. */
  lemma {:induction false} NonEmptyMembers(chunks: seq<string>)
    ensures forall c :: c in NonEmpty(chunks) <==> c in chunks && c != []
  {
    if chunks != [] {
      NonEmptyMembers(chunks[1..]);
      assert chunks == [chunks[0]] + chunks[1..];
    }
  }

  /** Chunks are filtered one at a time: the non-empty chunks of two runs of chunks
      are those of the first followed by those of the second, so order is kept. */
  lemma {:induction false} NonEmptyAppend(front: seq<string>, back: seq<string>)
    ensures NonEmpty(front + back) == NonEmpty(front) + NonEmpty(back)
  {
    if front == [] {
      assert front + back == back;
    } else {
      var whole := front + back;
      assert whole[0] == front[0] && whole[1..] == front[1..] + back;
      NonEmptyAppend(front[1..], back);
      if front[0] != [] {
        var head, rest := [front[0]], NonEmpty(front[1..]);
        assert head + (rest + NonEmpty(back)) == (head + rest) + NonEmpty(back);
      }
    }
  }

  /** The clean-up of the page text: split into lines, strip them, split each on
      double spaces, strip the phrases and join the non-empty ones with single spaces. */
  function Normalise(text: string): (clean: string)
    ensures IsStripped(clean)
    ensures NoDoubleSpace(clean)
  {
    var chunks := Chunks(SplitOnChar(text, '\n'));
    var kept := NonEmpty(chunks);
    NonEmptyMembers(chunks);
    JoinSpaceClean(kept);
    Join(kept, " ")
  }

  /** `WebScrapeTool.execute`: the normalised text, cut to `max_length` characters
      plus "..." when longer; `length` is the length of what is returned. */
  function Scrape(url: Option<string>, maxLength: Option<int>, page: ScrapePage): (r: ScrapeOutcome)
    ensures !IsGiven(url) ==> r == ScrapeError("URL parameter is required")
    ensures IsGiven(url) && page.ScrapeFailed? ==> r == ScrapeError("Web scraping failed: " + page.reason)
    ensures r.Scraped? <==> IsGiven(url) && page.PageText?
    ensures r.Scraped? ==> r.url == url.value && r.length == |r.content|
    ensures r.Scraped? && |Normalise(page.text)| <= maxLength.GetOr(DefaultMaxLength) ==> r.content == Normalise(page.text)
    ensures r.Scraped? && 0 <= maxLength.GetOr(DefaultMaxLength) < |Normalise(page.text)| ==>
      var m := maxLength.GetOr(DefaultMaxLength);
      |r.content| == m + 3 && r.content == Normalise(page.text)[..m] + "..."
  {
    if !IsGiven(url) then ScrapeError("URL parameter is required")
    else
      match page
      case ScrapeFailed(reason) => ScrapeError("Web scraping failed: " + reason)
      case PageText(text) =>
        var content := TruncateWithEllipsis(Normalise(text), maxLength.GetOr(DefaultMaxLength));
        Scraped(url.value, content, |content|)
  }

  /** A negative `max_length` slices from the end, as Python does: the scraped text
      loses that many characters (all of them when there are fewer) and gains "...". */
  lemma ScrapeNegativeLimit(url: Option<string>, m: int, page: ScrapePage)
    requires IsGiven(url) && page.PageText? && m < 0
    ensures var text := Normalise(page.text);
      Scrape(url, Some(m), page).content == text[..if |text| + m > 0 then |text| + m else 0] + "..."
  {
    var text := Normalise(page.text);
    assert Scrape(url, Some(m), page).content == TruncateWithEllipsis(text, m);
  }
}
