/** src/lib/services/search.ts: `searchWeb` turns a search provider's
    response into the ordered list of search results offered to the model.
    The provider request is not modelled: the operation is handed what it
    came to. */
module SearchService {
  import opened Common
  import opened Strings
  import opened Config

  datatype SearchResult = SearchResult(
    title: string,
    link: string,
    snippet: string,
    position: int,
    date: Option<string>,
    source: Option<string>)

  datatype OverviewItem = OverviewItem(answer: string)

  /** One block of the provider's AI overview: a direct answer, or a list of
      items with answers (other fields are never read). */
  datatype TextBlock = TextBlock(answer: Option<string>, items: Option<seq<OverviewItem>>)

  /** The parts of the provider response that are read: `organic_results`
      and `ai_overview.text_blocks` (`None` when absent). */
  datatype SearchResponse = SearchResponse(
    organicResults: Option<seq<SearchResult>>,
    overviewBlocks: Option<seq<TextBlock>>)

  /** What the provider request came to: a throw, or a response. */
  datatype SearchOutcome = SearchThrew(error: Thrown) | SearchAnswered(data: SearchResponse)

  function ItemAnswers(items: seq<OverviewItem>): (r: seq<string>)
    ensures |r| == |items| && forall i :: 0 <= i < |items| ==> r[i] == items[i].answer
  {
    seq(|items|, i requires 0 <= i < |items| => items[i].answer)
  }

  /** What one block contributes: its answer when non-empty, else its items'
      answers joined by line feeds, else nothing. */
  function BlockText(b: TextBlock): string
  {
    if b.answer.Some? && b.answer.value != "" then b.answer.value
    else if b.items.Some? then Join(ItemAnswers(b.items.value), "\n")
    else ""
  }

  function BlockTexts(blocks: seq<TextBlock>): (r: seq<string>)
    ensures |r| == |blocks| && forall i :: 0 <= i < |blocks| ==> r[i] == BlockText(blocks[i])
  {
    seq(|blocks|, i requires 0 <= i < |blocks| => BlockText(blocks[i]))
  }

  /** `filter(Boolean)` on strings: the non-empty ones, in order. */
  function DropEmpty(parts: seq<string>): (r: seq<string>)
    ensures |r| <= |parts|
    ensures forall i :: 0 <= i < |r| ==> r[i] != ""
  {
    if parts == [] then []
    else if parts[0] == "" then DropEmpty(parts[1..])
    else [parts[0]] + DropEmpty(parts[1..])
  }

  /** The overview flattened into one snippet. */
  function FlattenOverview(blocks: seq<TextBlock>): string
  {
    Join(DropEmpty(BlockTexts(blocks)), "\n")
  }

  function OverviewResult(text: string): SearchResult
  {
    SearchResult("AI Overview", "#", text, 0, None, None)
  }

  /** The synthetic overview entry, present only when the flattened text is
      non-empty. */
  function OverviewEntries(blocks: Option<seq<TextBlock>>): seq<SearchResult>
  {
    if blocks.Some? && FlattenOverview(blocks.value) != "" then [OverviewResult(FlattenOverview(blocks.value))]
    else []
  }

  /** Where `slice(0, end)` stops on a list of length `len`: a NaN end is 0,
      a negative end counts back from the length, a large one is clamped. */
  function SliceEnd(len: nat, end: ParsedInt): (k: nat)
    ensures k <= len
  {
    match end
    case NaN => 0
    case Num(n) =>
      if n < 0 then (if len + n < 0 then 0 else len + n)
      else if n < len then n
      else len
  }

  /** `organic_results?.slice(0, searchResultsCount) || []`. */
  function OrganicResults(organic: Option<seq<SearchResult>>, count: ParsedInt): seq<SearchResult>
  {
    if organic.Some? then organic.value[..SliceEnd(|organic.value|, count)] else []
  }

  /** `searchWeb`: nothing without a key or on a throw; otherwise the
      overview entry, if any, followed by the capped organic results. */
  method SearchWeb(config: AppConfig, outcome: SearchOutcome) returns (results: seq<SearchResult>)
    ensures config.searchApiKey == "" || outcome.SearchThrew? ==> results == []
    ensures config.searchApiKey != "" && outcome.SearchAnswered? ==>
              results == OverviewEntries(outcome.data.overviewBlocks) +
                         OrganicResults(outcome.data.organicResults, config.searchResultsCount)
  {
    if config.searchApiKey == "" {
      return [];
    }
    match outcome
    case SearchThrew(_) =>
      return [];
    case SearchAnswered(data) =>
      results := [];
      if data.overviewBlocks.Some? {
        var overviewText := FlattenOverview(data.overviewBlocks.value);
        if overviewText != "" {
          results := results + [OverviewResult(overviewText)];
        }
      }
      results := results + OrganicResults(data.organicResults, config.searchResultsCount);
  }

  /** The overview, when there is one, comes first as the synthetic entry,
      and the organic results follow it unchanged. */
  lemma {:induction false} OverviewComesFirst(data: SearchResponse, count: ParsedInt)
    requires data.overviewBlocks.Some? && FlattenOverview(data.overviewBlocks.value) != ""
    ensures var results := OverviewEntries(data.overviewBlocks) + OrganicResults(data.organicResults, count);
            |results| >= 1 &&
            results[0] == SearchResult("AI Overview", "#", FlattenOverview(data.overviewBlocks.value), 0, None, None) &&
            results[1..] == OrganicResults(data.organicResults, count)
  {
  }

  /** With a non-negative count, the organic results are the provider's
      first `count` results in provider order, and the whole list holds at
      most `count + 1` entries. */
  lemma {:induction false} OrganicResultsCapped(data: SearchResponse, n: int)
    requires n >= 0
    ensures data.organicResults.Some? ==>
              OrganicResults(data.organicResults, Num(n)) ==
                data.organicResults.value[..if n < |data.organicResults.value| then n else |data.organicResults.value|]
    ensures data.organicResults.None? ==> OrganicResults(data.organicResults, Num(n)) == []
    ensures |OverviewEntries(data.overviewBlocks) + OrganicResults(data.organicResults, Num(n))| <= n + 1
  {
  }

  /** A count that does not parse contributes no organic results; a negative
      one drops that many results from the end instead of capping. */
  lemma {:induction false} OrganicResultsOddCounts(organic: seq<SearchResult>, k: nat)
    requires k > 0
    ensures OrganicResults(Some(organic), NaN) == []
    ensures OrganicResults(Some(organic), Num(0 - k)) == organic[..if k < |organic| then |organic| - k else 0]
  {
  }

  /** The filter keeps the order and splits over concatenation. */
  lemma {:induction false} DropEmptyConcat(a: seq<string>, b: seq<string>)
    ensures DropEmpty(a + b) == DropEmpty(a) + DropEmpty(b)
    decreases |a|
  {
    if a == [] {
      assert a + b == b;
    } else {
      assert (a + b)[0] == a[0];
      assert (a + b)[1..] == a[1..] + b;
      DropEmptyConcat(a[1..], b);
    }
  }

  /** Nothing survives the filter exactly when every part is empty. */
  lemma {:induction false} DropEmptyNone(parts: seq<string>)
    ensures DropEmpty(parts) == [] <==> forall i :: 0 <= i < |parts| ==> parts[i] == ""
    decreases |parts|
  {
    if parts != [] {
      DropEmptyNone(parts[1..]);
      assert forall i :: 1 <= i < |parts| ==> parts[i] == parts[1..][i - 1];
    }
  }

  /** Joining two non-empty lists puts one separator between their joins. */
  lemma {:induction false} JoinConcat(a: seq<string>, b: seq<string>, sep: string)
    requires a != [] && b != []
    ensures Join(a + b, sep) == Join(a, sep) + sep + Join(b, sep)
    decreases |a|
  {
    if |a| == 1 {
      assert (a + b)[1..] == b;
    } else {
      assert (a + b)[1..] == a[1..] + b;
      JoinConcat(a[1..], b, sep);
    }
  }

  /** A join of non-empty strings is empty only when there is nothing to join. */
  lemma {:induction false} JoinNonEmpty(parts: seq<string>, sep: string)
    requires parts != [] && parts[0] != ""
    ensures Join(parts, sep) != ""
  {
    assert Join(parts, sep)[..|parts[0]|] == parts[0];
  }

  /** The flattened overview is empty exactly when no block contributes. */
  lemma {:induction false} FlattenOverviewEmpty(blocks: seq<TextBlock>)
    ensures FlattenOverview(blocks) == "" <==> forall i :: 0 <= i < |blocks| ==> BlockText(blocks[i]) == ""
  {
    var texts := BlockTexts(blocks);
    DropEmptyNone(texts);
    var kept := DropEmpty(texts);
    if kept != [] {
      JoinNonEmpty(kept, "\n");
    }
  }

  /** Flattening works block by block in block order: the overview of two
      runs of blocks is their overviews joined by a line feed, an empty one
      being dropped. */
  lemma {:induction false} FlattenOverviewConcat(a: seq<TextBlock>, b: seq<TextBlock>)
    ensures FlattenOverview(a + b) ==
              if FlattenOverview(a) == "" then FlattenOverview(b)
              else if FlattenOverview(b) == "" then FlattenOverview(a)
              else FlattenOverview(a) + "\n" + FlattenOverview(b)
  {
    assert BlockTexts(a + b) == BlockTexts(a) + BlockTexts(b);
    DropEmptyConcat(BlockTexts(a), BlockTexts(b));
    var ka, kb := DropEmpty(BlockTexts(a)), DropEmpty(BlockTexts(b));
    if ka != [] {
      JoinNonEmpty(ka, "\n");
    }
    if kb != [] {
      JoinNonEmpty(kb, "\n");
    }
    if ka == [] {
      assert ka + kb == kb;
    } else if kb == [] {
      assert ka + kb == ka;
    } else {
      JoinConcat(ka, kb, "\n");
    }
  }

  /** A single block flattens to its own contribution. */
  lemma {:induction false} FlattenOneBlock(b: TextBlock)
    ensures FlattenOverview([b]) == BlockText(b)
  {
    assert BlockTexts([b]) == [BlockText(b)];
  }

  /** A direct answer followed by a list of items flattens to the answer and
      the items' answers, one per line. */
  lemma {:induction false} FlattenAnswerThenItems(answer: string, items: seq<OverviewItem>, other: Option<seq<OverviewItem>>)
    requires answer != "" && Join(ItemAnswers(items), "\n") != ""
    ensures FlattenOverview([TextBlock(Some(answer), other), TextBlock(None, Some(items))]) ==
              answer + "\n" + Join(ItemAnswers(items), "\n")
  {
    var b1, b2 := TextBlock(Some(answer), other), TextBlock(None, Some(items));
    FlattenOneBlock(b1);
    FlattenOneBlock(b2);
    FlattenOverviewConcat([b1], [b2]);
    assert [b1] + [b2] == [b1, b2];
  }
}
