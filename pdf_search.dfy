/**
 * The search of the PDF viewer (pdf_search_app.py): a page matches when the
 * stripped, lower-cased query occurs in its lower-cased text, and each match
 * is reported by page number with a snippet of the text around the first
 * occurrence. The pages are the texts the PDF reader extracted; the widgets
 * that show the results are outputs of the model.
 */
module PdfSearch {
  import opened Wrappers
  import opened Text

  /** Characters of context kept on each side of the match. */
  const Context: nat := 80

  const NotLocated: string := "Match located on this page."
  const EnterTerm: string := "Enter a search term first."
  const OpenFirst: string := "Open a PDF before searching."
  const NoMatches: string := "No matches found."

  function Max(a: int, b: int): int { if a >= b then a else b }

  function Min(a: int, b: int): int { if a <= b then a else b }

  /**
   * The slice `text[start:end]` around a match at `idx`: up to `Context`
   * characters before it and after the `queryLen` characters of the query,
   * never past either end of the text.
   */
  function Window(textLen: nat, idx: nat, queryLen: nat): (w: (nat, nat))
    requires idx <= textLen
    ensures w.0 <= idx && w.0 <= w.1 <= textLen
    ensures idx - w.0 == Min(idx, Context)
    ensures idx + queryLen <= textLen ==>
      idx + queryLen <= w.1 && w.1 - (idx + queryLen) == Min(textLen - (idx + queryLen), Context)
  {
    (Max(0, idx - Context), Min(textLen, idx + queryLen + Context))
  }

  /** The words of a window, single-spaced and wrapped in "...". */
  function Snipped(window: string): string
  {
    "..." + Join(" ", Words(window)) + "..."
  }

  /** `_build_snippet`: the window around the first match, snipped. */
  function BuildSnippet(text: string, lowered: string, queryLen: nat): (r: string)
    ensures r == NotLocated <==> !Contains(Lower(text), lowered)
  {
    var idx := Find(Lower(text), lowered);
    if idx == -1 then NotLocated
    else
      var (start, end) := Window(|text|, idx, queryLen);
      assert Snipped(text[start..end])[0] != NotLocated[0];
      Snipped(text[start..end])
  }

  /**
   * A snippet is the words of its window joined by single spaces, with "..."
   * on each side: nothing of the window but its spacing is lost.
   */
  lemma SnippedBody(window: string)
    ensures var r := Snipped(window);
      && |r| >= 6 && r[..3] == "..." && r[|r| - 3..] == "..."
      && SingleSpaced(r[3..|r| - 3])
      && Words(r[3..|r| - 3]) == Words(window)
  {
    var ws := Words(window);
    var body := Join(" ", ws);
    assert SingleSpaced(body) && Words(body) == ws by {
      JoinWordsSingleSpaced(ws);
      WordsOfJoin(ws);
    }
    Wrapped(body);
  }

  /** The part between the two "..." of a snippet is what was wrapped. */
  lemma Wrapped(body: string)
    ensures var r := "..." + body + "...";
      && |r| == |body| + 6 && r[..3] == "..." && r[|r| - 3..] == "..." && r[3..|r| - 3] == body
  {
    var r := "..." + body + "...";
    assert r[..3] == "...";
    assert r[|r| - 3..] == "...";
    assert r[3..|r| - 3] == body;
  }

  /** A match found is snipped from the window around its first occurrence. */
  lemma SnippetOfMatch(text: string, lowered: string, queryLen: nat)
    requires Contains(Lower(text), lowered)
    ensures var idx := Find(Lower(text), lowered);
      && 0 <= idx && idx + |lowered| <= |text|
      && BuildSnippet(text, lowered, queryLen) == Snipped(text[Window(|text|, idx, queryLen).0..Window(|text|, idx, queryLen).1])
  {
  }

  /** `f"Page {index}: {snippet}"`. */
  function PageLine(index: nat, snippet: string): string
  {
    "Page " + NatToString(index) + ": " + snippet
  }

  /** A page is reported when the lowered query occurs in its lowered text. */
  predicate Hit(page: string, lowered: string)
  {
    Contains(Lower(page), lowered)
  }

  /** Which pages are hits, page by page. */
  function Flags(pages: seq<string>, lowered: string): (f: seq<bool>)
    ensures |f| == |pages| && forall i :: 0 <= i < |pages| ==> (f[i] <==> Hit(pages[i], lowered))
  {
    seq(|pages|, i requires 0 <= i < |pages| => Hit(pages[i], lowered))
  }

  /** The snippet of each page, page `i + 1` at index `i`. */
  function Snippets(pages: seq<string>, lowered: string, queryLen: nat): (snippets: seq<string>)
    ensures |snippets| == |pages|
  {
    seq(|pages|, i requires 0 <= i < |pages| => BuildSnippet(pages[i], lowered, queryLen))
  }

  /** Each snippet numbered by its page, from 1. */
  function Numbered(snippets: seq<string>): (lines: seq<string>)
    ensures |lines| == |snippets|
  {
    seq(|snippets|, i requires 0 <= i < |snippets| => PageLine(i + 1, snippets[i]))
  }

  /** The line each page would be reported with, page `i + 1` at index `i`. */
  function PageLines(pages: seq<string>, lowered: string, queryLen: nat): (lines: seq<string>)
    ensures |lines| == |pages|
  {
    Numbered(Snippets(pages, lowered, queryLen))
  }

  /** Page `k + 1` has its line at index `k`. */
  lemma PageLineAt(pages: seq<string>, lowered: string, queryLen: nat, k: nat)
    requires k < |pages|
    ensures PageLines(pages, lowered, queryLen)[k] == PageLine(k + 1, BuildSnippet(pages[k], lowered, queryLen))
  {
    var snippets := Snippets(pages, lowered, queryLen);
    SnippetAt(pages, lowered, queryLen, k);
    NumberedAt(snippets, k);
  }

  lemma SnippetAt(pages: seq<string>, lowered: string, queryLen: nat, k: nat)
    requires k < |pages|
    ensures Snippets(pages, lowered, queryLen)[k] == BuildSnippet(pages[k], lowered, queryLen)
  {
  }

  lemma NumberedAt(snippets: seq<string>, k: nat)
    requires k < |snippets|
    ensures Numbered(snippets)[k] == PageLine(k + 1, snippets[k])
  {
  }

  /** The items whose flag is set, in order: the `matches` list the page loop builds. */
  function Selected(items: seq<string>, hits: seq<bool>): seq<string>
    requires |hits| == |items|
    decreases |items|
  {
    if items == [] then []
    else
      var n := |items| - 1;
      Selected(items[..n], hits[..n]) + (if hits[n] then [items[n]] else [])
  }

  /** One more item extends the selection by that item when its flag is set. */
  lemma SelectedStep(items: seq<string>, hits: seq<bool>, i: nat)
    requires |hits| == |items| && i < |items|
    ensures Selected(items[..i + 1], hits[..i + 1]) ==
      Selected(items[..i], hits[..i]) + (if hits[i] then [items[i]] else [])
  {
    assert items[..i + 1][..i] == items[..i];
    assert hits[..i + 1][..i] == hits[..i];
  }

  /** The numbers, from 1, of the pages flagged as hits. */
  function Hits(hits: seq<bool>): (h: seq<nat>)
    ensures forall j :: 0 <= j < |h| ==> 1 <= h[j] <= |hits| && hits[h[j] - 1]
    ensures forall i, j :: 0 <= i < j < |h| ==> h[i] < h[j]
    ensures forall p :: 1 <= p <= |hits| && hits[p - 1] ==> p in h
    decreases |hits|
  {
    if hits == [] then []
    else
      var n := |hits| - 1;
      var h := Hits(hits[..n]);
      assert forall j :: 0 <= j < n ==> hits[..n][j] == hits[j];
      h + (if hits[n] then [n + 1] else [])
  }

  /** There are as many selected items as flagged positions. */
  lemma {:induction false} SelectedLength(items: seq<string>, hits: seq<bool>)
    requires |hits| == |items|
    ensures |Selected(items, hits)| == |Hits(hits)|
    decreases |items|
  {
    if items != [] {
      var n := |items| - 1;
      SelectedLength(items[..n], hits[..n]);
    }
  }

  /** The j-th selected item is the item at the j-th flagged position. */
  lemma {:induction false} SelectedAt(items: seq<string>, hits: seq<bool>, j: nat)
    requires |hits| == |items| && j < |Hits(hits)|
    ensures j < |Selected(items, hits)| && Selected(items, hits)[j] == items[Hits(hits)[j] - 1]
    decreases |items|
  {
    var n := |items| - 1;
    var prefix := items[..n];
    var h := Hits(hits[..n]);
    var sel := Selected(prefix, hits[..n]);
    SelectedLength(prefix, hits[..n]);
    if j < |h| {
      SelectedAt(prefix, hits[..n], j);
      assert Selected(items, hits)[j] == sel[j];
      assert Hits(hits)[j] == h[j];
      assert prefix[h[j] - 1] == items[h[j] - 1];
    } else {
      assert hits[n] && Hits(hits) == h + [n + 1];
      assert Selected(items, hits) == sel + [items[n]];
    }
  }

  /** The `matches` list of a search: the lines of the pages that are hits, in page order. */
  function Report(pages: seq<string>, lowered: string, queryLen: nat): seq<string>
  {
    Selected(PageLines(pages, lowered, queryLen), Flags(pages, lowered))
  }

  /**
   * The report has one line per hit, and its j-th line gives the number,
   * from 1, of the j-th page that is a hit, with that page's snippet.
   */
  lemma ReportLine(pages: seq<string>, lowered: string, queryLen: nat, j: nat)
    requires j < |Hits(Flags(pages, lowered))|
    ensures |Report(pages, lowered, queryLen)| == |Hits(Flags(pages, lowered))|
    ensures var p := Hits(Flags(pages, lowered))[j];
      Report(pages, lowered, queryLen)[j] == PageLine(p, BuildSnippet(pages[p - 1], lowered, queryLen))
  {
    var lines := PageLines(pages, lowered, queryLen);
    var flags := Flags(pages, lowered);
    var h := Hits(flags);
    var p := h[j];
    assert 1 <= p <= |pages|;
    assert |Selected(lines, flags)| == |h| by {
      SelectedLength(lines, flags);
    }
    assert Selected(lines, flags)[j] == lines[p - 1] by {
      SelectedAt(lines, flags, j);
    }
    assert lines[p - 1] == PageLine(p, BuildSnippet(pages[p - 1], lowered, queryLen)) by {
      PageLineAt(pages, lowered, queryLen, p - 1);
    }
  }

  /** What the window shows after a search: the feedback line, and new results when the box is rewritten. */
  datatype Display = Display(feedback: string, results: Option<string>)

  /** `perform_search` with the query field's text and the extracted pages. */
  function Search(input: string, pages: seq<string>): Display
  {
    var query := Strip(input);
    if query == [] then Display(EnterTerm, None)
    else if pages == [] then Display(OpenFirst, None)
    else
      var m := Report(pages, Lower(query), |query|);
      if m != [] then Display("Found matches on " + NatToString(|m|) + " page(s).", Some(Join("\n\n", m)))
      else Display(NoMatches, Some(NoMatches))
  }

  /** `perform_search`, with its loop over the pages. */
  method PerformSearch(input: string, pages: seq<string>) returns (d: Display)
    ensures d == Search(input, pages)
  {
    var query := Strip(input);
    if query == [] {
      return Display(EnterTerm, None);
    }
    if pages == [] {
      return Display(OpenFirst, None);
    }
    var lowered := Lower(query);
    ghost var hits := Flags(pages, lowered);
    ghost var lines := PageLines(pages, lowered, |query|);
    var matches: seq<string> := [];
    for i := 0 to |pages|
      invariant matches == Selected(lines[..i], hits[..i])
    {
      SelectedStep(lines, hits, i);
      PageLineAt(pages, lowered, |query|, i);
      var index := i + 1;
      var hit := Contains(Lower(pages[i]), lowered);
      assert hit == hits[i];
      if hit {
        var snippet := BuildSnippet(pages[i], lowered, |query|);
        matches := matches + [PageLine(index, snippet)];
      }
    }
    assert lines[..|pages|] == lines;
    assert hits[..|pages|] == hits;
    if matches != [] {
      d := Display("Found matches on " + NatToString(|matches|) + " page(s).", Some(Join("\n\n", matches)));
    } else {
      d := Display(NoMatches, Some(NoMatches));
    }
  }

  /** A query that is blank once stripped searches nothing and leaves the results as they were. */
  lemma BlankQuery(input: string, pages: seq<string>)
    requires forall i :: 0 <= i < |input| ==> IsSpace(input[i])
    ensures Search(input, pages) == Display(EnterTerm, None)
  {
    StripEmpty(input);
  }

  /** A query with no pages loaded asks for a PDF first and leaves the results as they were. */
  lemma NoPages(input: string)
    requires Strip(input) != []
    ensures Search(input, []) == Display(OpenFirst, None)
  {
  }

  /** A page is reported exactly when its lowered text holds the lowered query. */
  lemma PageReported(pages: seq<string>, lowered: string, p: int)
    ensures p in Hits(Flags(pages, lowered)) <==> 1 <= p <= |pages| && Hit(pages[p - 1], lowered)
  {
  }

  /**
   * With a query and pages, the result box lists the report, and the count
   * shown is the number of pages that are hits; "No matches found." is shown
   * exactly when there is none.
   */
  lemma SearchReports(input: string, pages: seq<string>)
    requires Strip(input) != [] && pages != []
    ensures var lowered := Lower(Strip(input));
      var h := Hits(Flags(pages, lowered));
      Search(input, pages) ==
        if h == [] then Display(NoMatches, Some(NoMatches))
        else Display("Found matches on " + NatToString(|h|) + " page(s).",
                     Some(Join("\n\n", Report(pages, lowered, |Strip(input)|))))
  {
    var lowered := Lower(Strip(input));
    SelectedLength(PageLines(pages, lowered, |Strip(input)|), Flags(pages, lowered));
  }

  /**
   * The snippet of a reported page covers the whole first occurrence of the
   * query, with up to 80 characters of context on each side.
   */
  lemma SnippetCoversMatch(page: string, query: string)
    requires Hit(page, Lower(query))
    ensures var idx := Find(Lower(page), Lower(query));
      var (start, end) := Window(|page|, idx, |query|);
      0 <= start <= idx && idx + |query| <= end <= |page|
      && idx - start == Min(idx, Context) && end - (idx + |query|) == Min(|page| - (idx + |query|), Context)
  {
    var idx := Find(Lower(page), Lower(query));
    assert 0 <= idx && idx + |query| <= |page| by {
      assert |Lower(page)| == |page| && |Lower(query)| == |query|;
    }
    var w := Window(|page|, idx, |query|);
    assert w.0 <= idx && idx + |query| <= w.1 <= |page|;
  }
}
