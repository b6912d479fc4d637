/** The `analyze_pdf` activity: the layout analysis of the downloaded PDF
    yields pages of recognised lines, and the activity returns the
    newline-join of every line's content, pages in order and lines in order
    within each page. The download and the analysis service are not modelled:
    their result, the pages, is the input here. */
module AnalyzePdf {
  import Strings

  datatype Line = Line(content: string)

  datatype Page = Page(lines: seq<Line>)

  /** The contents of one page's lines, in order. */
  function Contents(lines: seq<Line>): (r: seq<string>)
    ensures |r| == |lines|
    ensures forall i :: 0 <= i < |lines| ==> r[i] == lines[i].content
  {
    seq(|lines|, i requires 0 <= i < |lines| => lines[i].content)
  }

  /** `line.content for p in pages for line in p.lines`: every line is
      present exactly once, so there are as many contents as lines. */
  function LineContents(pages: seq<Page>): (r: seq<string>)
    ensures |r| == LineCount(pages)
  {
    if pages == [] then [] else Contents(pages[0].lines) + LineContents(pages[1..])
  }

  /** Number of lines over all pages. */
  function LineCount(pages: seq<Page>): nat
  {
    if pages == [] then 0 else |pages[0].lines| + LineCount(pages[1..])
  }

  /** The text `analyze_pdf` returns: `"\n".join(...)` of the line contents.
      With no lines at all it is the empty string, with one line that line. */
  function ExtractedText(pages: seq<Page>): (text: string)
    ensures LineCount(pages) == 0 ==> text == []
    ensures LineCount(pages) == 1 ==> text == LineContents(pages)[0]
  {
    Strings.Join(LineContents(pages), '\n')
  }

  /** The line contents of consecutive page runs are concatenated. */
  lemma {:induction false} LineContentsAppend(a: seq<Page>, b: seq<Page>)
    ensures LineContents(a + b) == LineContents(a) + LineContents(b)
    ensures LineCount(a + b) == LineCount(a) + LineCount(b)
    decreases |a|
  {
    if a == [] {
      assert a + b == b;
    } else {
      assert (a + b)[1..] == a[1..] + b;
      LineContentsAppend(a[1..], b);
    }
  }

  /** Order: line `l` of page `p` sits after every line of the pages before
      `p` and after the lines before `l` on its own page. */
  lemma LineContentsAt(pages: seq<Page>, p: nat, l: nat)
    requires p < |pages| && l < |pages[p].lines|
    ensures LineCount(pages[..p]) + l < |LineContents(pages)|
    ensures LineContents(pages)[LineCount(pages[..p]) + l] == pages[p].lines[l].content
  {
    var before, here, after := pages[..p], [pages[p]], pages[p + 1..];
    assert pages == before + (here + after);
    LineContentsAppend(before, here + after);
    LineContentsAppend(here, after);
    assert LineContents(here) == Contents(pages[p].lines) + LineContents([]);
  }

  /** A page with no lines contributes nothing to the text. */
  lemma EmptyPageContributesNothing(a: seq<Page>, b: seq<Page>)
    ensures ExtractedText(a + [Page([])] + b) == ExtractedText(a + b)
  {
    LineContentsAppend(a + [Page([])], b);
    LineContentsAppend(a, [Page([])]);
    LineContentsAppend(a, b);
    assert LineContents([Page([])]) == Contents([]) + LineContents([]) == [];
    assert LineContents(a + [Page([])]) == LineContents(a);
  }

  /** With k >= 1 lines the join adds exactly k - 1 newline separators to
      the newlines the line contents already hold. */
  lemma SeparatorCount(pages: seq<Page>)
    requires LineCount(pages) >= 1
    ensures Strings.Count(ExtractedText(pages), '\n')
            == Strings.CountAll(LineContents(pages), '\n') + LineCount(pages) - 1
  {
    Strings.CountJoin(LineContents(pages), '\n');
  }

  /** When no line content holds a newline, splitting the text on newlines
      gives back the line contents in order; with no lines this fails, since
      the empty text splits into one empty piece. */
  lemma SplitRecoversLines(pages: seq<Page>)
    requires LineCount(pages) >= 1
    requires Strings.FreeOf(LineContents(pages), '\n')
    ensures Strings.Split(ExtractedText(pages), '\n') == LineContents(pages)
  {
    Strings.SplitJoin(LineContents(pages), '\n');
  }
}
