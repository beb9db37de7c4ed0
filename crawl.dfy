/**
 * The crawl artifact: the Markdown texts of the crawled pages, in crawl order,
 * separated by single newlines, a page without Markdown counting as the empty
 * text; and splitting on newlines, which gives back the lines of the pages in
 * order, and the pages themselves when no page holds a newline.
 */
module Crawl {
  import opened Common
  import opened Text

  /** A page record of a completed crawl; None when it has no `markdown` key. */
  datatype Page = Page(markdown: Option<string>)

  /** A page's Markdown, the empty text when it has none. */
  function PageText(p: Page): string {
    p.markdown.GetOr("")
  }

  /** The texts of the pages, in crawl order. */
  function PageTexts(pages: seq<Page>): seq<string> {
    seq(|pages|, i requires 0 <= i < |pages| => PageText(pages[i]))
  }

  /**
   * The page texts with a newline between each two neighbours: no pages give
   * the empty text, and otherwise the artifact opens with the first page's
   * text and closes with the last one's.
   */
  function JoinMarkdown(pages: seq<Page>): (joined: string)
    ensures |pages| == 0 ==> joined == ""
    ensures |pages| > 0 ==> StartsWith(joined, PageText(pages[0]))
    ensures |pages| > 0 ==> EndsWith(joined, PageText(pages[|pages| - 1]))
  {
    if |pages| == 0 then ""
    else if |pages| == 1 then PageText(pages[0])
    else
      var head := PageText(pages[0]);
      var rest := JoinMarkdown(pages[1..]);
      var joined := head + "\n" + rest;
      assert joined[..|head|] == head;
      assert joined[|joined| - |rest|..] == rest;
      joined
  }

  /** Python's `s.split("\n")`: always at least one part. */
  function SplitLines(s: string): (parts: seq<string>)
    ensures |parts| >= 1
  {
    if s == "" then [""]
    else
      var rest := SplitLines(s[1..]);
      if s[0] == '\n' then [""] + rest else [[s[0]] + rest[0]] + rest[1..]
  }

  lemma {:induction false} SplitWithoutNewline(a: string)
    requires '\n' !in a
    ensures SplitLines(a) == [a]
  {
    if a != "" {
      SplitWithoutNewline(a[1..]);
      assert [a[0]] + a[1..] == a;
    }
  }

  /** Splitting at one newline splits each side on its own. */
  lemma {:induction false} SplitAfterAny(a: string, b: string)
    ensures SplitLines(a + "\n" + b) == SplitLines(a) + SplitLines(b)
  {
    var s := a + "\n" + b;
    if a == "" {
      assert s[0] == '\n' && s[1..] == b;
    } else {
      assert s[0] == a[0] && s[1..] == a[1..] + "\n" + b;
      SplitAfterAny(a[1..], b);
    }
  }

  /** The lines of every page, page after page. */
  function PageLines(pages: seq<Page>): seq<string> {
    if |pages| == 0 then [] else SplitLines(PageText(pages[0])) + PageLines(pages[1..])
  }

  /**
   * Splitting the artifact on newlines gives the lines of the first page,
   * then those of the second, and so on: the join adds exactly one line break
   * between two pages and changes nothing inside them.
   */
  lemma {:induction false} SplitJoinedAny(pages: seq<Page>)
    requires |pages| > 0
    ensures SplitLines(JoinMarkdown(pages)) == PageLines(pages)
  {
    if |pages| == 1 {
      assert PageLines(pages[1..]) == [];
    } else {
      SplitJoinedAny(pages[1..]);
      SplitAfterAny(PageText(pages[0]), JoinMarkdown(pages[1..]));
    }
  }

  /** Round trip: when no page text holds a newline, splitting the artifact gives the page texts back. */
  lemma {:induction false} SplitJoinedMarkdown(pages: seq<Page>)
    requires |pages| > 0
    requires forall i :: 0 <= i < |pages| ==> '\n' !in PageText(pages[i])
    ensures SplitLines(JoinMarkdown(pages)) == PageTexts(pages)
  {
    SplitJoinedAny(pages);
    PageLinesWithoutNewline(pages);
  }

  lemma {:induction false} PageLinesWithoutNewline(pages: seq<Page>)
    requires forall i :: 0 <= i < |pages| ==> '\n' !in PageText(pages[i])
    ensures PageLines(pages) == PageTexts(pages)
  {
    if |pages| > 0 {
      SplitWithoutNewline(PageText(pages[0]));
      PageLinesWithoutNewline(pages[1..]);
      assert PageTexts(pages) == [PageText(pages[0])] + PageTexts(pages[1..]);
    }
  }

  /**
   * The artifact is whitespace only (the crawl stage then answers 400) exactly
   * when every page's text is; in particular when there are no pages at all.
   */
  lemma {:induction false} JoinedMarkdownBlankIff(pages: seq<Page>)
    ensures IsBlank(JoinMarkdown(pages)) <==> forall i :: 0 <= i < |pages| ==> IsBlank(PageText(pages[i]))
  {
    if |pages| > 1 {
      JoinedMarkdownBlankIff(pages[1..]);
      var head := PageText(pages[0]);
      var tail := JoinMarkdown(pages[1..]);
      var joined := head + "\n" + tail;
      assert IsBlank(joined) <==> IsBlank(head) && IsBlank(tail) by {
        assert forall i :: 0 <= i < |head| ==> joined[i] == head[i];
        assert forall i :: 0 <= i < |tail| ==> joined[|head| + 1 + i] == tail[i];
        assert joined[|head|] == '\n';
      }
      assert forall i :: 1 <= i < |pages| ==> pages[i] == pages[1..][i - 1];
    }
  }
}
