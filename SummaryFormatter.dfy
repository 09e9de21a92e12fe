/**
  The result formatter `formatSummaryHTML` (popup.js:235-251): a heading with the page
  title, a small-print line with the URL, then one paragraph element per non-blank line
  of the generated text. Nothing is escaped and the kept lines are not trimmed.
 */
module SummaryFormatter {
  import JsText
  import opened PageExtractor

  /** `summaryText.split('\n').filter(p => p.trim().length > 0)`. */
  function Paragraphs(summaryText: string): seq<string> {
    KeepNonBlank(JsText.Split(summaryText, '\n'))
  }

  /** The `filter` of popup.js:245: the non-blank lines, in their order. */
  function KeepNonBlank(lines: seq<string>): seq<string> {
    if lines == [] then []
    else if JsText.IsBlank(lines[0]) then KeepNonBlank(lines[1..])
    else [lines[0]] + KeepNonBlank(lines[1..])
  }

  /** The two header fragments of popup.js:239-242. */
  function Header(page: PageRecord): string {
    "<h3>" + page.title + "</h3>" + "<p><small>" + page.url + "</small></p>"
  }

  /** One `<p>` element per paragraph, in order. */
  function ParagraphElements(paragraphs: seq<string>): string {
    if paragraphs == [] then ""
    else ParagraphElements(paragraphs[..|paragraphs| - 1]) + "<p>" + paragraphs[|paragraphs| - 1] + "</p>"
  }

  /** The markup `formatSummaryHTML` returns. */
  function SummaryMarkup(page: PageRecord, summaryText: string): string {
    Header(page) + ParagraphElements(Paragraphs(summaryText))
  }

  /** `formatSummaryHTML`: the `+=` of the source, proved to build `SummaryMarkup`. */
  method FormatSummaryHTML(page: PageRecord, summaryText: string) returns (summaryHTML: string)
    ensures summaryHTML == SummaryMarkup(page, summaryText)
  {
    summaryHTML := "";
    summaryHTML := summaryHTML + "<h3>" + page.title + "</h3>";
    summaryHTML := summaryHTML + "<p><small>" + page.url + "</small></p>";
    var paragraphs := Paragraphs(summaryText);
    var i := 0;
    while i < |paragraphs|
      invariant 0 <= i <= |paragraphs|
      invariant summaryHTML == Header(page) + ParagraphElements(paragraphs[..i])
    {
      assert paragraphs[..i + 1][..i] == paragraphs[..i];
      summaryHTML := summaryHTML + "<p>" + paragraphs[i] + "</p>";
      i := i + 1;
    }
    assert paragraphs[..i] == paragraphs;
  }

  // ---------------------------------------------------------------------------

  /** The kept lines are lines of the input that are not blank; every non-blank line of
      the input is kept. */
  lemma {:induction false} KeepNonBlankSpec(lines: seq<string>)
    ensures forall p :: p in KeepNonBlank(lines) ==> p in lines && !JsText.IsBlank(p)
    ensures forall i :: 0 <= i < |lines| && !JsText.IsBlank(lines[i]) ==> lines[i] in KeepNonBlank(lines)
  {
    if lines != [] {
      KeepNonBlankSpec(lines[1..]);
      forall i | 0 < i < |lines| ensures lines[i] == lines[1..][i - 1] {}
    }
  }

  lemma {:induction false} KeepNonBlankAppend(a: seq<string>, b: seq<string>)
    ensures KeepNonBlank(a + b) == KeepNonBlank(a) + KeepNonBlank(b)
  {
    if a != [] {
      assert (a + b)[1..] == a[1..] + b;
      KeepNonBlankAppend(a[1..], b);
    } else {
      assert a + b == b;
    }
  }

  /** A paragraph is a non-blank line of the text, kept as it is. */
  lemma ParagraphsAreLines(summaryText: string)
    ensures forall p :: p in Paragraphs(summaryText) ==>
      p in JsText.Split(summaryText, '\n') && '\n' !in p && !JsText.IsBlank(p)
  {
    KeepNonBlankSpec(JsText.Split(summaryText, '\n'));
    JsText.SplitSpec(summaryText, '\n');
  }

  /** Line feeds separate paragraphs: the paragraphs of two texts joined by a line feed
      are the paragraphs of the first followed by those of the second. */
  lemma ParagraphsConcat(a: string, b: string)
    ensures Paragraphs(a + "\n" + b) == Paragraphs(a) + Paragraphs(b)
  {
    JsText.SplitConcat(a, b, '\n');
    KeepNonBlankAppend(JsText.Split(a, '\n'), JsText.Split(b, '\n'));
  }

  /** A single line is one paragraph, verbatim and untrimmed, unless it is blank, in which
      case it is dropped. */
  lemma ParagraphsOfLine(line: string)
    requires '\n' !in line
    ensures Paragraphs(line) == if JsText.IsBlank(line) then [] else [line]
  {
    JsText.SplitNoSeparator(line, '\n');
    assert [line][1..] == [];
    assert KeepNonBlank([line]) == (if JsText.IsBlank(line) then [] else [line]) + KeepNonBlank([]);
  }

  /** Blank means whitespace only: a line with any other character is a paragraph. */
  lemma WhitespaceLinesDropped(line: string)
    requires '\n' !in line
    ensures Paragraphs(line) == [] <==> JsText.AllWhitespace(line)
  {
    ParagraphsOfLine(line);
    JsText.BlankIffAllWhitespace(line);
  }

  lemma {:induction false} ParagraphElementsAppend(a: seq<string>, b: seq<string>)
    ensures ParagraphElements(a + b) == ParagraphElements(a) + ParagraphElements(b)
  {
    if b == [] {
      assert a + b == a;
    } else {
      var init := b[..|b| - 1];
      assert (a + b)[..|a + b| - 1] == a + init;
      ParagraphElementsAppend(a, init);
    }
  }

  /** The markup of a text made of two parts joined by a line feed is the markup of the
      first part followed by the paragraph elements of the second. */
  lemma MarkupConcat(page: PageRecord, a: string, b: string)
    ensures SummaryMarkup(page, a + "\n" + b) == SummaryMarkup(page, a) + ParagraphElements(Paragraphs(b))
  {
    ParagraphsConcat(a, b);
    ParagraphElementsAppend(Paragraphs(a), Paragraphs(b));
  }

  /** A whitespace-only line between two lines and the empty piece after a trailing line
      feed are dropped: only the two non-blank lines become paragraphs. */
  lemma BlankLinesDropped(a: string, w: string, b: string)
    requires '\n' !in a && '\n' !in w && '\n' !in b
    requires !JsText.AllWhitespace(a) && JsText.AllWhitespace(w) && !JsText.AllWhitespace(b)
    ensures Paragraphs(a + "\n" + w + "\n" + b + "\n") == [a, b]
  {
    var x1 := a + "\n" + w;
    var x2 := x1 + "\n" + b;
    assert Paragraphs(x1) == [a] by {
      WhitespaceLinesDropped(w);
      ParagraphsOfLine(a);
      JsText.BlankIffAllWhitespace(a);
      ParagraphsConcat(a, w);
    }
    assert Paragraphs(x2) == [a, b] by {
      ParagraphsOfLine(b);
      JsText.BlankIffAllWhitespace(b);
      ParagraphsConcat(x1, b);
    }
    assert Paragraphs(x2 + "\n" + "") == [a, b] by {
      assert JsText.IsBlank("");
      ParagraphsOfLine("");
      ParagraphsConcat(x2, "");
    }
    assert x2 + "\n" == x2 + "\n" + "";
  }

  /** The markup of such a text is the header and the two paragraph elements. */
  lemma BlankLinesMarkup(page: PageRecord, a: string, w: string, b: string)
    requires '\n' !in a && '\n' !in w && '\n' !in b
    requires !JsText.AllWhitespace(a) && JsText.AllWhitespace(w) && !JsText.AllWhitespace(b)
    ensures SummaryMarkup(page, a + "\n" + w + "\n" + b + "\n")
      == Header(page) + "<p>" + a + "</p>" + "<p>" + b + "</p>"
  {
    BlankLinesDropped(a, w, b);
    TwoElements(a, b);
  }

  lemma TwoElements(a: string, b: string)
    ensures ParagraphElements([a, b]) == "<p>" + a + "</p>" + "<p>" + b + "</p>"
  {
    assert [a, b][..1] == [a];
    assert [a][..0] == [];
    assert ParagraphElements([a]) == "<p>" + a + "</p>";
  }

  /** Two non-blank lines joined by a line feed become two paragraph elements, in
      order, after the header. */
  lemma TwoParagraphs(page: PageRecord, a: string, b: string)
    requires '\n' !in a && '\n' !in b
    requires !JsText.AllWhitespace(a) && !JsText.AllWhitespace(b)
    ensures SummaryMarkup(page, a + "\n" + b) == Header(page) + "<p>" + a + "</p>" + "<p>" + b + "</p>"
  {
    JsText.BlankIffAllWhitespace(a);
    JsText.BlankIffAllWhitespace(b);
    ParagraphsOfLine(a);
    ParagraphsOfLine(b);
    ParagraphsConcat(a, b);
    assert Paragraphs(a + "\n" + b) == [a, b];
    TwoElements(a, b);
  }
}
