/**
  The page extractor `extractPageContent` (popup.js:97-148), which runs inside the
  summarised page. Its DOM queries are inputs here: the `innerText` of every element each
  selector matched, in document order, and the three attributes of every `meta` tag.
 */
module PageExtractor {
  import opened Wrappers
  import JsText

  /** The longest content kept before the truncation marker is appended. */
  const MaxContentLength: nat := 20000
  const TruncationMarker: string := "..."

  /** A `meta` element's `name`, `property` and `content` attributes; `None` when the
      attribute is absent (`getAttribute` returns `null`). */
  datatype MetaTag = MetaTag(name: Option<string>, property: Option<string>, content: Option<string>)

  /** What the extractor reads from the page. */
  datatype Document = Document(
    title: string,                 // document.title
    url: string,                   // window.location.href
    articles: seq<string>,         // innerText of each match of 'article'
    mainRegions: seq<string>,      // innerText of each match of 'main, #content, .content, #main, .main'
    paragraphs: seq<string>,       // innerText of each match of 'p'
    metaTags: seq<MetaTag>)        // each match of 'meta'

  /** The record the extractor returns to the popup. */
  datatype PageRecord = PageRecord(title: string, content: string, url: string, metadata: map<string, string>)

  /** The texts the content is built from: the first selector that matched any element
      at all, whatever the elements' texts are. */
  function SourceTexts(doc: Document): seq<string> {
    if |doc.articles| > 0 then doc.articles
    else if |doc.mainRegions| > 0 then doc.mainRegions
    else doc.paragraphs
  }

  /** Every text followed by a newline, in order: the `+=` of the three `forEach` loops. */
  function Lines(texts: seq<string>): string {
    if texts == [] then "" else Lines(texts[..|texts| - 1]) + texts[|texts| - 1] + "\n"
  }

  /** The length cap applied to the concatenated text. */
  function Truncate(s: string): string {
    if |s| > MaxContentLength then s[..MaxContentLength] + TruncationMarker else s
  }

  /** The key a meta tag is recorded under: `name || property`. */
  function TagKey(tag: MetaTag): Option<string> {
    if JsText.Truthy(tag.name) then tag.name else tag.property
  }

  /** Whether a tag writes into the metadata: both its key and its content are truthy. */
  predicate Records(tag: MetaTag) {
    JsText.Truthy(TagKey(tag)) && JsText.Truthy(tag.content)
  }

  /** One step of the metadata loop. */
  function AddTag(md: map<string, string>, tag: MetaTag): map<string, string> {
    if Records(tag) then md[TagKey(tag).value := tag.content.value] else md
  }

  /** The metadata object after the loop has visited every tag in order. */
  function Metadata(tags: seq<MetaTag>): map<string, string> {
    if tags == [] then map[] else AddTag(Metadata(tags[..|tags| - 1]), tags[|tags| - 1])
  }

  /** The record `extractPageContent` returns for a document. */
  function Extract(doc: Document): PageRecord {
    PageRecord(doc.title, Truncate(Lines(SourceTexts(doc))), doc.url, Metadata(doc.metaTags))
  }

  /** `extractPageContent`: the source's loops, proved to build the record `Extract`
      describes. */
  method ExtractPageContent(doc: Document) returns (page: PageRecord)
    ensures page == Extract(doc)
    ensures |page.content| <= MaxContentLength + |TruncationMarker|
  {
    var title := doc.title;
    var mainContent := "";
    var texts: seq<string>;
    if |doc.articles| > 0 {
      texts := doc.articles;
    } else if |doc.mainRegions| > 0 {
      texts := doc.mainRegions;
    } else {
      texts := doc.paragraphs;
    }
    var i := 0;
    while i < |texts|
      invariant 0 <= i <= |texts|
      invariant mainContent == Lines(texts[..i])
    {
      assert texts[..i + 1][..i] == texts[..i];
      mainContent := mainContent + texts[i] + "\n";
      i := i + 1;
    }
    assert texts[..i] == texts;
    if |mainContent| > MaxContentLength {
      mainContent := mainContent[..MaxContentLength] + TruncationMarker;
    }
    var metadata: map<string, string> := map[];
    var j := 0;
    while j < |doc.metaTags|
      invariant 0 <= j <= |doc.metaTags|
      invariant metadata == Metadata(doc.metaTags[..j])
    {
      var meta := doc.metaTags[j];
      assert doc.metaTags[..j + 1][..j] == doc.metaTags[..j];
      var name := if JsText.Truthy(meta.name) then meta.name else meta.property;
      var content := meta.content;
      if JsText.Truthy(name) && JsText.Truthy(content) {
        metadata := metadata[name.value := content.value];
      }
      j := j + 1;
    }
    assert doc.metaTags[..j] == doc.metaTags;
    page := PageRecord(title, mainContent, doc.url, metadata);
  }

  // ---------------------------------------------------------------------------
  // Truncation

  /** Content longer than the cap becomes its first 20000 characters and the marker,
      20003 characters in all; shorter content is kept as it is. */
  lemma TruncateSpec(s: string)
    ensures |s| > MaxContentLength ==>
      |Truncate(s)| == MaxContentLength + |TruncationMarker|
      && Truncate(s)[..MaxContentLength] == s[..MaxContentLength]
      && Truncate(s)[MaxContentLength..] == TruncationMarker
    ensures |s| <= MaxContentLength ==> Truncate(s) == s
  {
    if |s| > MaxContentLength {
      assert (s[..MaxContentLength] + TruncationMarker)[..MaxContentLength] == s[..MaxContentLength];
    }
  }

  // ---------------------------------------------------------------------------
  // Content source and concatenation

  /** Each text contributes itself and one newline: the content's length is the sum of
      the texts' lengths plus one per text. */
  function TotalLength(texts: seq<string>): nat {
    if texts == [] then 0 else TotalLength(texts[..|texts| - 1]) + |texts[|texts| - 1]| + 1
  }

  lemma {:induction false} LinesLength(texts: seq<string>)
    ensures |Lines(texts)| == TotalLength(texts)
  {
    if texts != [] {
      LinesLength(texts[..|texts| - 1]);
    }
  }

  /** The concatenation can be split back into the element texts, in document order,
      when those texts hold no newline of their own. */
  lemma {:induction false} LinesSplit(texts: seq<string>)
    requires forall i :: 0 <= i < |texts| ==> '\n' !in texts[i]
    ensures JsText.Split(Lines(texts), '\n') == texts + [""]
  {
    if texts != [] {
      var init, last := texts[..|texts| - 1], texts[|texts| - 1];
      LinesSplit(init);
      var prefix := Lines(init) + last;
      assert Lines(texts) == prefix + ['\n'] + "";
      JsText.SplitConcat(prefix, "", '\n');
      // the piece that ends Split(Lines(init)) is "", so `last` completes it
      LastPieceExtends(init, last);
      assert texts == init + [last];
    }
  }

  lemma LastPieceExtends(init: seq<string>, last: string)
    requires forall i :: 0 <= i < |init| ==> '\n' !in init[i]
    requires JsText.Split(Lines(init), '\n') == init + [""]
    requires '\n' !in last
    ensures JsText.Split(Lines(init) + last, '\n') == init + [last]
  {
    var parts := init + [last];
    forall i | 0 <= i < |parts| ensures '\n' !in parts[i] {
      if i < |init| { assert parts[i] == init[i]; }
    }
    JoinExtendsLast(init, last);
    JsText.SplitJoin(parts, '\n');
  }

  lemma {:induction false} JoinExtendsLast(init: seq<string>, last: string)
    requires JsText.Split(Lines(init), '\n') == init + [""]
    ensures JsText.Join(init + [last], '\n') == Lines(init) + last
  {
    var pieces := init + [""];
    JsText.SplitSpec(Lines(init), '\n');
    assert JsText.Join(pieces, '\n') == Lines(init);
    if init == [] {
    } else {
      JsText.JoinAppend(init, [""], '\n');
      JsText.JoinAppend(init, [last], '\n');
    }
  }

  /** Any article element decides the content, whatever the main regions and paragraphs
      hold and even when every article's text is empty. */
  lemma ArticlesWin(d1: Document, d2: Document)
    requires |d1.articles| > 0 && d1.articles == d2.articles
    ensures Extract(d1).content == Extract(d2).content
  {
  }

  /** Without articles, any main-region element decides the content. */
  lemma MainRegionsWin(d1: Document, d2: Document)
    requires |d1.articles| == 0 && |d2.articles| == 0
    requires |d1.mainRegions| > 0 && d1.mainRegions == d2.mainRegions
    ensures Extract(d1).content == Extract(d2).content
  {
  }

  /** The content is the chosen selector's texts, each followed by a newline, then
      capped; the page's title and URL are passed through. */
  lemma ExtractContent(doc: Document)
    ensures Extract(doc).title == doc.title && Extract(doc).url == doc.url
    ensures |Lines(SourceTexts(doc))| == TotalLength(SourceTexts(doc))
    ensures TotalLength(SourceTexts(doc)) <= MaxContentLength ==>
      Extract(doc).content == Lines(SourceTexts(doc))
    ensures TotalLength(SourceTexts(doc)) > MaxContentLength ==>
      Extract(doc).content == Lines(SourceTexts(doc))[..MaxContentLength] + TruncationMarker
  {
    LinesLength(SourceTexts(doc));
  }

  // ---------------------------------------------------------------------------
  // Metadata

  /** The keys of the metadata are exactly the keys of the tags that record. */
  lemma {:induction false} MetadataKeys(tags: seq<MetaTag>, k: string)
    ensures k in Metadata(tags) <==>
      exists i :: 0 <= i < |tags| && Records(tags[i]) && TagKey(tags[i]).value == k
  {
    if tags != [] {
      var init := tags[..|tags| - 1];
      MetadataKeys(init, k);
      if k in Metadata(init) {
        var i :| 0 <= i < |init| && Records(init[i]) && TagKey(init[i]).value == k;
        assert tags[i] == init[i];
      }
      if exists i :: 0 <= i < |tags| && Records(tags[i]) && TagKey(tags[i]).value == k {
        var i :| 0 <= i < |tags| && Records(tags[i]) && TagKey(tags[i]).value == k;
        if i < |init| { assert init[i] == tags[i]; }
      }
    }
  }

  /** For a key that several tags record, the last of them wins: the value is the content
      of a recording tag with that key, and no later tag records the same key. */
  lemma {:induction false} MetadataLastWins(tags: seq<MetaTag>, k: string)
    requires k in Metadata(tags)
    ensures exists i ::
      && 0 <= i < |tags| && Records(tags[i]) && TagKey(tags[i]).value == k
      && Metadata(tags)[k] == tags[i].content.value
      && (forall j :: i < j < |tags| ==> !(Records(tags[j]) && TagKey(tags[j]).value == k))
  {
    var init, last := tags[..|tags| - 1], tags[|tags| - 1];
    if Records(last) && TagKey(last).value == k {
      assert Records(tags[|tags| - 1]);
    } else {
      assert k in Metadata(init);
      MetadataLastWins(init, k);
      var i :| 0 <= i < |init| && Records(init[i]) && TagKey(init[i]).value == k
        && Metadata(init)[k] == init[i].content.value
        && forall j :: i < j < |init| ==> !(Records(init[j]) && TagKey(init[j]).value == k);
      assert tags[i] == init[i];
      forall j | i < j < |tags| ensures !(Records(tags[j]) && TagKey(tags[j]).value == k) {
        if j < |init| { assert tags[j] == init[j]; }
      }
    }
  }

  /** Two tags with the same name and different contents: the later one is kept. */
  lemma MetadataLaterTagKept(before: seq<MetaTag>, name: string, c1: string, c2: string)
    requires name != "" && c1 != "" && c2 != ""
    ensures Metadata(before + [MetaTag(Some(name), None, Some(c1)), MetaTag(Some(name), None, Some(c2))])[name] == c2
  {
    var tags := before + [MetaTag(Some(name), None, Some(c1)), MetaTag(Some(name), None, Some(c2))];
    assert tags[..|tags| - 1] == before + [MetaTag(Some(name), None, Some(c1))];
  }
}
