/**
  The prompt builder `createSummaryPrompt` (popup.js:201-232): a length instruction
  chosen by the stored summary length, spliced into a fixed template together with the
  page's title, URL, optional description and content, none of them escaped.
 */
module PromptBuilder {
  import opened PageExtractor
  import JsText

  // The long texts are written as several short literals: the verifier can then see that
  // none of them holds a line feed.

  const ShortInstruction: string := "Provide a brief summary in " + "1-2 short paragraphs."
  const LongInstruction: string :=
    "Provide a comprehensive " + "summary in 5 or more " + "paragraphs, with detailed " + "information and key points."
  const MediumInstruction: string := "Provide a balanced summary " + "in 3-4 paragraphs covering " + "the main points."

  const ExtractDirective: string := "Extract the main ideas, key " + "points, and important " + "details."
  const ToneDirective: string := "Maintain a neutral and " + "informative tone."
  const FormatDirective: string := "Format the summary with " + "proper paragraphs."
  const TechnicalDirective: string := "If the content is " + "technical, preserve key " + "technical details."
  const FactsDirective: string := "Include important facts, " + "figures, and statistics " + "when present."
  const FidelityDirective: string := "Do not add information that " + "isn't in the original " + "content."

  /** The six directives that follow the length instruction, in the order of the template. */
  const Directives: seq<string> :=
    [ExtractDirective, ToneDirective, FormatDirective, TechnicalDirective, FactsDirective, FidelityDirective]

  /** The `switch (summaryLength)`: 'short' and 'long' have their own case, every other
      value falls to the medium default. */
  function LengthInstruction(summaryLength: string): string {
    if summaryLength == "short" then ShortInstruction
    else if summaryLength == "long" then LongInstruction
    else MediumInstruction
  }

  /** The description slot: `metadata.description ? \`Description: ...\` : ''`. */
  function DescriptionLine(metadata: map<string, string>): string {
    if "description" in metadata && metadata["description"] != "" then "Description: " + metadata["description"]
    else ""
  }

  /** The instruction list: one "  - " line per item, in order. */
  function BulletLines(items: seq<string>): (r: seq<string>)
    ensures |r| == |items|
    ensures forall i :: 0 <= i < |items| ==> r[i] == "  - " + items[i]
  {
    if items == [] then [] else ["  - " + items[0]] + BulletLines(items[1..])
  }

  /** The lines of the template literal of popup.js:214-231 with the page's fields spliced
      in; the second line is six spaces, the blank lines after it two. */
  function PromptLines(page: PageRecord, summaryLength: string): seq<string> {
    [ "Summarize the following " + "webpage content:",
      "      ",
      "  Title: " + page.title,
      "  URL: " + page.url,
      "  ",
      "  " + DescriptionLine(page.metadata),
      "  ",
      "  Content:",
      "  " + page.content,
      "  ",
      "  Instructions:" ]
    + BulletLines([LengthInstruction(summaryLength)] + Directives)
  }

  /** `createSummaryPrompt`: the template's lines, separated by line feeds. */
  function CreateSummaryPrompt(page: PageRecord, summaryLength: string): string {
    JsText.Join(PromptLines(page, summaryLength), '\n')
  }

  /** The number of fixed lines before the instruction list. */
  const InstructionsStart: nat := 11

  // ---------------------------------------------------------------------------

  /** 'short' and 'long' pick their own instructions; any other value, the empty string
      and unknown names included, behaves exactly like 'medium'. */
  lemma LengthSelection(summaryLength: string)
    ensures summaryLength == "short" ==> LengthInstruction(summaryLength) == ShortInstruction
    ensures summaryLength == "long" ==> LengthInstruction(summaryLength) == LongInstruction
    ensures summaryLength != "short" && summaryLength != "long" ==>
      LengthInstruction(summaryLength) == LengthInstruction("medium")
  {
  }

  /** The instruction list is the chosen length instruction followed by the six fixed
      directives, in order, each on a line of its own. */
  lemma InstructionList(page: PageRecord, summaryLength: string)
    ensures |PromptLines(page, summaryLength)| == InstructionsStart + 1 + |Directives|
    ensures PromptLines(page, summaryLength)[InstructionsStart] == "  - " + LengthInstruction(summaryLength)
    ensures forall i :: 0 <= i < |Directives| ==>
      PromptLines(page, summaryLength)[InstructionsStart + 1 + i] == "  - " + Directives[i]
  {
    var items := [LengthInstruction(summaryLength)] + Directives;
    var b := BulletLines(items);
    forall i | 0 <= i < |Directives|
      ensures PromptLines(page, summaryLength)[InstructionsStart + 1 + i] == "  - " + Directives[i]
    {
      assert items[1 + i] == Directives[i];
    }
  }

  /** The page's fields are spliced in verbatim: as long as they hold no line feed of
      their own, splitting the prompt at line feeds gives back exactly the template's
      lines, the title on the third, the URL on the fourth, the description slot on the
      sixth and the content on the ninth. */
  lemma PromptRoundTrip(page: PageRecord, summaryLength: string)
    requires '\n' !in page.title && '\n' !in page.url && '\n' !in page.content
    requires "description" in page.metadata ==> '\n' !in page.metadata["description"]
    ensures JsText.Split(CreateSummaryPrompt(page, summaryLength), '\n') == PromptLines(page, summaryLength)
    ensures PromptLines(page, summaryLength)[2] == "  Title: " + page.title
    ensures PromptLines(page, summaryLength)[3] == "  URL: " + page.url
    ensures PromptLines(page, summaryLength)[5] == "  " + DescriptionLine(page.metadata)
    ensures PromptLines(page, summaryLength)[8] == "  " + page.content
  {
    var lines := PromptLines(page, summaryLength);
    InstructionList(page, summaryLength);
    forall i | 0 <= i < |lines| ensures '\n' !in lines[i] {
      NoLineFeedInLine(page, summaryLength, i);
    }
    JsText.SplitJoin(lines, '\n');
  }

  /** The fields are spliced in verbatim whatever they hold, line feeds included: the
      title, URL, description slot and content are the third, fourth, sixth and ninth
      lines of the template, and (by `PromptAroundLine`) each of them stands in the
      prompt between the template text before it and the template text after it. */
  lemma FieldsSpliced(page: PageRecord, summaryLength: string)
    ensures var lines := PromptLines(page, summaryLength);
      && |lines| == InstructionsStart + 1 + |Directives|
      && lines[2] == "  Title: " + page.title
      && lines[3] == "  URL: " + page.url
      && lines[5] == "  " + DescriptionLine(page.metadata)
      && lines[8] == "  " + page.content
  {
    InstructionList(page, summaryLength);
  }

  /** The prompt seen around any one of its inner lines: the lines before it joined, a line
      feed, the line itself, a line feed and the lines after it joined. */
  lemma PromptAroundLine(page: PageRecord, summaryLength: string, k: nat)
    requires 0 < k < InstructionsStart + |Directives|
    ensures var lines := PromptLines(page, summaryLength);
      && |lines| == InstructionsStart + 1 + |Directives|
      && CreateSummaryPrompt(page, summaryLength)
           == JsText.Join(lines[..k], '\n') + "\n" + lines[k] + "\n" + JsText.Join(lines[k + 1..], '\n')
  {
    InstructionList(page, summaryLength);
    JsText.JoinAround(PromptLines(page, summaryLength), k, '\n');
  }

  /** The page's content, line feeds and all, stands in the prompt exactly as extracted,
      after "  " on the ninth line, between the fixed text before and after it. */
  lemma ContentSpliced(page: PageRecord, summaryLength: string)
    ensures var lines := PromptLines(page, summaryLength);
      && |lines| == InstructionsStart + 1 + |Directives|
      && CreateSummaryPrompt(page, summaryLength)
           == JsText.Join(lines[..8], '\n') + "\n" + "  " + page.content + "\n" + JsText.Join(lines[9..], '\n')
  {
    FieldsSpliced(page, summaryLength);
    PromptAroundLine(page, summaryLength, 8);
  }

  /** Likewise the title, after "  Title: " on the third line. */
  lemma TitleSpliced(page: PageRecord, summaryLength: string)
    ensures var lines := PromptLines(page, summaryLength);
      && |lines| == InstructionsStart + 1 + |Directives|
      && CreateSummaryPrompt(page, summaryLength)
           == JsText.Join(lines[..2], '\n') + "\n" + "  Title: " + page.title + "\n" + JsText.Join(lines[3..], '\n')
  {
    FieldsSpliced(page, summaryLength);
    PromptAroundLine(page, summaryLength, 2);
  }

  /** Likewise the URL, after "  URL: " on the fourth line. */
  lemma UrlSpliced(page: PageRecord, summaryLength: string)
    ensures var lines := PromptLines(page, summaryLength);
      && |lines| == InstructionsStart + 1 + |Directives|
      && CreateSummaryPrompt(page, summaryLength)
           == JsText.Join(lines[..3], '\n') + "\n" + "  URL: " + page.url + "\n" + JsText.Join(lines[4..], '\n')
  {
    FieldsSpliced(page, summaryLength);
    PromptAroundLine(page, summaryLength, 3);
  }

  /** Likewise the description slot, after "  " on the sixth line. */
  lemma DescriptionSpliced(page: PageRecord, summaryLength: string)
    ensures var lines := PromptLines(page, summaryLength);
      && |lines| == InstructionsStart + 1 + |Directives|
      && CreateSummaryPrompt(page, summaryLength)
           == JsText.Join(lines[..5], '\n') + "\n" + "  " + DescriptionLine(page.metadata) + "\n"
              + JsText.Join(lines[6..], '\n')
  {
    FieldsSpliced(page, summaryLength);
    PromptAroundLine(page, summaryLength, 5);
  }

  lemma NoLineFeedInLine(page: PageRecord, summaryLength: string, i: nat)
    requires '\n' !in page.title && '\n' !in page.url && '\n' !in page.content
    requires "description" in page.metadata ==> '\n' !in page.metadata["description"]
    requires i < InstructionsStart + 1 + |Directives|
    ensures |PromptLines(page, summaryLength)| == InstructionsStart + 1 + |Directives|
    ensures '\n' !in PromptLines(page, summaryLength)[i]
  {
    InstructionList(page, summaryLength);
    var line := PromptLines(page, summaryLength)[i];
    if i >= InstructionsStart + 1 {
      DirectiveHasNoLineFeed(i - InstructionsStart - 1);
      NoLineFeedInConcat("  - ", Directives[i - InstructionsStart - 1]);
    } else if i == InstructionsStart {
      var instr := LengthInstruction(summaryLength);
      assert '\n' !in instr by { InstructionHasNoLineFeed(summaryLength); }
      NoLineFeedInConcat("  - ", instr);
    } else if i == 2 {
      NoLineFeedInConcat("  Title: ", page.title);
    } else if i == 3 {
      NoLineFeedInConcat("  URL: ", page.url);
    } else if i == 5 {
      var d := DescriptionLine(page.metadata);
      if d != "" { NoLineFeedInConcat("Description: ", page.metadata["description"]); }
      NoLineFeedInConcat("  ", d);
    } else if i == 8 {
      NoLineFeedInConcat("  ", page.content);
    }
  }

  lemma NoLineFeedInConcat(a: string, b: string)
    requires '\n' !in a && '\n' !in b
    ensures '\n' !in a + b
  {
  }

  lemma InstructionHasNoLineFeed(summaryLength: string)
    ensures '\n' !in LengthInstruction(summaryLength)
  {
    if summaryLength == "short" { ShortInstructionHasNoLineFeed(); }
    else if summaryLength == "long" { LongInstructionHasNoLineFeed(); }
    else { MediumInstructionHasNoLineFeed(); }
  }

  lemma ShortInstructionHasNoLineFeed() ensures '\n' !in ShortInstruction {}
  lemma LongInstructionHasNoLineFeed() ensures '\n' !in LongInstruction {}
  lemma MediumInstructionHasNoLineFeed() ensures '\n' !in MediumInstruction {}

  lemma DirectiveHasNoLineFeed(i: nat)
    requires i < |Directives|
    ensures '\n' !in Directives[i]
  {
    if i == 0 { ExtractDirectiveHasNoLineFeed(); }
    else if i == 1 { ToneDirectiveHasNoLineFeed(); }
    else if i == 2 { FormatDirectiveHasNoLineFeed(); }
    else if i == 3 { TechnicalDirectiveHasNoLineFeed(); }
    else if i == 4 { FactsDirectiveHasNoLineFeed(); }
    else { FidelityDirectiveHasNoLineFeed(); }
  }

  lemma ExtractDirectiveHasNoLineFeed() ensures '\n' !in ExtractDirective {}
  lemma ToneDirectiveHasNoLineFeed() ensures '\n' !in ToneDirective {}
  lemma FormatDirectiveHasNoLineFeed() ensures '\n' !in FormatDirective {}
  lemma TechnicalDirectiveHasNoLineFeed() ensures '\n' !in TechnicalDirective {}
  lemma FactsDirectiveHasNoLineFeed() ensures '\n' !in FactsDirective {}
  lemma FidelityDirectiveHasNoLineFeed() ensures '\n' !in FidelityDirective {}

  /** The three instructions are distinct, so the selected length is visible in the
      prompt: two lengths give the same prompt exactly when they pick the same case. */
  lemma LengthChangesPrompt(page: PageRecord, l1: string, l2: string)
    ensures CreateSummaryPrompt(page, l1) == CreateSummaryPrompt(page, l2) <==>
      LengthInstruction(l1) == LengthInstruction(l2)
  {
    var i1, i2 := LengthInstruction(l1), LengthInstruction(l2);
    var fixed := PromptLines(page, l1)[..InstructionsStart];
    var rest := BulletLines(Directives);
    SplitAtInstruction(page, l1);
    SplitAtInstruction(page, l2);
    JsText.JoinAppend(fixed, ["  - " + i1] + rest, '\n');
    JsText.JoinAppend(fixed, ["  - " + i2] + rest, '\n');
    JsText.JoinAppend(["  - " + i1], rest, '\n');
    JsText.JoinAppend(["  - " + i2], rest, '\n');
    if i1 != i2 {
      assert |i1| != |i2|;
      assert |CreateSummaryPrompt(page, l1)| != |CreateSummaryPrompt(page, l2)|;
    }
  }

  lemma SplitAtInstruction(page: PageRecord, summaryLength: string)
    ensures PromptLines(page, summaryLength) ==
      PromptLines(page, "")[..InstructionsStart] + (["  - " + LengthInstruction(summaryLength)] + BulletLines(Directives))
  {
    var items := [LengthInstruction(summaryLength)] + Directives;
    assert items[1..] == Directives;
  }

  /** The description line appears exactly when the metadata has a non-empty
      'description'; otherwise its slot is the empty string. */
  lemma DescriptionSlot(metadata: map<string, string>)
    ensures DescriptionLine(metadata) != "" <==> "description" in metadata && metadata["description"] != ""
    ensures DescriptionLine(metadata) != "" ==>
      DescriptionLine(metadata) == "Description: " + metadata["description"]
  {
  }
}
