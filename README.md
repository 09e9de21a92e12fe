# Page summariser popup, modelled in Dafny

The popup of a browser extension that summarises the page in the active tab. When the
user presses the summarize button, the popup:

- reads the stored API key and stops with a message if none is set;
- shows a loading indicator;
- injects an extractor into the page, which collects the title, the URL, the main text
  (capped at 20000 characters) and the `meta` tags;
- builds a natural-language prompt from that record and the stored summary length;
- sends the prompt to the Gemini text-generation endpoint;
- shows the answer as HTML (a heading, the URL, one paragraph per non-blank line) or a
  fixed error message, then hides the indicator.

The model has seven modules:

- `Wrappers`: `Option` and `Result`.
- `JsText`: the two JavaScript string built-ins of popup.js:245, `trim` (with the
  whitespace set of ECMA-262, sections 12.2 and 12.3) and `split('\n')`. It also holds a
  `Join` that undoes `split` and stands for the line breaks of the template literal at
  popup.js:214-231. The other string built-in the popup calls, the `substring` of
  popup.js:128, is the slice in `PageExtractor.Truncate`; its UTF-16 lengths are listed
  under "Left out".
- `PageExtractor`: `extractPageContent`. It is a method with the source's loops, proved to
  build the record described by the functions `Extract`, `Lines`, `Truncate` and
  `Metadata`.
- `PromptBuilder`: `createSummaryPrompt`. It is a pure function that reproduces the template
  literal line by line.
- `SummaryFormatter`: `formatSummaryHTML`. It is a method with the source's `+=` loop,
  proved against `SummaryMarkup`.
- `SummaryClient`: `generateGeminiSummary`. The HTTP exchange is a parameter, `server`,
  that answers the request.
- `Popup`: the storage defaults, `checkAPIKey` and the click handler with its
  `executeScript` callback, on a `PopupPage` class.
  - Its fields are the DOM state the handler writes, plus the log of effects it has
    carried out.
  - The functions `CheckEffects`, `ClickEffects` and `CallbackEffects` give those effects
    for each combination of inputs.
  - `Apply` gives the view they produce.

Three details of popup.js that the model keeps:

- The template lists six fixed directives after the length instruction (popup.js:226-231).
- The description line appears only when `metadata.description` is truthy (popup.js:219).
- With no active tab, `tab.id` throws (popup.js:36) after the loading indicator has been
  shown (popup.js:29). Nothing hides it again, so it stays visible; see
  `Popup.NoActiveTabLeavesLoading`.

## Model

| member | source | states |
|---|---|---|
| JsText.Split | popup.js:245 | `String.prototype.split` with a one-character separator: the pieces between separators, a new piece after each separator, at least one piece |
| JsText.Trim | popup.js:245 | `String.prototype.trim`: `TrimEnd` of `TrimStart`, removing leading and trailing ECMA-262 whitespace |
| JsText.IsBlank | popup.js:245 | the negation of `p.trim().length > 0`: the trimmed line is empty |
| JsText.SplitSpec | popup.js:245 | the pieces of `split('\n')` hold no separator, and joining them with it gives back the string |
| JsText.SplitJoin | popup.js:245 | splitting a join of separator-free pieces returns exactly those pieces |
| JsText.SplitConcat | popup.js:245 | splitting `a + sep + b` splits `a` and `b` independently and concatenates the results |
| JsText.TrimStartSpec | popup.js:245 | the start of `trim` removes a whitespace-only prefix and stops at the first non-whitespace character |
| JsText.TrimEndSpec | popup.js:245 | the end of `trim` removes a whitespace-only suffix and stops at the last non-whitespace character |
| JsText.BlankIffAllWhitespace | popup.js:245 | `line.trim().length > 0` fails exactly when every character of the line is ECMA-262 whitespace |
| PageExtractor.ExtractPageContent | popup.js:97-148 | the loops build the record of `Extract`: title and URL passed through, the chosen texts each followed by a newline, capped at 20000 characters plus "...", and the metadata fold; the content is never longer than 20003 characters |
| PageExtractor.TruncateSpec | popup.js:127-129 | content over 20000 characters becomes its first 20000 characters followed by "..." (20003 in all); content of at most 20000 characters is unchanged |
| PageExtractor.LinesLength | popup.js:105-124 | the content's length before the cap is the sum of the texts' lengths plus one newline per element |
| PageExtractor.LinesSplit | popup.js:105-124 | for texts without newlines, splitting the content at newlines gives back the element texts in document order, then an empty piece |
| PageExtractor.ArticlesWin | popup.js:105-110 | when any `article` matched, the content depends only on the articles, even when their texts are empty |
| PageExtractor.MainRegionsWin | popup.js:111-117 | without articles, any matched main region decides the content, whatever the paragraphs hold |
| PageExtractor.ExtractContent | popup.js:99-148 | title and URL pass through; the content is the chosen texts with newlines when their total is at most 20000 characters, and their first 20000 characters plus "..." otherwise |
| PageExtractor.MetadataKeys | popup.js:132-140 | a key is in the metadata exactly when some tag has a truthy `name \|\| property` equal to it and a truthy `content` |
| PageExtractor.MetadataLastWins | popup.js:134-139 | the value stored under a key is the content of a recording tag with that key, and no later tag records the same key |
| PageExtractor.MetadataLaterTagKept | popup.js:134-139 | of two tags with the same name, the later one's content is kept |
| PromptBuilder.BulletLines | popup.js:224-231 | one "  - " line per instruction, in order |
| PromptBuilder.LengthInstruction | popup.js:202-212 | the `switch`: the short instruction for 'short', the long one for 'long', the medium one for any other value |
| PromptBuilder.DescriptionLine | popup.js:219 | "Description: " and the metadata's description when that is present and non-empty, otherwise the empty string |
| PromptBuilder.CreateSummaryPrompt | popup.js:201-232 | the template's 18 lines (`PromptLines`), the page's fields and the length instruction spliced in, joined by line feeds |
| PromptBuilder.LengthSelection | popup.js:202-212 | 'short' and 'long' select their own instruction; every other value, the empty string included, selects the medium one |
| PromptBuilder.InstructionList | popup.js:224-231 | the prompt has 18 lines; counting from 0, line 11 is the length instruction and lines 12-17 are the six directives, in order |
| PromptBuilder.PromptRoundTrip | popup.js:214-231 | for fields without newlines, splitting the prompt at newlines gives back the template's lines, with the title, URL, description slot and content verbatim on their own lines |
| PromptBuilder.FieldsSpliced | popup.js:216-222 | for any fields, newlines included, the title, URL, description slot and content are the third, fourth, sixth and ninth template lines, after their fixed prefixes |
| PromptBuilder.PromptAroundLine | popup.js:214-231 | the prompt is the lines before any inner line joined, a line feed, that line, a line feed, and the lines after it joined |
| PromptBuilder.TitleSpliced | popup.js:216 | for any title, the prompt is the template text before the title line, "  Title: ", the title verbatim, and the template text after it |
| PromptBuilder.UrlSpliced | popup.js:217 | for any URL, the prompt holds "  URL: " and the URL verbatim between the template text before and after it |
| PromptBuilder.DescriptionSpliced | popup.js:219 | for any metadata, the prompt holds "  " and the description slot verbatim between the template text before and after it |
| PromptBuilder.ContentSpliced | popup.js:221-222 | for any content, including content with newlines as every extracted content has, the prompt holds "  " and the content verbatim between the template text before and after it |
| PromptBuilder.LengthChangesPrompt | popup.js:202-231 | two lengths give the same prompt exactly when they select the same instruction |
| PromptBuilder.DescriptionSlot | popup.js:219 | the description line is non-empty exactly when the metadata has a non-empty 'description', and is then "Description: " followed by it |
| SummaryFormatter.FormatSummaryHTML | popup.js:235-251 | the `+=` loop builds the heading, the URL line and one `<p>` per non-blank line of the text, in order (`SummaryMarkup`) |
| SummaryFormatter.Paragraphs | popup.js:245 | the text split at line feeds, then filtered to its non-blank lines |
| SummaryFormatter.KeepNonBlank | popup.js:245 | the `filter`: the lines that are not blank, in their order, each kept as it is |
| SummaryFormatter.KeepNonBlankSpec | popup.js:245 | the filter keeps only non-blank lines of the input and keeps every non-blank line |
| SummaryFormatter.ParagraphsAreLines | popup.js:245 | each paragraph is a line of the text, holds no newline and is not blank |
| SummaryFormatter.ParagraphsConcat | popup.js:245 | the paragraphs of `a + "\n" + b` are those of `a` followed by those of `b` |
| SummaryFormatter.ParagraphsOfLine | popup.js:245 | a single line is one paragraph, untrimmed, unless it is blank, and then it is dropped |
| SummaryFormatter.WhitespaceLinesDropped | popup.js:245 | a single line yields no paragraph exactly when it is whitespace only |
| SummaryFormatter.ParagraphElementsAppend | popup.js:246-248 | the elements of two runs of paragraphs are the elements of each, concatenated |
| SummaryFormatter.MarkupConcat | popup.js:235-251 | the markup of `a + "\n" + b` is the markup of `a` followed by the paragraph elements of `b` |
| SummaryFormatter.BlankLinesDropped | popup.js:245 | in `a \n w \n b \n`, with `w` whitespace only, the whitespace line and the empty piece after the trailing newline are dropped, leaving the paragraphs `a` and `b` |
| SummaryFormatter.BlankLinesMarkup | popup.js:239-248 | the markup of that text is the header followed by one `<p>` each for `a` and `b` |
| SummaryFormatter.TwoParagraphs | popup.js:239-248 | two non-blank lines joined by a newline give the header followed by one `<p>` for each, in order |
| SummaryClient.Attempt | popup.js:152-193 | the `try` block: an ok answer with text gives its markup; an ok answer without text throws; a non-ok answer throws the body's message or "API request failed"; a failed exchange throws |
| SummaryClient.GenerateSummary | popup.js:151-197 | the result of `Attempt` for the server's answer to the built request, with every thrown error replaced by the fixed failure message |
| SummaryClient.GenerateGeminiSummary | popup.js:151-198 | the request carries the key and the prompt for the page at the given length; the result is the formatted text of an ok answer, or the fixed failure message |
| SummaryClient.GenerateOutcome | popup.js:182-196 | the summary succeeds exactly when the response is ok and carries a text, and is then that text formatted for the page; every failure is "Failed to generate summary with Gemini. Check your API key and try again." |
| SummaryClient.FailuresCollapse | popup.js:182-196 | any two failing answers, whatever their status or body message, give the same result: the fixed failure message |
| SummaryClient.BodyMessageReplaced | popup.js:182-185 | a non-ok answer throws the body's `error.message`, or "API request failed" when there is none |
| Popup.ApiKeySetting | popup.js:77-83 | the key is '' exactly when the stored key is missing or empty, and is otherwise the stored key |
| Popup.SummaryLengthSetting | popup.js:86-94 | the length is the stored one when it is non-empty, and 'medium' otherwise |
| Popup.CheckEffects | popup.js:65-74 | no key: disable the button and show the key message; a key: enable it and clear the message |
| Popup.ClickEffects | popup.js:16-62 | clear summary and error; no key: show the key message and stop; otherwise show loading, then stop if there is no active tab, or inject the extractor and continue with `CallbackEffects` |
| Popup.CallbackEffects | popup.js:38-61 | no result: the extraction message, then hide loading; a record: send the request, show the summary or "Error: " and the message, then hide loading |
| Popup.CheckOutcome | popup.js:65-74 | on open, the button is disabled exactly when no key is stored; the message is shown then and cleared otherwise; the summary is untouched |
| Popup.NoKeyBlocksSummarize | popup.js:16-26 | without a key, the click clears the summary, shows the key message, and never shows loading, injects or sends |
| Popup.LoadingEndsHidden | popup.js:28-61 | with a key, loading is shown before the extractor is injected, and is hidden last on every callback path |
| Popup.NoActiveTabLeavesLoading | popup.js:28-36 | with no active tab, the handler stops after showing loading; nothing is injected or sent, and the indicator stays visible |
| Popup.ExtractionFailureShown | popup.js:38-43 | a failed or empty injection shows "Error extracting page content.", hides loading and sends nothing |
| Popup.RequestOutcome | popup.js:45-60 | after extraction, exactly one request is sent, carrying the stored key and the prompt at the stored length (medium by default); the page then shows the formatted summary or "Error: " plus the fixed message, and loading is hidden |
| Popup.BadKeyScenario | popup.js:45-60 | a "bad key" error body ends with "Error: Failed to generate summary with Gemini. Check your API key and try again.", no summary and loading hidden |
| Popup.SuccessScenario | popup.js:45-60 | an answer of the two lines A and B on a page titled T at U shows `<h3>T</h3><p><small>U</small></p><p>A</p><p>B</p>`, no error and loading hidden |
| Popup.PopupPage.CheckApiKey | popup.js:65-74 | the page carries out `CheckEffects` and ends in the view they produce |
| Popup.PopupPage.OnSummarize | popup.js:16-62 | the page carries out `ClickEffects` for the stored key, the injection outcome, the stored length and the server's answer, and ends in the view they produce |
| Popup.PopupPage.OnScriptResult | popup.js:38-61 | the callback reads the extractor's record (the model runs the extractor on `doc` at the start of the callback, after `InjectExtractor`), generates the summary and carries out `CallbackEffects` |

## Left out

- The `chrome.*` APIs (`storage.sync`, `tabs.query`, `scripting.executeScript`, `runtime.openOptionsPage`): their results are inputs to the model.
- The settings link handler (popup.js:9-11): it only opens the options page.
- The DOM: element lookups and `innerText` are inputs. Writes to `innerHTML` and `style.display` are fields of `PopupPage`. The markup is a string, never parsed.
- `fetch` and the JSON wire body: this includes the endpoint URL, the headers and `generationConfig`. Its temperature and topP are floating point. An answer is reduced to ok-with-text, ok-without-text, not-ok with an optional message, or no answer.
- `console.error` (popup.js:195): logging only.
- Asynchronous sequencing: each handler runs to completion, in the order the source awaits its steps. Interleavings such as a second click while a request is in flight are not modelled.
- options.js is not part of this model. Its save handler stores a trimmed key and refuses an empty one (options.js:19-25). The popup model accepts any stored value and uses only its truthiness.
- PageExtractor.ExtractPageContent: lengths count Unicode characters, not UTF-16 code units. For text outside the Basic Multilingual Plane the 20000 cap therefore falls elsewhere, and a surrogate pair cut by `substring` is not modelled.
- PageExtractor.MetadataKeys: JavaScript drops an assignment to the key `__proto__` on a plain object. The model records it like any other key.
- An exception thrown inside the injected extractor is folded into `NoResult`, the case where `executeScript` reports no result.
- The settings round trip through storage is not modelled. The popup reads the stored key and length as inputs.
- PromptBuilder.PromptRoundTrip: splitting recovers the template lines only for fields without newlines, because a field's own newlines split it further. The verbatim splice for fields of any kind is stated by `TitleSpliced`, `UrlSpliced`, `DescriptionSpliced` and `ContentSpliced`.
