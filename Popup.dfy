/**
  The popup controller (popup.js:1-94): the summarize button's click handler, the key
  check run when the popup opens, and the defaults applied to stored settings. The DOM
  state the popup writes is the state of a `PopupPage` object; storage reads, the
  active-tab query, the injected extractor's delivery and the HTTP exchange are inputs.
 */
module Popup {
  import opened Wrappers
  import JsText
  import opened PageExtractor
  import PromptBuilder
  import SummaryFormatter
  import SummaryClient

  const NoKeyMessage: string := "Please set your Gemini API Key in the settings first."
  const ExtractionErrorMessage: string := "Error extracting page content."

  /** `getAPIKey`: the stored key, or '' when it is missing or empty (`data.apiKey || ''`). */
  function ApiKeySetting(stored: Option<string>): (key: string)
    ensures key == "" <==> !JsText.Truthy(stored)
    ensures key != "" ==> stored == Some(key)
  {
    if JsText.Truthy(stored) then stored.value else ""
  }

  /** `getSummarySettings`: the stored length, or 'medium' when it is missing or empty. */
  function SummaryLengthSetting(stored: Option<string>): (summaryLength: string)
    ensures summaryLength != ""
    ensures JsText.Truthy(stored) ==> summaryLength == stored.value
    ensures !JsText.Truthy(stored) ==> summaryLength == "medium"
  {
    if JsText.Truthy(stored) then stored.value else "medium"
  }

  /** What `executeScript` hands its callback: `lastError` set or no result
      (popup.js:39), or the document the extractor ran on; the model runs the extractor
      on it at the start of the callback, which reads its record (popup.js:45). */
  datatype ScriptResult = NoResult | Extracted(doc: Document)

  /** How far the injection gets: no active tab to inject into (popup.js:32-36, where
      `tab.id` of `undefined` throws), or the callback runs with a result. */
  datatype Injection = NoActiveTab | Ran(result: ScriptResult)

  /** One thing the popup does to its page or to the outside world, in order. */
  datatype Effect =
    | SetSummary(html: string)          // summaryDiv.innerHTML = ...
    | SetError(text: string)            // errorDiv.innerHTML = ...
    | SetLoading(visible: bool)         // loadingDiv.style.display = 'block' / 'none'
    | SetDisabled(disabled: bool)       // summarizeBtn.disabled = ...
    | InjectExtractor                   // chrome.scripting.executeScript(extractPageContent)
    | SendRequest(request: SummaryClient.Request) // the fetch of generateGeminiSummary

  /** What the popup shows. */
  datatype View = View(summaryHTML: string, errorText: string, loadingVisible: bool, summarizeDisabled: bool)

  function Step(v: View, e: Effect): View {
    match e
    case SetSummary(html) => v.(summaryHTML := html)
    case SetError(text) => v.(errorText := text)
    case SetLoading(visible) => v.(loadingVisible := visible)
    case SetDisabled(disabled) => v.(summarizeDisabled := disabled)
    case InjectExtractor => v
    case SendRequest(_) => v
  }

  /** The view after a run of effects. */
  function Apply(v: View, effects: seq<Effect>): View
    decreases |effects|
  {
    if effects == [] then v else Apply(Step(v, effects[0]), effects[1..])
  }

  /** `checkAPIKey` (popup.js:65-74). */
  function CheckEffects(storedKey: Option<string>): seq<Effect> {
    if ApiKeySetting(storedKey) == "" then [SetDisabled(true), SetError(NoKeyMessage)]
    else [SetDisabled(false), SetError("")]
  }

  /** What the `executeScript` callback of popup.js:38-61 does. */
  function CallbackEffects(apiKey: string, result: ScriptResult, storedLength: Option<string>,
                           server: SummaryClient.Request -> SummaryClient.ApiResponse): seq<Effect>
  {
    match result
    case NoResult => [SetError(ExtractionErrorMessage), SetLoading(false)]
    case Extracted(doc) =>
      var page := Extract(doc);
      var summaryLength := SummaryLengthSetting(storedLength);
      var shown := match SummaryClient.GenerateSummary(page, apiKey, summaryLength, server)
        case Success(html) => SetSummary(html)
        case Failure(message) => SetError("Error: " + message);
      [SendRequest(SummaryClient.BuildRequest(page, apiKey, summaryLength)), shown, SetLoading(false)]
  }

  /** What the click handler of popup.js:16-62 does, `server` answering the request if
      one is sent. */
  function ClickEffects(storedKey: Option<string>, injection: Injection, storedLength: Option<string>,
                        server: SummaryClient.Request -> SummaryClient.ApiResponse): seq<Effect>
  {
    var apiKey := ApiKeySetting(storedKey);
    var cleared := [SetSummary(""), SetError("")];
    if apiKey == "" then cleared + [SetError(NoKeyMessage)]
    else
      match injection
      case NoActiveTab => cleared + [SetLoading(true)]
      case Ran(result) =>
        cleared + [SetLoading(true), InjectExtractor] + CallbackEffects(apiKey, result, storedLength, server)
  }

  // ---------------------------------------------------------------------------
  // What the user sees at the end of each path

  lemma {:induction false} ApplySnoc(v: View, a: seq<Effect>, e: Effect)
    ensures Apply(v, a + [e]) == Step(Apply(v, a), e)
    decreases |a|
  {
    if a != [] {
      assert (a + [e])[1..] == a[1..] + [e];
      ApplySnoc(Step(v, a[0]), a[1..], e);
    }
  }

  lemma {:induction false} ApplyAppend(v: View, a: seq<Effect>, b: seq<Effect>)
    ensures Apply(v, a + b) == Apply(Apply(v, a), b)
    decreases |a|
  {
    if a != [] {
      assert (a + b)[1..] == a[1..] + b;
      ApplyAppend(Step(v, a[0]), a[1..], b);
    } else {
      assert a + b == b;
    }
  }

  lemma Apply1(v: View, a: Effect)
    ensures Apply(v, [a]) == Step(v, a)
  {
    assert [a][1..] == [];
  }

  lemma Apply2(v: View, a: Effect, b: Effect)
    ensures Apply(v, [a, b]) == Step(Step(v, a), b)
  {
    assert [a, b][1..] == [b];
    Apply1(Step(v, a), b);
  }

  lemma Apply3(v: View, a: Effect, b: Effect, c: Effect)
    ensures Apply(v, [a, b, c]) == Step(Step(Step(v, a), b), c)
  {
    assert [a, b, c][1..] == [b, c];
    Apply2(Step(v, a), b, c);
  }

  /** Opening the popup disables the button and shows the message exactly when no key
      is stored, and clears the message otherwise. */
  lemma CheckOutcome(storedKey: Option<string>, v: View)
    ensures Apply(v, CheckEffects(storedKey)).summarizeDisabled <==> !JsText.Truthy(storedKey)
    ensures Apply(v, CheckEffects(storedKey)).errorText == if JsText.Truthy(storedKey) then "" else NoKeyMessage
    ensures Apply(v, CheckEffects(storedKey)).summaryHTML == v.summaryHTML
  {
    var effs := CheckEffects(storedKey);
    Apply2(v, effs[0], effs[1]);
    assert effs == [effs[0], effs[1]];
  }

  /** Without a key the handler stops after showing the message: the summary is cleared,
      the loading indicator is never shown, nothing is injected and nothing is sent. */
  lemma NoKeyBlocksSummarize(storedKey: Option<string>, injection: Injection, storedLength: Option<string>,
                             server: SummaryClient.Request -> SummaryClient.ApiResponse, v: View)
    requires !JsText.Truthy(storedKey)
    ensures forall e :: e in ClickEffects(storedKey, injection, storedLength, server) ==>
      !e.InjectExtractor? && !e.SendRequest? && !e.SetLoading?
    ensures Apply(v, ClickEffects(storedKey, injection, storedLength, server))
      == v.(summaryHTML := "", errorText := NoKeyMessage)
  {
    var effs := ClickEffects(storedKey, injection, storedLength, server);
    assert effs == [SetSummary(""), SetError(""), SetError(NoKeyMessage)];
    Apply3(v, SetSummary(""), SetError(""), SetError(NoKeyMessage));
  }

  /** With a key, the loading indicator is shown before the extractor is injected, and
      it is hidden again at the end of the callback on every path. */
  lemma LoadingEndsHidden(storedKey: Option<string>, result: ScriptResult, storedLength: Option<string>,
                          server: SummaryClient.Request -> SummaryClient.ApiResponse, v: View)
    requires JsText.Truthy(storedKey)
    ensures var effs := ClickEffects(storedKey, Ran(result), storedLength, server);
      && |effs| >= 4 && effs[2] == SetLoading(true) && effs[3] == InjectExtractor
      && effs[|effs| - 1] == SetLoading(false)
      && !Apply(v, effs).loadingVisible
  {
    var apiKey := ApiKeySetting(storedKey);
    var cb := CallbackEffects(apiKey, result, storedLength, server);
    var effs := ClickEffects(storedKey, Ran(result), storedLength, server);
    assert effs == [SetSummary(""), SetError(""), SetLoading(true), InjectExtractor] + cb;
    ApplyAppend(v, [SetSummary(""), SetError(""), SetLoading(true), InjectExtractor], cb);
    if result.NoResult? {
      Apply2(Apply(v, [SetSummary(""), SetError(""), SetLoading(true), InjectExtractor]), cb[0], cb[1]);
      assert cb == [cb[0], cb[1]];
    } else {
      Apply3(Apply(v, [SetSummary(""), SetError(""), SetLoading(true), InjectExtractor]), cb[0], cb[1], cb[2]);
      assert cb == [cb[0], cb[1], cb[2]];
    }
  }

  /** When there is no active tab, the handler throws after showing the loading
      indicator, which, as the source is written, then stays visible; nothing is
      injected or sent. */
  lemma NoActiveTabLeavesLoading(storedKey: Option<string>, storedLength: Option<string>,
                                 server: SummaryClient.Request -> SummaryClient.ApiResponse, v: View)
    requires JsText.Truthy(storedKey)
    ensures forall e :: e in ClickEffects(storedKey, NoActiveTab, storedLength, server) ==>
      !e.InjectExtractor? && !e.SendRequest?
    ensures Apply(v, ClickEffects(storedKey, NoActiveTab, storedLength, server))
      == v.(summaryHTML := "", errorText := "", loadingVisible := true)
  {
    var effs := ClickEffects(storedKey, NoActiveTab, storedLength, server);
    assert effs == [SetSummary(""), SetError(""), SetLoading(true)];
    Apply3(v, SetSummary(""), SetError(""), SetLoading(true));
  }

  /** An injection that reports an error or no result shows the extraction message,
      hides the loading indicator and sends nothing. */
  lemma ExtractionFailureShown(storedKey: Option<string>, storedLength: Option<string>,
                               server: SummaryClient.Request -> SummaryClient.ApiResponse, v: View)
    requires JsText.Truthy(storedKey)
    ensures forall e :: e in ClickEffects(storedKey, Ran(NoResult), storedLength, server) ==> !e.SendRequest?
    ensures Apply(v, ClickEffects(storedKey, Ran(NoResult), storedLength, server))
      == v.(summaryHTML := "", errorText := ExtractionErrorMessage, loadingVisible := false)
  {
    var effs := ClickEffects(storedKey, Ran(NoResult), storedLength, server);
    var head := [SetSummary(""), SetError(""), SetLoading(true)];
    var tail := [InjectExtractor, SetError(ExtractionErrorMessage), SetLoading(false)];
    assert effs == head + tail;
    ApplyAppend(v, head, tail);
    Apply3(v, SetSummary(""), SetError(""), SetLoading(true));
    Apply3(Apply(v, head), InjectExtractor, SetError(ExtractionErrorMessage), SetLoading(false));
  }

  /** Once the extractor has run, exactly one request is sent, carrying the stored key
      and the prompt for the extracted record at the stored length (medium when none is
      stored); the page then shows the formatted summary, or "Error: " and the fixed
      failure message, and the loading indicator is hidden. */
  lemma RequestOutcome(storedKey: Option<string>, doc: Document, storedLength: Option<string>,
                       server: SummaryClient.Request -> SummaryClient.ApiResponse, v: View)
    requires JsText.Truthy(storedKey)
    ensures var page := Extract(doc);
      var request := SummaryClient.Request(storedKey.value,
        PromptBuilder.CreateSummaryPrompt(page, SummaryLengthSetting(storedLength)));
      var effs := ClickEffects(storedKey, Ran(Extracted(doc)), storedLength, server);
      var response := server(request);
      && |effs| == 7 && effs[4] == SendRequest(request)
      && (forall i :: 0 <= i < |effs| && effs[i].SendRequest? ==> i == 4)
      && Apply(v, effs) == (
        if response.Ok? && response.text.Some? then
          v.(summaryHTML := SummaryFormatter.SummaryMarkup(page, response.text.value), errorText := "",
             loadingVisible := false)
        else
          v.(summaryHTML := "", errorText := "Error: " + SummaryClient.FailureMessage, loadingVisible := false))
  {
    var page := Extract(doc);
    var effs := ClickEffects(storedKey, Ran(Extracted(doc)), storedLength, server);
    SummaryClient.GenerateOutcome(page, storedKey.value, SummaryLengthSetting(storedLength), server);
    var head := [SetSummary(""), SetError(""), SetLoading(true), InjectExtractor];
    var cb := CallbackEffects(storedKey.value, Extracted(doc), storedLength, server);
    assert effs == head + cb;
    ApplyAppend(v, head, cb);
    assert head == [SetSummary(""), SetError("")] + [SetLoading(true), InjectExtractor];
    ApplyAppend(v, [SetSummary(""), SetError("")], [SetLoading(true), InjectExtractor]);
    Apply2(v, SetSummary(""), SetError(""));
    Apply2(Apply(v, [SetSummary(""), SetError("")]), SetLoading(true), InjectExtractor);
    Apply3(Apply(v, head), cb[0], cb[1], cb[2]);
    assert cb == [cb[0], cb[1], cb[2]];
  }

  /** A 403 answer with body `{"error":{"message":"bad key"}}`: the page shows "Error: "
      and the fixed failure message ("Failed to generate summary with Gemini. Check your
      API key and try again."), not the body's, and the loading indicator is hidden. */
  lemma BadKeyScenario(doc: Document, storedLength: Option<string>, v: View)
    ensures var effs := ClickEffects(Some("k"), Ran(Extracted(doc)), storedLength,
                                     _ => SummaryClient.NotOk(Some("bad key")));
      && Apply(v, effs).errorText == "Error: " + SummaryClient.FailureMessage
      && Apply(v, effs).summaryHTML == ""
      && !Apply(v, effs).loadingVisible
  {
    RequestOutcome(Some("k"), doc, storedLength, _ => SummaryClient.NotOk(Some("bad key")), v);
  }

  /** A successful run on a page titled "T" at "U" whose generated text is the two lines
      "A" and "B": a heading, the URL line and two paragraphs in order. */
  lemma SuccessScenario(doc: Document, storedLength: Option<string>,
                        server: SummaryClient.Request -> SummaryClient.ApiResponse, v: View)
    requires doc.title == "T" && doc.url == "U"
    requires forall request :: server(request) == SummaryClient.Ok(Some("A" + "\n" + "B"))
    ensures var effs := ClickEffects(Some("k"), Ran(Extracted(doc)), storedLength, server);
      && Apply(v, effs).summaryHTML == "<h3>T</h3>" + "<p><small>U</small></p>" + "<p>A</p>" + "<p>B</p>"
      && Apply(v, effs).errorText == ""
      && !Apply(v, effs).loadingVisible
  {
    RequestOutcome(Some("k"), doc, storedLength, server, v);
    ScenarioMarkup(Extract(doc));
  }

  lemma ScenarioMarkup(page: PageRecord)
    requires page.title == "T" && page.url == "U"
    ensures SummaryFormatter.SummaryMarkup(page, "A" + "\n" + "B")
      == "<h3>T</h3>" + "<p><small>U</small></p>" + "<p>A</p>" + "<p>B</p>"
  {
    assert !JsText.IsWhitespace("A"[0]) && !JsText.IsWhitespace("B"[0]);
    SummaryFormatter.TwoParagraphs(page, "A", "B");
  }

  /** The popup's page: the DOM state the controller writes, and every effect so far. */
  class PopupPage {
    var summaryHTML: string
    var errorText: string
    var loadingVisible: bool
    var summarizeDisabled: bool
    var effects: seq<Effect>

    function CurrentView(): View
      reads this
    {
      View(summaryHTML, errorText, loadingVisible, summarizeDisabled)
    }

    /** A freshly opened popup: nothing shown, the loading indicator hidden. */
    constructor ()
      ensures CurrentView() == View("", "", false, false) && effects == []
    {
      summaryHTML, errorText, loadingVisible, summarizeDisabled := "", "", false, false;
      effects := [];
    }

    /** The effects recorded since `log0`, applied to `v0`, give what the page shows. */
    ghost predicate Tracks(v0: View, log0: seq<Effect>)
      reads this
    {
      |log0| <= |effects| && effects[..|log0|] == log0 && CurrentView() == Apply(v0, effects[|log0|..])
    }

    /** Carries out one effect on the page and records it. */
    method Perform(e: Effect, ghost v0: View, ghost log0: seq<Effect>)
      requires Tracks(v0, log0)
      modifies this
      ensures CurrentView() == Step(old(CurrentView()), e)
      ensures effects == old(effects) + [e]
      ensures Tracks(v0, log0)
    {
      ghost var run := effects[|log0|..];
      ApplySnoc(v0, run, e);
      var next := Step(CurrentView(), e);
      summaryHTML, errorText := next.summaryHTML, next.errorText;
      loadingVisible, summarizeDisabled := next.loadingVisible, next.summarizeDisabled;
      effects := effects + [e];
      assert effects[..|log0|] == log0;
      assert effects[|log0|..] == run + [e];
    }

    /** `checkAPIKey`: disables the button and shows the message when no key is stored. */
    method CheckApiKey(storedKey: Option<string>)
      modifies this
      ensures effects == old(effects) + CheckEffects(storedKey)
      ensures CurrentView() == Apply(old(CurrentView()), CheckEffects(storedKey))
    {
      ghost var v0, log0 := CurrentView(), effects;
      assert effects[|log0|..] == [];
      var apiKey := ApiKeySetting(storedKey);
      if apiKey == "" {
        Perform(SetDisabled(true), v0, log0);
        Perform(SetError(NoKeyMessage), v0, log0);
      } else {
        Perform(SetDisabled(false), v0, log0);
        Perform(SetError(""), v0, log0);
      }
      assert effects[|log0|..] == CheckEffects(storedKey);
    }

    /** The summarize button's click handler. */
    method OnSummarize(storedKey: Option<string>, injection: Injection, storedLength: Option<string>,
                       server: SummaryClient.Request -> SummaryClient.ApiResponse)
      modifies this
      ensures effects == old(effects) + ClickEffects(storedKey, injection, storedLength, server)
      ensures CurrentView() == Apply(old(CurrentView()), ClickEffects(storedKey, injection, storedLength, server))
    {
      ghost var v0, log0 := CurrentView(), effects;
      assert effects[|log0|..] == [];
      Perform(SetSummary(""), v0, log0);
      Perform(SetError(""), v0, log0);
      var apiKey := ApiKeySetting(storedKey);
      if apiKey == "" {
        Perform(SetError(NoKeyMessage), v0, log0);
      } else {
        Perform(SetLoading(true), v0, log0);
        match injection {
          case NoActiveTab =>
          case Ran(result) =>
            Perform(InjectExtractor, v0, log0);
            OnScriptResult(apiKey, result, storedLength, server, v0, log0);
        }
      }
      assert effects[|log0|..] == ClickEffects(storedKey, injection, storedLength, server);
    }

    /** The callback that receives the extractor's result. */
    method OnScriptResult(apiKey: string, result: ScriptResult, storedLength: Option<string>,
                          server: SummaryClient.Request -> SummaryClient.ApiResponse,
                          ghost v0: View, ghost log0: seq<Effect>)
      requires Tracks(v0, log0)
      modifies this
      ensures effects == old(effects) + CallbackEffects(apiKey, result, storedLength, server)
      ensures Tracks(v0, log0)
    {
      match result {
        case NoResult =>
          Perform(SetError(ExtractionErrorMessage), v0, log0);
          Perform(SetLoading(false), v0, log0);
        case Extracted(doc) =>
          var pageContent := ExtractPageContent(doc);
          var summaryLength := SummaryLengthSetting(storedLength);
          var request, summary := SummaryClient.GenerateGeminiSummary(pageContent, apiKey, summaryLength, server);
          Perform(SendRequest(request), v0, log0);
          match summary {
            case Success(html) => Perform(SetSummary(html), v0, log0);
            case Failure(message) => Perform(SetError("Error: " + message), v0, log0);
          }
          Perform(SetLoading(false), v0, log0);
      }
    }
  }
}
