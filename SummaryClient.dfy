/**
  The summary client `generateGeminiSummary` (popup.js:151-198). The HTTP exchange is a
  parameter: `server` answers the request the popup sends. Whatever goes wrong, the
  caller sees one fixed message.
 */
module SummaryClient {
  import opened Wrappers
  import JsText
  import opened PageExtractor
  import PromptBuilder
  import SummaryFormatter

  const FailureMessage: string := "Failed to generate summary with Gemini. Check your API key and try again."
  /** The message thrown for a non-ok response whose body has no `error.message`. */
  const RequestFailedMessage: string := "API request failed"

  /** What the popup sends: the key in the `x-goog-api-key` header and the prompt as the
      one text part of the body. */
  datatype Request = Request(apiKey: string, prompt: string)

  /** The answer, as far as the client looks at it. */
  datatype ApiResponse =
    | Ok(text: Option<string>)          // response.ok; candidates[0].content.parts[0].text when it is a string
    | NotOk(errorMessage: Option<string>) // error.message of the JSON body, if any
    | NoResponse                        // fetch or response.json() threw

  function BuildRequest(page: PageRecord, apiKey: string, summaryLength: string): Request {
    Request(apiKey, PromptBuilder.CreateSummaryPrompt(page, summaryLength))
  }

  /** What the `try` block of popup.js:152-193 can throw. */
  datatype Thrown =
    | RequestFailed(message: string)  // the `throw new Error(...)` for a non-ok status
    | MissingText                     // reading a missing candidate, or splitting a non-string
    | TransportError                  // what fetch or response.json() threw

  /** The `try` block: the markup, or what it throws. */
  function Attempt(page: PageRecord, response: ApiResponse): Result<string, Thrown> {
    match response
    case Ok(Some(text)) => Success(SummaryFormatter.SummaryMarkup(page, text))
    case Ok(None) => Failure(MissingText)
    case NotOk(m) => Failure(RequestFailed(if JsText.Truthy(m) then m.value else RequestFailedMessage))
    case NoResponse => Failure(TransportError)
  }

  /** The `catch` of popup.js:194-197 replaces every error by the fixed message. */
  function GenerateSummary(page: PageRecord, apiKey: string, summaryLength: string,
                           server: Request -> ApiResponse): Result<string, string>
  {
    match Attempt(page, server(BuildRequest(page, apiKey, summaryLength)))
    case Success(html) => Success(html)
    case Failure(_) => Failure(FailureMessage)
  }

  /** `generateGeminiSummary`: builds the request, lets `server` answer it and formats a
      successful answer with `formatSummaryHTML`. */
  method GenerateGeminiSummary(page: PageRecord, apiKey: string, summaryLength: string,
                               server: Request -> ApiResponse)
    returns (request: Request, result: Result<string, string>)
    ensures request.apiKey == apiKey
    ensures request.prompt == PromptBuilder.CreateSummaryPrompt(page, summaryLength)
    ensures result == GenerateSummary(page, apiKey, summaryLength, server)
  {
    var prompt := PromptBuilder.CreateSummaryPrompt(page, summaryLength);
    request := Request(apiKey, prompt);
    var response := server(request);
    if response.Ok? && response.text.Some? {
      var html := SummaryFormatter.FormatSummaryHTML(page, response.text.value);
      result := Success(html);
    } else {
      result := Failure(FailureMessage);
    }
  }

  // ---------------------------------------------------------------------------

  /** The summary succeeds exactly when the response is ok and carries a text, and then
      it is that text formatted for the page; every other outcome is the fixed message. */
  lemma GenerateOutcome(page: PageRecord, apiKey: string, summaryLength: string,
                        server: Request -> ApiResponse)
    ensures var response := server(BuildRequest(page, apiKey, summaryLength));
      && (GenerateSummary(page, apiKey, summaryLength, server).Success? <==> response.Ok? && response.text.Some?)
      && (response.Ok? && response.text.Some? ==>
            GenerateSummary(page, apiKey, summaryLength, server)
              == Success(SummaryFormatter.SummaryMarkup(page, response.text.value)))
      && (GenerateSummary(page, apiKey, summaryLength, server).Failure? ==>
            GenerateSummary(page, apiKey, summaryLength, server).error == FailureMessage)
  {
  }

  /** The error message from the response body is thrown and then discarded: two servers
      that both fail, in whatever way and with whatever message, give the same result. */
  lemma FailuresCollapse(page: PageRecord, apiKey: string, summaryLength: string,
                         s1: Request -> ApiResponse, s2: Request -> ApiResponse)
    requires !(s1(BuildRequest(page, apiKey, summaryLength)).Ok? && s1(BuildRequest(page, apiKey, summaryLength)).text.Some?)
    requires !(s2(BuildRequest(page, apiKey, summaryLength)).Ok? && s2(BuildRequest(page, apiKey, summaryLength)).text.Some?)
    ensures GenerateSummary(page, apiKey, summaryLength, s1) == GenerateSummary(page, apiKey, summaryLength, s2)
    ensures GenerateSummary(page, apiKey, summaryLength, s1) == Failure(FailureMessage)
  {
  }

  /** The body's message does reach the inner `throw`, and only it is replaced. */
  lemma BodyMessageReplaced(page: PageRecord, message: string)
    requires message != ""
    ensures Attempt(page, NotOk(Some(message))) == Failure(RequestFailed(message))
    ensures Attempt(page, NotOk(None)) == Failure(RequestFailed(RequestFailedMessage))
  {
  }
}
