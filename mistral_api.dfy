/**
 * The tone-adjustment client: checks its inputs, builds one chat-completion
 * request, and turns whatever the transport delivers (a success body, an
 * HTTP error, an abort, a rejected fetch, a thrown non-Error value) into
 * exactly one `ApiResponse`, never an exception.
 *
 * The network call, the JSON decoding and the 30-second abort timer are not
 * performed here: what they would deliver is the `Transport` argument.
 */
module MistralApi {
  import opened Wrappers
  import opened Strings
  import opened Constants

  // ---------------------------------------------------------------------------
  // Values exchanged with callers
  // ---------------------------------------------------------------------------

  datatype TextAdjustmentRequest = TextAdjustmentRequest(text: string, tone: string, model: Option<string>)

  datatype Status = Success | Error | Loading

  /** `{ status, data?, error? }`. */
  datatype ApiResponse = ApiResponse(status: Status, data: Option<string>, error: Option<string>)

  function SuccessResponse(data: string): ApiResponse
  {
    ApiResponse(Success, Some(data), None)
  }

  function ErrorResponse(message: string): ApiResponse
  {
    ApiResponse(Error, None, Some(message))
  }

  /** A settled response: a success carrying data or an error carrying a
      message, never both and never `loading`. */
  predicate IsSettled(r: ApiResponse)
  {
    || (r.status == Success && r.data.Some? && r.error.None?)
    || (r.status == Error && r.error.Some? && r.data.None?)
  }

  /** JavaScript truthiness of an optional string: present and non-empty. */
  predicate Truthy(s: Option<string>)
  {
    s.Some? && s.value != []
  }

  // ---------------------------------------------------------------------------
  // Exceptions
  // ---------------------------------------------------------------------------

  /** `class ApiError extends Error` with its optional HTTP status and error code. */
  datatype ApiError = ApiError(message: string, status: Option<int>, code: Option<string>)

  /** What a `catch` clause can receive: an `ApiError`, any other `Error`
      (with its `name` and `message`), or a thrown value that is not an `Error`. */
  datatype Exception =
    | ApiErr(apiError: ApiError)
    | Err(name: string, message: string)
    | NonErrorValue

  // ---------------------------------------------------------------------------
  // Request
  // ---------------------------------------------------------------------------

  datatype ChatMessage = ChatMessage(role: string, content: string)

  /** The JSON body sent to the completion endpoint. */
  datatype RequestBody = RequestBody(model: string, messages: seq<ChatMessage>, temperature: real, maxTokens: int)

  /** The POST the client issues: endpoint, `Authorization` header value and body. */
  datatype OutgoingRequest = OutgoingRequest(url: string, authorization: string, body: RequestBody)

  const PROMPT_INTRO := "You are a professional text editor that adjusts the tone of text. \nRewrite the provided text to match the "
  const PROMPT_OUTRO := " tone while preserving the core meaning and message. \nKeep the same structure and key information, only adjust the language style and tone.\nReturn only the rewritten text without any additional commentary or explanation."
  const PROMPT_HEAD := PROMPT_INTRO + "\""
  const PROMPT_TAIL := "\"" + PROMPT_OUTRO

  /** The system instruction, with the tone name between double quotes. */
  function BuildSystemPrompt(tone: string): (p: string)
    ensures |p| == |PROMPT_HEAD| + |tone| + |PROMPT_TAIL|
    ensures p[..|PROMPT_HEAD|] == PROMPT_HEAD
    ensures p[|PROMPT_HEAD|..|PROMPT_HEAD| + |tone|] == tone
    ensures p[|PROMPT_HEAD| + |tone|..] == PROMPT_TAIL
  {
    PROMPT_HEAD + tone + PROMPT_TAIL
  }

  /** The prompt quotes the tone verbatim. */
  lemma SystemPromptQuotesTone(tone: string)
    ensures Contains(BuildSystemPrompt(tone), "\"" + tone + "\"")
  {
    var q := "\"";
    Regroup(PROMPT_INTRO, q, tone, PROMPT_OUTRO);
    ContainsMiddle(PROMPT_INTRO, q + tone + q, PROMPT_OUTRO);
  }

  /** Moving the quotes from the frame onto the middle. */
  lemma Regroup(a: string, q: string, t: string, o: string)
    ensures (a + q) + t + (q + o) == a + (q + t + q) + o
  {
  }

  /** Different tones give different prompts, so the tone can always be read
      back from the prompt. */
  lemma SystemPromptInjective(tone: string, other: string)
    requires BuildSystemPrompt(other) == BuildSystemPrompt(tone)
    ensures other == tone
  {
    MiddleInjective(PROMPT_HEAD, other, tone, PROMPT_TAIL);
  }

  /** `request.model || defaultModel`: an absent or empty override falls back. */
  function ChooseModel(request: TextAdjustmentRequest, defaultModel: string): (m: string)
    ensures Truthy(request.model) ==> m == request.model.value
    ensures !Truthy(request.model) ==> m == defaultModel
  {
    if Truthy(request.model) then request.model.value else defaultModel
  }

  /** The request body: a system message carrying the tone instruction, then a
      user message carrying the text unchanged, with the fixed generation
      settings. */
  function BuildRequestBody(request: TextAdjustmentRequest, defaultModel: string): (b: RequestBody)
    ensures |b.messages| == 2
    ensures b.messages[0] == ChatMessage("system", BuildSystemPrompt(request.tone))
    ensures b.messages[1] == ChatMessage("user", request.text)
    ensures b.model == ChooseModel(request, defaultModel)
    ensures b.temperature == TEMPERATURE && b.maxTokens == 1000
  {
    RequestBody(
      ChooseModel(request, defaultModel),
      [ChatMessage("system", BuildSystemPrompt(request.tone)), ChatMessage("user", request.text)],
      TEMPERATURE,
      MAX_TOKENS)
  }

  // ---------------------------------------------------------------------------
  // Bodies the endpoint sends back, as decoded JSON
  // ---------------------------------------------------------------------------

  /** The outcome of `response.json()`: a decoded value, or the `SyntaxError`
      message for a body that is not JSON. */
  datatype Parse<T> = Parsed(value: T) | SyntaxError(message: string)

  datatype CompletionMessage = CompletionMessage(content: Option<string>, role: Option<string>)
  datatype Choice = Choice(message: Option<CompletionMessage>)
  datatype MistralApiResponse = MistralApiResponse(choices: Option<seq<Choice>>)

  datatype ErrorDetail = ErrorDetail(message: Option<string>, code: Option<string>)
  datatype ErrorBody = ErrorBody(error: Option<ErrorDetail>, message: Option<string>, code: Option<string>)

  /** An HTTP status for which `response.ok` is false: outside 200-299. */
  type FailedStatus = status: int | !(200 <= status <= 299) witness 400

  /** What `fetch` (and then `response.json()`) delivers for the request. */
  datatype Transport =
    | Ok(body: Parse<MistralApiResponse>)               // a 2xx status
    | HttpError(status: FailedStatus, errorBody: Parse<ErrorBody>) // `response.ok` is false
    | Abort                                              // the 30 s timer aborted the fetch
    | ErrorMsg(name: string, message: string)            // fetch rejected with another Error
    | NonError                                           // fetch rejected with a non-Error value

  // ---------------------------------------------------------------------------
  // Reading the bodies
  // ---------------------------------------------------------------------------

  /** `data.choices?.[0]?.message?.content`. */
  function FirstChoiceContent(data: MistralApiResponse): Option<string>
  {
    if data.choices.Some? && |data.choices.value| > 0 && data.choices.value[0].message.Some?
    then data.choices.value[0].message.value.content
    else None
  }

  /** The first choice's content, trimmed; an absent or empty content throws
      an `ApiError` carrying `INVALID_RESPONSE`. */
  function ExtractTextFromResponse(data: MistralApiResponse): (r: Outcome<string, Exception>)
    ensures r.Returned? <==> Truthy(FirstChoiceContent(data))
    ensures r.Returned? ==> r.value == Trim(FirstChoiceContent(data).value)
    ensures r.Thrown? ==> r.error == ApiErr(ApiError(INVALID_RESPONSE, None, None))
  {
    var content := FirstChoiceContent(data);
    if !Truthy(content) then Thrown(ApiErr(ApiError(INVALID_RESPONSE, None, None)))
    else Returned(Trim(content.value))
  }

  /** The message and code read from an error body. */
  datatype ParsedError = ParsedError(message: string, code: Option<string>)

  /** `error.message || message || API_REQUEST_FAILED` and
      `error.code || code`; a body that is not JSON gives the generic message. */
  function ParseErrorResponse(body: Parse<ErrorBody>): (e: ParsedError)
    ensures e.message != []
    ensures body.SyntaxError? ==> e == ParsedError(API_REQUEST_FAILED, None)
    ensures body.Parsed? ==>
      var b := body.value;
      var nested := if b.error.Some? then b.error.value.message else None;
      && (Truthy(nested) ==> e.message == nested.value)
      && (!Truthy(nested) && Truthy(b.message) ==> e.message == b.message.value)
      && (!Truthy(nested) && !Truthy(b.message) ==> e.message == API_REQUEST_FAILED)
  {
    match body
    case SyntaxError(_) => ParsedError(API_REQUEST_FAILED, None)
    case Parsed(b) =>
      var nestedMessage := if b.error.Some? then b.error.value.message else None;
      var nestedCode := if b.error.Some? then b.error.value.code else None;
      var message :=
        if Truthy(nestedMessage) then nestedMessage.value
        else if Truthy(b.message) then b.message.value
        else API_REQUEST_FAILED;
      var code := if Truthy(nestedCode) then nestedCode else b.code;
      ParsedError(message, code)
  }

  // ---------------------------------------------------------------------------
  // Classification
  // ---------------------------------------------------------------------------

  /** The `catch` handler: an `ApiError` keeps its message; then an abort is a
      timeout; then an `Error` whose message mentions "fetch" is a network
      error; then any other `Error` keeps its message; anything else is a
      generic failure. */
  function HandleError(ex: Exception): (r: ApiResponse)
    ensures r.status == Error && r.data.None? && r.error.Some?
    ensures ex.ApiErr? ==> r.error.value == ex.apiError.message
    ensures ex.Err? && ex.name == "AbortError" ==> r.error.value == TIMEOUT_ERROR
    ensures ex.Err? && ex.name != "AbortError" && Contains(ex.message, "fetch") ==> r.error.value == NETWORK_ERROR
    ensures ex.Err? && ex.name != "AbortError" && !Contains(ex.message, "fetch") ==> r.error.value == ex.message
    ensures ex.NonErrorValue? ==> r.error.value == API_REQUEST_FAILED
  {
    match ex
    case ApiErr(e) => ErrorResponse(e.message)
    case Err(name, message) =>
      if name == "AbortError" then ErrorResponse(TIMEOUT_ERROR)
      else if Contains(message, "fetch") then ErrorResponse(NETWORK_ERROR)
      else ErrorResponse(message)
    case NonErrorValue => ErrorResponse(API_REQUEST_FAILED)
  }

  /** The body of the `try` block once the request is sent: the adjusted text,
      or the exception it throws. An abort rejects with a `DOMException`
      named "AbortError", whose message is never read. */
  function Attempt(t: Transport): (r: Outcome<string, Exception>)
    ensures r.Returned? ==> t.Ok? && t.body.Parsed?
    ensures t.HttpError? ==> r.Thrown? && r.error.ApiErr? && r.error.apiError.message != []
  {
    match t
    case Abort => Thrown(Err("AbortError", ""))
    case ErrorMsg(name, message) => Thrown(Err(name, message))
    case NonError => Thrown(NonErrorValue)
    case HttpError(status, errorBody) =>
      var e := ParseErrorResponse(errorBody);
      var message := if e.message != [] then e.message else API_REQUEST_FAILED;
      Thrown(ApiErr(ApiError(message, Some(status), e.code)))
    case Ok(body) =>
      match body
      case SyntaxError(message) => Thrown(Err("SyntaxError", message))
      case Parsed(data) => ExtractTextFromResponse(data)
  }

  /** The response for a request that was sent: the adjusted text when the
      `try` block returns, otherwise the `catch` handler's classification. */
  function Respond(t: Transport): (r: ApiResponse)
    ensures IsSettled(r)
  {
    match Attempt(t)
    case Returned(adjusted) => SuccessResponse(adjusted)
    case Thrown(ex) => HandleError(ex)
  }

  /** One call of the client: the request it sent, if any, and its response. */
  datatype Exchange = Exchange(sent: Option<OutgoingRequest>, response: ApiResponse)

  /** `adjustTone(request, apiKey)`. A blank key is reported before blank text,
      and neither sends anything; otherwise exactly one request goes out and
      the outcome is classified into a settled response. */
  function AdjustTone(request: TextAdjustmentRequest, apiKey: string, defaultModel: string, t: Transport): (x: Exchange)
    ensures IsSettled(x.response)
    ensures IsBlank(apiKey) ==> x == Exchange(None, ErrorResponse(NO_API_KEY))
    ensures !IsBlank(apiKey) && IsBlank(request.text) ==> x == Exchange(None, ErrorResponse(NO_TEXT))
    ensures x.sent.None? <==> IsBlank(apiKey) || IsBlank(request.text)
    ensures x.sent.Some? ==>
      && x.sent.value == OutgoingRequest(MISTRAL_BASE_URL, "Bearer " + apiKey, BuildRequestBody(request, defaultModel))
      && x.response == Respond(t)
  {
    if IsBlank(apiKey) then Exchange(None, ErrorResponse(NO_API_KEY))
    else if IsBlank(request.text) then Exchange(None, ErrorResponse(NO_TEXT))
    else
      var sent := OutgoingRequest(MISTRAL_BASE_URL, "Bearer " + apiKey, BuildRequestBody(request, defaultModel));
      Exchange(Some(sent), Respond(t))
  }

  // ---------------------------------------------------------------------------
  // Which outcome gives which response
  // ---------------------------------------------------------------------------

  /** Success comes only from a 2xx body whose first choice has non-empty
      content, and carries that content trimmed. */
  lemma SuccessOnlyFromContent(t: Transport)
    ensures Respond(t).status == Success <==> t.Ok? && t.body.Parsed? && Truthy(FirstChoiceContent(t.body.value))
    ensures Respond(t).status == Success ==> Respond(t).data == Some(Trim(FirstChoiceContent(t.body.value).value))
  {
  }

  /** A 2xx body without usable content is an invalid response. */
  lemma MissingContentIsInvalid(data: MistralApiResponse)
    requires !Truthy(FirstChoiceContent(data))
    ensures Respond(Ok(Parsed(data))) == ErrorResponse(INVALID_RESPONSE)
  {
  }

  /** An HTTP error reports the message read from its body, never an empty
      one, even when it mentions "fetch" (an `ApiError` is matched first). */
  lemma HttpErrorReportsServerMessage(status: FailedStatus, body: Parse<ErrorBody>)
    ensures Respond(HttpError(status, body)) == ErrorResponse(ParseErrorResponse(body).message)
    ensures Respond(HttpError(status, body)).error.value != []
  {
  }

  /** An abort is always reported as a timeout. */
  lemma AbortIsTimeout(message: string)
    ensures Respond(Abort) == ErrorResponse(TIMEOUT_ERROR)
    ensures Respond(ErrorMsg("AbortError", message)) == ErrorResponse(TIMEOUT_ERROR)
  {
  }

  /** The browser's "Failed to fetch" rejection is reported as a network error. */
  lemma FailedFetchIsNetworkError()
    ensures Respond(ErrorMsg("TypeError", "Failed to fetch")) == ErrorResponse(NETWORK_ERROR)
  {
    ContainsAt("Failed to fetch", "fetch", 10);
  }

  /** Any other rejection of `fetch`: an `Error` whose message mentions
      "fetch" is a network error, any other `Error` reports its own message,
      and a non-`Error` value gives the generic failure. */
  lemma FetchRejectionClassified(name: string, message: string)
    requires name != "AbortError"
    ensures Respond(ErrorMsg(name, message)) ==
      ErrorResponse(if Contains(message, "fetch") then NETWORK_ERROR else message)
    ensures Respond(NonError) == ErrorResponse(API_REQUEST_FAILED)
  {
  }

  /** A 2xx body that is not JSON goes through the same `catch` handler as a
      rejected `fetch`: the decoder's message is reported, or the network
      error when that message mentions "fetch"; it is not classified as an
      invalid response. */
  lemma UndecodableBodyClassified(message: string)
    ensures Respond(Ok(SyntaxError(message))) ==
      ErrorResponse(if Contains(message, "fetch") then NETWORK_ERROR else message)
  {
  }

  /** The error message is empty only when the transport rejected with an
      `Error` (not an abort) whose message is empty, or a 2xx body failed to
      decode with an empty `SyntaxError` message. */
  lemma EmptyErrorOnlyFromEmptyThrownMessage(t: Transport)
    ensures Respond(t).error == Some([]) <==>
      (t.ErrorMsg? && t.name != "AbortError" && t.message == []) || t == Ok(SyntaxError([]))
  {
    assert !Contains([], "fetch");
  }

  /** The 401 scenario: the server's nested error message is reported as is. */
  lemma UnauthorizedScenario()
    ensures
      var body := Parsed(ErrorBody(Some(ErrorDetail(Some("invalid key"), None)), None, None));
      Respond(HttpError(401, body)) == ErrorResponse("invalid key")
  {
  }

  /** The success scenario: content padded with whitespace comes back as the
      data without its padding. */
  lemma SuccessScenario(before: string, content: string, after: string)
    requires forall i :: 0 <= i < |before| ==> IsWhitespace(before[i])
    requires forall i :: 0 <= i < |after| ==> IsWhitespace(after[i])
    requires content != [] && !IsWhitespace(content[0]) && !IsWhitespace(content[|content| - 1])
    ensures
      var data := MistralApiResponse(Some([Choice(Some(CompletionMessage(Some(before + content + after), None)))]));
      Respond(Ok(Parsed(data))) == SuccessResponse(content)
  {
    TrimPadded(before, content, after);
  }
}
