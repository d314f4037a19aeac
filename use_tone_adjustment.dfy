/**
 * The adjustment orchestrator: checks the text, calls the client once,
 * dispatches exactly one of `onSuccess`/`onError`, and tracks `isLoading`
 * and `error` around the call.
 */
module ToneAdjustment {
  import opened Wrappers
  import opened Strings
  import opened MistralApi

  const NO_TEXT_TO_ADJUST := "No text to adjust"
  const FAILED_TO_ADJUST := "Failed to adjust tone"
  const UNEXPECTED_ERROR := "An unexpected error occurred"

  /** A dispatch of one of the caller's optional callbacks (a missing
      callback makes the dispatch a no-op). */
  datatype Callback = OnSuccess(adjustedText: string, tone: string) | OnError(message: string)

  /** A call into the client, with the `isLoading` and `error` state seen at that moment. */
  datatype ServiceCall = ServiceCall(text: string, tone: string, apiKey: string, loadingAtCall: bool, errorAtCall: Option<string>)

  /** How the awaited client call settles: it resolves with a response, or it
      rejects with a thrown value. */
  datatype Settlement = Resolved(response: ApiResponse) | Rejected(thrown: Exception)

  /** What one call decides: the `error` it leaves, the callback it dispatches
      and the value it returns. */
  datatype Verdict = Verdict(error: Option<string>, callback: Callback, result: Option<string>)

  /** What a call on non-blank text decides once the client call settles as
      `s`: success needs a success status and non-empty data; otherwise the
      error is the response's message, falling back to a fixed one when that
      is empty, or the thrown `Error`'s message, or a fixed one for a thrown
      non-`Error`. */
  function Settle(tone: string, s: Settlement): (v: Verdict)
    ensures v.callback.OnSuccess? ==>
      v.error.None? && v.callback.tone == tone && v.callback.adjustedText != [] && v.result == Some(v.callback.adjustedText)
    ensures v.callback.OnError? ==> v.error == Some(v.callback.message) && v.result.None?
  {
    match s
    case Resolved(response) =>
      if response.status == Success && Truthy(response.data) then
        Verdict(None, OnSuccess(response.data.value, tone), response.data)
      else
        var message := if Truthy(response.error) then response.error.value else FAILED_TO_ADJUST;
        Verdict(Some(message), OnError(message), None)
    case Rejected(thrown) =>
      var message :=
        match thrown
        case ApiErr(e) => e.message
        case Err(_, m) => m
        case NonErrorValue => UNEXPECTED_ERROR;
      Verdict(Some(message), OnError(message), None)
  }

  /** The decision of `adjustTone(text, tone, apiKey)` when the client call
      settles as `s`, which is not consulted for blank text. */
  function Decide(text: string, tone: string, s: Settlement): (v: Verdict)
    ensures v.callback.OnSuccess? ==>
      v.error.None? && v.callback.tone == tone && v.callback.adjustedText != [] && v.result == Some(v.callback.adjustedText)
    ensures v.callback.OnError? ==> v.error == Some(v.callback.message) && v.result.None?
    ensures IsBlank(text) ==> v == Verdict(Some(NO_TEXT_TO_ADJUST), OnError(NO_TEXT_TO_ADJUST), None)
  {
    if IsBlank(text) then Verdict(Some(NO_TEXT_TO_ADJUST), OnError(NO_TEXT_TO_ADJUST), None)
    else Settle(tone, s)
  }

  /** A call succeeds exactly when the text is not blank and the client
      resolves with a success carrying non-empty data, which is returned. */
  lemma DecideSucceedsIff(text: string, tone: string, s: Settlement)
    ensures Decide(text, tone, s).result.Some? <==>
      !IsBlank(text) && s.Resolved? && s.response.status == Success && Truthy(s.response.data)
    ensures Decide(text, tone, s).result.Some? ==> Decide(text, tone, s).result == s.response.data
  {
  }

  /** A resolved failure reports the client's message, or the fallback when
      that message is absent or empty; so the reported error is never empty. */
  lemma ResolvedErrorNeverEmpty(text: string, tone: string, response: ApiResponse)
    requires !IsBlank(text)
    requires !(response.status == Success && Truthy(response.data))
    ensures Decide(text, tone, Resolved(response)).error ==
      Some(if Truthy(response.error) then response.error.value else FAILED_TO_ADJUST)
    ensures Decide(text, tone, Resolved(response)).error.value != []
  {
  }

  /** A rejection reports the `Error`'s message, or a fixed message for a
      non-`Error` value. */
  lemma RejectionReportsMessage(text: string, tone: string, thrown: Exception)
    requires !IsBlank(text)
    ensures Decide(text, tone, Rejected(thrown)).error ==
      Some(if thrown.NonErrorValue? then UNEXPECTED_ERROR else if thrown.ApiErr? then thrown.apiError.message else thrown.message)
  {
  }

  /** The verdict when the client of this application is awaited on `t`
      (that client never rejects). */
  function WithClient(text: string, tone: string, apiKey: string, defaultModel: string, t: Transport): Verdict
  {
    Decide(text, tone, Resolved(AdjustTone(TextAdjustmentRequest(text, tone, None), apiKey, defaultModel, t).response))
  }

  /** Blank text is caught here, before the client's own key and text checks. */
  lemma HookTextCheckComesFirst(text: string, tone: string, apiKey: string, defaultModel: string, t: Transport)
    requires IsBlank(text)
    ensures WithClient(text, tone, apiKey, defaultModel, t).error == Some(NO_TEXT_TO_ADJUST)
  {
  }

  /** Non-blank text with a blank key is reported with the client's message,
      and no request is sent. */
  lemma BlankKeyReported(text: string, tone: string, apiKey: string, defaultModel: string, t: Transport)
    requires !IsBlank(text) && IsBlank(apiKey)
    ensures AdjustTone(TextAdjustmentRequest(text, tone, None), apiKey, defaultModel, t).sent.None?
    ensures WithClient(text, tone, apiKey, defaultModel, t).error == Some(Constants.NO_API_KEY)
  {
  }

  /** A success through the client carries the first choice's content, trimmed
      and non-empty; whitespace-only content becomes the fallback failure. */
  lemma SuccessCarriesContent(text: string, tone: string, apiKey: string, defaultModel: string, t: Transport)
    requires !IsBlank(text) && !IsBlank(apiKey) && t.Ok? && t.body.Parsed?
    requires Truthy(FirstChoiceContent(t.body.value))
    ensures var c := Trim(FirstChoiceContent(t.body.value).value);
      WithClient(text, tone, apiKey, defaultModel, t).result == (if c == [] then None else Some(c))
    ensures var c := Trim(FirstChoiceContent(t.body.value).value);
      c == [] ==> WithClient(text, tone, apiKey, defaultModel, t).error == Some(FAILED_TO_ADJUST)
  {
    SuccessOnlyFromContent(t);
  }

  /** Through the client, a reported error is never empty. */
  lemma ClientErrorNeverEmpty(text: string, tone: string, apiKey: string, defaultModel: string, t: Transport)
    ensures WithClient(text, tone, apiKey, defaultModel, t).error.Some? ==>
      WithClient(text, tone, apiKey, defaultModel, t).error.value != []
  {
  }

  /** The hook's state and what it has done, observably: the calls it made
      into the client and the callbacks it dispatched. */
  class ToneAdjuster {
    var isLoading: bool
    var error: Option<string>
    var serviceCalls: seq<ServiceCall>
    var callbacks: seq<Callback>

    constructor ()
      ensures !isLoading && error.None? && serviceCalls == [] && callbacks == []
    {
      isLoading := false;
      error := None;
      serviceCalls := [];
      callbacks := [];
    }

    /** `adjustTone(text, tone, apiKey)`, where the client call settles as `s`.
        Blank text is reported without touching `isLoading` or calling the
        client; otherwise the client is called once, with `isLoading` set and
        `error` cleared, and `isLoading` is false again at the end. Every call
        dispatches exactly one callback. */
    method AdjustTone(text: string, tone: string, apiKey: string, s: Settlement) returns (result: Option<string>)
      modifies this
      ensures IsBlank(text) ==>
        && result.None? && error == Some(NO_TEXT_TO_ADJUST)
        && callbacks == old(callbacks) + [OnError(NO_TEXT_TO_ADJUST)]
        && isLoading == old(isLoading) && serviceCalls == old(serviceCalls)
      ensures !IsBlank(text) ==>
        && result == Settle(tone, s).result && error == Settle(tone, s).error
        && callbacks == old(callbacks) + [Settle(tone, s).callback]
        && !isLoading && serviceCalls == old(serviceCalls) + [ServiceCall(text, tone, apiKey, true, None)]
    {
      if IsBlank(text) {
        var message := NO_TEXT_TO_ADJUST;
        error := Some(message);
        callbacks := callbacks + [OnError(message)];
        return None;
      }

      isLoading := true;
      error := None;
      serviceCalls := serviceCalls + [ServiceCall(text, tone, apiKey, isLoading, error)];

      match s {
        case Resolved(response) =>
          if response.status == Success && Truthy(response.data) {
            callbacks := callbacks + [OnSuccess(response.data.value, tone)];
            result := response.data;
          } else {
            var message := if Truthy(response.error) then response.error.value else FAILED_TO_ADJUST;
            error := Some(message);
            callbacks := callbacks + [OnError(message)];
            result := None;
          }
        case Rejected(thrown) =>
          var message :=
            match thrown
            case ApiErr(e) => e.message
            case Err(_, m) => m
            case NonErrorValue => UNEXPECTED_ERROR;
          error := Some(message);
          callbacks := callbacks + [OnError(message)];
          result := None;
      }
      isLoading := false;
    }

    /** `clearError()`: clears the error and nothing else. */
    method ClearError()
      modifies this`error
      ensures error.None?
    {
      error := None;
    }
  }
}
