# Tone-Crafter core, modelled in Dafny

Tone-Crafter rewrites a piece of text in one of nine tones by sending it to
the Mistral chat-completions endpoint. This project models the logic around
that one call:

- **MistralApi** (`mistral_api.dfy`): the client `adjustTone`. It checks the
  key and then the text, builds the request (model, system prompt plus user
  message, fixed generation constants), and turns every transport outcome
  into exactly one settled `ApiResponse`. The network call, the JSON
  decoding and the abort timer are replaced by a `Transport` value saying
  what they delivered: a decoded or undecodable 2xx body, an HTTP error with
  its body, an abort, a rejected `fetch` with an `Error`, or a thrown
  non-`Error` value.
- **ToneAdjustment** (`use_tone_adjustment.dfy`): the `useToneAdjustment`
  hook as a class with the `isLoading` and `error` fields. `AdjustTone`
  takes the settlement of the awaited client call as a parameter. It logs
  the client calls it makes and the callbacks it dispatches, so that "no
  call for blank text" and "exactly one callback" are stated about its
  state. The pure `Decide` states what each call decides.
- **AppState** (`use_app_state.dfy`) and **ApiKey** (`use_api_key.dfy`): the
  state hooks as classes. **Storage** (`storage.dfy`) models
  `localStorage` as a class over a `map<string, string>`.
- **Validations** (`validations.dfy`): key format, minimum text length,
  control-character stripping, truncation with an ellipsis, and tone-name
  title-casing.
- **Constants** (`constants.dfy`): the 3x3 tone catalog, defaults, storage
  keys and messages.
- **Strings** (`strings.dfy`): the JavaScript string operations these rely
  on. These are `trim` (with the exact WhiteSpace and LineTerminator code
  points), `includes`, `substring`, ASCII case mapping, and `split` on
  `/\s+/` and `/[-_\s]+/`.

The build-time configuration read by `src/lib/env.ts` (the default key and
the default model) is passed in as parameters. `src/lib/env.ts` is not part
of this model.

The model follows the code in these places:

- A 2xx body that is not JSON is reported with the decoder's `SyntaxError`
  message, or as the network error when that message mentions "fetch", not
  as an invalid response.
- A rejected `fetch` whose message does not mention "fetch" is reported
  with that message, not as a network error.
- Overlapping `adjustTone` calls are not rejected or queued.
- A first choice whose content is whitespace only is a client success with
  empty data. The hook reports it as "Failed to adjust tone".

## Model

| member | source | states |
|---|---|---|
| Strings.Trim | src/lib/validations.ts:13 | `trim` drops exactly the leading and trailing whitespace: the result neither starts nor ends with whitespace, and it is empty exactly when the input is all whitespace |
| Strings.TrimPadded | src/services/mistralApi.ts:126 | `trim` removes exactly the whitespace padding around a string that neither starts nor ends with whitespace |
| Strings.BlankIffTrimsToEmpty | src/services/mistralApi.ts:33 | `!s.trim()` holds exactly when `s` is all whitespace |
| Strings.TrimIdempotent | src/hooks/useApiKey.ts:31 | trimming an already trimmed key changes nothing |
| Strings.Split | src/lib/validations.ts:33 | `split` on a `[class]+` pattern always gives at least one part; no part holds a separator; middle parts are non-empty; the first part is non-empty when the input starts with a non-separator |
| Strings.SeparatorRuns | src/lib/validations.ts:33 | the separator runs `split` removes are one fewer than the parts |
| Strings.SeparatorRunsAreRuns | src/lib/validations.ts:33 | each run `split` removes is a non-empty run of separators |
| Strings.SplitRejoins | src/lib/validations.ts:33 | `split` loses nothing: the parts glued back with the removed separator runs give back the input |
| Strings.Substring | src/lib/validations.ts:57 | `substring` never returns more than the string, and with bounds `0 <= start <= end <= length` it is exactly that slice |
| Strings.SubstringSwapsAndClamps | src/lib/validations.ts:57 | `substring` with reversed bounds equals it with the bounds swapped; a negative bound acts as 0 and a bound past the end as the length |
| Strings.LowerAll | src/lib/validations.ts:68 | `toLowerCase` maps every character and keeps the length |
| Strings.ToLower | src/lib/validations.ts:68 | `toLowerCase` of one character changes it exactly when it is an upper-case ASCII letter, giving the letter 32 code points higher; every other character is kept |
| Strings.ToUpper | src/lib/validations.ts:68 | `toUpperCase` of one character changes it exactly when it is a lower-case ASCII letter, giving the letter 32 code points lower; every other character is kept |
| Strings.ContainsHasWitness | src/services/mistralApi.ts:163 | `includes` is true only at an actual occurrence of the substring |
| Constants.ToneMatrixShape | src/constants/index.ts:26-45 | the catalog is 3 rows of 3 entries, `ALL_TONES` has 9 entries, and row i, column j sits at index 3i+j of the row-major flattening |
| Constants.AllTonesRows | src/constants/index.ts:45 | `ALL_TONES` is the three rows concatenated in order |
| Constants.ToneIdsDistinct | src/constants/index.ts:26-42 | the nine tone ids are pairwise distinct |
| Constants.TonePositionsDistinct | src/constants/index.ts:26-42 | the nine screen positions are pairwise distinct |
| Constants.DefaultToneInCatalog | src/constants/index.ts:21-34 | the default tone "casual" is a catalog id, at row 1, column 1, position "middle-center", index 4 of `ALL_TONES` |
| Constants.ErrorMessagesDistinct | src/constants/index.ts:48-55 | the six error messages are non-empty and pairwise distinct |
| Constants.ToneAdjusted | src/constants/index.ts:59 | the success message is "Text has been adjusted to " then the tone then " tone.", 32 characters longer than the tone |
| Constants.ToneAdjustedInjective | src/constants/index.ts:59 | different tones give different success messages |
| Validations.KeyPatternIff | src/lib/validations.ts:19-20 | `/^[a-zA-Z0-9_-]+$/` matches exactly the non-empty strings of key characters |
| Validations.IsValidApiKey | src/lib/validations.ts:8-21 | a key is valid exactly when its trimmed form has at least 10 characters, all letters, digits, '_' or '-' |
| Validations.ValidApiKeyTrimmed | src/lib/validations.ts:13-20 | validity does not change under trimming, and a valid key is never blank |
| Validations.IsValidTextForToneAdjustment | src/lib/validations.ts:26-34 | text is suitable exactly when its trimmed length is at least 5; the word-count test always passes |
| Validations.ValidTextNotBlank | src/lib/validations.ts:26-34 | suitable text is not blank, so both blank-text checks let it through |
| Validations.StripControls | src/lib/validations.ts:46 | the stripped string contains none of 0x00-0x08, 0x0B, 0x0C, 0x0E-0x1F, 0x7F and is no longer than the input |
| Validations.SanitizeText | src/lib/validations.ts:39-47 | the sanitized text contains no stripped control character and is no longer than the input; the empty text gives the empty text |
| Validations.SanitizeConcat | src/lib/validations.ts:46 | sanitizing distributes over concatenation: each character is kept or deleted on its own |
| Validations.SanitizeKeepsOtherCharacters | src/lib/validations.ts:44-46 | every character other than the stripped controls keeps its number of occurrences; tab, LF and CR are among those kept |
| Validations.SanitizeFixedPoint | src/lib/validations.ts:46 | a text is unchanged by sanitizing exactly when it holds no stripped control character |
| Validations.SanitizeIdempotent | src/lib/validations.ts:39-47 | sanitizing twice is the same as sanitizing once |
| Validations.TruncateText | src/lib/validations.ts:52-58 | empty or short-enough text is returned unchanged; longer text becomes its first `maxLength - 3` characters plus "...", exactly `maxLength` long, or just "..." when `maxLength < 3` |
| Validations.TruncateIdempotent | src/lib/validations.ts:52-58 | truncating a truncated text with the same limit changes nothing |
| Validations.Capitalize | src/lib/validations.ts:68 | capitalizing a word keeps its length |
| Validations.TitleCase | src/lib/validations.ts:63-70 | the character-level reference for tone names: empty exactly for empty input; a leading separator run becomes one space; no '-' or '_' and no whitespace except ' '; no two adjacent spaces; each word starts upper-cased and continues lower-cased |
| Validations.SplitCapitalizeJoin | src/lib/validations.ts:66-69 | the `split`/`map`/`join(' ')` chain equals the character-level reference `TitleCase` |
| Validations.FormatToneName | src/lib/validations.ts:63-70 | `formatToneName` equals the character-level title-casing reference `TitleCase` (through `SplitCapitalizeJoin`) |
| Validations.FormatToneNameIsTitleCase | src/lib/validations.ts:63-70 | `formatToneName` is the title-casing reference, and it is empty exactly for the empty tone |
| Validations.TitleCaseIdempotent | src/lib/validations.ts:66-69 | title-casing a title-cased string changes nothing |
| Validations.FormatToneNameIdempotent | src/lib/validations.ts:63-70 | formatting a formatted tone name changes nothing |
| Validations.TitleCaseCollapsesSeparators | src/lib/validations.ts:66-69 | up to letter case, formatting replaces every run of '-', '_' or whitespace by one space and keeps everything else |
| MistralApi.BuildSystemPrompt | src/services/mistralApi.ts:109-114 | the prompt is the fixed introduction, the tone in double quotes, and the fixed instructions |
| MistralApi.SystemPromptQuotesTone | src/services/mistralApi.ts:109-114 | the prompt contains the tone verbatim between double quotes |
| MistralApi.SystemPromptInjective | src/services/mistralApi.ts:109-114 | different tones give different prompts |
| MistralApi.ChooseModel | src/services/mistralApi.ts:90 | the request's model is used when present and non-empty, otherwise the default model |
| MistralApi.BuildRequestBody | src/services/mistralApi.ts:88-103 | exactly two messages: the system prompt for the tone, then the user's text unchanged; temperature 0.7 and 1000 max tokens |
| MistralApi.FirstChoiceContent | src/services/mistralApi.ts:120 | `data.choices?.[0]?.message?.content`; its meaning is carried by `ExtractTextFromResponse` and `SuccessOnlyFromContent`, which make success depend on it being truthy |
| MistralApi.ExtractTextFromResponse | src/services/mistralApi.ts:119-127 | returns exactly when the first choice has non-empty content, and then returns that content trimmed; otherwise throws an `ApiError` with the invalid-response message |
| MistralApi.ParseErrorResponse | src/services/mistralApi.ts:132-141 | the message is the nested `error.message`, else the top-level `message`, else the generic failure; an undecodable body gives the generic failure; the message is never empty |
| MistralApi.HandleError | src/services/mistralApi.ts:147-180 | always an error response; an `ApiError` keeps its message, then an abort is a timeout, then a message mentioning "fetch" is a network error, then any other `Error` keeps its message, then a non-`Error` is the generic failure |
| MistralApi.Attempt | src/services/mistralApi.ts:47-79 | the `try` block returns only from a decoded 2xx body; an HTTP error always throws an `ApiError` with a non-empty message |
| MistralApi.Respond | src/services/mistralApi.ts:47-83 | every transport outcome gives a settled response: success with data and no error, or error with a message and no data |
| MistralApi.AdjustTone | src/services/mistralApi.ts:29-83 | the response is always settled; a blank key gives the missing-key error before the text is looked at; then blank text gives the missing-text error; a request is sent exactly when neither is blank, to the fixed endpoint with the bearer key and the built body, and the outcome is then classified |
| MistralApi.SuccessOnlyFromContent | src/services/mistralApi.ts:72-78 | success happens exactly when a decoded 2xx body has non-empty first-choice content, and carries that content trimmed |
| MistralApi.MissingContentIsInvalid | src/services/mistralApi.ts:119-124 | a 2xx body without usable content gives the invalid-response error |
| MistralApi.HttpErrorReportsServerMessage | src/services/mistralApi.ts:63-70 | a non-OK status reports the parsed server message, which is never empty |
| MistralApi.AbortIsTimeout | src/services/mistralApi.ts:156-161 | an abort, or any `Error` named "AbortError", gives the timeout error |
| MistralApi.UndecodableBodyClassified | src/services/mistralApi.ts:72-81 | a 2xx body that is not JSON reports the decoder's message, or the network error when that message mentions "fetch"; it is not classified as an invalid response |
| MistralApi.FetchRejectionClassified | src/services/mistralApi.ts:147-180 | for every rejection of `fetch` that is not an abort: an `Error` whose message mentions "fetch" gives the network error, any other `Error` its own message, and a non-`Error` value the generic failure |
| MistralApi.FailedFetchIsNetworkError | src/services/mistralApi.ts:163-168 | the browser's "Failed to fetch" rejection gives the network error |
| MistralApi.EmptyErrorOnlyFromEmptyThrownMessage | src/services/mistralApi.ts:170-173 | the error message is empty exactly when a non-abort `Error` with an empty message was thrown, or a 2xx body failed to decode with an empty message |
| MistralApi.UnauthorizedScenario | src/services/mistralApi.ts:63-70 | a 401 with a nested server message reports that message |
| MistralApi.SuccessScenario | src/services/mistralApi.ts:72-78 | a 2xx body whose content is whitespace, then text, then whitespace returns the text without that padding |
| ToneAdjustment.Settle | src/hooks/useToneAdjustment.ts:47-80 | for non-blank text, a success callback carries non-empty data and the requested tone, leaves no error and returns the data; an error callback carries the error it sets and returns nothing |
| ToneAdjustment.Decide | src/hooks/useToneAdjustment.ts:32-80 | blank text gives "No text to adjust"; a success callback carries non-empty data and the requested tone, leaves no error and returns the data; an error callback carries the error it sets and returns nothing |
| ToneAdjustment.DecideSucceedsIff | src/hooks/useToneAdjustment.ts:53-59 | a call returns data exactly when the text is not blank and the client resolves with a success carrying non-empty data, and then returns that data |
| ToneAdjustment.ResolvedErrorNeverEmpty | src/hooks/useToneAdjustment.ts:60-70 | an error response, or a success without data, reports the response's error or else "Failed to adjust tone", never an empty message |
| ToneAdjustment.RejectionReportsMessage | src/hooks/useToneAdjustment.ts:71-80 | a thrown `Error` reports its message; a thrown non-`Error` reports "An unexpected error occurred" |
| ToneAdjustment.HookTextCheckComesFirst | src/hooks/useToneAdjustment.ts:32-42 | with the real client, blank text is reported by the hook before the client's own checks |
| ToneAdjustment.BlankKeyReported | src/hooks/useToneAdjustment.ts:48-70 | with the real client, non-blank text and a blank key send nothing and report the missing-key message |
| ToneAdjustment.SuccessCarriesContent | src/hooks/useToneAdjustment.ts:53-70 | with the real client, the returned text is the first choice's content trimmed; whitespace-only content becomes "Failed to adjust tone" |
| ToneAdjustment.ClientErrorNeverEmpty | src/hooks/useToneAdjustment.ts:60-70 | with the real client, a reported error is never empty |
| ToneAdjustment.ToneAdjuster.constructor | src/hooks/useToneAdjustment.ts:23-24 | not loading, no error, nothing called or dispatched yet |
| ToneAdjustment.ToneAdjuster.AdjustTone | src/hooks/useToneAdjustment.ts:27-84 | blank text sets "No text to adjust", dispatches `onError`, returns null, leaves `isLoading` alone and calls nothing; otherwise the client is called once with `isLoading` set and `error` cleared, the result, error and single callback are `Settle`'s, and `isLoading` is false at the end |
| ToneAdjustment.ToneAdjuster.ClearError | src/hooks/useToneAdjustment.ts:86-88 | the error becomes null and nothing else changes |
| Storage.Lookup | src/hooks/useAppState.ts:57 | `getItem` finds a value exactly when the key is stored, and returns that value |
| Storage.LocalStorage.SetItem | src/hooks/useAppState.ts:63 | `setItem` stores the value under the key and leaves the other keys alone |
| Storage.LocalStorage.RemoveItem | src/hooks/useApiKey.ts:37 | `removeItem` drops the key and leaves the other keys alone |
| AppState.TextState.constructor | src/hooks/useAppState.ts:16-18 | original and current text both start as the initial text, so there are no changes |
| AppState.TextState.SetOriginalText | src/hooks/useAppState.ts:20-23 | sets both texts, so there are no changes |
| AppState.TextState.HasChanges | src/hooks/useAppState.ts:33 | `originalText !== currentText`; its meaning is carried by the constructor, `SetOriginalText`, `SetCurrentText` and `ResetText`, which say when there are changes |
| AppState.TextState.SetCurrentText | src/hooks/useAppState.ts:25-27 | sets only the current text; there are changes exactly when it differs from the original |
| AppState.TextState.ResetText | src/hooks/useAppState.ts:29-33 | the current text becomes the original, so there are no changes; with no changes beforehand it changes nothing |
| AppState.InitialTone | src/hooks/useAppState.ts:55-59 | the stored tone when present and non-empty, otherwise the initial tone |
| AppState.FirstVisitStartsCasual | src/hooks/useAppState.ts:54-59 | with the default argument `DEFAULTS.TONE` and no stored tone, the selection starts at "casual", a catalog tone |
| AppState.ReloadRestoresTone | src/hooks/useAppState.ts:55-64 | after a tone is stored, a reload starts from it, unless it was empty |
| AppState.ReloadAfterResetIsDefault | src/hooks/useAppState.ts:55-69 | after a reset, a reload starts from "casual" whatever its initial-tone argument |
| AppState.ToneState.constructor | src/hooks/useAppState.ts:54-59 | the selected tone is the initial load from the store |
| AppState.ToneState.SetSelectedTone | src/hooks/useAppState.ts:61-64 | the tone is selected and stored under `last_selected_tone`, nothing else stored changes |
| AppState.ToneState.ResetTone | src/hooks/useAppState.ts:66-69 | "casual" is selected and stored, whatever the initial tone was |
| ApiKey.LoadedApiKey | src/hooks/useApiKey.ts:18-28 | a non-empty default key wins, then a non-empty saved key, otherwise the key is unchanged |
| ApiKey.StoreAfterSet | src/hooks/useApiKey.ts:30-39 | a non-blank key is stored trimmed under `mistral_api_key`; a blank one removes that entry |
| ApiKey.SetThenReload | src/hooks/useApiKey.ts:18-39 | after `setApiKey(k)`, a reload with no default key gives trim(k) back, and trim(k) is blank exactly when k is |
| ApiKey.SetThenReloadExample | src/hooks/useApiKey.ts:18-39 | setting "abc123" and reloading gives "abc123" |
| ApiKey.ApiKeyState.constructor | src/hooks/useApiKey.ts:16 | the key starts empty, so there is no key |
| ApiKey.ApiKeyState.Load | src/hooks/useApiKey.ts:18-28 | the key becomes `LoadedApiKey` of the default, the stored entry and the current key; storage is not written |
| ApiKey.ApiKeyState.HasApiKey | src/hooks/useApiKey.ts:46 | `Boolean(apiKey.trim())`; its meaning is carried by the constructor, `SetApiKey` and `ClearApiKey`, which say when there is a key |
| ApiKey.ApiKeyState.SetApiKey | src/hooks/useApiKey.ts:30-39 | the key becomes its trimmed form and storage becomes `StoreAfterSet`; there is a key exactly when the argument is not blank |
| ApiKey.ApiKeyState.ClearApiKey | src/hooks/useApiKey.ts:41-44 | the key becomes empty and its storage entry is removed |

## Left out

- `fetch`, the request headers other than the bearer key, the JSON encoding
  of the request, `AbortController` and the 30-second timer are not
  performed. Their outcome is the `Transport` argument.
- `response.json()` is not performed either. A decoded body is a datatype
  with optional string fields, and an undecodable body is `SyntaxError`.
  JSON fields of other types are not modelled: a non-string `content` or
  `message`, a `choices` that is not an array, or a 2xx body that decodes to
  a non-object.
- `TEMPERATURE` is kept as the real 0.7; it is not a JavaScript double.
- The build-time configuration in `src/lib/env.ts` is passed in as
  parameters: the default key to `Load`, the default model to `AdjustTone`.
- Toast notifications are left out. So are React re-rendering, state
  batching, stale closures and the interleaving of overlapping `adjustTone`
  calls, which is concurrency.
- Storage.LocalStorage: `getItem`, `setItem` and `removeItem` are taken to
  succeed. In a browser they can throw (a `SecurityError` when site storage
  is blocked, a `QuotaExceededError` from `setItem`), and no caller catches
  that: `setSelectedTone`, `resetTone`, `setApiKey` and `clearApiKey` have
  already set their React state, the store stays unchanged and the
  exception reaches the caller; a throwing `getItem` makes the tone's
  initialiser or the key's mount effect throw. None of this is modelled.
- ToneAdjustment.ToneAdjuster.AdjustTone: an absent `onSuccess` or `onError`
  option is recorded as a dispatch all the same; calling it is a no-op.
- ToneAdjustment.ToneAdjuster.AdjustTone: the callbacks and `toast` are taken
  to return normally, so exactly one callback is dispatched per call. In the
  code, an `onSuccess` or success `toast` that throws lands in the `catch`
  block: `error` is set to the thrown `Error`'s message, or to "An
  unexpected error occurred" for any other thrown value; `onError` is called
  as well, and `null` is returned. An `onError` or error `toast` that throws in the
  failure branch makes the `catch` call `onError` a second time. An `onError`
  that throws inside the `catch` rejects the returned promise. None of these
  outcomes is modelled.
- Strings.ToUpper, Strings.ToLower: ASCII case mapping only; JavaScript's
  Unicode case mapping is not modelled.
- Validations.IsValidTextForToneAdjustment: lengths count Unicode code
  points, not JavaScript's UTF-16 code units. The result differs only for
  text holding characters above U+FFFF, which JavaScript counts twice.
- Validations.TruncateText: lengths and cut positions count Unicode code
  points, not UTF-16 code units. The result differs only for text holding
  characters above U+FFFF; JavaScript can also cut such a character in half.
- Strings.Substring: indices count Unicode code points, not UTF-16 code
  units, for the same reason.
- Validations.TruncateText: `maxLength` is an integer. A NaN, infinite or
  fractional `maxLength` is not modelled.
- The `typeof … !== 'string'` guards in `src/lib/validations.ts` cannot fail
  on a `string` argument, so they are not modelled.
- `debounce`, `delay`, `safeJsonParse`, `getRandomItem`, `isDevelopment` and
  `formatTimestamp` in `src/lib/validations.ts` are left out. They are
  timers, foreign parsing, randomness, the environment and locale
  formatting, and none is used by the modelled core.
- The React components and the page are left out.
- The `AppState` and `AppAction` declarations in `src/types/index.ts` are
  left out; no reducer uses them. The `user_preferences` storage key is
  declared but never used.
- The hooks' default arguments are passed explicitly: `DEFAULT_TEXT` is the
  argument the page gives `TextState`, and `DEFAULT_TONE` the one it gives
  `ToneState`. `REQUEST_TIMEOUT_MS` belongs to the timer, which is not
  modelled. `DEFAULT_MODEL` is declared only: the model
  actually used is the build-time parameter. `API_KEY_SAVED` and
  `TEXT_RESET` are referenced nowhere; `src/components/TextEditor.tsx:47`
  repeats `TEXT_RESET`'s wording as a literal.
