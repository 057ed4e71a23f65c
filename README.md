# BarbraAI command core in Dafny

BarbraAI is a voice and text assistant. It recognises a fixed set of commands by keyword, runs
them against device and browser capabilities, and sends any other text to an AI backend. The backend
is one of three, chosen in the settings: offline canned replies, a cloud chat-completion API or a
local inference server. The user's settings persist in a key-value store. A carousel of suggestion
cards feeds commands into the same submit path.

This project models:

- the command processor: the command table, keyword detection, execution of a matched command
  as the list of capability calls it issues, and the three backends. Each backend maps a network
  outcome to a reply message and builds its HTTP request as a value.
- the settings hook: the defaults, the load-and-merge from the store, and the patch-and-store update.
  The store is a field of the hook.
- the carousel: its current index, the arrows, dots and timer tick, and which card is shown.
- the app component: the submit handler with its guard, history append, processing flag and error
  fallback, and the effect that copies the settings into the processor.

## Modules

| file | module | models |
|---|---|---|
| types.dfy | `Types` | `Option`, the `AIResponse` record, JavaScript truthiness of an optional string, `Math.random()` draws |
| text.dfy | `Text` | `toLowerCase`, `trim` (ECMAScript whitespace and line terminators) and `includes` |
| intents.dfy | `Intents` | `COMMANDS` and `detectKeyword` |
| uri.dfy | `UriEncoding` | `encodeURIComponent` (UTF-8 percent-encoding) |
| actions.dfy | `Actions` | `executeAction` as a list of capability calls |
| backends.dfy | `Backends` | `processOfflineAI`, `processCloudAI`, `processLocalAI` |
| processor.dfy | `Processor` | the `CommandProcessor` class and `processCommand` |
| settings.dfy | `Settings` | `useSettings` |
| carousel.dfy | `CarouselModel` | `Carousel` |
| app.dfy | `AppModel` | `App` |

Inputs from the outside world are parameters:

- Which capability calls succeed is a `Capabilities` value.
- The `Math.random()` draw is a real in `[0, 1)`.
- Each `fetch` plus `response.json()` is an `HttpOutcome`.
- The store read and write succeed or fail according to a boolean.
- The ids and timestamps taken from `Date.now()` are `Stamp` values.

Behaviours of the code that a reader might not expect, all modelled as written:

- `search-youtube` is unreachable. The `open-youtube` entry comes earlier in the table, and its
  trigger "youtube" occurs inside both triggers of `search-youtube`
  (`Intents.SearchYoutubeNeverMatched`). The carousel's "YouTube Search" card sends
  "Search YouTube for cats", and that opens YouTube itself rather than a search
  (`AppModel.SearchCardOpensYouTube`).
- `processCommand` passes no parameters to `executeAction`. If the search action ever ran, it would
  search for "trending".
- The haptic pulse is awaited inside the same `try` as the action. If the pulse fails, the action
  is skipped and the error toast is shown.
- The error toast in the `catch` block is itself awaited and can reject. When it does,
  `executeAction` and hence `processCommand` reject, and the app shows its apology
  (`Processor.RejectionNeedsToastFailure`).

## Model

| member | source | states |
|---|---|---|
| Text.Lower | src/services/commandProcessor.ts:62 | `toLowerCase`, character by character; its properties are stated by `Text.LowerConcat`, `Text.LowerIdempotent` and `Text.TrimLower` |
| Text.Trim | src/services/commandProcessor.ts:62 | `trim`, as leading then trailing whitespace removed; characterised by `Text.TrimStart`, `Text.TrimEnd`, `Text.TrimPadded` and `Text.TrimEmpty` |
| Text.Normalize | src/services/commandProcessor.ts:62 | `toLowerCase().trim()`; its properties are stated by `Text.NormalizePadded`, `Text.NormalizeLower` and `Text.NormalizeIsTrimmedLower` |
| Text.Includes | src/services/commandProcessor.ts:90 | `includes`: the phrase occurs at some position; `Text.IncludesTransitive` relates occurrences |
| Text.LowerConcat | src/services/commandProcessor.ts:62 | lower-casing a concatenation lower-cases each part |
| Text.TrimStart | src/services/commandProcessor.ts:62 | the result is a suffix of the input, what it drops is whitespace, and it does not start with whitespace |
| Text.TrimEnd | src/services/commandProcessor.ts:62 | the result is a prefix of the input, what it drops is whitespace, and it does not end with whitespace |
| Text.LowerIdempotent | src/services/commandProcessor.ts:62 | lower-casing twice is lower-casing once |
| Text.TrimLower | src/services/commandProcessor.ts:62 | trimming and lower-casing commute |
| Text.TrimPadded | src/services/commandProcessor.ts:62 | whitespace added around a text does not change its trimmed form |
| Text.NormalizePadded | src/services/commandProcessor.ts:62 | whitespace around the raw input does not change its normalised form |
| Text.NormalizeLower | src/services/commandProcessor.ts:62 | the letter case of the raw input does not change its normalised form |
| Text.NormalizeIsTrimmedLower | src/services/commandProcessor.ts:62 | normalised text is already lower-case and trimmed |
| Text.IncludesTransitive | src/services/commandProcessor.ts:90 | if s contains t and t contains u, then s contains u |
| Text.TrimEmpty | src/App.tsx:41 | a text trims to empty exactly when it is all whitespace |
| Intents.Hits | src/services/commandProcessor.ts:89-90 | some trigger of the command occurs in the input; the inner loop of `Intents.DetectKeyword` computes it |
| Intents.FirstMatch | src/services/commandProcessor.ts:87-96 | the command at the first hit index; `Intents.DetectKeyword` is proved equal to it |
| Intents.MatchIndex | src/services/commandProcessor.ts:87-96 | the first table entry with a trigger in the input: it is hit, no earlier entry is hit, and there is none exactly when no entry is hit |
| Intents.HitIsMatched | src/services/commandProcessor.ts:87-96 | as soon as any entry of the table is hit, some entry of the table is selected |
| Intents.MatchIndexUnique | src/services/commandProcessor.ts:87-96 | an entry that is hit, with no hit before it, is the one selected |
| Intents.DetectKeyword | src/services/commandProcessor.ts:87-96 | the nested loop returns the first matching command of the table, and null exactly when no trigger occurs |
| Intents.SearchYoutubeNeverMatched | src/services/commandProcessor.ts:15-28 | `search-youtube` is never selected, for any input |
| Intents.WhatsappWins | src/services/commandProcessor.ts:7-14 | any input containing "whatsapp" selects `open-whatsapp` |
| Intents.TableWellFormed | src/services/commandProcessor.ts:7-50 | the table's ids are distinct and no trigger is empty |
| Intents.OnlySearchCommandSearches | src/services/commandProcessor.ts:7-50 | only the `search-youtube` entry carries the `search_youtube` action |
| Intents.OpenWhatsAppNowMatches | src/services/commandProcessor.ts:61-66 | "Open WhatsApp now" normalises to a text that selects `open-whatsapp` |
| Intents.SearchPhraseOpensYouTube | src/services/commandProcessor.ts:61-66 | "search youtube for lofi beats" selects `open-youtube` |
| Intents.SearchCatsOpensYouTube | src/services/commandProcessor.ts:61-66 | "Search YouTube for cats" selects `open-youtube` |
| Intents.SearchHitIsYoutubeHit | src/services/commandProcessor.ts:15-28 | any input that hits `search-youtube` also hits `open-youtube` |
| Intents.HelloThereMisses | src/services/commandProcessor.ts:61-66 | "hello there" selects no command |
| UriEncoding.Utf8 | src/services/commandProcessor.ts:113 | a code point takes 1 to 4 bytes, one byte exactly for ASCII, and every later byte is a continuation byte |
| UriEncoding.EncodeURIComponent | src/services/commandProcessor.ts:113 | every output character is unreserved or '%', and the output is never shorter than the input |
| UriEncoding.EncodeUnreserved | src/services/commandProcessor.ts:113 | text made of unreserved characters is encoded as itself |
| Actions.SearchQuery | src/services/commandProcessor.ts:112 | a non-empty query is searched for as given; the query is "trending" exactly when the given one is missing, empty or "trending" |
| Actions.Dispatch | src/services/commandProcessor.ts:102-131 | the switch makes at most one call, none exactly for `open_app` with an id other than WhatsApp's or YouTube's, and never the haptic pulse or the error toast |
| Actions.ExecuteAction | src/services/commandProcessor.ts:98-136 | the pulse comes first. Without a failure, the switch's call follows and the promise resolves. A failed pulse skips the switch: the calls are the pulse and the error toast. A failed call is followed by the error toast. On any failure the error toast is shown exactly once, last, and the promise rejects exactly when that toast fails |
| Actions.OpenAppTargets | src/services/commandProcessor.ts:103-109 | case statement: `open_app` opens WhatsApp Web or YouTube by command id, and nothing for any other id |
| Actions.SearchDefaultsToTrending | src/services/commandProcessor.ts:111-114 | with no query, the search opens the results page for "trending" |
| Actions.DeviceActionsAreSimulated | src/services/commandProcessor.ts:116-127 | the flashlight and brightness actions only show a "(simulated)" toast |
| Actions.UnknownActionToast | src/services/commandProcessor.ts:129-130 | case statement: any other action shows "Unknown command" |
| Backends.OfflineReply | src/services/commandProcessor.ts:138-152 | the offline reply is one of the three canned replies |
| Backends.OfflineReplyCovers | src/services/commandProcessor.ts:148 | each canned reply is drawn for some random value |
| Backends.CloudRequest | src/services/commandProcessor.ts:166-186 | the request sends a system prompt, then the raw input as the user message, with the bearer credential and 150 max tokens |
| Backends.LocalRequest | src/services/commandProcessor.ts:212-222 | the request's prompt is the fixed prefix followed by the raw input, and it does not stream |
| Backends.RequestsCarryInput | src/services/commandProcessor.ts:166-222 | the raw input can be read back out of either request |
| Backends.ProcessCloud | src/services/commandProcessor.ts:154-207 | there is no request exactly when the key is missing or empty, and then the reply asks for a key. Otherwise the request is built; a failed transport or a non-ok status gives the connection apology, and in every keyed case the reply is `Backends.CloudMessage` of the outcome |
| Backends.ProcessLocal | src/services/commandProcessor.ts:209-243 | the request is always built; a failed transport or a non-ok status gives the "not available" apology, and the reply is always `Backends.LocalMessage` of the outcome |
| Backends.CloudMessage | src/services/commandProcessor.ts:188-206 | the cloud reply text from the outcome; stated case by case by `Backends.CloudMessageCases` |
| Backends.LocalMessage | src/services/commandProcessor.ts:224-242 | the local reply text from the outcome; stated case by case by `Backends.LocalMessageCases` |
| Backends.CloudMessageCases | src/services/commandProcessor.ts:188-206 | case statement: each cloud outcome maps to its reply, and the reply is never empty |
| Backends.LocalMessageCases | src/services/commandProcessor.ts:224-242 | case statement: each local outcome maps to its reply, and the reply is never empty |
| Processor.Fallback | src/services/commandProcessor.ts:77-84 | offline mode contacts no server and gives a canned reply; cloud mode uses the cloud backend; any other mode uses the local backend |
| Processor.Settle | src/services/commandProcessor.ts:66-84 | the branch on the detected command; stated by `Processor.RecognisedExecutes` and `Processor.UnrecognisedFallsBack` |
| Processor.Executed | src/services/commandProcessor.ts:66-75 | a matched command's action runs and the reply names the command; stated by `Processor.RecognisedExecutes`, `Processor.RejectionNeedsToastFailure` and `Processor.SuccessfulExecution` |
| Processor.Answered | src/services/commandProcessor.ts:77-84 | no match: the selected backend's reply, stamped, with no action; stated by `Processor.UnrecognisedFallsBack` and `Processor.BackendsSeeRawInput` |
| Processor.Respond | src/services/commandProcessor.ts:61-85 | what `processCommand` settles to; `Processor.CommandProcessor.ProcessCommand` is proved equal to it and the lemmas below state its properties |
| Processor.CommandProcessor.constructor | src/services/commandProcessor.ts:56-59 | the processor keeps the given mode and key, which default to offline and none |
| Processor.CommandProcessor.ProcessCommand | src/services/commandProcessor.ts:61-85 | the method settles as the specification function, with an AI response bearing the call's stamp, and carries an action exactly when a command was recognised |
| Processor.RespondStamped | src/services/commandProcessor.ts:68-74 | every response comes from the assistant with the given id and time |
| Processor.RecognisedMatch | src/services/commandProcessor.ts:64-65 | a recognised input selects a command of the table |
| Processor.RecognisedExecutes | src/services/commandProcessor.ts:65-75 | a recognised input runs the first matching command's action. The reply names that command, the descriptor carries its action, no server is contacted, and the promise rejects exactly when the execution does |
| Processor.UnrecognisedFallsBack | src/services/commandProcessor.ts:77-84 | an unrecognised input issues no capability call and has no action descriptor. Offline, no server is contacted and a canned reply is given; in cloud mode the request and the reply are the cloud backend's; in any other mode they are the local backend's |
| Processor.RejectionNeedsToastFailure | src/services/commandProcessor.ts:66-67 | the call rejects only for a recognised command whose pulse or call failed and whose error toast failed too |
| Processor.SuccessfulExecution | src/services/commandProcessor.ts:98-131 | when every capability call succeeds, the call resolves after the pulse and the command's own call |
| Processor.ReplyActionIsMatched | src/services/commandProcessor.ts:73 | a reply's action descriptor is the action of the command that matched |
| Processor.SearchNeverExecuted | src/services/commandProcessor.ts:111-114 | no reply ever carries the `search_youtube` action |
| Processor.RecognisedIgnoresPaddingAndCase | src/services/commandProcessor.ts:62-65 | for a recognised command, the outcome does not depend on surrounding whitespace or letter case |
| Processor.BackendsSeeRawInput | src/services/commandProcessor.ts:79-83 | the cloud and local backends receive the input as typed, not normalised |
| Processor.OpenWhatsAppScenario | src/services/commandProcessor.ts:61-75 | "Open WhatsApp now" gives a pulse, opens WhatsApp Web, and replies "Executed: Open WhatsApp application" with the `open_app` descriptor |
| Processor.ExecutedWhatsApp | src/services/commandProcessor.ts:66-75 | with every capability call succeeding, `open-whatsapp` pulses, opens WhatsApp Web and replies "Executed: Open WhatsApp application" |
| Processor.HelloThereOfflineScenario | src/services/commandProcessor.ts:78-79 | offline, "hello there" makes no call and no request, and replies with a canned reply |
| Settings.Overlay | src/hooks/useSettings.ts:35 | `{ ...s, ...p }`; its properties are stated by `Settings.OverlayFields`, `Settings.OverlayIdempotent` and `Settings.OverlayThen` |
| Settings.Lookup | src/hooks/useSettings.ts:22 | `Preferences.get({ key: 'barbraai-settings' })`: the stored value, or none; read by `Settings.SettingsHook.LoadSettings`, whose contract feeds it to `Settings.Loaded`; `Settings.UpdateSurvivesReload` reads back through it what `UpdateSettings` wrote |
| Settings.Loaded | src/hooks/useSettings.ts:20-32 | the settings after `loadSettings`; stated by `Settings.FirstLoad`, `Settings.LoadForgetsCurrent`, `Settings.LoadFillsMissingKeys` and `Settings.StoreThenLoad` |
| Settings.Serialize | src/hooks/useSettings.ts:41 | the stored object carries every field's value, including the `apiKey` itself, and has an `apiKey` exactly when the settings have one |
| Settings.SettingsHook.constructor | src/hooks/useSettings.ts:13-14 | the hook starts with the defaults, still loading |
| Settings.SettingsHook.LoadSettings | src/hooks/useSettings.ts:20-32 | the settings become the stored object spread over the defaults; loading ends either way and the store is unchanged |
| Settings.SettingsHook.UpdateSettings | src/hooks/useSettings.ts:34-46 | the settings become the patch spread over the old settings; only the settings key of the store is rewritten, and only when the write succeeds |
| Settings.OverlayFields | src/hooks/useSettings.ts:35 | each of the five fields of a spread comes from the patch when present, otherwise from the settings; the spread changes nothing exactly when every key of the patch already holds its value |
| Settings.OverlayIdempotent | src/hooks/useSettings.ts:35 | applying the same patch twice is applying it once |
| Settings.OverlayThen | src/hooks/useSettings.ts:35 | two updates in a row equal one update with the patches combined |
| Settings.SerializeOverlay | src/hooks/useSettings.ts:25 | spreading stored settings over a base returns them exactly, unless they have no key and the base has one |
| Settings.StoreThenLoad | src/hooks/useSettings.ts:20-46 | what an update writes, a load reads back unchanged |
| Settings.FirstLoad | src/hooks/useSettings.ts:20-32 | the first load spreads a stored object over the defaults; a failed read, no value, empty or malformed text, or a JSON value that is not an object leave the defaults |
| Settings.LoadForgetsCurrent | src/hooks/useSettings.ts:23-25 | a stored value that parses replaces the previous settings entirely; any other outcome keeps them |
| Settings.LoadFillsMissingKeys | src/hooks/useSettings.ts:25 | a field missing from the stored object takes its default |
| Settings.UpdateSurvivesReload | src/hooks/useSettings.ts:20-46 | after a successful update, a freshly mounted hook loads the same settings |
| CarouselModel.JsRemainder | src/components/Carousel.tsx:60 | the remainder is smaller than the divisor in magnitude, equals Dafny's for a non-negative dividend, is not positive for a negative one, and differs from the dividend by a multiple of the divisor, which together fix JavaScript's truncating `%` |
| CarouselModel.NextIndex | src/components/Carousel.tsx:66-68 | `(prev + 1) % length`; stated by `CarouselModel.StepsStayInRange`, `CarouselModel.NextPrevInverse` and `CarouselModel.AdvanceWraps` |
| CarouselModel.PrevIndex | src/components/Carousel.tsx:71 | `(prev - 1 + length) % length`; stated by `CarouselModel.StepsStayInRange` and `CarouselModel.NextPrevInverse` |
| CarouselModel.Render | src/components/Carousel.tsx:77-81 | exactly the card at the current index renders, and it is that card |
| CarouselModel.Carousel.constructor | src/components/Carousel.tsx:56 | the carousel starts at the first card |
| CarouselModel.Carousel.NextCard | src/components/Carousel.tsx:66-68 | the right arrow moves to the next index and stays in range |
| CarouselModel.Carousel.PrevCard | src/components/Carousel.tsx:70-72 | the left arrow moves to the previous index and stays in range |
| CarouselModel.Carousel.Tick | src/components/Carousel.tsx:58-64 | each timer tick moves to the next index and stays in range |
| CarouselModel.Carousel.SelectDot | src/components/Carousel.tsx:190-193 | a dot selects its own index, and that dot is then highlighted |
| CarouselModel.Carousel.DotHighlighted | src/components/Carousel.tsx:195 | a dot is highlighted exactly when its card is the one shown |
| CarouselModel.Carousel.ClickActiveCard | src/components/Carousel.tsx:112 | exactly one card is shown, and a click hands on its command |
| CarouselModel.StepsStayInRange | src/components/Carousel.tsx:66-72 | from a valid index both steps stay valid and move one place round the ring |
| CarouselModel.NextPrevInverse | src/components/Carousel.tsx:66-72 | the two arrows undo each other |
| CarouselModel.AdvanceWraps | src/components/Carousel.tsx:58-64 | n ticks move n places round the ring |
| CarouselModel.FullCycle | src/components/Carousel.tsx:58-64 | four ticks bring back the starting card |
| CarouselModel.ShownIsActive | src/components/Carousel.tsx:77-81 | at a valid index exactly one card is shown, the one at that index; out of range, none is |
| AppModel.UserRecord | src/App.tsx:44-49 | the user's message record; stated by `AppModel.ExchangeShape` and by the history in `AppModel.App.BeginSubmit` and `AppModel.App.HandleSubmit` |
| AppModel.Accepts | src/App.tsx:41 | the guard of `handleSubmit`; stated by `AppModel.BlankIsIgnored` |
| AppModel.CommandText | src/App.tsx:40 | `input \|\| textInput`; stated by `AppModel.App.BeginSubmit`, `AppModel.App.HandleSubmit` and `AppModel.App.OnCommandSelect`, whose contracts say which text is recorded and submitted |
| AppModel.ReplyFor | src/App.tsx:55-66 | the record appended for the settled call; stated by `AppModel.ExchangeShape` (a resolved call appends its own response, a rejected one the apology) and used by `AppModel.App.FinishSubmit` |
| AppModel.App.constructor | src/App.tsx:17-21 | the app starts with an empty history, nothing in flight, and a fresh processor and settings hook |
| AppModel.App.SyncProcessor | src/App.tsx:24-29 | the processor's mode and key become the settings' mode and key |
| AppModel.App.BeginSubmit | src/App.tsx:39-53 | the guard refuses blank text or a submission in flight and changes nothing; otherwise the user's record is appended, the flag is set and the text box is cleared |
| AppModel.App.FinishSubmit | src/App.tsx:55-69 | the reply is appended and the flag cleared |
| AppModel.App.HandleSubmit | src/App.tsx:39-70 | an accepted submission appends the user's record and then the processor's reply or the apology |
| AppModel.App.OnCommandSelect | src/App.tsx:127-130 | a selected card's command fills the text box and is submitted. If accepted, the user's record and the processor's reply (or the apology) are appended, the box is cleared and processing ends; otherwise nothing but the text box changes |
| AppModel.BlankIsIgnored | src/App.tsx:41 | a command is accepted exactly when it is not all whitespace and nothing is in flight |
| AppModel.ExchangeShape | src/App.tsx:44-66 | an exchange is a user record with the command, followed by an AI record: the processor's own response when it resolves, the apology when it rejects |
| AppModel.SearchCardOpensYouTube | src/components/Carousel.tsx:21-27 | the "YouTube Search" card's command selects `open-youtube` |
| AppModel.SecondSubmitIgnored | src/App.tsx:41 | while a submission is in flight, a second one adds nothing |

## Left out

- Capacitor plugin calls (`Browser`, `Toast`, `Haptics`, `Preferences`) are modelled only by their success or failure. No real device effect is modelled.
- `console.error` logging is left out.
- `fetch`, HTTP status codes and JSON parsing are reduced to the outcome cases the code distinguishes. The JSON text itself is not modelled, and neither are field values of the wrong type.
- Text.Lower: lower-cases A–Z and the Kelvin sign only. Other non-ASCII case mappings of `toLowerCase` are left out, among them U+0130, which becomes two characters. No trigger contains a non-ASCII character.
- UriEncoding.EncodeURIComponent: lone surrogates cannot occur, because Dafny characters are Unicode scalar values, so the `URIError` path is not modelled.
- `Date.now()` and `Math.random()` are parameters, not clocks or random sources.
- Timers are left out. The 4-second interval is a `Tick` call, and the 100 ms delay before a carousel submission is dropped, so the submission follows at once.
- React scheduling is left out: batched state updates, effect timing, and the stale `settings` captured by the `updateSettings` closure. Each method works on the current state.
- Concurrent submissions are left out. `HandleSubmit` runs to completion, and the guard against a second submission in flight is stated through `BeginSubmit`.
- Settings.SettingsPatch: a patch holds only the five known settings keys. Unknown keys in a stored object, which the spread would also copy, are not modelled.
- The speech-recognition hook and the effect that submits its transcript are left out; they feed the same `handleSubmit`.
- The rendering-only components (`Settings`, `VoiceInput`, `ChatResponse`), the styling, the animations and `capacitor.config.ts` are not part of this model.
