# Nexus AI Expert chat widget: turn protocol and completion client

This project models the only behaviour of the Nexus wealth-management landing
page beyond static content: the "Nexus AI Expert" chat widget and the
completion client behind it.

- `wrappers.dfy` (module `Wrappers`): `Option`, standing for JavaScript's `undefined`.
- `js_string.dfy` (module `JsString`): `String.prototype.trim` over ECMAScript's
  white-space and line-terminator characters, and the fact that a draft trims
  to the empty string exactly when it is blank.
- `gemini_service.dfy` (module `GeminiService`): `getApiKey` over an abstract
  environment, and `generateExpertResponse` as a total function of the
  environment, the outcome of the one SDK call (`CallOutcome`: returned text,
  possibly undefined or empty, or an exception) and the prompt. It is built
  from `ReplyText` (the reply) and `SentRequests` (the requests sent, each the
  prompt with the fixed model name and configuration); the list of requests
  stands in for a call counter.
- `chat_protocol.dfy` (module `ChatProtocol`): the widget's state as a value
  (transcript, draft, loading flag, and the prompts of the `handleSend`
  activations waiting at their `await`), one function per state change, an
  event type (typing, clicking send, a key press, a settlement), runs of
  events, and the turn invariant. The seed greeting opens the transcript.
  After it, model and user turns alternate. The widget is loading exactly when
  a user turn is last, and then exactly one request is in flight.
- `chat_widget.dfy` (module `ChatWidget`): the component as a class
  `AIChatDemo` whose fields are the state cells. `HandleSend` is split at its
  `await`: the method `HandleSend` runs the guard and the first half, and
  `Resume` runs the continuation with the completion client's reply. Each
  method is specified by the `ChatProtocol` function it implements and keeps
  the turn invariant.

The SDK call, the network and the process environment are parameters: the
environment is the `Env` value and the call's result is the `CallOutcome`
value.

## Model

| member | source | states |
|---|---|---|
| `JsString.TrimStartSpec` | components/AIChatDemo.tsx:23 | trimming the start keeps a suffix of the draft that is empty or starts with a non-white-space character; everything dropped is white space |
| `JsString.TrimEndSpec` | components/AIChatDemo.tsx:23 | trimming the end keeps a prefix that is empty or ends with a non-white-space character; everything dropped is white space |
| `JsString.TrimEmptyIffBlank` | components/AIChatDemo.tsx:23 | `trim()` gives the empty (falsy) string exactly when every character of the draft is white space |
| `GeminiService.GetApiKey` | services/geminiService.ts:4-16 | never fails; a non-empty result is the configured `API_KEY`, and a set non-empty `API_KEY` is always returned; otherwise the result is empty |
| `GeminiService.ReplyText` | services/geminiService.ts:22-53 | the text the client resolves to is never empty, whatever the environment and the SDK outcome |
| `GeminiService.SentRequests` | services/geminiService.ts:27-47 | no request without a key, one with a key; every request sent carries the prompt as contents, model `gemini-2.5-flash` and the static configuration |
| `GeminiService.GenerateExpertResponse` | services/geminiService.ts:21-54 | every environment, SDK outcome and prompt gives a non-empty reply; one request is sent when a key is present and none when it is missing, and every request sent is the prompt's request with the static configuration |
| `GeminiService.MissingKeyIsDemoMode` | services/geminiService.ts:22-25 | with no key the reply is exactly the demo-mode text and no request is sent |
| `GeminiService.KeyedCallIsSingleTurn` | services/geminiService.ts:27-30 | with a key exactly one request is sent, for the prompt, and the request's contents are the prompt alone, with no earlier turns |
| `GeminiService.RequestConfigIsStatic` | services/geminiService.ts:28-46 | every request the client sends, for any prompt, environment and outcome, has model `gemini-2.5-flash`, the fixed system instruction and temperature 0.7, the same for all |
| `GeminiService.ReturnedTextIsVerbatim` | services/geminiService.ts:49 | non-empty text returned by the service is the reply, verbatim |
| `GeminiService.EmptyTextFallsBack` | services/geminiService.ts:49 | undefined or empty returned text gives the fixed "cannot respond at this moment" reply |
| `GeminiService.ThrowIsCaught` | services/geminiService.ts:50-53 | a call that throws gives the fixed "high demand" reply; no error reaches the caller |
| `GeminiService.ReplyIsFallbackOrServiceText` | services/geminiService.ts:21-54 | every reply is one of the three fixed texts, or else text the service itself returned while a key was present |
| `ChatProtocol.InitialState` | components/AIChatDemo.tsx:7-11 | the mounted widget holds exactly the model greeting, an empty draft, is idle, and satisfies the turn invariant |
| `ChatProtocol.SubmitGuard` | components/AIChatDemo.tsx:23 | sending changes nothing at all (transcript, draft, flag, requests) if and only if the draft is blank or a request is in flight |
| `ChatProtocol.SubmitAccepted` | components/AIChatDemo.tsx:25-30 | an accepted send appends one user turn with the raw, untrimmed draft, clears the draft, sets loading and starts one request for that draft |
| `ChatProtocol.ButtonMirrorsGuard` | components/AIChatDemo.tsx:101 | the send button is enabled exactly when sending would change the state, that is when the draft is not blank and nothing is in flight |
| `ChatProtocol.EnterIsSubmit` | components/AIChatDemo.tsx:40-42 | Enter takes the same guarded send path as the button; other keys change nothing |
| `ChatProtocol.SettleAppendsReply` | components/AIChatDemo.tsx:36-37 | a settlement keeps the old transcript as a prefix, appends exactly one model turn with the reply and clears loading |
| `ChatProtocol.StepExtends` | components/AIChatDemo.tsx:22-42 | no event edits or removes a turn; an event adds exactly one turn when it is an accepted send or a settlement, and none otherwise |
| `ChatProtocol.RunExtends` | components/AIChatDemo.tsx:22-42 | over any run of events the starting transcript stays a prefix, and at most one turn is added per event |
| `ChatProtocol.SubmitKeepsTurns` | components/AIChatDemo.tsx:23-30 | sending keeps the turn invariant: a user turn with non-empty text follows a model turn, and its text is the one request in flight |
| `ChatProtocol.SettleKeepsTurns` | components/AIChatDemo.tsx:33-37 | a settlement keeps the turn invariant: the client's non-empty reply follows the pending user turn and nothing remains in flight |
| `ChatProtocol.StepKeepsTurns` | components/AIChatDemo.tsx:22-42 | every event keeps the turn invariant |
| `ChatProtocol.RunKeepsTurns` | components/AIChatDemo.tsx:22-42 | every run of events from a state with the turn invariant keeps it |
| `ChatProtocol.ReachableShape` | components/AIChatDemo.tsx:7-37 | in every reachable state at most one request is in flight; idle means odd length ending in a model turn, loading means even length ending in a user turn |
| `ChatProtocol.ReplyAnswersLastTurn` | components/AIChatDemo.tsx:25-36 | while loading, a settlement appends the completion of exactly the last user turn's text, so replies come in submission order |
| `ChatProtocol.FirstExchange` | components/AIChatDemo.tsx:22-37 | from the mounted widget, typing a non-blank text and sending gives a loading widget whose last turn is that text from the user; settling gives three turns, the last the client's reply to that text |
| `ChatProtocol.OverlappingSendRejected` | components/AIChatDemo.tsx:22-37 | a second send before the first settles is rejected whatever its text: only the first text is in the transcript and in flight, and the settlement answers the first text |
| `ChatWidget.AIChatDemo.constructor` | components/AIChatDemo.tsx:7-11 | the new component is in the initial state and satisfies the turn invariant |
| `ChatWidget.AIChatDemo.OnChange` | components/AIChatDemo.tsx:94 | replaces the draft and nothing else |
| `ChatWidget.AIChatDemo.HandleSend` | components/AIChatDemo.tsx:22-30 | the new state is the send transition of the old one, the turn invariant is kept, and the prompt started is the old draft exactly when the guard lets it through |
| `ChatWidget.AIChatDemo.Resume` | components/AIChatDemo.tsx:33-37 | the new state is the settlement transition with the completion client's reply to the oldest pending prompt, and the turn invariant is kept |
| `ChatWidget.AIChatDemo.HandleKeyPress` | components/AIChatDemo.tsx:40-42 | the new state is the key transition: Enter sends through the same guard, any other key changes nothing |
| `ChatWidget.AIChatDemo.SendDisabled` | components/AIChatDemo.tsx:101 | the button is disabled exactly when the draft is blank or a request is in flight |

## Left out

- Rendering: the JSX, styling, icons, the loading dots and the scroll-to-bottom effect in components/AIChatDemo.tsx. They have no behaviour to state.
- App.tsx, constants.tsx and the rest of types.ts: the page layout, the mobile menu, the scenario tabs and the static marketing content. From types.ts only the `ChatMessage` shape is modelled. Its `isThinking` flag is never set, so it is left out.
- The `@google/genai` SDK and the network call. The call is reduced to its settled outcome, `CallOutcome`.
- The client object built once from the key at module load (services/geminiService.ts:19). Only the per-call key check at line 22 is modelled.
- Logging: `console.warn` and `console.error`.
- The temperature 0.7 is a floating-point number. It is kept as the constant count of seven tenths.
- Reading the environment: `Env` names the three cases the key lookup can meet (no `process`, a `process.env` holding `API_KEY` or not, an access that throws). Nothing else of `process.env` is modelled.
- `ChatProtocol.Step`: the key is read when `handleSend` calls the client, before its `await`. The model computes the reply at settlement from the environment given there. The two agree because the reply depends only on the environment value, the SDK outcome and the prompt.
- React scheduling and state batching. `handleSend` reads `input` and `isLoading` from the last render. Two events handled before a re-render would both see the old values. The model reads the current state at each event and does not capture that window.
- `ChatProtocol.Step`: a settlement with no request in flight cannot occur, because a continuation exists only after an accepted send. It is modelled as leaving the widget unchanged.
- `JsString.IsJsWhitespace`: characters are Unicode scalar values, not UTF-16 code units. Trimming only ever removes characters from the Basic Multilingual Plane, so the two agree for trimming.
- Like `handleSend`, the method `HandleSend` takes no argument: it reads the draft from the `input` state cell (components/AIChatDemo.tsx:23-25).
