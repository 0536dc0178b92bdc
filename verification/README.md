# tweet-refiner: the generation/refinement controller

This project models the interaction controller of the tweet-refiner main panel
(`src/components/Main.tsx`) in Dafny and proves what its handlers promise.

The controller holds seven fields:

- the draft `tweet`;
- the latest `result`;
- the refinement instructions `improvePrompt`;
- the "collecting instructions" flag `isImprovingField`;
- the busy flag `isGenerating`;
- the selected tone `mood`, default `"Casual"`;
- the selected `action`, default `"Formatting"`.

Three handlers drive it:

- **generate** posts `{tweet, mood, action}`. A reply replaces `result`. A failure
  raises an error notification.
- **refine** branches on `(isImprovingField, improvePrompt)`. With empty
  instructions it toggles the collecting flag and sends nothing. Otherwise it
  posts `{result, mood, action, improvePrompt, tweet}`. A reply replaces
  `result`, clears the instructions and leaves collecting mode.
- **copy** writes a non-empty `result` to the clipboard and confirms it.

Generate, and refine whenever it sends a request, clear the busy flag on every
path. Refine's two toggle paths send nothing and leave the busy flag as it was.

The model is functional. Each handler is a pure function from a `State` to a
`Step`, which is the new state plus the list of emitted `Event`s: requests sent,
error and success notifications, and clipboard writes. The remote service's
answer is an `Outcome` parameter: `Ok(message)` or
`Err(isErrorInstance, message)`.

A request-issuing handler is split into two atomic phases. `Start…` raises busy
and emits the request. `Complete…` consumes the outcome. This makes "busy while
in flight, idle afterwards" expressible.

A `Session` layer runs a sequence of user actions through the handlers and
proves invariants over whole sessions.

Files:

- `gateway.dfy`: outcomes, request bodies, events, the fixed notification texts,
  and filters that pick requests and error texts out of an event list.
- `controller.dfy`: the state record and the `Changed` field-difference frame,
  plus the handlers, the setters and the refine decision table.
- `session.dfy`: user-action sequences, `Run`, and the session invariants. It
  also holds the worked walk-through: generate, open the instructions field,
  type, refine.

Three behaviours of the source are easy to misread and are modelled as written:

- **Error text.** The notification shows `error.message` whenever the thrown
  value is an `Error`, even when that message is empty
  (src/components/Main.tsx:44,66). The fixed texts `'Error refining tweet'` and
  `'Error improving response'` appear only for values that are not `Error`s.
- **No re-entrancy guard.** Neither handler checks the busy flag before sending,
  and the generate button (src/components/Main.tsx:130) is not disabled while
  busy. The model accepts a second start while busy.
  `SecondGenerateWhileBusyReleasesEarly` shows that two requests are then out
  and the first completion clears busy while the second is still outstanding.
- **Tone values.** The tone sent is the raw menu value. The entry labelled
  "Funny" sends `"light"` (src/components/Main.tsx:103). The model keeps the raw
  strings and lists the menu values in `MoodValues`.

## Model

| member | source | states |
|---|---|---|
| Controller.Init | src/components/Main.tsx:21-25 | the first render is idle and not collecting, with empty instructions, tone "Casual" and action "Formatting"; both selections are menu values and the first refine would enter collecting mode |
| Controller.StartGenerate | src/components/Main.tsx:38-41 | generate raises busy, emits exactly one request `{tweet, mood, action}` from the current state, and changes no field but busy |
| Controller.CompleteGenerate | src/components/Main.tsx:42-47 | busy is cleared on both paths; a reply replaces `result` and emits nothing, touching only result and busy; a failure touches only busy and emits one error notification with the Error's message or "Error refining tweet" |
| Controller.HandleGenerate | src/components/Main.tsx:38-48 | the whole generate handler ends idle; on a reply it emits only the request `{tweet, mood, action}` and the state is the old one with the new result; on a failure it emits exactly the request followed by one error notification, and the only change is busy cleared |
| Controller.StartRefine | src/components/Main.tsx:50-61 | with empty instructions refine flips the collecting flag, changes no other field (busy included) and emits nothing; with non-empty instructions, whatever the flag, it raises busy, changes nothing else, and emits one improve request `{result, mood, action, improvePrompt, tweet}` |
| Controller.CompleteRefine | src/components/Main.tsx:62-69 | busy is cleared on both paths; a reply sets result to the message, clears the instructions and the collecting flag, emitting nothing; a failure touches only busy and emits one error notification with the Error's message or "Error improving response" |
| Controller.HandleRegenerate | src/components/Main.tsx:50-70 | the whole refine handler: empty instructions toggle the flag with no event whatever the outcome; otherwise exactly one improve request is sent; a reply then yields the cleared state with the new result and nothing else emitted; a failure emits exactly the request and one error notification and leaves everything but busy as it was |
| Controller.CopyToClipboard | src/components/Main.tsx:72-76 | copy never changes state and never sends a request; it emits nothing exactly when result is empty, otherwise one clipboard write of result and the notice "Text copied to clipboard" |
| Controller.SelectMood | src/components/Main.tsx:96-98 | picking a tone stores the picked value and changes no other field |
| Controller.SelectAction | src/components/Main.tsx:114-116 | picking an action stores the picked value and changes no other field |
| Controller.EditTweet | src/components/Main.tsx:84-87 | editing the draft stores the text and changes no other field |
| Controller.EditPrompt | src/components/Main.tsx:136 | editing the instructions (setter handed to the result panel) stores the text and changes no other field |
| Controller.StartRefineFollowsTable | src/components/Main.tsx:50-61 | the code's sequential branches agree with the three-way decision table: enter collecting iff the flag goes up, cancel iff it goes down, submit iff something is emitted |
| Controller.EmptyRefineTwiceRestores | src/components/Main.tsx:51-58 | two refines with empty instructions return to the original state, with no request either time |
| Controller.BusyOnlyWhileInFlight | src/components/Main.tsx:38-70 | both request paths hold busy between start and completion and release it on completion for every outcome; a refine that sends nothing leaves busy as it was |
| Controller.FailureRestoresIdleState | src/components/Main.tsx:38-70 | from an idle state a failed generate, and a failed refine that sent a request, leave the whole state unchanged, including result, instructions and the collecting flag |
| Controller.SecondGenerateWhileBusyReleasesEarly | src/components/Main.tsx:38-48 | without a guard, a second generate while busy sends a second identical request, so two requests are out; the first completion, for any outcome, clears busy although only one of the two has settled |
| Controller.SelectionIsSent | src/components/Main.tsx:96-116 | the tone and action last picked are exactly the ones the next generate or improve request carries |
| Session.Apply | src/components/Main.tsx:38-76 | one user action sends at most one request, reports at most one failure per request, keeps an idle controller idle, and ends idle after generate; edits, picks and copies send nothing and leave busy and result alone |
| Session.Run | src/components/Main.tsx:38-76 | a session that starts idle ends idle after any action sequence, sends at most one request per action, and never reports more failures than requests sent |
| Session.SessionSendsMenuValues | src/components/Main.tsx:96-123 | when picks come from the menus, every request of a session carries a menu tone and action, and the label "Funny" is never sent |
| Session.NoPressNoRequest | src/components/Main.tsx:72-98 | a session of edits, picks and copies sends no request and leaves busy and result unchanged |
| Session.Walkthrough | src/components/Main.tsx:38-70 | the worked scenario: generate on "hello world", open the instructions field, type "make it excited", refine; the final result is the improve reply, instructions empty, not collecting, idle, and the two requests carry the expected payloads |

## Left out

- Rendering, CSS classes and `adjustTextareaHeight` (src/components/Main.tsx:30-36, 78-138): presentation with no statable logic.
- The HTTP transport and the `/api/generate` and `/api/improve` endpoints: replaced by the `Outcome` parameter. The notification library and the clipboard API are recorded as emitted events.
- A reply whose body has no `message` field: the model takes the reply text as a string, so `result` is never set to an undefined value.
- React state batching and async interleaving: each handler phase is an atomic step. `Session.Run` runs whole handlers one after the other. Overlap is shown only through the two-phase functions in `SecondGenerateWhileBusyReleasesEarly`.
- The initial draft and result: they come from shared contexts (`useTweet`, `useResult`) whose sources are not part of this model, so `Controller.Init` takes them as parameters.
- The result panel component and the context providers (src/app/Providers.tsx): wiring with no logic. The result panel is not part of this model beyond the instructions setter and the refine and copy callbacks handed to it.
