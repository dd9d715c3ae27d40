# Video Script Analyzer: request lifecycle in Dafny

The analyzer is a single-page React app. A user pastes a YouTube URL. The page
validates it, then mounts a content container that asks a generative model for
a script analysis of the video. The container cuts the JSON envelope out of the
model's free-form reply and shows a spinner, the analysis, or an error.

This project models the three pieces of sequential logic in that flow and
proves properties about them.

- `JsString` (JsString.dfy): the JavaScript string built-ins the code relies on.
  These are `indexOf`, `lastIndexOf`, `substring` (it clamps its indices and
  swaps them when out of order), `startsWith` and `trim` (with ECMAScript's
  whitespace and line-terminator set).
- `Parse` (Parse.dfy): `parseJSON`, the bracket-scanning slicer. It keeps the
  text from the first `{` through the last `}` and passes that slice to an
  abstract `JSON.parse`. Here `JSON.parse` is a parameter that returns either a
  value or a SyntaxError.
- `ContentContainer` (ContentContainer.dfy) covers four things:
  - how the generation request is built;
  - how the `.analysis` field is read from the parsed reply;
  - the `loading | ready | error` state machine, as the class `Container`. Its
    `Start` runs a generation up to its `await`. Its `Resolve` runs the part
    after the `await`.
  - the pure rendering choices: the busy signal, the error text, the note
    about a missing scheme, and which view is shown.
- `AppController` (AppController.dfy): the submit controller, as the class
  `App`. Its fields are `videoUrl`, `language`, `urlValidating`,
  `contentLoading` and `reloadCounter`, and each handler is a method.
  `handleSubmit` is split at its one `await` into `BeginSubmit` and
  `ValidationResolved`. The rendering rules are pure functions: `disabled`,
  the button label, and the conditional mount.
- `Page` (Page.dfy): the two machines composed. The controller mounts a fresh
  container under `key={reloadCounter}` exactly when `videoUrl` is non-empty.
  Each generation run carries the key of the container that started it. A run
  that settles after its container was replaced or unmounted changes nothing.
  This is how React treats updates aimed at an instance that is no longer
  mounted. The container itself compares no token. The module ends with four
  scenario methods: a superseded run, the current run, an invalid URL, and a
  blank input.

Inputs from outside the model are parameters. These are the validator's
verdict, how the `generateText` call settles (`Returned(text)` or
`Threw(ErrorInstance(message) | OtherValue)`), `JSON.parse`, and the read of
the `analysis` property. That read gives a string, `undefined`, or a TypeError
when the parsed value is `null`.

Some behaviours of the code are easy to miss, and the model keeps them as the
code has them:

- **Missing `analysis` field.** A reply whose object lacks `analysis` is not an
  error. The code stores `undefined`, enters `ready` and shows an empty
  analysis (`AnalysisValue.Missing`).
- **Missing brace.** A reply with no `{` or no `}` still slices to something
  determinate, because `substring` clamps and swaps its indices. For example,
  `42{` slices to `42`, which `JSON.parse` accepts, and the run ends `ready`
  with nothing to show (`SliceWithoutClose`).
- **Stale runs.** No identity token is compared anywhere. A run that settles
  late is ignored only because the keyed remount gave the page a new
  container, as modelled in `Page`.
- **Re-entrancy guard.** `handleSubmit` itself checks only `urlValidating`
  (App.tsx:42). Other paths stop or allow a submit while content loads:
  - Enter checks both flags, in `handleKeyDown`.
  - The button is disabled during loading.
  - A direct `handleSubmit` call while content loads unmounts the container.

## Model

| member | source | states |
|---|---|---|
| JsString.IndexOf | lib/parse.ts:8 | the result is the index of the first occurrence, or -1 exactly when the character is absent |
| JsString.LastIndexOf | lib/parse.ts:9 | the result is the index of the last occurrence, or -1 exactly when the character is absent |
| JsString.Substring | lib/parse.ts:10 | after clamping and swapping, the result is never longer than the input |
| JsString.Trim | App.tsx:34 | the trimmed input is empty exactly when the raw input is all whitespace; otherwise it starts and ends with non-whitespace |
| JsString.OrElse | components/ContentContainer.tsx:125 | `value \|\| fallback` on a nullable string: the value unless it is null or empty, then the fallback |
| Parse.SliceStart | lib/parse.ts:8 | `start` is the index of the first `{`, or -1 exactly when there is none |
| Parse.SliceEnd | lib/parse.ts:9 | `end` is one past the last `}`, so it is 0 exactly when there is none |
| Parse.Slice | lib/parse.ts:10 | the slice is never longer than the input |
| Parse.SliceOfOrderedBraces | lib/parse.ts:8-10 | with a `{` before the last `}`, the slice is the contiguous substring from the first `{` to the last `}`; it begins with `{` and ends with `}` |
| Parse.NoiseTolerance | lib/parse.ts:8-10 | a prefix with no `{` and a suffix with no `}` around a `{…}` body are cut away exactly |
| Parse.SliceIsIdempotent | lib/parse.ts:8-10 | slicing the slice again changes nothing when the braces are ordered |
| Parse.SliceWithoutBraces | lib/parse.ts:10 | no `{` and no `}` gives the empty slice |
| Parse.SliceWithoutClose | lib/parse.ts:10 | with a `{` but no `}`, the slice is the text before the first `{` |
| Parse.SliceWithoutOpen | lib/parse.ts:10 | with a `}` but no `{`, the slice is the text up to and including the last `}` |
| Parse.SliceOfReversedBraces | lib/parse.ts:10 | when the last `}` precedes the first `{`, the slice is the text strictly between them and holds neither brace |
| Parse.ParseJson | lib/parse.ts:7-11 | `JSON.parse` sees the text from the first `{` through the last `}` when the braces are ordered, and the empty text when there is neither brace |
| Parse.ParseSeesOnlySlice | lib/parse.ts:10 | two inputs with the same slice parse identically, so parse failure depends on the slice alone |
| Parse.ParseOfEnvelope | lib/parse.ts:7-11 | `parseJSON` of an envelope wrapped in noise is `JSON.parse` of the envelope alone |
| Parse.SliceOfChattyResponse | lib/parse.ts:8-10 | the reply `Sure! {"analysis":…,"other":1} Thanks.` slices to exactly its JSON object |
| ContentContainer.AnalysisPrompt | lib/prompts.ts:7-50 | the prompt is the fixed head, then the language, then the fixed tail, and nothing else |
| ContentContainer.AnalysisRequest | components/ContentContainer.tsx:33-39 | every request names `gemini-2.5-pro`, asks for JSON, and carries the video URL and the prompt for the language |
| ContentContainer.RequestDeterminesInputs | components/ContentContainer.tsx:33-39 | two requests are equal only when the video URL and the language are both equal |
| ContentContainer.GenerateAnalysis | components/ContentContainer.tsx:34-42 | a run returns exactly when the call returns, its slice parses and the field read does not throw; it then returns the field's text, or `undefined` when the field is absent |
| ContentContainer.GenerateAnalysisFailures | components/ContentContainer.tsx:34-42 | a run fails exactly when the call throws, the slice fails to parse, or the field read throws; a failing call's thrown value passes through unchanged, a parse failure keeps its SyntaxError message, and a throwing field read keeps its TypeError message |
| ContentContainer.GenerateAnalysisOfEnvelope | components/ContentContainer.tsx:41 | a reply whose envelope, surrounded by noise, holds an `analysis` string yields exactly that string |
| ContentContainer.GenerateAnalysisSeesOnlySlice | components/ContentContainer.tsx:41 | replies with the same slice give the same result |
| ContentContainer.ErrorMessage | components/ContentContainer.tsx:72-74 | the stored error is an `Error`'s message, otherwise `An unknown error occurred` |
| ContentContainer.ErrorText | components/ContentContainer.tsx:125 | the error paragraph is the stored error, or `Something went wrong` when it is null or empty; it is never empty |
| ContentContainer.UrlNoteExactlyWithoutScheme | components/ContentContainer.tsx:126-131 | the URL note is omitted exactly for text of the form `http://…` or `https://…` |
| ContentContainer.NeedsUrlNote | components/ContentContainer.tsx:126-127 | text shorter than `http://` always gets the scheme note, and only text starting with `http` can go without it |
| ContentContainer.RenderContent | components/ContentContainer.tsx:150-161 | each state selects exactly one view: spinner for loading, error view for error, analysis for ready; `undefined` analysis shows as empty |
| ContentContainer.Container.constructor | components/ContentContainer.tsx:24-26 | a fresh container starts `loading`, with no error and an empty analysis |
| ContentContainer.Container.Busy | components/ContentContainer.tsx:46-51 | the busy signal reported to the parent is set exactly while the spinner is shown |
| ContentContainer.Container.Start | components/ContentContainer.tsx:57-64 | a run first sets `loading`, a null error and an empty analysis (so the busy signal is true), and then issues that container's request |
| ContentContainer.Container.Resolve | components/ContentContainer.tsx:65-75 | success stores the analysis and sets `ready`; any failure stores the derived message and sets `error`; afterwards the busy signal is false |
| ContentContainer.Container.UpdateProps | components/ContentContainer.tsx:54-80 | a new run starts exactly when `contentBasis` or `language` changed; otherwise the state is untouched |
| AppController.SubmitOutcome | App.tsx:33-42 | whitespace-only input only refocuses; otherwise a pending validation makes submit a no-op; otherwise the trimmed, non-empty input goes to the validator |
| AppController.AlertText | App.tsx:55 | the alert is the validator's error, or `Invalid YouTube URL` when it is absent or empty |
| AppController.ControlsDisabled | App.tsx:99 | the select, the input and the button are disabled exactly when the button does not read `Analyze Video` |
| AppController.ButtonLabel | App.tsx:127-131 | `Validating URL...` exactly while validating, `Analyzing...` exactly while loading but not validating, `Analyze Video` exactly when neither flag is set |
| AppController.EnterSubmits | App.tsx:28 | Enter submits exactly when the key is Enter and the controls are enabled |
| AppController.EnterSubmitsWhenIdle | App.tsx:27-31 | Enter submits exactly when the button reads `Analyze Video`, so never while the controls are disabled |
| AppController.RenderContentArea | App.tsx:149-165 | a container keyed by `reloadCounter` is mounted exactly when `videoUrl` is non-empty; otherwise the placeholder text depends on whether a validation is pending |
| AppController.App.constructor | App.tsx:16-23 | the page starts with no video, the default language, both flags clear and the counter at 0 |
| AppController.App.BeginSubmit | App.tsx:33-47 | empty input or a pending validation changes nothing; otherwise `urlValidating` is set and `videoUrl` and `contentLoading` are cleared; the counter and language never change |
| AppController.App.KeyDown | App.tsx:27-31 | Enter runs the submit only when neither flag is set; any other key changes nothing |
| AppController.App.ProceedWithVideo | App.tsx:65-71 | `videoUrl` becomes the URL, the counter goes up by exactly 1, and validation ends |
| AppController.App.ValidationResolved | App.tsx:50-57 | valid: proceed with the trimmed input and bump the counter by 1; invalid: alert with the derived text and keep the video cleared and the counter unchanged; `urlValidating` always ends false |
| AppController.App.OnInputChange | App.tsx:114-117 | any edit clears `videoUrl` |
| AppController.App.OnLoadingChange | App.tsx:74-76 | `contentLoading` becomes the reported busy signal |
| AppController.App.SelectLanguage | App.tsx:97 | the language becomes the selected one |
| Page.Page.DisabledExactlyWhenBusy | App.tsx:99-125 | while a container is mounted, no validation is pending and the controls are disabled exactly while it is loading; a pending validation disables them and unmounts the container; a container is mounted exactly when the content area renders one under the current key |
| Page.Page.constructor | App.tsx:16-23 | nothing is mounted or pending at load |
| Page.Page.Submit | App.tsx:122-125 | a non-empty submit unmounts the current container and leaves a validation pending; the counter never changes |
| Page.Page.KeyDown | App.tsx:105-113 | Enter in the input submits exactly when neither flag is set; a validating submit unmounts the container, leaves the input pending and clears `contentLoading`; anything else changes nothing |
| Page.Page.ValidationResolved | App.tsx:150-156 | a valid URL mounts a fresh, loading container under the next key and issues its request; an invalid one mounts nothing |
| Page.Page.EditInput | App.tsx:114-117 | an edit unmounts the container and keeps the counter |
| Page.Page.SelectLanguage | components/ContentContainer.tsx:80 | a changed language reruns the mounted container under the same key; an unchanged language, or no container, starts no run and leaves the container's state and `contentLoading` as they were |
| Page.Page.GenerationResolved | App.tsx:150-152 | a run whose key is older than the counter, or whose container was unmounted, changes nothing; the current container's run commits its outcome, keeps the field it does not set, and clears `contentLoading`; the language, the validation flag, the counter and the URL never change |

## Left out

- CSS, layout and JSX markup, including the spinner and placeholder texts' styling, are presentation only.
- `validateYoutubeUrl` and `getYoutubeEmbedUrl` (lib/youtube) are not part of this model. The validator's verdict is a parameter, and the embedded player is not modelled.
- `generateText` (lib/textGeneration) is not part of this model. It is a network call, so how it settles is a parameter.
- `JSON.parse` is a parameter and no JSON grammar is modelled.
- The `analysis` property read has three modelled outcomes: a string, `undefined`, or a TypeError on `null`. A number, array or object in that property is not modelled.
- The prompt template's wording is two placeholder constants around the language. The template has no logic.
- `alert` is modelled as the returned alert text. `focus` is modelled as the `RefocusInput` step. `console.error` and refs are left out.
- `inputRef.current` being null is left out. The ref is attached whenever the input is rendered, so the raw input text is a parameter.
- Each `await` is modelled as two atomic steps. React's effect scheduling, render batching and async interleaving are not modelled. The loading effect's report is applied at the end of each step.
- Page.Page.DisabledExactlyWhenBusy — disabled controls are not modelled as dropping events. Every handler may be called in any state, which covers everything the UI allows and more. The lemma is therefore stated only while a container is mounted or a validation is pending. If the input were edited while content loads, `contentLoading` would stay set after the unmount. The disabled input prevents that in the UI.
- The `VALIDATE_INPUT_URL = false` branch (App.tsx:58-61) is dead code, because the constant is `true`.
- JavaScript strings are UTF-16 code units. Here they are Dafny `char`s, and trim's whitespace set is given by code point.
- `reloadCounter` is an unbounded natural number. The 2^53 precision limit of a JavaScript number is not modelled.
