# DisasterWatch client rules in Dafny

DisasterWatch is a Next.js disaster-awareness app. Most of it is a thin layer
over a hosted authentication/document database and a generative-AI prompt
API. What it decides by itself, in the browser, is modelled here:

- **Sign-up page** (`SignupRules`, `Signup`):
  - the email regular expression, the password regular expression and the confirm-password match;
  - the error object that `validate` and `revalidate` build;
  - the field-change handlers that clear an error;
  - the `canProceed` effect that enables the Next button;
  - `handleNext`, which moves from step 1 to step 2;
  - the agreement gate in `handleSignup`.

  Each regular expression is stated twice: once as the pattern reads and once as a character scan. A lemma proves the two agree on every string. The page's React state is a class whose methods are the handlers.
- **Disaster-severity form** (`SeverityAssessment`):
  - the schema: a description of 10 characters or more, and a photo of at most 5 MiB whose type is on the allow-list;
  - the file-input handler, which checks size first, then type;
  - the submission, which forwards the photo's data URL only when there is a photo.
- **Disaster map** (`DisasterMap`):
  - how each disaster event becomes a marker: its position, title, colour band, dot size and label;
  - how the map centre is chosen.
- **Personalized-safety-tips form** (`SafetyTips`):
  - the two minimum lengths;
  - the submission;
  - how the AI's text is shown: split on `'\n'`, blank lines dropped, the rest untrimmed, each keyed by its line index.

Shared pieces:

- `JsText` models the ECMAScript string primitives these rules rest on: the regex classes `\s` and `.`, `trim`, `split` and `toUpperCase`.
- `FormResolver` models the minimum-length rule and the "first issue per field" display that both AI forms get from their schema and form libraries.
- `Wrappers` holds `Option`.

Browser I/O, the hosted services and the clock are not modelled. Where a
value comes from one of them, it is a method parameter:

- the environment's API key;
- a file's data URL;
- the AI flow's answer, or its failure.

## Model

| member | source | states |
|---|---|---|
| JsText.ToUpperAscii | src/components/disaster/DisasterMap.tsx:91 | `toUpperCase` on one character: an ASCII lower-case letter becomes its upper-case letter, anything else is unchanged, and the result is never lower-case |
| JsText.TrimStartShape | src/components/chatbot/PersonalizedSafetyTipsForm.tsx:107 | trimming the start removes exactly a white-space prefix and leaves a string that is empty or starts with a non-white-space character |
| JsText.TrimEndShape | src/components/chatbot/PersonalizedSafetyTipsForm.tsx:107 | trimming the end removes exactly a white-space suffix and leaves a string that is empty or ends with a non-white-space character |
| JsText.TrimEmptyIff | src/components/chatbot/PersonalizedSafetyTipsForm.tsx:107 | `item.trim() !== ""` holds exactly when the item has a character outside the ECMAScript white-space set |
| JsText.SplitOn | src/components/chatbot/PersonalizedSafetyTipsForm.tsx:107 | `split('\n')` gives at least one piece (`""` gives `[""]`), no piece holds the separator, and joining the pieces with it gives back the text |
| JsText.SplitJoinRoundTrip | src/components/chatbot/PersonalizedSafetyTipsForm.tsx:107 | splitting undoes joining: separator-free pieces joined and split again come back unchanged |
| JsText.JoinBlankIff | src/components/chatbot/PersonalizedSafetyTipsForm.tsx:107 | a text joined with a white-space separator is blank exactly when every piece is blank |
| SignupRules.IndexOf | src/app/signup/page.tsx:32 | the first position of a character, or the length when it is absent: no earlier position holds it |
| SignupRules.EmailPatternSound | src/app/signup/page.tsx:32 | every string the email pattern accepts passes the scan |
| SignupRules.EmailPatternComplete | src/app/signup/page.tsx:32 | every string that passes the scan is accepted by the email pattern |
| SignupRules.EmailPatternIff | src/app/signup/page.tsx:32 | `/^[^@\s]+@[^@\s]+\.[^@\s]+$/` matches a string exactly when the scan `IsValidEmail` accepts it. The scan requires exactly one '@' with something before it, no white space, and a '.' in the domain that is neither the domain's first nor its last character |
| SignupRules.SymbolRangesAreTheList | src/app/signup/page.tsx:36 | the pattern's symbol bracket holds exactly the ASCII punctuation except backtick and tilde, as four character ranges |
| SignupRules.ClassesOf | src/app/signup/page.tsx:36 | a character belongs to a class (lower, upper, digit, symbol) exactly when it is in the class's bracket set |
| SignupRules.ClassesSeen | src/app/signup/page.tsx:36 | a class is seen in a password exactly when some character of it is in the class |
| SignupRules.SeesAllClasses | src/app/signup/page.tsx:36 | a password drawing on all four classes makes the scan see all four |
| SignupRules.PasswordPatternIff | src/app/signup/page.tsx:36 | the four-lookahead pattern with `.{8,}` matches exactly when the scan `IsStrongPassword` accepts: 8 or more characters, no line terminator, at least one of a-z, one of A-Z, one ASCII digit and one of the listed symbols (backtick and tilde excluded) |
| SignupRules.StrongFromWitnesses | src/app/signup/page.tsx:36 | eight or more characters without a line terminator and with one character of each class pass the password rule |
| SignupRules.ValidationErrors | src/app/signup/page.tsx:30-43 | the email, password and confirm errors are each present exactly when their own check fails, each carries its fixed message, and the object is empty exactly when all three checks pass |
| SignupRules.SignupForm.With | src/app/signup/page.tsx:80-98 | a change handler sets its own field to the typed value and leaves the other seven fields unchanged |
| SignupRules.CanProceedAfterValidation | src/app/signup/page.tsx:117-123 | after validating the values on screen, Next is enabled exactly when all eight fields are non-empty and all three checks pass |
| SignupRules.ClearedFor | src/app/signup/page.tsx:80-91 | editing email, password or confirm turns that field's shown error into `undefined`; every other entry, and the set of keys, is unchanged |
| SignupRules.StaleRevalidationLags | src/app/signup/page.tsx:134-194 | when an edit turns failing checks into passing ones on a complete form, the errors computed from the values before the edit keep Next disabled, while the edited values would enable it |
| SignupRules.StaleRevalidationBlocksNext | src/app/signup/page.tsx:178 | typing the missing `!` into the password `Passw0rd` (confirm `Passw0rd!`, all else valid) is such an edit: the form becomes valid and Next stays disabled |
| Signup.SignupPage.constructor | src/app/signup/page.tsx:9-20 | every field is empty, there are no errors, the page is at step 1, the agreement box is unticked, and Next is disabled |
| Signup.SignupPage.SyncCanProceed | src/app/signup/page.tsx:117-123 | `canProceed` becomes "all eight fields non-empty and no key in `errors`" |
| Signup.SignupPage.Validate | src/app/signup/page.tsx:30-44 | `errors` becomes the error object of the given values; the result is true exactly when all three checks pass |
| Signup.SignupPage.Revalidate | src/app/signup/page.tsx:101-114 | the same new `errors` and the same result as `Validate` on the same values |
| Signup.SignupPage.HandleChange | src/app/signup/page.tsx:80-98 | the edited field takes the new value, and errors are cleared as `ClearedFor` states; agreement, step and `canProceed` are unchanged |
| Signup.SignupPage.OnInput | src/app/signup/page.tsx:134-194 | an input's `onChange` as written: the field takes the new value, but `errors` is the error object of the values from before the edit; the state invariant is kept |
| Signup.SignupPage.OnInputFresh | src/app/signup/page.tsx:134-194 | corrected `onChange`: `errors` describes the edited values, and Next is enabled exactly when every field is filled and every check passes |
| Signup.SignupPage.HandleNext | src/app/signup/page.tsx:46-50 | validates the values on screen; the step becomes 2 when all checks pass and is unchanged otherwise; the field values are untouched |
| Signup.SignupPage.SetAgree | src/app/signup/page.tsx:229-232 | the checkbox sets `agree` and keeps the page invariant |
| Signup.SignupPage.HandleSignup | src/app/signup/page.tsx:52-70 | a request goes to account creation exactly when `agree` is ticked; it carries the email and password, and a profile made of the other fields |
| FormResolver.MinLengthIssues | src/components/chatbot/PersonalizedSafetyTipsForm.tsx:17-18 | `z.string().min(n)` raises no issue exactly when the value has at least n characters, else exactly the configured message |
| FormResolver.FirstIssue | src/components/chatbot/DisasterSeverityAssessmentForm.tsx:38-39 | a field shows no message exactly when it has no issue, else its first issue |
| SeverityAssessment.DescriptionIssues | src/components/chatbot/DisasterSeverityAssessmentForm.tsx:21 | the description passes exactly when it has at least 10 characters, else its one message |
| SeverityAssessment.PhotoIssues | src/components/chatbot/DisasterSeverityAssessmentForm.tsx:22-28 | no issue exactly when there is no photo, or the first file is at most 5 MiB and of an allowed type. The size message is present exactly when the first file is too large, and the format message exactly when its type is not allowed. Nothing else is ever reported, and when both are present the size message comes first |
| SeverityAssessment.SizeLimitBoundary | src/components/chatbot/DisasterSeverityAssessmentForm.tsx:17-24 | the limit is 5,242,880 bytes; a file of exactly that size passes and one byte more draws the size message |
| SeverityAssessment.OnlyFirstFileInspected | src/components/chatbot/DisasterSeverityAssessmentForm.tsx:24-26 | the files after the first never change the photo's issues |
| SeverityAssessment.DecideFile | src/components/chatbot/DisasterSeverityAssessmentForm.tsx:45-58 | branches on the file: none; too large whatever its type; wrong type only when within size; accepted exactly when within size and of an allowed type |
| SeverityAssessment.HandlerAgreesWithSchema | src/components/chatbot/DisasterSeverityAssessmentForm.tsx:45-57 | the handler accepts (or finds no file) exactly when the schema raises no photo issue, and a file it rejects for size gets the schema's size message first |
| SeverityAssessment.PhotoDataUri | src/components/chatbot/DisasterSeverityAssessmentForm.tsx:74-83 | `photoDataUri` is undefined exactly when the photo list is absent or empty, else the first file's data URL |
| SeverityAssessment.SeverityForm.constructor | src/components/chatbot/DisasterSeverityAssessmentForm.tsx:38-43 | the form starts with an empty description, no photo, no messages, no preview and no result |
| SeverityAssessment.SeverityForm.SetDescription | src/components/chatbot/DisasterSeverityAssessmentForm.tsx:122 | typing sets the description |
| SeverityAssessment.SeverityForm.HandleFileChange | src/components/chatbot/DisasterSeverityAssessmentForm.tsx:45-68 | no file clears the preview and the photo value. A too-large file sets the size error and clears the preview; a wrong type sets the type error and clears the preview. An accepted file clears the photo error and is read for the preview |
| SeverityAssessment.SeverityForm.OnPhotoInput | src/components/chatbot/DisasterSeverityAssessmentForm.tsx:139-142 | the chosen list becomes the photo value (none when empty), then the handler runs: a rejected file sets its error and clears the preview, an accepted one clears the error, starts reading the list's first file and leaves the preview until the read completes, and no file leaves the error as it was |
| SeverityAssessment.SeverityForm.PreviewLoaded | src/components/chatbot/DisasterSeverityAssessmentForm.tsx:60-62 | the finished read becomes the preview |
| SeverityAssessment.SeverityForm.Submit | src/components/chatbot/DisasterSeverityAssessmentForm.tsx:70-99 | each field shows its first issue. Nothing is sent unless the schema passes; the previous result is then cleared. A request is sent exactly when there is no photo or its read succeeds; it carries the description and the data URL, which is undefined exactly when there is no photo. The flow's answer (none on failure) becomes the result |
| DisasterMap.MarkerColor | src/components/disaster/DisasterMap.tsx:13-17 | green exactly below 4, amber exactly from 4 to below 6, red exactly from 6 |
| DisasterMap.ColorMonotone | src/components/disaster/DisasterMap.tsx:13-17 | a larger magnitude never gets a milder colour band |
| DisasterMap.StyleFor | src/components/disaster/DisasterMap.tsx:74-77 | the dot is a circle of diameter `10 + 2 * magnitude` px (width equal to height), coloured by the magnitude's band; at least 10 px for a non-negative magnitude |
| DisasterMap.SizeLinearInMagnitude | src/components/disaster/DisasterMap.tsx:75-76 | the dot's size grows by 2 px per unit of magnitude |
| DisasterMap.LabelFor | src/components/disaster/DisasterMap.tsx:91 | the label is the magnitude exactly for an earthquake, else the upper-cased first character of the type (empty for an empty type) |
| DisasterMap.KindReadBack | src/components/disaster/DisasterMap.tsx:27 | the title `M <magnitude> - <place> (<type>)` ends in the event's type, read back from after the last '(' whenever the type holds no '(' |
| DisasterMap.ToMarker | src/components/disaster/DisasterMap.tsx:24-30 | a marker keeps the event's id, magnitude and type, takes lat from latitude and lng from longitude, and gets the title built from magnitude, place and type |
| DisasterMap.EventMarkers | src/components/disaster/DisasterMap.tsx:24-30 | one marker per event, in the events' order |
| DisasterMap.Markers | src/components/disaster/DisasterMap.tsx:24-30 | with events supplied (an empty list included), marker i is event i's marker, title included; without them, the mock markers |
| DisasterMap.CenterAsWrittenLacksLatLng | src/components/disaster/DisasterMap.tsx:40-44 | as written, a non-empty event list makes the effect store the event's `{longitude, latitude}` object, not a `{lat, lng}` position |
| DisasterMap.CenterFor | src/components/disaster/DisasterMap.tsx:40-44 | corrected centre: without events, the first mock marker; with a non-empty event list, the first event's `{lat, lng}` position; otherwise unchanged |
| DisasterMap.CenterIsFirstMarker | src/components/disaster/DisasterMap.tsx:24-44 | with the corrected centre, whatever is supplied, the map centres on the first marker drawn, and keeps its centre when no marker is drawn |
| DisasterMap.DisasterMapView.constructor | src/components/disaster/DisasterMap.tsx:20-22 | no API key, centred on the `{lat, lng}` value for Yangon (16.8409, 96.1735) |
| DisasterMap.DisasterMapView.StoreKey | src/components/disaster/DisasterMap.tsx:33-38 | a set, non-empty key is stored and any other leaves the key unchanged, so only a non-empty key is ever stored |
| DisasterMap.DisasterMapView.RunEffect | src/components/disaster/DisasterMap.tsx:32-45 | the effect as written: the key as `StoreKey` states; the centre becomes the first mock marker when no events are supplied, and the first event's `{longitude, latitude}` object when a non-empty list is |
| DisasterMap.DisasterMapView.RunEffectFixed | src/components/disaster/DisasterMap.tsx:32-45 | the corrected effect: the same key handling; the centre becomes the first marker drawn as a `{lat, lng}` value, as `CenterFor` states, and is unchanged when nothing is drawn |
| SafetyTips.LocationIssues | src/components/chatbot/PersonalizedSafetyTipsForm.tsx:17 | the location passes exactly when it has at least 2 characters, else its one message |
| SafetyTips.EventsIssues | src/components/chatbot/PersonalizedSafetyTipsForm.tsx:18 | the recent-events text passes exactly when it has at least 10 characters, else its one message |
| SafetyTips.KeptAreShownPieces | src/components/chatbot/PersonalizedSafetyTipsForm.tsx:107 | every paragraph is the untrimmed piece its key indexes, and that piece has text |
| SafetyTips.KeptInOrder | src/components/chatbot/PersonalizedSafetyTipsForm.tsx:107 | paragraph keys strictly increase, so they are distinct and follow the text's order |
| SafetyTips.KeepsEveryShownPiece | src/components/chatbot/PersonalizedSafetyTipsForm.tsx:107 | every piece with text has a paragraph keyed by its index |
| SafetyTips.ParagraphsAreNonBlankLines | src/components/chatbot/PersonalizedSafetyTipsForm.tsx:107 | the paragraphs are exactly the non-blank lines of the answer, untrimmed, in order, keyed by line index, and none contains '\n' |
| SafetyTips.NoParagraphsIffBlank | src/components/chatbot/PersonalizedSafetyTipsForm.tsx:107 | an answer renders no paragraph exactly when it is entirely white space |
| SafetyTips.SafetyTipsForm.constructor | src/components/chatbot/PersonalizedSafetyTipsForm.tsx:26-32 | both inputs are empty, with no messages and no result |
| SafetyTips.SafetyTipsForm.SetLocation | src/components/chatbot/PersonalizedSafetyTipsForm.tsx:75 | typing sets the location |
| SafetyTips.SafetyTipsForm.SetRecentDisasterEvents | src/components/chatbot/PersonalizedSafetyTipsForm.tsx:88 | typing sets the recent-events text |
| SafetyTips.SafetyTipsForm.Submit | src/components/chatbot/PersonalizedSafetyTipsForm.tsx:34-52 | each field shows its first issue; nothing is sent unless both inputs pass. Otherwise both inputs go to the flow unchanged, and the result is the flow's answer, none when the call fails |
| SafetyTips.SafetyTipsForm.Rendered | src/components/chatbot/PersonalizedSafetyTipsForm.tsx:103-108 | nothing is rendered until a result arrives; then the paragraphs are those of its `safetyRecommendations`, so `ParagraphsAreNonBlankLines` and `NoParagraphsIffBlank` describe what is shown |

## Left out

- String lengths: JavaScript counts UTF-16 code units, while the model counts characters. Minimum lengths, the 8-character password rule and character positions agree only for text inside the Basic Multilingual Plane.
- JsText.ToUpperAscii: it upper-cases only ASCII letters. `toUpperCase` also maps non-ASCII letters, and can turn one character into several (`'ß'` becomes `"SS"`).
- Number formatting is not modelled:
  - the magnitude's text in a marker title (`${magnitude}`) is a function parameter;
  - `toFixed(1)` in the label is shown as the magnitude itself;
  - NaN and infinities are not modelled, since magnitudes are reals.
- Browser and service I/O is not modelled:
  - `FileReader` reads: their results are parameters of `PreviewLoaded` and `Submit`;
  - `useTransition` and the asynchronous flow calls: their answers are parameters;
  - toasts, `alert` and `console`;
  - the account-creation and profile-writing calls: `HandleSignup` returns the request it would send, and the uid and `createdAt` timestamp are not modelled;
  - `process.env`: the key is a parameter of `RunEffect`.
- The AI flows behind the two forms are prompt templates for a hosted model and are not part of this model.
- The mock marker list is a parameter, not the module's data.
- react-hook-form re-validating on change after the first submit is not modelled. Only the submit-time resolver run is. On that run each field's message is replaced by its first schema issue.
- HTML `required` attributes, the `disabled` state of the buttons and the sign-up hint text are browser rendering. The Next button's state is modelled as `canProceed`.
- `SetAgree` and the input setters store what was typed. The browser's own checks are not modelled.
- Signup.SignupPage.Valid: it is an invariant predicate with no contract of its own.
- DisasterMap.DisasterMapView.Valid: it is an invariant predicate (only a non-empty key is stored) with no contract of its own.
- DisasterMap.CenterAsWritten, DisasterMap.MarkerTitle (the title template of DisasterMap.tsx:27), SignupRules.IsValidEmail, SignupRules.IsStrongPassword, SignupRules.IsPasswordSymbol, JsText.Trim, JsText.TrimStart, JsText.TrimEnd, JsText.JoinWith and SafetyTips.Paragraphs are definitions. Their properties are stated by the lemmas in the table.
- DisasterMap.LastIndexOf and DisasterMap.KindFromTitle: proof helpers of KindReadBack. They decode a title, which the component never does.
- The placeholder shown while no API key is known (DisasterMap.tsx:48-54) is rendering. The key itself is modelled as `apiKey`.
- SafetyTips.KeepNonBlank: its own contract is only a length bound. Its content is stated by KeptAreShownPieces, KeptInOrder and KeepsEveryShownPiece.

## Findings

| source | as written | input that shows it | evidently intended | confidence | as-written member | corrected member |
|---|---|---|---|---|---|---|
| src/app/signup/page.tsx:134-194 | each input's `onChange` runs the change handler and then `revalidate()`. `revalidate` reads the state of the render before the edit, and its `setErrors(newErrors)` replaces the handler's cleared errors, so `errors` always describes the previous values | all fields filled, email `a@b.co`, password `Passw0rd`, confirm `Passw0rd!`. Typing `!` into the password makes the form valid, but `errors` still holds the confirm mismatch, so Next stays disabled until some further edit | revalidate the values just typed, so Next is enabled exactly when every field is filled and every check passes | high (React state updates are not visible to the running handler); not executed | Signup.SignupPage.OnInput, SignupRules.StaleRevalidationLags, SignupRules.StaleRevalidationBlocksNext | Signup.SignupPage.OnInputFresh |
| src/components/disaster/DisasterMap.tsx:43 | with a non-empty `disasterEvents`, the effect stores `disasterEvents[0].coordinates`, a `{longitude, latitude}` object, in `mapCenter`, which the map reads as `{lat, lng}` | `disasterEvents = [e]` with `e.coordinates = {longitude: 96.1, latitude: 16.8}`: `mapCenter` has no `lat` and no `lng` | centre on `{lat: latitude, lng: longitude}` of the first event, the same position as its marker | medium (the type checker would reject this line if type errors fail the build); not executed | DisasterMap.DisasterMapView.RunEffect, DisasterMap.CenterAsWritten, DisasterMap.CenterAsWrittenLacksLatLng | DisasterMap.DisasterMapView.RunEffectFixed, DisasterMap.CenterFor, DisasterMap.CenterIsFirstMarker |
