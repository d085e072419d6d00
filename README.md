# LEXIPRO outcome predictor and story mode, modelled in Dafny

This project models the two parts of the LEXIPRO web app that have behaviour of
their own.

- **Outcome predictor** (`app/labs/predictor/page.tsx`). `handlePredictOutcome`
  checks that the case type, the case description and the relevant laws are all
  non-empty. It then clears the shown prediction, raises the loading flag and
  computes a mock score with three keyword rules:
  - `contract` with "breach" in the lowercased description gives 75;
  - `criminal` with "guilty" in the lowercased description gives 20;
  - `property` with "land acquisition" in the lowercased relevant laws gives 60;
  - anything else gives `Math.floor(Math.random() * 60) + 20`.

  Finally it shows the score and lowers the flag. `getPredictionColor` and
  `getPredictionText` band a prediction as High (70 and above), Moderate (40 to 69),
  Low (below 40) or "Awaiting analysis" (none).
- **Story mode** (`app/story-mode/page.tsx`). The page keeps a transcript of
  segments that starts with one intro segment, plus an input box and a busy flag.
  `handleGenerateStory` ignores a blank input. Otherwise it appends the input
  as a user segment, clears the box, becomes busy and awaits the story
  generator. It then appends exactly one AI segment and stops being busy. That
  segment holds the story, a fixed apology if the story is missing or empty, or a
  fixed error text if the call threw. `handleQuickPrompt` copies a canned
  prompt into the box.

Modules:
- `Text` (text.dfy) gives the JavaScript string operations these handlers use:
  `toLowerCase`, `includes`, `trim` and the decimal `toString` of `Date.now()`.
- `Predictor` (predictor.dfy) holds the scoring function, the bands and the page
  state as the class `OutcomePredictor`.
- `StoryMode` (story_mode.dfy) holds the segments and the page state as the class
  `StoryPage`.
- `Wrappers` (wrappers.dfy) holds `Option`, which stands for `null`/`undefined`.

Injected values:
- `Math.random()` is a `Roll`, an integer in [0, 59] that stands for
  `Math.floor(Math.random() * 60)`.
- `Date.now()` is a natural-number clock reading.
- The `generateStory` server action is a `StoryOutcome`: `Generated(story)` with
  an optional story, or `Failed` for a thrown error. In `HandleGenerateStory` it
  is a function from the request text to such an outcome.

Each handler's `await` splits it into two methods. The predictor has `Start` and
`Finish`; story mode has `Begin` and `Finish`. `HandlePredictOutcome` and
`HandleGenerateStory` run both halves back to back.

Points of the pages' behaviour worth knowing:
- The handler requires the relevant-laws field (app/labs/predictor/page.tsx:24),
  although its label calls it optional (line 129) and the submit button does not
  check it (line 143). A submission with empty laws is rejected even when a rule
  would match it (`EmptyLawsRejected`).
- The fallback score is `Math.floor(Math.random() * 60) + 20`, which ranges over
  20..79. The comment beside it says "Random between 20-80%"
  (app/labs/predictor/page.tsx:48), but 80 is never produced (`FallbackScores`).
- `handleGenerateStory` does not read the busy flag itself. Only the send button's
  `disabled` prop (app/story-mode/page.tsx:194) guards against a second
  submission, and the Enter key (lines 183-187) bypasses it. So `Begin` accepts
  a non-blank input on a busy page too. A prompt entered with
  `HandleQuickPrompt` (or typed) while the first is pending is accepted, and its
  user segment is appended before the first AI segment. Right after `Begin` the
  box is empty, so an immediate second `Begin` changes nothing.
- The only status the story page keeps is the busy flag. A failed generation
  shows up only as an AI segment holding the error text.

Segment ids are built from the clock. A user id is the clock's digits. An AI id
is the digits followed by "-ai", and an error id is the digits followed by
"-error". A user segment and an AI segment therefore never share an id
(`UserAndAiIdsDiffer`, `TranscriptRolesHaveDistinctIds`). Two segments of the
same kind share an id exactly when they were made at the same clock reading
(`IdsFollowClock`).

## Model

| member | source | states |
|---|---|---|
| `Text.Lower` | app/labs/predictor/page.tsx:41 | `toLowerCase` keeps the length and lowers each character on its own (ASCII capitals to small letters, everything else kept), so no ASCII capital remains |
| `Text.LowerIdempotent` | app/labs/predictor/page.tsx:41-45 | lowering an already-lowered string changes nothing |
| `Text.ContainsIffOccurs` | app/labs/predictor/page.tsx:41-45 | `includes(pat)` holds exactly when `pat` occurs at some index of the string |
| `Text.Trim` | app/story-mode/page.tsx:64 | `trim()` is a slice of the input with only ECMAScript whitespace outside it; it is empty exactly when the input is blank, and a non-empty result starts and ends with non-whitespace |
| `Text.NatToString` | app/story-mode/page.tsx:67 | `Date.now().toString()` is a non-empty string of decimal digits, a single digit exactly for values below 10, with a leading zero only for 0 (so 0 prints as "0") |
| `Text.ParseNatToString` | app/story-mode/page.tsx:67 | reading the digits back gives the clock reading: the id determines the time |
| `Text.NatToStringInjective` | app/story-mode/page.tsx:67-89 | two clock readings print the same exactly when they are equal |
| `Predictor.Score` | app/labs/predictor/page.tsx:40-49 | every mock prediction lies in [20, 79] |
| `Predictor.RulesExclusive` | app/labs/predictor/page.tsx:41-46 | the three rules need three different case types, so at most one fires |
| `Predictor.RuleScores` | app/labs/predictor/page.tsx:40-49 | breach gives 75, guilty 20, land acquisition 60 whatever the roll; with no rule the score is roll + 20 |
| `Predictor.OtherCaseTypesFallBack` | app/labs/predictor/page.tsx:103-108 | any other case type, including family, corporate, intellectual_property or a capitalised one, fires no rule and takes the fallback |
| `Predictor.LandRuleIgnoresDescription` | app/labs/predictor/page.tsx:45-48 | the land-acquisition rule reads the relevant laws, not the description |
| `Predictor.RollMattersIffNoRule` | app/labs/predictor/page.tsx:48 | the score depends on the random roll exactly when no rule fires |
| `Predictor.FallbackScores` | app/labs/predictor/page.tsx:48 | on the fallback path exactly the scores 20..79 are reachable, so 80 never is |
| `Predictor.PredictionColor` | app/labs/predictor/page.tsx:59-64 | the colour is the one of the prediction's band: grey for none, green from 70, yellow from 40, red below |
| `Predictor.PredictionText` | app/labs/predictor/page.tsx:66-71 | the text is the one of the prediction's band: awaiting, high from 70, moderate from 40, low below |
| `Predictor.ColorAndTextAgree` | app/labs/predictor/page.tsx:59-71 | two predictions get the same colour exactly when they get the same text, exactly when they are in the same band |
| `Predictor.RuleBands` | app/labs/predictor/page.tsx:66-71 | the breach score reads as High, the guilty score as Low and the land-acquisition score as Moderate |
| `Predictor.ContractBreachCase` | app/labs/predictor/page.tsx:41-42 | a complete contract case whose description contains "Breach" in any letter case scores 75, High |
| `Predictor.CriminalGuiltyCase` | app/labs/predictor/page.tsx:43-44 | a complete criminal case whose description contains "guilty" scores 20, Low |
| `Predictor.LandAcquisitionCase` | app/labs/predictor/page.tsx:45-46 | a complete property case citing "Land Acquisition Act" scores 60, Moderate |
| `Predictor.EmptyLawsRejected` | app/labs/predictor/page.tsx:24-31 | a form with empty relevant laws fails the handler's guard |
| `Predictor.OutcomePredictor.constructor` | app/labs/predictor/page.tsx:16-20 | all fields start empty, with no prediction and no loading |
| `Predictor.OutcomePredictor.SetCaseType` | app/labs/predictor/page.tsx:98 | changes the case type only |
| `Predictor.OutcomePredictor.SetCaseDescription` | app/labs/predictor/page.tsx:121 | changes the description only |
| `Predictor.OutcomePredictor.SetRelevantLaws` | app/labs/predictor/page.tsx:135 | changes the relevant laws only |
| `Predictor.OutcomePredictor.Start` | app/labs/predictor/page.tsx:24-34 | an incomplete form leaves prediction and loading untouched; a complete one clears the prediction, starts loading and submits the fields as they are |
| `Predictor.OutcomePredictor.Finish` | app/labs/predictor/page.tsx:40-52 | shows the score of the submitted fields and stops loading; keeps "loading implies no prediction" and "a shown prediction is in [20, 79]" |
| `Predictor.OutcomePredictor.HandlePredictOutcome` | app/labs/predictor/page.tsx:23-57 | a complete form ends with its score shown and loading off; an incomplete one changes nothing |
| `StoryMode.QuickPromptsSubmittable` | app/story-mode/page.tsx:19-40 | every canned prompt is non-blank, so choosing one makes the form submittable, and the prompt ids are distinct |
| `StoryMode.IntroSegment` | app/story-mode/page.tsx:43-50 | the intro is an AI segment with the welcome text and a non-numeric id |
| `StoryMode.UserSegment` | app/story-mode/page.tsx:66-71 | a user segment holds the prompt as typed, and its id is digits that read back as the clock reading |
| `StoryMode.StoryText` | app/story-mode/page.tsx:82 | a non-empty story is kept; a missing or empty one becomes the fixed apology |
| `StoryMode.ResponseSegment` | app/story-mode/page.tsx:79-94 | an AI segment holds the story text under "digits-ai", or the error text under "digits-error" on failure |
| `StoryMode.UserAndAiIdsDiffer` | app/story-mode/page.tsx:67-89 | a user id never equals an AI id, whatever the clock readings |
| `StoryMode.TranscriptRolesHaveDistinctIds` | app/story-mode/page.tsx:66-94 | in a well-formed transcript no user segment shares an id with an AI segment |
| `StoryMode.IdsFollowClock` | app/story-mode/page.tsx:67-89 | ids of the same kind coincide exactly when the clock readings do |
| `StoryMode.StoryPage.constructor` | app/story-mode/page.tsx:43-52 | the transcript is exactly the intro segment, the input is empty and the page is idle |
| `StoryMode.StoryPage.HandleQuickPrompt` | app/story-mode/page.tsx:100-102 | sets the input to the chosen prompt and changes nothing else |
| `StoryMode.StoryPage.Begin` | app/story-mode/page.tsx:63-74 | blank input changes nothing; otherwise exactly one user segment with the untrimmed input is appended, the input is cleared, the page is busy and the same text goes to the generator |
| `StoryMode.StoryPage.Finish` | app/story-mode/page.tsx:76-97 | exactly one AI segment for the outcome is appended, earlier segments are kept and the page is idle |
| `StoryMode.StoryPage.HandleGenerateStory` | app/story-mode/page.tsx:63-98 | an accepted prompt grows the transcript by exactly two segments, user then AI, after the untouched old ones |

## Left out

- Rendering, styling, the dashboard layout, the scroll area and the scroll-to-bottom effect (app/story-mode/page.tsx:55-61) are UI only.
- Toast notifications and `console.error` are side effects with no state; the returned `Option` records whether a submission was accepted.
- The 2500 ms delay in the predictor is timer plumbing. `Start` and `Finish` stand for the code before and after it.
- Text.Lower: only ASCII capitals are lowered. JavaScript's full Unicode case mapping, including mappings that change the length, is not modelled.
- StoryMode.UserSegment and StoryMode.ResponseSegment: one clock reading gives both a segment's id and its timestamp. The source reads `Date.now()` and `new Date()` separately. Timestamps are natural numbers, not dates.
- StoryMode.StoryPage.HandleGenerateStory: no typing happens while the generator runs. With `Begin` and `Finish` called separately, `HandleQuickPrompt` may run in between, as the page allows.
- The input box's own change handler (app/story-mode/page.tsx:182) makes the same update as `HandleQuickPrompt` and is not modelled separately.
- A generator response that is itself null would throw inside the `try`. It is covered by `Failed`. A non-string `story` value is not modelled.
- Concurrency: overlapping handler runs are modelled only as interleaved calls of `Begin`/`Finish` and `Start`/`Finish`. There is no busy rejection and no stale-result suppression, because the source has neither.
- The `generateStory` server action is not part of this model; it is injected as an outcome.
- `app/ai-assistant/page.tsx` is not part of this model. It wraps a chat hook whose code is not available, and its speech and listening flags are driven by browser callbacks and timers.
- `components/providers.tsx` is not part of this model: it only composes components.
