# Workplace micro-aggression trainer: session model

This project models the session logic of a browser-based training simulator in Dafny. A user steps through ten workplace scenarios. For each one they pick one of three responses, which scores 2, 0 or -1, and a coach verdict is shown. A webcam expression detector picks one of six coaching suggestions. Everything that happens is written to an append-only log that can be exported.

The model covers the core of `app.js`:

- `Scenarios` holds the scenario table: ten scenarios, each with three options scored 2, 0 and -1, and distinct ids.
- `Navigation` holds the circular index arithmetic used by Next, Prev and the auto-advance timer.
- `Coaching` holds the coach verdict, chosen by the sign of a score, and the binding of keys `1`, `2`, `3` to options.
- `ResponseText` holds JavaScript's `String.prototype.trim`, applied to a typed response.
- `Expressions` holds the top-expression loop (compared with a strict `>`), the mapping of the top name onto the six suggestion keys, and the suggestion table lookup that falls back to `neutral`.
- `Session` holds the session itself, as the class `TrainingSession`.
  - Its fields are `currentIndex`, `score` and `log`. It also counts the auto-advance timers that are scheduled but have not fired, and holds the text of the suggestion panel and of the response box.
  - There is one method per event handler. Each method's contract gives the new value of every field it may change.
  - The invariant `Valid()` says the index names a scenario and the score equals the sum of the logged choice scores. Every logged choice score must also be a table score.
- `Walkthroughs` holds short driven sessions: two quick choices, an export, and wraparound.

The `setTimeout` auto-advance is modelled as its own step, `FireAutoAdvance`. It reads `currentIndex` when it fires. Timers are never cancelled, so two quick choices both score against the scenario on screen, and then both advances fire (`Walkthroughs.TwoQuickChoices`).

Timestamps, snapshot image data, whether a pointer ray hits, and the detector's readings all arrive as parameters.

Two details of the code that a reader might not expect:

- The expression record logs the *mapped* suggestion key, not the detector's raw label. So a top expression of `disgusted` is logged as `neutral`. The confidence logged is that of the top reading.
- When no reading is above 0, the pick is `neutral` with confidence 0, whatever the detector reported.
- The key listener is on the whole window (app.js:297), so typing `1`, `2` or `3` into the response box also applies a choice. The model keeps typing (`EditResponse`) and key presses (`KeyDown`) as separate steps, so a caller that types a digit must also issue the key press.

## Model

| member | source | states |
|---|---|---|
| Scenarios.TableShape | app.js:32-83 | the table has 10 scenarios, each with exactly three options scored 2, 0, -1 in that order, and the ids are pairwise distinct |
| Scenarios.ChoiceAt | app.js:280-281 | option k of any scenario exists for k in 0..2, belongs to that scenario and carries the k-th table score |
| Navigation.NextIndex | app.js:305 | `(i + 1) % n` stays below n and is i + 1, or 0 after the last index |
| Navigation.PrevIndex | app.js:304 | `(i - 1 + n) % n` stays below n and is i - 1, or n - 1 before the first index |
| Navigation.PrevNextInverse | app.js:304-305 | Prev after Next, and Next after Prev, return to the original index |
| Navigation.AdvanceTimesWithinLap | app.js:288-290 | k advances from i, for k up to n, reach i + k, less n once the end is passed |
| Navigation.FullCycle | app.js:304-305 | n advances from any index come back to it |
| Coaching.TierName | app.js:285 | each verdict's wording (`Constructive`, `Neutral`, `Less effective`) reads back as that verdict, so distinct verdicts have distinct wordings |
| Coaching.FeedbackText | app.js:285 | the feedback line `You chose: "<label>". Coach: <verdict>.` reads back as exactly the chosen option's label and the verdict for its score |
| Coaching.CoachTier | app.js:285 | the verdict is Constructive iff the score is > 0, Neutral iff it is 0, Less effective iff it is < 0 |
| Coaching.TiersFollowOptionOrder | app.js:285 | in every scenario the options are rated Constructive, Neutral and Less effective, in that order |
| Coaching.ChoiceForKey | app.js:297-301 | exactly the keys '1', '2', '3' select an option; the option selected is below 3, and its key is the digit one above it |
| Coaching.KeyRoundTrip | app.js:297-301 | the key of option k selects option k |
| ResponseText.Trim | app.js:315 | the trimmed text is no longer than the input, is empty iff the input is all white space and line terminators, and otherwise starts and ends with a character `trim` keeps |
| ResponseText.TrimStartSpec | app.js:315 | leading trimming keeps a suffix that starts with a non-trimmable character and cuts off only trimmable characters |
| ResponseText.TrimEndSpec | app.js:315 | trailing trimming keeps a prefix that ends with a non-trimmable character and cuts off only trimmable characters |
| ResponseText.TrimIsCore | app.js:315 | the trimmed text is a contiguous stretch of the input; there are only trimmable characters outside it and none at either of its ends |
| ResponseText.TrimEmptyIff | app.js:315-316 | the trimmed text is empty iff the input is entirely white space or line terminators |
| ResponseText.TrimIdempotent | app.js:315 | trimming a trimmed text changes nothing |
| Expressions.TopExpression | app.js:376-379 | the loop's final pick equals the left-to-right fold that replaces the pick only on a strictly greater confidence |
| Expressions.TopIsUpperBound | app.js:376-379 | the pick's value is at least 0 and at least every reading's confidence |
| Expressions.TopIsEarliestMax | app.js:376-379 | a pick above 0 is some reading j, and every reading before j is strictly smaller, so ties go to the earliest key |
| Expressions.TopNeutralWhenNothingPositive | app.js:376-379 | the pick's value is 0 iff no reading is above 0, and then the pick is `neutral` |
| Expressions.MapExpression | app.js:381-387 | the mapped key is always one of the six suggestion keys; it is the name itself when the name is one of them, and `neutral` otherwise |
| Expressions.SuggestionFor | app.js:439 | the lookup returns an entry of the table: the key's own entry when the table has that key, the `neutral` entry otherwise |
| Expressions.MappedKeyIsInTable | app.js:88-113 | the table's keys are exactly the six mapping keys, so a mapped key never takes the `neutral` fallback |
| Expressions.LookupExamples | app.js:439 | `unknown-label` falls back to the `neutral` suggestion; `angry` gets its own, different suggestion |
| Session.ChoiceScoreTotalAppend | app.js:282-286 | appending a record raises the choice-score total by that record's score (0 unless it is a choice) and the choice count by one exactly for a choice |
| Session.ChoiceScoreTotalConcat | app.js:282-286 | the choice-score total of a log is the sum of the totals of any two parts it is split into |
| Session.ScoreBounds | app.js:282 | with table scores, the total lies between minus the number of choices and twice the number of choices |
| Session.TrainingSession.constructor | app.js:237-239 | a new session is at index 0 with score 0 and no pending advance, and its log holds exactly the first scenario's view (app.js:482) |
| Session.TrainingSession.ShowScenario | app.js:262-276 | appends exactly one view record with the scenario's id, clears the suggestion panel, and keeps the invariant; score, index and timers are unchanged |
| Session.TrainingSession.ApplyChoice | app.js:279-292 | score rises by exactly the option's score; exactly one choice record is appended with the scenario id, label and score; the coach feedback is shown; one advance is scheduled; the index is unchanged |
| Session.TrainingSession.FireAutoAdvance | app.js:288-291 | moves to the scenario after the one current when the timer fires, appends its view record, and consumes one scheduled advance |
| Session.TrainingSession.Next | app.js:305 | moves to the next index with wraparound and appends its view record; the score is unchanged |
| Session.TrainingSession.Prev | app.js:304 | moves to the previous index with wraparound and appends its view record; the score is unchanged |
| Session.TrainingSession.KeyDown | app.js:297-301 | keys '1' to '3' apply the matching option: the score rises by its score and exactly its choice record is appended; the coach feedback for that option is shown; any other key changes neither log, score, timers nor the suggestion panel |
| Session.TrainingSession.PointerDown | app.js:462-466 | a hit applies option 0 of the current scenario: its score, its choice record, its coach feedback and one more scheduled advance; a miss leaves log, score, timers and the suggestion panel unchanged |
| Session.TrainingSession.EditResponse | app.js:315 | the response box holds exactly what was typed, which is what Submit reads |
| Session.TrainingSession.ClearResponse | app.js:321 | the response box is emptied |
| Session.TrainingSession.SubmitResponse | app.js:314-320 | saves iff the text is not all white space; if refused, log, panel and box are unchanged; if saved, exactly one response record with the trimmed text and the current scenario id is appended, echoed, and the box is emptied |
| Session.TrainingSession.OnDetection | app.js:373-392 | no face leaves log and panel unchanged; otherwise the mapped top expression's suggestion text is shown and exactly one expression record with that key and the top confidence is appended |
| Session.TrainingSession.TakeSnapshot | app.js:428-435 | refused (log unchanged) iff the video has no width; otherwise exactly one snapshot record with the image data is appended |
| Session.TrainingSession.ExportSession | app.js:306-307 | the document holds the timestamp, the score and the whole log in order; its score equals the total of its own choice records and lies within the per-choice bounds |
| Walkthroughs.TwoQuickChoices | app.js:279-291 | two choices before any advance fires both score against the first scenario (total 4), and both advances fire, ending on the third scenario |
| Walkthroughs.FirstOptionTwice | app.js:282-290 | choosing the first option of scenarios `interrupted` and `name` scores 4 |
| Walkthroughs.ExportAfterOneChoice | app.js:306-307 | after the initial view and one choice, the export holds exactly those two records in order, with score 2 |
| Walkthroughs.WrapAroundAndBack | app.js:304-305 | Prev from the first scenario wraps to the last, Next wraps back, and each move logs one view |

## Left out

- Scene construction, lights, meshes, resize handling and the animation loop (app.js:118-227, app.js:472-477): this is rendering through three.js.
- Pointer lock and raycasting geometry (app.js:130-138, app.js:456-461): these are foreign calls and floating point. Only the outcome, a hit or a miss, enters `PointerDown`.
- Texture loading and the stock-photo URLs with their `Date.now()` cache-bust (app.js:266-271, app.js:441-448): these are remote I/O and a clock. The image URLs and queries are kept as table data.
- Model loading, camera access, the video texture and `stopCamera` (app.js:331-368, app.js:394-425): these are device and network I/O. Detection enters only as one synchronous `OnDetection` step.
- The `readyState` guard (app.js:370) is folded into "no detection" (`None`).
- Overlapping `setInterval` callbacks (app.js:369) are concurrency and are not modelled.
- Expressions.TopExpression: confidences are integers rather than floating-point numbers in [0, 1]. The loop only compares them with `>` against a start of 0.
- The JSON serialization, Blob and download of the export (app.js:308-310), and the canvas capture of a snapshot (app.js:429-432): these are browser APIs. The export is the record itself, and the image data is an opaque string.
- `updateHUD`, the status line and `alert` dialogs: these only display state the model already holds.
- Expressions.SuggestionFor: JavaScript's `[]` would also find inherited object members (a key such as `constructor`). The model treats only the six table keys as present. The only caller passes a mapped key, which is always one of the six.
- vsc.py and source code.py are not part of this model. They are a desktop GUI and a chat-API client, not the browser session.
