# Hearing self-test engine — a Dafny model

This project models the audiometric self-test core of a hearing-clinic website:

- **Scoring engine** (`lib/hearing-test-data.ts`). These are pure functions. One averages a list of per-frequency thresholds into a percentage. One combines a weighted seven-question questionnaire score with the thresholds of both ears into one of four assessments (`normal`, `mild-loss`, `moderate-loss`, `severe-loss`). Others return fixed recommendation and tip lists.
- **Tone generator** (`lib/audio-generator.ts`, class `AudiometryToneGenerator`). This is a state machine over immutable states. It has an audio-context capability (`Available` or `Unavailable`) and at most one node chain, modelled as `Option<Graph>` with frequency, gain and pan. It also records the current frequency, volume and ear, and a looping flag. Every call (`startLoopingTone`, `playTone` and its timer, `stopTone`, `setVolume`, `cleanup`) is a function from state to state. `Run` folds a sequence of calls.
- **Results view** (`components/hearing-test-results-new.tsx`). This covers the pure parts of the view: the severity read from the overall percentage, the per-ear hearing label, the per-frequency readout, and the payload posted for e-mail.

A threshold is the normalised playback volume (0 to 1) at which the subject first heard the tone. The source's comments disagree on what a high threshold means (`lib/hearing-test-data.ts:76` against `:120`). The model follows the arithmetic:

- `HearingPercentage` grows with the thresholds.
- `OverallAssessment` grows more severe with them.
- The per-frequency readout and `LevelOf` treat a high threshold as worse hearing.
- `AssessmentSeverity` treats a high percentage as better hearing.

`ViewProperties.ClassificationSchemesDisagree` proves that the engine's assessment and the displayed severity can point in opposite directions. (The e-mail route computes `round((1 - avg) * 100)`, the inverse of `lib/hearing-test-data.ts:79`. The route is not part of this model.)

Numbers are Dafny `real`, with no floating-point error. `Math.round(x)` is `Floor(x + 0.5)`. Questionnaire answers and scores are `int` option indices. An empty threshold list makes the source divide by zero. Every average therefore requires a non-empty list.

Modules: `Wrappers` (Option), `RealMath` (rounding, clamping, sums and means), `HearingTestData`, `ScoringProperties`, `AudioGenerator`, `GeneratorProperties`, `ResultsView`, `ViewProperties`.

## Behaviour at the edges

- The normal rule is a strict `< 15`. A mean threshold of 0.1875 gives a loss of exactly 15, so with score 29 the result is `mild-loss` (`ScoringProperties.NormalBoundary`).
- The loudness compensation caps a boosted volume at 1 but never clamps from below. Above 250 Hz it passes the volume through uncapped, so `startLoopingTone(1000, 1.5)` sets a gain of 1.5 (`GeneratorProperties.UnboostedBandIsUncapped`). `setVolume` clamps first, so the same volume ramps to 1 there (`GeneratorProperties.OutOfRangeVolumeGainsDiverge`).

## Model

| member | source | states |
|---|---|---|
| RealMath.Round | lib/hearing-test-data.ts:79 | `Math.round` gives the nearest integer: within one half of its argument, halves rounded up |
| RealMath.Clamp01 | lib/audio-generator.ts:147 | `Math.max(0, Math.min(1, v))` lies in [0, 1], keeps values already there, and maps values below and above to 0 and 1 |
| RealMath.Mean | lib/hearing-test-data.ts:77 | the average of values in [0, 1] lies in [0, 1] |
| RealMath.Sum | lib/hearing-test-data.ts:77 | the `reduce` starts from 0, so an empty list sums to 0 and one threshold sums to itself |
| RealMath.SumBounds | lib/hearing-test-data.ts:77 | the `reduce` sum of n values in [0, 1] lies in [0, n] |
| RealMath.SumAppend | lib/hearing-test-data.ts:114-115 | summing both ears' thresholds together equals adding the per-ear sums |
| RealMath.SumMonotone | lib/hearing-test-data.ts:115 | raising any threshold never lowers the sum |
| RealMath.MeanMonotone | lib/hearing-test-data.ts:115 | raising any threshold never lowers the average |
| RealMath.MeanOfConcat | lib/hearing-test-data.ts:114-115 | for equally long ears, the combined average is the mean of the two ear averages |
| HearingTestData.TheoreticalQuestions | lib/hearing-test-data.ts:25-69 | seven questions weighted 5,4,4,5,4,3,4; only the sixth has id `q6`; it has 3 options and the others 5 |
| HearingTestData.TestFrequencies | lib/hearing-test-data.ts:72 | seven frequencies from 50 to 8000 Hz, strictly increasing |
| HearingTestData.Thresholds | lib/hearing-test-data.ts:114 | the `map(r => r.threshold)` keeps length and order |
| HearingTestData.HearingPercentage | lib/hearing-test-data.ts:74-80 | for a non-empty list, the nearest integer to 100 × the mean threshold; in [0, 100] when every threshold is in [0, 1] |
| HearingTestData.OverallPercentage | lib/hearing-test-data.ts:82-89 | in [0, 100] when every threshold of both ears is in [0, 1] |
| ScoringProperties.SameEarTwice | lib/hearing-test-data.ts:82-89 | with the same list for both ears, the overall percentage equals that list's own percentage |
| HearingTestData.Contribution | lib/hearing-test-data.ts:96-101 | among the first seven, an answer adds answer × its weight; `q6` adds its weight 3 when the answer is positive and 0 otherwise |
| HearingTestData.TheoreticalScore | lib/hearing-test-data.ts:91-106 | with non-negative answers the questionnaire score is non-negative |
| HearingTestData.CalculateTheoreticalScore | lib/hearing-test-data.ts:91-106 | the `forEach` loop computes the fold `TheoreticalScore`, non-negative for non-negative answers |
| HearingTestData.AverageThreshold | lib/hearing-test-data.ts:113-115 | the average over all samples of both ears lies in [0, 1] for valid ears |
| HearingTestData.OverallAssessment | lib/hearing-test-data.ts:108-133 | `normal` iff loss < 15 AND factor < 0.3; `severe-loss` iff loss ≥ 55 AND factor ≥ 0.7; mild and moderate are the OR-bands between; exactly one class always |
| HearingTestData.Recommendations | lib/hearing-test-data.ts:135-170 | the fixed lists have 4, 5, 5 and 6 entries for normal, mild, moderate and severe |
| HearingTestData.HearingTips | lib/hearing-test-data.ts:172-185 | always the same ten tips |
| ScoringProperties.ContributionMonotone | lib/hearing-test-data.ts:97-102 | a larger answer never adds less to the score |
| ScoringProperties.HalfwayIsFifty | lib/hearing-test-data.ts:74-80 | thresholds 0 and 1 give 50 percent |
| ScoringProperties.OverallPercentageSymmetric | lib/hearing-test-data.ts:82-89 | swapping left and right leaves the overall percentage unchanged |
| ScoringProperties.ScoreUpdate | lib/hearing-test-data.ts:93-104 | changing one answer shifts the score by exactly the change in that answer's contribution, and by nothing past the seventh |
| ScoringProperties.ScoreIgnoresExtraAnswers | lib/hearing-test-data.ts:93-94 | appending answers to a list of seven or more leaves the score unchanged |
| ScoringProperties.ScorePaddedWithZeros | lib/hearing-test-data.ts:91-105 | missing answers count as zero: padding with zeros never changes the score |
| ScoringProperties.ScoreStep | lib/hearing-test-data.ts:93-104 | each of the first seven answers adds its contribution to the running total |
| ScoringProperties.ScoreClosedForm | lib/hearing-test-data.ts:25-106 | for seven answers the score is 5a0+4a1+4a2+5a3+4a4+(3 if a5>0)+4a6 |
| ScoringProperties.ScoreExample | lib/hearing-test-data.ts:97-101 | answers [4,4,4,4,4,1,4] score 107 |
| ScoringProperties.EarPreferenceIsPresence | lib/hearing-test-data.ts:97-99 | the `q6` answer adds its weight 3 when positive and 0 otherwise, whatever its magnitude |
| ScoringProperties.GradedAnswerScalesByWeight | lib/hearing-test-data.ts:100-101 | every other of the first seven answers adds answer × its weight |
| ScoringProperties.ScoreMonotone | lib/hearing-test-data.ts:91-106 | raising any answers never lowers the score |
| ScoringProperties.OverallAssessmentMonotone | lib/hearing-test-data.ts:108-133 | higher thresholds and a higher score never give a milder class |
| ScoringProperties.NormalBoundary | lib/hearing-test-data.ts:120-127 | mean 0.1875 (loss exactly 15) with score 29 or 31 is mild loss; mean 0.18 with score 29 is normal |
| ScoringProperties.OverallPercentageTracksAverage | lib/hearing-test-data.ts:82-115 | for equally long ears, the overall percentage is within 1 of 100 × the combined mean threshold the assessment uses |
| ScoringProperties.RecommendationsDistinguishClasses | lib/hearing-test-data.ts:135-170 | different classes get different recommendation lists |
| AudioGenerator.New | lib/audio-generator.ts:1-15 | a fresh generator is silent and valid, and holds a context exactly when one could be created |
| AudioGenerator.Compensate | lib/audio-generator.ts:31-38 | ×4 below 50 Hz, ×3 in [50, 100), ×2 in [100, 250], each capped at 1; unchanged above 250 Hz; a volume in [0, 1] is never lowered and stays ≤ 1 |
| AudioGenerator.RampTarget | lib/audio-generator.ts:158-160 | the ramp target is at least 0.001, equals the compensated volume when that is larger, and is at most 1 for volumes in [0, 1] |
| AudioGenerator.PanValue | lib/audio-generator.ts:43 | -1 exactly for left, +1 exactly for right, 0 exactly for both |
| AudioGenerator.StopTone | lib/audio-generator.ts:125-144 | no chain and not looping afterwards; context, frequency, volume and ear unchanged; keeps the invariant |
| AudioGenerator.StartLoopingTone | lib/audio-generator.ts:17-63 | no context: no change; otherwise one fresh chain (never the previous one) at the compensated gain and the ear's pan, looping, with frequency, raw volume and ear recorded |
| AudioGenerator.PlayTone | lib/audio-generator.ts:65-115 | as `startLoopingTone` but not looping and with a pending timer for the new chain; no context: no change and no timer |
| AudioGenerator.PlayTimerFires | lib/audio-generator.ts:116-122 | the auto-stop as written stops whatever is playing |
| AudioGenerator.PlayTimerFiresOwnChain | lib/audio-generator.ts:116-122 | the corrected auto-stop stops only its own chain and otherwise changes nothing |
| AudioGenerator.SetVolume | lib/audio-generator.ts:146-162 | stores the clamped volume; with a chain, ramps only its gain, to the floored compensated volume in [0.001, 1]; nothing else changes |
| AudioGenerator.GetVolume | lib/audio-generator.ts:164-166 | returns the recorded volume |
| AudioGenerator.GetIsLooping | lib/audio-generator.ts:168-170 | returns the looping flag |
| AudioGenerator.Cleanup | lib/audio-generator.ts:172-178 | no context, no chain, not looping afterwards |
| GeneratorProperties.StopToneIdempotent | lib/audio-generator.ts:125-144 | stopping twice equals stopping once |
| GeneratorProperties.RunPreservesValid | lib/audio-generator.ts:17-178 | every sequence of calls keeps the invariant: at most one chain, only with a context, playing the recorded frequency and pan at the compensated gain, or after `setVolume` that gain floored at 0.001 |
| GeneratorProperties.ClosedStaysSilent | lib/audio-generator.ts:18-71 | without a context and a chain, no call sequence starts a tone |
| GeneratorProperties.CleanupIsTerminal | lib/audio-generator.ts:172-178 | after `cleanup`, no call sequence plays a tone again |
| GeneratorProperties.NoContextNoSound | lib/audio-generator.ts:18-71 | without a context, starting or playing changes nothing |
| GeneratorProperties.VolumeRoundTrip | lib/audio-generator.ts:146-166 | `getVolume` after `setVolume(v)` returns v clamped to [0, 1] |
| GeneratorProperties.StartRecordsRawVolume | lib/audio-generator.ts:58-60 | `getVolume` after `startLoopingTone(f, v)` returns the raw v, possibly outside [0, 1] |
| GeneratorProperties.LoopingFlag | lib/audio-generator.ts:62-126 | looping after `startLoopingTone`, not after `playTone` or `stopTone` |
| GeneratorProperties.SameAdjustedGain | lib/audio-generator.ts:31-157 | for volumes in [0, 1], start and play set the same adjusted gain for the same frequency, and setVolume's ramp target is that gain floored at 0.001 |
| GeneratorProperties.OutOfRangeVolumeGainsDiverge | lib/audio-generator.ts:31-160 | outside [0, 1] the paths part: at 1000 Hz a start at volume 1.5 sets gain 1.5, while setVolume(1.5) ramps to 1 |
| GeneratorProperties.CompensateMonotoneInVolume | lib/audio-generator.ts:31-38 | a louder request never gives a lower gain |
| GeneratorProperties.CompensateAntitoneInFrequency | lib/audio-generator.ts:31-38 | for volumes in [0, 1], a lower frequency never gets less boost |
| GeneratorProperties.UnboostedBandIsUncapped | lib/audio-generator.ts:31-38 | above 250 Hz a volume of 1.5 reaches the gain unchanged; in a boosted band it is capped to 1 |
| GeneratorProperties.TestFrequencyCompensation | lib/audio-generator.ts:31-38 | of the test frequencies, 50 Hz is tripled, 250 Hz doubled and the rest unchanged |
| GeneratorProperties.LateTimerStopsNewerTone | lib/audio-generator.ts:116-122 | as written, an earlier play's timer stops a looping tone started afterwards |
| GeneratorProperties.OwnTimerSparesNewerTone | lib/audio-generator.ts:116-122 | corrected, the late timer leaves the newer tone alone, while its own tone is stopped even after volume changes |
| ResultsView.AssessmentSeverity | components/hearing-test-results-new.tsx:35-40 | ≥ 90 normal, 75–89 mild, 50–74 moderate, below 50 severe, each as an iff |
| ResultsView.LevelOf | components/hearing-test-results-new.tsx:164-169 | below 0.25 good, below 0.4 fair, below 0.6 loss, otherwise significant loss, each as an iff |
| ResultsView.EarAverage | components/hearing-test-results-new.tsx:160-161 | the per-ear average needs a non-empty list, lies in [0, 1] for valid ears, and is within half a point of the engine's percentage |
| ResultsView.FrequencyDisplayPercentage | components/hearing-test-results-new.tsx:264 | the readout is the nearest integer to (1 − threshold) × 100, in [0, 100] for thresholds in [0, 1] |
| ResultsView.DisplayedSeverity | components/hearing-test-results-new.tsx:31-43 | the shown severity is normal iff the overall percentage is ≥ 90, severe iff it is below 50, and at most mild iff it is ≥ 75 |
| ResultsView.SentResult | components/hearing-test-results-new.tsx:58 | the sent result carries the displayed severity; every other field is the computed result's |
| ResultsView.PayloadEarsAsWritten | components/hearing-test-results-new.tsx:23-24 | as written, the ear list sent is the prop or the default `[]`, never the result's own list |
| ResultsView.PayloadEars | components/hearing-test-results-new.tsx:59-60 | corrected fallback: a missing or empty prop yields the result's own list, a non-empty prop is used as is |
| ResultsView.EmailPayloadAsWritten | components/hearing-test-results-new.tsx:55-61 | as written, the posted body holds the customer data, the result with only the assessment replaced, and each ear's prop or `[]` when the prop is missing |
| ResultsView.EmailPayloadFor | components/hearing-test-results-new.tsx:55-61 | the corrected payload: the same customer data and sent result as written, with ear lists that fall back to the result's own non-empty lists |
| ViewProperties.SeverityMonotone | components/hearing-test-results-new.tsx:35-40 | a higher percentage never shows a more severe class |
| ViewProperties.LevelMonotone | components/hearing-test-results-new.tsx:164-169 | a higher mean threshold never shows a better label |
| ViewProperties.DisplayPercentageAntitone | components/hearing-test-results-new.tsx:309 | a higher threshold never shows a higher readout |
| ViewProperties.DisplayComplementsEngine | components/hearing-test-results-new.tsx:264 | for one sample, the readout plus the engine's percentage is 100, or 101 on a half |
| ViewProperties.ClassificationSchemesDisagree | components/hearing-test-results-new.tsx:31-43 | all-zero thresholds with score 0 are normal for the engine but shown as severe; all-one thresholds with score 100 are severe but shown as normal |
| ViewProperties.SentResultChangesOnlyAssessment | components/hearing-test-results-new.tsx:58 | the sent result is the computed one with only the assessment replaced, and equal to it iff the two assessments agree |
| ViewProperties.FallbackIsDead | components/hearing-test-results-new.tsx:23-24 | as written, a missing ear prop sends `[]` even when the result has samples; a given prop is sent as is |
| ViewProperties.PayloadsPartOnMissingProp | components/hearing-test-results-new.tsx:55-61 | the as-written and corrected payloads carry the same result, and differ on an ear whose prop is missing while the result has samples for it |

## Findings

| source | as written | input that shows it | evidently intended | confidence | as-written member | corrected member |
|---|---|---|---|---|---|---|
| lib/audio-generator.ts:116-122 | the `playTone` timer calls `stopTone()` unconditionally when it fires | `playTone(1000, 0.5, 2000)`, then `startLoopingTone(250, 0.2, "right")` within 2 s: the timer cuts off the looping tone and clears `isLooping` | the timer stops only the chain its own call built; a late timer does nothing | medium, not executed | GeneratorProperties.LateTimerStopsNewerTone | AudioGenerator.PlayTimerFiresOwnChain |
| components/hearing-test-results-new.tsx:23-24 | ear props default to `[]`, and `leftEarResults \|\| result.leftEarResults` never falls back because every array is truthy | render without `leftEarResults`: the posted body has `leftEarResults: []` although `result.leftEarResults` holds seven samples | fall back to the result's own lists when the prop is absent or empty | medium, not executed | ViewProperties.FallbackIsDead | ResultsView.PayloadEars |

`AudioGenerator.PlayTimerFires` is the auto-stop as written. `Step` and `Run` use it, so `RunPreservesValid` covers the source's behaviour. `PlayTimerFiresOwnChain` is the corrected step. `GeneratorProperties.OwnTimerSparesNewerTone` proves it leaves a newer tone alone. `ResultsView.EmailPayloadAsWritten` posts what the code posts, through `PayloadEarsAsWritten`. `ResultsView.EmailPayloadFor` is the corrected payload, through `PayloadEars`.

## Left out

- Web Audio internals are not modelled. Oscillator `start`/`stop`/`disconnect`, `setValueAtTime`, `exponentialRampToValueAtTime` and `AudioContext.close` are foreign calls. A chain is modelled as its frequency, gain and pan. A ramp is modelled as its target gain; the 50 ms ramp time is not modelled.
- The exception that `oscillator.stop()` may throw is not modelled as a separate path. It is caught, and the handles are cleared either way, so the outcome is the same.
- `setTimeout` and the Promise of `playTone` are not modelled as concurrency. They become a returned `Timer` and a separate step that fires it. Time and the promise's resolution are not modelled.
- ResultsView.EmailPayloadFor: its ear lists use the corrected fallback, so for a missing prop it does not post what the code posts (`[]`); `ResultsView.EmailPayloadAsWritten` states that behaviour.
- AudioGenerator.New: the parameter `audioAvailable` stands for "a context was created". The constructor's `typeof window` test is folded into it. The case where a window exists but `new (window.AudioContext || window.webkitAudioContext)()` throws, so no generator is built at all, is not modelled.
- The default arguments `ear = "both"` and `duration = 2000` (lib/audio-generator.ts:17, 68-69) are not modelled. Every call in the model passes all its arguments.
- `console.log` calls, the date formatting, the `fetch` calls and React state (`useState`, `useEffect`, the "send once" guard) are I/O and UI plumbing. They are not modelled.
- `getHearingCategory`, imported at components/hearing-test-results-new.tsx:8, is not part of this model. Its definition is not in `lib/hearing-test-data.ts`.
- `getAssessmentInfo` and the rendered markup (colours, icons, titles, the scale marker at `(1 - avg) * 100`) are presentation. They are not modelled.
- The e-mail routes, page content, branch data and layout are outside the core.
- IEEE-754 rounding and NaN are not modelled. Numbers are exact reals, and the empty lists that would produce NaN are excluded by preconditions.
- HearingTestData.HearingPercentage and HearingTestData.OverallPercentage require non-empty lists, because the source divides by zero otherwise.
- ResultsView.EmailPayloadAsWritten and ResultsView.EmailPayloadFor require non-empty ear lists in the result, because the displayed severity they carry averages those lists.
- HearingTestData.OverallAssessment requires at least one sample across both ears, for the same reason.
- The construction of a `HearingTestResult` from a finished test happens in the test-flow page, which is not part of this model. Only the record's shape is modelled.
