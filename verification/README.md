# Homeostasis scoring, banding and response shaping

This project models the decision logic of a health-tracking app that scores a
user's "homeostasis" from their latest health entry and environmental reading,
and proves properties of that model. The model covers:

- the server's homeostasis scorer: six sub-scores, each counted only when its
  field is truthy, averaged and rounded;
- the dashboard's own four-factor copy of that scorer, the `healthData`
  object it builds and its AQI category label;
- the homeostasis ring's clamp, colour and label bands and rounded display;
- the insights dialog's colour and label, its three "How it's calculated"
  figures, and the two-flag gate that loads the narrative insight;
- the log-health page's symptom toggle, its save checks and payload, and the
  save button's enablement;
- the reverse-geocoding endpoint's parameter fallback and location format;
- the air-quality endpoint's checks and its PM2.5-then-ozone selection.

JavaScript numbers are modelled as exact `real`s. `Math.round(x)` is
`(x + 1/2).Floor` and is specified by `r - 1/2 <= x < r + 1/2`. A numeric field
is an `Option<real>` and counts as truthy when it is present and not 0. A
string is truthy when it is present and not empty. Data returned by an outside
service (the geocoder, AirNow, the health-entries POST, the insights POST) is
an input value of the model.

Modules, one per source file plus two shared ones:

- `Js`: JavaScript value semantics (truthiness, `||` fallbacks, rounding, sums).
- `Samples`: the health and environmental records.
- `ServerHomeostasis`: `replit-backend/src/routes/homeostasis.ts`.
- `Dashboard`: `client/src/pages/DashboardScreen.tsx`.
- `HomeostasisRing`: `client/src/components/HomeostasisRing.tsx`.
- `InsightsDialog`: `client/src/components/HomeostasisInsightsDialog.tsx`.
- `LogHealth`: `client/src/pages/LogHealthScreen.tsx`.
- `ReverseGeocode`: `api/geocode/reverse.ts`.
- `Environmental`: `api/environmental.ts`.

Both scorers are methods that keep the source's running `score` and `factors`.
Each is proved equal to a specification function, the rounded mean of the list
of counted sub-scores. The properties are proved about that function.

Three consequences of the code that the model keeps:

- An AQI of 0 is falsy and is not counted: with all six fields filled and an
  AQI of 0 the server's score is 460 / 5 = 92 (`ServerHomeostasis.ZeroAqiExample`).
- A glucose of 0 is falsy and is not counted at all, rather than adding the 20 its formula
  would give
  (`ServerHomeostasis.OnlyTruthyFieldsMatter`).
- The insights endpoint (`api/homeostasis-insights.ts`) asks the generator
  on every request and keeps no cache; the dialog's own gate is the only
  thing that avoids repeated requests.

## Model

| member | source | states |
|---|---|---|
| Js.Round | replit-backend/src/routes/homeostasis.ts:55 | `Math.round` gives the integer nearest its argument, halves rounded up |
| Js.OrZero | client/src/pages/DashboardScreen.tsx:35-41 | `x \|\| 0` is non-zero exactly when x is truthy, and is then x |
| ServerHomeostasis.GlucoseScore | replit-backend/src/routes/homeostasis.ts:16 | the glucose sub-score lies in [0, 100]; it is 100 exactly at 100 mg/dL and 0 exactly at 125 mg/dL or more away from 100 |
| ServerHomeostasis.HrvScore | replit-backend/src/routes/homeostasis.ts:22 | the HRV sub-score is at most 100, non-negative for non-negative HRV, and 100 exactly from HRV 200/3 up |
| ServerHomeostasis.SleepScore | replit-backend/src/routes/homeostasis.ts:28 | the sleep sub-score is at most 100, and 100 exactly from 8 hours up |
| ServerHomeostasis.HeartRateScore | replit-backend/src/routes/homeostasis.ts:34-36 | the heart-rate sub-score is 50 outside [60, 100], lies in [70, 100] inside, and is 100 exactly at 70 bpm |
| ServerHomeostasis.AqiScore | replit-backend/src/routes/homeostasis.ts:42 | the AQI sub-score is never negative, at most 100 for non-negative AQI, and 0 exactly from AQI 200 up |
| ServerHomeostasis.TemperatureScore | replit-backend/src/routes/homeostasis.ts:48-50 | the temperature sub-score is 100 in [65, 75] and in [0, 90) outside; it is 0 exactly at 50 degrees or more from 70 |
| ServerHomeostasis.MeanRounded | replit-backend/src/routes/homeostasis.ts:55 | the result is 0 when nothing counted, and in [0, 100] when every counted sub-score is |
| ServerHomeostasis.SumBounds | replit-backend/src/routes/homeostasis.ts:55 | a sum of n percentages lies in [0, 100 n] |
| ServerHomeostasis.CalculateHomeostasis | replit-backend/src/routes/homeostasis.ts:11-56 | the six guarded `score +=` / `factors++` blocks return the rounded mean of the truthy fields' sub-scores |
| ServerHomeostasis.FactorsSum | replit-backend/src/routes/homeostasis.ts:15-53 | the running total equals the sum of the counted sub-scores |
| ServerHomeostasis.FactorsCount | replit-backend/src/routes/homeostasis.ts:15-53 | the factor count equals the number of truthy fields |
| ServerHomeostasis.FactorsArePercent | replit-backend/src/routes/homeostasis.ts:16-50 | with non-negative HRV, sleep and AQI every counted sub-score is in [0, 100] |
| ServerHomeostasis.HomeostasisInRange | replit-backend/src/routes/homeostasis.ts:16-55 | with non-negative HRV, sleep and AQI the score is in [0, 100] |
| ServerHomeostasis.NothingPresentScoresZero | replit-backend/src/routes/homeostasis.ts:12-55 | with no truthy field nothing is counted and the score is 0 |
| ServerHomeostasis.Seen | replit-backend/src/routes/homeostasis.ts:15-47 | what a guard lets through: the field when truthy, nothing otherwise |
| ServerHomeostasis.OnlyTruthyFieldsMatter | replit-backend/src/routes/homeostasis.ts:15-47 | an absent field and a field of 0 give the same counted sub-scores and the same score |
| ServerHomeostasis.GlucoseAloneExample | replit-backend/src/routes/homeostasis.ts:16-55 | glucose 160 alone scores 52 |
| ServerHomeostasis.ZeroAqiExample | replit-backend/src/routes/homeostasis.ts:41-55 | all six fields with AQI 0 score 92: the AQI is not counted |
| Dashboard.ClientCalculateHomeostasis | client/src/pages/DashboardScreen.tsx:44-66 | the four guarded blocks return the rounded mean of the dashboard's counted sub-scores |
| Dashboard.ClientHealthView | client/src/pages/DashboardScreen.tsx:48-59 | the dashboard scorer sees the health entry's own glucose, HRV and sleep (none for a missing entry) and no heart rate |
| Dashboard.ClientEnvView | client/src/pages/DashboardScreen.tsx:60-63 | the dashboard scorer sees the reading's own AQI (none for a missing reading) and no temperature |
| Dashboard.ClientUsesServerFormulas | client/src/pages/DashboardScreen.tsx:48-63 | the dashboard's sub-scores are the server's sub-scores of the records without heart rate and temperature |
| Dashboard.ClientIgnoresHeartRateAndTemperature | client/src/pages/DashboardScreen.tsx:48-63 | records that agree on glucose, HRV, sleep and AQI get the same dashboard score |
| Dashboard.ClientAgreesWithServer | client/src/pages/DashboardScreen.tsx:44-66 | when neither heart rate nor temperature is truthy, the dashboard and server scores are equal |
| Dashboard.HeartRateOnlyDiverges | client/src/pages/DashboardScreen.tsx:44-66 | a heart rate of 120 alone scores 50 on the server and 0 on the dashboard |
| Dashboard.ClientNothingPresentScoresZero | client/src/pages/DashboardScreen.tsx:65 | with none of the four fields truthy the dashboard score is 0 |
| Dashboard.ClientInRange | client/src/pages/DashboardScreen.tsx:48-65 | with non-negative HRV, sleep and AQI the dashboard score is in [0, 100] |
| Dashboard.DashboardHealthData | client/src/pages/DashboardScreen.tsx:34-42 | each `healthData` field is its reading when truthy and 0 otherwise; activity, recovery and strain are 0 |
| Dashboard.AqiCategory | client/src/pages/DashboardScreen.tsx:201 | "No data" exactly when the AQI is falsy; else "Good" below 50, "Moderate" below 100, "Unhealthy" from 100 |
| Dashboard.AqiCategoryMonotone | client/src/pages/DashboardScreen.tsx:201 | a higher AQI never gets a milder label |
| HomeostasisRing.Percentage | client/src/components/HomeostasisRing.tsx:10 | the clamp maps every level into [0, 100], keeps levels in range and saturates the others |
| HomeostasisRing.RingColor | client/src/components/HomeostasisRing.tsx:14-19 | the colour is the colour of the clamped level's band (80 / 60 / 40 thresholds) |
| HomeostasisRing.RingLabel | client/src/components/HomeostasisRing.tsx:21-26 | the label is the label of the clamped level's band |
| HomeostasisRing.DisplayedLevel | client/src/components/HomeostasisRing.tsx:60 | the number shown is in [0, 100], within a half of the percentage, and the rounded level when in range |
| HomeostasisRing.LabelMatchesColor | client/src/components/HomeostasisRing.tsx:14-26 | two levels get the same label exactly when they get the same colour |
| HomeostasisRing.BandMonotone | client/src/components/HomeostasisRing.tsx:14-26 | a higher level never falls in a lower band |
| HomeostasisRing.OutOfRangeSaturates | client/src/components/HomeostasisRing.tsx:10-26 | above 100 the ring shows "Optimal Balance", below 0 "Building Balance", with their colours |
| InsightsDialog.DialogColor | client/src/components/HomeostasisInsightsDialog.tsx:55-60 | the dialog's colour is the colour of the unclamped level's band |
| InsightsDialog.DialogLabel | client/src/components/HomeostasisInsightsDialog.tsx:62-67 | the dialog's label is the label of the unclamped level's band |
| InsightsDialog.DialogAgreesWithRing | client/src/components/HomeostasisInsightsDialog.tsx:55-67 | the dialog and the ring show the same colour and label for every level |
| InsightsDialog.MetabolicStability | client/src/components/HomeostasisInsightsDialog.tsx:98 | 0 for a falsy glucose; otherwise at most 100, 100 exactly within 1 of 100 mg/dL, and exactly the rounding of 100 - \|g - 100\| / 2, so the cap never binds |
| InsightsDialog.EnvironmentalQuality | client/src/components/HomeostasisInsightsDialog.tsx:102 | 0 for a falsy AQI; otherwise at most 100, 100 - AQI / 2 rounded for a non-negative AQI, and exactly 100 (the cap) for a negative one |
| InsightsDialog.RecoveryScore | client/src/components/HomeostasisInsightsDialog.tsx:106 | 0 for a falsy sleep; otherwise at most 100, and 100 exactly from 7.96 hours up |
| InsightsDialog.RecoveryMatchesScorer | client/src/components/HomeostasisInsightsDialog.tsx:106 | for truthy sleep the recovery figure is the scorer's sleep sub-score rounded |
| InsightsDialog.EnvironmentalQualityMatchesScorer | client/src/components/HomeostasisInsightsDialog.tsx:102 | for an AQI in (0, 200] the figure is the scorer's AQI sub-score rounded |
| InsightsDialog.EnvironmentalQualityNotFloored | client/src/components/HomeostasisInsightsDialog.tsx:102 | an AQI of 300 shows -50 where the scorer gives 0 |
| InsightsDialog.MetabolicStabilityDiffersFromScorer | client/src/components/HomeostasisInsightsDialog.tsx:98 | glucose 101 shows 100 where the scorer rounds to 99; glucose 400 shows -50 where the scorer gives 0 |
| InsightsDialog.SettledText | client/src/components/HomeostasisInsightsDialog.tsx:38-42 | a failed load leaves the fixed failure text, an answered one the answer's text |
| InsightsDialog.Dialog.constructor | client/src/components/HomeostasisInsightsDialog.tsx:24-25 | a dialog starts with no insight, not loading, no request sent |
| InsightsDialog.Dialog.LoadInsights | client/src/components/HomeostasisInsightsDialog.tsx:27-37 | a load sends a request exactly when no insight is held, and then sets `loading` |
| InsightsDialog.Dialog.Settle | client/src/components/HomeostasisInsightsDialog.tsx:38-45 | a settled load stores the answer or the failure text and always clears `loading` |
| InsightsDialog.Dialog.HandleOpenChange | client/src/components/HomeostasisInsightsDialog.tsx:48-53 | a request is sent exactly when the dialog opens with no insight and no load in progress |
| InsightsDialog.AtMostOneRequest | client/src/components/HomeostasisInsightsDialog.tsx:27-53 | unless an answer comes back empty, a dialog sends at most one request |
| InsightsDialog.ReopenAfterFailureSendsNothing | client/src/components/HomeostasisInsightsDialog.tsx:27-53 | after a failed load, closing and reopening keeps the failure text and sends nothing |
| LogHealth.RemoveAll | client/src/pages/LogHealthScreen.tsx:34 | filtering removes every copy of the symptom and keeps every other member |
| LogHealth.Toggle | client/src/pages/LogHealthScreen.tsx:31-37 | toggling flips the symptom's membership and keeps every other member's |
| LogHealth.RemoveAllKeepsNoDuplicates | client/src/pages/LogHealthScreen.tsx:34 | filtering keeps a duplicate-free list duplicate-free |
| LogHealth.ToggleKeepsOthersInOrder | client/src/pages/LogHealthScreen.tsx:32-36 | the other symptoms keep their relative order |
| LogHealth.ToggleKeepsNoDuplicates | client/src/pages/LogHealthScreen.tsx:32-36 | toggling keeps the list free of duplicates |
| LogHealth.ToggleTwiceAbsent | client/src/pages/LogHealthScreen.tsx:32-36 | toggling an unlisted symptom twice restores the list |
| LogHealth.ToggleTwicePresent | client/src/pages/LogHealthScreen.tsx:32-36 | toggling a listed symptom twice moves it to the end |
| LogHealth.StartIndexSkipsBlanks | client/src/pages/LogHealthScreen.tsx:65 | the scan from the start passes only white space and stops at a kept character or the end |
| LogHealth.EndIndexSkipsBlanks | client/src/pages/LogHealthScreen.tsx:65 | the scan from the end passes only white space and stops after a kept character or at the start |
| LogHealth.TrimDropsOnlyBlanks | client/src/pages/LogHealthScreen.tsx:65 | the notes are a blank prefix, the trimmed text and a blank suffix |
| LogHealth.TrimKeepsEnds | client/src/pages/LogHealthScreen.tsx:65 | trimmed text that is not empty starts and ends with a kept character |
| LogHealth.TrimEmptyIffBlank | client/src/pages/LogHealthScreen.tsx:65 | trimming leaves nothing exactly when the notes are all white space |
| LogHealth.Trim | client/src/pages/LogHealthScreen.tsx:65 | `notes.trim()` is never longer than the notes; its meaning is stated by the three trim lemmas |
| LogHealth.ErrorMessage | client/src/pages/LogHealthScreen.tsx:40-55 | a refused save shows "Please sign in to save health data" exactly for a missing user and "Please enter a valid glucose value" exactly for a bad glucose |
| LogHealth.SaveRequest | client/src/pages/LogHealthScreen.tsx:39-66 | a missing user is refused first, then an empty or non-numeric glucose; a save goes ahead exactly when neither applies, with the payload built from the user, the number and the form |
| LogHealth.BuildPayload | client/src/pages/LogHealthScreen.tsx:59-65 | the payload carries the user, glucose and severity; symptoms are omitted exactly when the list is empty; notes are null exactly when trimming leaves nothing, else the trimmed text |
| LogHealth.BlankNotesAreSentAsNull | client/src/pages/LogHealthScreen.tsx:65 | notes are sent as null exactly when they are all white space |
| LogHealth.BlankGlucoseTextIsSentAsZero | client/src/pages/LogHealthScreen.tsx:49 | a glucose text of spaces, which reads as 0, passes the checks and is sent as 0 (the number input itself never yields such a text) |
| LogHealth.SaveButtonEnabled | client/src/pages/LogHealthScreen.tsx:201 | the button is enabled exactly when not loading and the glucose text is non-empty |
| LogHealth.EnabledSaveRefusals | client/src/pages/LogHealthScreen.tsx:39-56 | a save from the enabled button is refused exactly when there is no user or the glucose is not a number |
| LogHealth.PostFailureMessage | client/src/pages/LogHealthScreen.tsx:74-96 | a refused POST shows the answer's truthy `error` text verbatim, else "Failed to save health entry"; an exception shows its own message |
| LogHealth.LogHealthForm.constructor | client/src/pages/LogHealthScreen.tsx:21-27 | the form starts empty with severity 5, not loading and not showing success |
| LogHealth.LogHealthForm.ToggleSymptom | client/src/pages/LogHealthScreen.tsx:31-37 | a click replaces the list by its toggle and keeps it duplicate-free |
| LogHealth.LogHealthForm.HandleSave | client/src/pages/LogHealthScreen.tsx:39-98 | a refused save changes nothing and returns its toast text; a sent one clears `isLoading`, sets `showSuccess` only when accepted, and otherwise returns the failure message |
| ReverseGeocode.Status | api/geocode/reverse.ts:8-51 | only the preflight and a located answer have status 200 |
| ReverseGeocode.ErrorText | api/geocode/reverse.ts:8-51 | exactly the 405, 400 and 500 answers carry an error text |
| ReverseGeocode.Longitude | api/geocode/reverse.ts:19 | `lon` when truthy, otherwise `lng`; truthy when either is |
| ReverseGeocode.FormatLocation | api/geocode/reverse.ts:35-40 | city falls back to locality then "Unknown", country to "Unknown", state to null; formatted is city, then state or country |
| ReverseGeocode.Handle | api/geocode/reverse.ts:8-51 | OPTIONS gets the preflight, other non-GET methods 405, missing coordinates 400, a failed lookup 500, otherwise the formatted location |
| ReverseGeocode.ChecksPrecedeLookup | api/geocode/reverse.ts:8-33 | a preflight, 405 or 400 answer does not depend on the geocoder's answer |
| ReverseGeocode.LonTakesPrecedence | api/geocode/reverse.ts:19 | `lng` is ignored whenever `lon` is given |
| ReverseGeocode.FormattedStartsWithCity | api/geocode/reverse.ts:38-40 | the display string starts with the city and ", " and continues past it |
| Environmental.Status | api/environmental.ts:8-55 | only the 405, 400 and 500 answers have a status other than 200 |
| Environmental.MessageText | api/environmental.ts:8-55 | every answer except the preflight and a reading carries an error or message text |
| Environmental.FindIndex | api/environmental.ts:40-41 | the index of the first observation of the parameter, or none when there is none |
| Environmental.Find | api/environmental.ts:40-41 | `find` returns the first observation of the parameter in the array, or nothing exactly when there is none |
| Environmental.AqiOf | api/environmental.ts:46-47 | the observation's AQI when it is truthy, otherwise null |
| Environmental.CategoryOf | api/environmental.ts:45 | the observation's category name when the observation exists, and none when it does not |
| Environmental.Summarize | api/environmental.ts:40-47 | AQI and category are PM2.5's when truthy, then ozone's, else null |
| Environmental.Handle | api/environmental.ts:8-55 | OPTIONS, 405, 400, the no-key message, 500 on a failed lookup, the no-data message for a non-array or empty answer, otherwise the reading |
| Environmental.MissingKeyNeedsNoLookup | api/environmental.ts:23-27 | without an API key the answer does not depend on the lookup |
| Environmental.Pm25Preferred | api/environmental.ts:40-44 | the first PM2.5 observation's truthy AQI is reported whatever ozone says |
| Environmental.NeitherParameterGivesNulls | api/environmental.ts:39-49 | a non-empty array with neither parameter gives a reading of nulls, not the no-data message |

## Left out

- IEEE-754 arithmetic: numbers are exact reals, so rounding artefacts and NaN sub-scores are not modelled.
- `Number`, `isNaN` and `parseFloat` on strings: the parsed glucose is a parameter (`None` for NaN), and `parseFloat(sleepHours.toString())` is taken as the identity on numbers.
- Values of the wrong JSON type (a string AQI, an array-valued query parameter) are not modelled; every field has the type its use implies.
- Fetching the records, the insights request, the health-entries POST, the geocoder and AirNow calls: their results are inputs, and a failure is `None` or `Failed`.
- The URLs built for the geocoder and AirNow requests, and the CORS headers, are not modelled.
- The OpenAI call behind the insights endpoint and the route handlers that read Firestore are not modelled.
- InsightsDialog.Dialog: React state updates are applied at once; stale closures, re-renders and two loads in flight at once are not modelled, and the parent's `onOpenChange` callback is left out.
- LogHealth.LogHealthForm.HandleSave: toasts and the two-second timer that clears `showSuccess` and calls `onSave` are not modelled; the toast's description is returned in the outcome instead (`ErrorMessage` for a refused save, `PostFailureMessage` for a failed POST).
- The symptom options, the location field and all markup are left out.
- The ring's SVG geometry (circumference and dash offset) is not modelled.
- The dashboard's AQI figure (`aqi || "—"`) next to the category is not modelled.
