# Mood Analyzer scoring, modelled in Dafny

Mood Analyzer is a self-assessment web application. Its rule-bearing logic is
the client-side scoring on its assessment pages, and this project models that
logic:

- **Four Likert assessments** (individual, couples, family, child) and a
  three-question **demo assessment**. Each page is a small question wizard:
  - the state is a cursor (`currentQuestion`), an `answers` map from question
    id to score, and a `showResults` flag;
  - the handlers are `handleAnswer`, `nextQuestion` and `prevQuestion`;
  - the Next button is disabled while the current question has no answer.

  Each page also has a reducing `calculateScore` and a three-band `<=`
  cascade, `getResultAnalysis`. The five pages differ only in their
  constants. Module `Likert` holds one generic wizard class (`Likert.Wizard`)
  and the classifier over an `Assessment` value. One module per page holds
  that page's literal constants and the page's own band and referral lemmas.
- **The mood tool** (`MoodTest`). The user picks a time frame, then any
  number of emotions, each worth 1..5. The score is the mean of the chosen
  values, or 0 when none is chosen. A five-way `>=` cascade names the score.
  The state (`selectedTimeFrame`, `selectedMoods`, `currentStep`) is a class.
- **The detailed results page** (`Results`). It classifies the mood score
  into five bands. Each band has four recommendations, a referral flag and,
  in the last band, an urgency flag. A missing score parameter counts as 0.

`Tally` holds the map sum that every page computes as
`Object.values(m).reduce((s, v) => s + v, 0)`:
- a specification function;
- the proof that the result does not depend on the order of summation;
- the reduction loop, proved against the function.

Three behaviours of the code are easy to get wrong:
- **Reverse-labelled questions** (family question 3; child questions 2, 3
  and 5) do not invert scores numerically. The `reverse` flag only selects the
  `reverseOptions` label table. The stored score is still
  `Number.parseInt(option.value)`, which is the option's position 0..3. The
  reversal lies in the labels, for example "Often" is worth 3 on a forward
  child question and 1 on a reverse one.
- **Out-of-range totals** are not rejected. `getResultAnalysis` classifies any
  number; the model instead proves that a results view only ever sees a
  total in `[0, maxScore]`.
- **The mood tool's last band** is called "Needs Attention". Only the results
  page calls it "Needs Immediate Attention" and sets `urgent`.

## Model

| member | source | states |
|---|---|---|
| `Tally.MapSum` | app/assessment/individual/page.tsx:71 | The value of `Object.values(m).reduce((s, v) => s + v, 0)`. A map of non-negative values sums to a non-negative number; order independence is proved in MapSumRemove and MapSumAlong. |
| `Tally.MapSumRemove` | app/assessment/individual/page.tsx:70-72 | Any stored answer can be summed first and the rest after. The reduction's result does not depend on the order `Object.values` visits the entries. |
| `Tally.MapSumUpdate` | app/assessment/individual/page.tsx:52-54 | After `answers[id] = v`, the sum is the sum without `id` plus `v`. Overwriting an answer replaces its old value in the sum. |
| `Tally.MapSumBounds` | app/mood-test/page.tsx:44-48 | If every value lies in [lo, hi], the sum lies in [lo·n, hi·n], where n is the number of entries. |
| `Tally.MapSumAlong` | app/assessment/individual/page.tsx:70-72 | If the answer keys are exactly the distinct question ids, the unordered reduction equals the sum of one answer per question in question order. |
| `Tally.SumAlongBounds` | app/assessment/individual/page.tsx:40-45 | If every answer met along the questions is an option value in [lo, hi], the in-order sum lies in [lo·n, hi·n]. |
| `Tally.SumValues` | app/assessment/individual/page.tsx:71 | The accumulator loop of `reduce` returns the map sum. |
| `Likert.ParseDigit` | app/assessment/individual/page.tsx:251 | `Number.parseInt` of an option value: the result is a digit 0..9, and writing it back gives the same string. Lemma `ParseDigitString` proves the other direction of the round trip: parsing the string of a digit gives the digit. |
| `Likert.OptionsFor` | app/assessment/family/page.tsx:259 | The label table shown for a question, `reverse ? reverseOptions : options`. It is one of the page's two tables, and for a question of a valid assessment it is a well-formed table of four options. |
| `Likert.StoredScore` | app/assessment/family/page.tsx:255-259 | The stored score for the option at a given position is `parseInt(option.value)` of the table shown, forward or reverse. It equals the position and the table's own `score` field, and lies in 0..3. |
| `Likert.GetResultAnalysis` | app/assessment/individual/page.tsx:74-124 | `getResultAnalysis`, the `<=` cascade on the total. It returns one of the page's three analyses; its bands are proved in BandsPartition. |
| `Likert.BandsPartition` | app/assessment/individual/page.tsx:74-124 | When the cut-offs increase, the three score ranges cover every integer without overlap. The `<=` cascade returns the analysis of the one band the score lies in. |
| `Likert.BandMonotone` | app/assessment/individual/page.tsx:74-124 | A higher total never lands in a lower band. |
| `Likert.Wizard.NextDisabled` | app/assessment/individual/page.tsx:269 | The JavaScript test `!answers[id] && answers[id] !== 0` is true exactly when the current question has no stored answer. A stored 0 enables Next. |
| `Likert.Wizard.constructor` | app/assessment/individual/page.tsx:48-50 | Starts on question 0 with no answers and the results hidden, in a valid state. |
| `Likert.Wizard.HandleAnswer` | app/assessment/individual/page.tsx:52-54 | Sets `answers[id] = score` and changes nothing else: other entries, cursor and `showResults` are unchanged. Re-answering never adds a key. The wizard stays valid exactly when the id is a question id and the score is 0..3. |
| `Likert.Wizard.SelectOption` | app/assessment/individual/page.tsx:249-251 | The radio group stores the chosen option's position under the current question's id. The wizard stays valid and Next becomes enabled. |
| `Likert.Wizard.NextQuestion` | app/assessment/individual/page.tsx:56-62 | Before the last question, moves the cursor forward by one. On the last question, sets `showResults` and keeps the cursor. Answers are unchanged and the cursor stays in range. The wizard stays valid exactly when the Next button was enabled. |
| `Likert.Wizard.ClickNext` | app/assessment/individual/page.tsx:267-272 | A click on the disabled button changes nothing; otherwise it behaves as `nextQuestion`. The wizard stays valid, so `showResults` is set only once every question is answered. |
| `Likert.Wizard.PrevQuestion` | app/assessment/individual/page.tsx:64-68 | Steps back by one, and does nothing on question 0. Answers and `showResults` are unchanged and the wizard stays valid. |
| `Likert.Wizard.CalculateScore` | app/assessment/individual/page.tsx:70-72 | Returns the sum of the stored answers, 0 when there are none. |
| `Likert.Wizard.Results` | app/assessment/individual/page.tsx:128-130 | In the results view the total is the in-order sum of one answer per question and lies in [0, maxScore]. The analysis shown is `getResultAnalysis(total)`. |
| `IndividualAssessment.IndividualIsValid` | app/assessment/individual/page.tsx:12-45 | The page's five questions with distinct ids and its option table satisfy the wizard's assumptions. The printed maximum 15 is 3 × 5. |
| `IndividualAssessment.IndividualBands` | app/assessment/individual/page.tsx:74-124 | ≤4 gives "Minimal", 5..9 "Mild to Moderate", ≥10 "Moderate to Severe". Each band has five recommendations. |
| `IndividualAssessment.IndividualHelpMonotone` | app/assessment/individual/page.tsx:89-121 | Referral happens exactly when score ≥ 10, so the flag never switches off as the score grows. |
| `CouplesAssessment.CouplesIsValid` | app/assessment/couples/page.tsx:12-45 | Valid constants with maximum 15. Every question shows the forward table. |
| `CouplesAssessment.CouplesBands` | app/assessment/couples/page.tsx:74-123 | ≤5 gives "Low Satisfaction", 6..10 "Moderate Satisfaction", ≥11 "High Satisfaction". Each band has five recommendations. |
| `CouplesAssessment.CouplesHelpAntitone` | app/assessment/couples/page.tsx:89-120 | Referral happens exactly when score ≤ 5, so the flag never switches on as the score grows. |
| `FamilyAssessment.FamilyIsValid` | app/assessment/family/page.tsx:12-53 | Valid constants with maximum 15, both option tables included. |
| `FamilyAssessment.FamilyReverseIsLabelsOnly` | app/assessment/family/page.tsx:27-53 | Only question 3 is reverse. Its labels differ at every position, yet every position stores the same score as on a forward question: the position itself. |
| `FamilyAssessment.FamilyBands` | app/assessment/family/page.tsx:82-130 | ≤5 gives "Low Harmony", 6..10 "Moderate Harmony", ≥11 "High Harmony". Each band has five recommendations. |
| `FamilyAssessment.FamilyHelpAntitone` | app/assessment/family/page.tsx:96-127 | Referral happens exactly when score ≤ 5. |
| `ChildAssessment.ChildIsValid` | app/assessment/child/page.tsx:12-55 | Valid constants. The printed maximum 15 equals 3 × the number of questions. |
| `ChildAssessment.ChildReverseIsLabelsOnly` | app/assessment/child/page.tsx:19-55 | Questions 2, 3 and 5 are reverse. A position stores its index on every question. "Often" is worth 3 on a forward question and 1 on a reverse one; "Rarely" is worth 1 and 3. |
| `ChildAssessment.ChildBands` | app/assessment/child/page.tsx:84-132 | ≤5 gives "Significant Concerns", 6..10 "Moderate Concerns", ≥11 "Good Adjustment". Each band has five recommendations. |
| `ChildAssessment.ChildHelpAntitone` | app/assessment/child/page.tsx:98-129 | Referral happens exactly when score ≤ 5. |
| `DemoAssessment.DemoIsValid` | app/demo-assessment/page.tsx:12-35 | The page's three questions and its option table are valid constants. The printed maximum 9 is 3 × 3. |
| `DemoAssessment.DemoBands` | app/demo-assessment/page.tsx:64-108 | ≤2 gives "Minimal", 3..5 "Mild to Moderate", ≥6 "Moderate to Severe". Every band returns exactly four recommendations. |
| `DemoAssessment.DemoHelpMonotone` | app/demo-assessment/page.tsx:77-105 | Referral happens exactly when score ≥ 6, so the flag never switches off as the score grows. |
| `MoodTest.MoodEmojiTable` | app/mood-test/page.tsx:16-25 | Every emoji's value is in 1..5, and no emoji appears twice in the table. |
| `MoodTest.MoodScore` | app/mood-test/page.tsx:44-48 | The score `calculateMoodScore` computes: 0 for an empty selection, otherwise the value that multiplied by the number of selected emotions gives their sum, i.e. their mean. |
| `MoodTest.MoodScoreBounds` | app/mood-test/page.tsx:44-48 | A non-empty selection of table values has a mean in [1, 5]. |
| `MoodTest.GetMoodAnalysis` | app/mood-test/page.tsx:50-56 | `getMoodAnalysis`, the `>=` cascade. The level is one of the five names, and it is "Needs Attention" exactly below 1.5; the other bands are proved in MoodBands. |
| `MoodTest.MoodBands` | app/mood-test/page.tsx:50-56 | ≥4.5 gives Excellent, [3.5, 4.5) Good, [2.5, 3.5) Fair, [1.5, 2.5) Concerning, below 1.5 "Needs Attention". A higher score never gets a worse level. |
| `MoodTest.MoodAnalysisCrossMultiplied` | app/mood-test/page.tsx:44-56 | The level of a non-empty selection's mean is the level that the integer tests `2·sum ≥ t·count` decide. |
| `MoodTest.MoodTool.constructor` | app/mood-test/page.tsx:28-30 | Starts on the time-frame step with no time frame and no moods, in a valid state. |
| `MoodTest.MoodTool.HandleTimeFrameSelect` | app/mood-test/page.tsx:32-35 | Records the time frame and moves to the mood step. Moods are unchanged. The tool stays valid exactly when the time frame is one of the table's ids. |
| `MoodTest.MoodTool.HandleMoodSelect` | app/mood-test/page.tsx:37-42 | Sets `selectedMoods[emoji] = value` and leaves other entries alone. It never deselects, and repeating a selection changes nothing. The tool stays valid exactly when a mood card on the mood step made the call. |
| `MoodTest.MoodTool.StartOver` | app/mood-test/page.tsx:185-189 | Returns to the time-frame step with no moods and the time frame "". |
| `MoodTest.MoodTool.CalculateMoodScore` | app/mood-test/page.tsx:44-48 | Returns 0 for an empty selection, otherwise the mean of the selected values. |
| `MoodTest.MoodTool.Analysis` | app/mood-test/page.tsx:138-155 | The analysis panel shows only for a non-empty selection. Its score lies in [1, 5] and its level is the cascade's. |
| `Results.ScoreFromParam` | app/results/page.tsx:14 | The score the page classifies: an absent or empty `score` parameter is parsed as "0", any other value is parsed as given. |
| `Results.GetDetailedAnalysis` | app/results/page.tsx:24-109 | `getDetailedAnalysis`, the `>=` cascade. It returns one of the five bands, urgency always comes with referral, and every band has four recommendations; the bands are proved in DetailedBandsPartition. |
| `Results.DetailedBandsPartition` | app/results/page.tsx:24-109 | Every real score lies in exactly one of the five ranges, and the cascade returns that band. |
| `Results.DetailedMonotone` | app/results/page.tsx:25-76 | A higher score never yields a worse band. |
| `Results.DetailedFlags` | app/results/page.tsx:24-109 | Referral happens exactly below 2.5 and urgency exactly below 1.5, so urgency implies referral. Every band has four recommendations. |
| `Results.MissingScoreIsUrgent` | app/results/page.tsx:14 | An absent or empty `score` parameter becomes "0", which lands in "Needs Immediate Attention" with `urgent` set. |
| `Results.SameThresholdsAsMoodTool` | app/results/page.tsx:24-109 | The results page and the mood tool split scores at the same four thresholds: a score gets the same rank on both. |

## Left out

- Rendering. The following are display only and are not modelled:
  - the JSX markup, colours, background colours and icons of each band;
  - progress-bar widths, `Math.round(progress)` and `score.toFixed(1)`;
  - the controlled radio value (`answers[id]?.toString() || ""`);
  - the highlight of selected mood cards;
  - the "Selected emotions" list.
- Question `category` fields are kept as data, but no operation reads them.
- `Number.parseFloat` on the results page is a library parser. `Results.ScoreFromParam` takes it as a function parameter. A `NaN` score, which would fall through every `>=` test into the last band, is not modelled.
- Building the results URL on the mood page is not modelled. Neither are the `timeframe` and `moods` parameters of the results page, or its `timeFrameLabels` map. These are string plumbing that does not feed any scoring rule.
- The mood mean is modelled as an exact `real`, whereas JavaScript divides in floating point. With at most eight values from 1..5, a mean that is not exactly on a threshold `k + 0.5` lies at least 1/16 away from it. `MoodTest.MoodAnalysisCrossMultiplied` shows that the level depends only on integer comparisons. A correctly rounded division therefore cannot cross a threshold.
- Answers are unbounded integers. At these magnitudes JavaScript numbers are exact, so there is no wrap-around to model.
- The handlers can be reached only from the controls the current view renders: the question card before the results view, and the mood cards on the mood step. The model does not forbid other calls. Instead each handler's contract states exactly when it keeps the state valid.
- The remainder of the application is not part of this model. That covers marketing pages, the contact form, the dashboard, the professional directory and the authentication and database client.
