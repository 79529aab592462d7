# Student dropout dataset generator — a Dafny model

This project models the synthetic student-population generator of the
student-dropout prediction scripts: the main generator
`generate_student_dropout_dataset` (scripts/generate_dataset.py) and its
offline fallback `create_example_real_dataset`
(scripts/download_real_dataset.py), together with the column projection
`transform_to_compatible_format`.

Every stage is modelled as a deterministic function of the random values
numpy draws, which are inputs here (`GenerateDataset.Draws`,
`ExampleDataset.ExampleDraws`, one record per student; `WellDrawn` states
the support of each distribution: the choice sets, the `randint` ranges, the
`uniform` range, non-negativity of Poisson, gamma and exponential draws).

- `Numeric` (common.dfy): `np.clip`, the truncating `astype(int)`, the
  zero-safe quotient behind `x / total.replace(0, nan)` + `fillna(0)`, and
  the Bernoulli draw `binomial(1, p)` as `u < p` for a uniform draw `u`.
- `StudentIds` (student_ids.dfy): `f'STU{i:04d}'`, with its read-back.
- `Students` (student.dfy): the `Student` row (the 23 output columns) and
  the three derived ratios shared by both generators.
- `GenerateDataset` (generate_dataset.dfy): clipping, the engagement and
  outstanding-amount formulas, the real-valued eleven-term risk score
  (accumulated by `RiskScores` with one `+=` per term), labels and ratios.
- `ExampleDataset` (example_dataset.dfy): the fallback's clipping, derived
  ratios, the integer `risk_factors` count, labels and the call to the
  rebalancing pass.
- `Rebalance` (rebalance.dfy): the in-place pass over the label array.
- `CompatibleFormat` (compatible_format.dfy): the projection onto the 23
  expected columns.

The logistic calibration `1 / (1 + exp(-(s - 50) / k))` is a parameter
`calibrate: real -> real`; lemmas that need it assume only that it is
monotone (`Numeric.Monotone`), which the logistic with k > 0 is.

The generated data is meant to be a plausible student population: every rate
a percentage, completed courses within enrolments, and (in the comment at
scripts/download_real_dataset.py:167) a dropout rate of about 15-25% after
rebalancing. The code does not guarantee all of this, and the model follows
the code:

- The rebalancing pass forces the first `int(0.15 n)` students in row order
  whose `risk_factors` exceed 60, whether or not they are already labelled 1;
  it does not pick the highest-risk negatives and does not guarantee any
  prevalence floor (`Rebalance.SelectionIgnoresRiskOrder`,
  `Rebalance.FloorNotGuaranteed`). What it does guarantee is
  `Rebalance.RebalancePositives`.
- In the fallback, `completed_courses` comes from an enrolment draw of its
  own, so `completed_courses <= total_enrollments` and a success rate within
  [0, 100] are not guaranteed there (`ExampleDataset.CompletedMayExceedEnrollments`).
  They are guaranteed by the main generator (`GenerateDataset.GeneratedTableInvariants`).
- `failure_rate` is not bounded by 100 in either generator: failed courses
  are drawn independently of enrolments, so two enrolments with five
  failures give 250 in the main generator and one enrolment with eight
  failures gives 800 in the fallback
  (`GenerateDataset.FailureRateMayExceedPercent`,
  `ExampleDataset.FailureRateMayExceedPercent`).
- In the fallback, `total_enrollments` is drawn from a second, independent
  semester draw, not from the `current_semester` column.
- In the main generator `total_enrollments` is never 0, so the ratios' zero
  fallback never fires there; in the fallback it cannot fire either
  (`ExampleDataset.ExampleRowFromDraws`).

## Model

| member | source | states |
|---|---|---|
| Numeric.Clip | scripts/generate_dataset.py:44-45 | `np.clip` on an integer: the result is at most `hi`, at least `lo` when `lo <= hi`, the input itself when inside the bounds, and the violated bound otherwise |
| Numeric.ClipReal | scripts/generate_dataset.py:37-38 | `np.clip` on a float, with the same characterisation |
| Numeric.TruncToInt | scripts/generate_dataset.py:30 | `astype(int)` truncates toward zero: for x >= 0 the result t has t <= x < t + 1, for x < 0 it has t - 1 < x <= t |
| Numeric.SafeQuotient | scripts/generate_dataset.py:142-145 | `interaction_per_enrollment`: 0 when the denominator is 0, otherwise the quotient q with q * den == num |
| Numeric.SafeRate | scripts/generate_dataset.py:140-145 | success and failure rates: 0 when total_enrollments is 0, otherwise r with r * den == num * 100 |
| Numeric.RateWithinPercent | scripts/generate_dataset.py:140 | when 0 <= num <= den the rate lies in [0, 100] |
| Numeric.Bernoulli | scripts/generate_dataset.py:135 | the label is 0 or 1, and 1 exactly when the uniform draw is below p |
| Numeric.BernoulliMonotone | scripts/generate_dataset.py:132-135 | with the same draw, a higher probability never gives a lower label |
| StudentIds.StudentId | scripts/generate_dataset.py:27 | `f'STU{i:04d}'`; its properties are stated by `StudentIdRoundTrip`, `StudentIdInjective` and `StudentIdLength` |
| StudentIds.ZeroPad | scripts/generate_dataset.py:27 | `{i:04d}` padding: as long as s or 4 characters, whichever is more, ending with s and zeros before it |
| StudentIds.Decimal | scripts/generate_dataset.py:27 | the decimal rendering is a non-empty digit string, one digit below 10 and at least two from 10 on |
| StudentIds.StudentIdRoundTrip | scripts/generate_dataset.py:27 | every identifier is "STU" followed by at least four digits whose value is the row number |
| StudentIds.StudentIdInjective | scripts/generate_dataset.py:27 | different row numbers give different identifiers |
| StudentIds.StudentIdLength | scripts/download_real_dataset.py:109 | rows below 10000 get seven-character identifiers; larger row numbers are longer, never cut |
| Students.Student | scripts/generate_dataset.py:82-145 | the 23 columns of one output row, grouped as identity, demographic, academic, behavioural, financial, derived and target; no contract, its ranges are stated by `GenerateDataset.ClippedRanges` and `ExampleDataset.ClippedRanges` |
| Students.WithDerivedFeatures | scripts/download_real_dataset.py:145-147 | the three ratios are 0 when total_enrollments is 0 and otherwise the quotients of completed, failed and interactions by total (x100 for the rates); no other column changes |
| Students.SuccessRateIsPercentage | scripts/generate_dataset.py:140 | where completed_courses <= total_enrollments the success rate lies in [0, 100] |
| Students.NumberedIdsDistinct | scripts/download_real_dataset.py:109 | a table whose rows are numbered from 1 has pairwise distinct identifiers |
| GenerateDataset.EngagementScore | scripts/generate_dataset.py:66-68 | engagement is non-negative, and at least each weighted component, when its inputs are non-negative |
| GenerateDataset.OutstandingAmount | scripts/generate_dataset.py:79 | for a draw in [500, 2000) the amount is 0 exactly when overdue + pending is 0, and otherwise lies in [500 k, 2000 k) |
| GenerateDataset.Sample | scripts/generate_dataset.py:27-79 | every clipped column is in range: age in [18, 35], grade in [0, 10], attendance in [0, 100], total_enrollments in [1, 30], completed in [0, total], failed, overdue and pending in [0, 5], interactions in [0, 200], sessions in [0, 50], hours in [0, 200], days in [0, 30], engagement >= 0; the row carries its identifier |
| GenerateDataset.EnrollmentsFollowSemester | scripts/generate_dataset.py:43-45 | for well-drawn values total_enrollments is exactly 4 * semester + offset and lies in [2, 26] |
| GenerateDataset.RiskScore | scripts/generate_dataset.py:110-129 | the eleven-term score; no contract, its properties are stated by `RiskScoreBounds`, `RiskScoreMonotone`, `WeakRecordScoresHigher` and `RiskScores` |
| GenerateDataset.FailureRateMayExceedPercent | scripts/generate_dataset.py:44-48 | a well-drawn student with two enrolments and five failures has a failure rate of 250 |
| GenerateDataset.RiskScoreBounds | scripts/generate_dataset.py:110-129 | with grade and attendance non-negative, failed and overdue in [0, 5] and a non-negative amount, the score lies in [0, 188] |
| GenerateDataset.RiskScoreMonotone | scripts/generate_dataset.py:113-129 | lower grade, attendance, interactions, engagement or socioeconomic level, more failures, overdue payments, debt or inactivity, losing the scholarship or being in semester 1 never lower the score |
| GenerateDataset.DropoutLabelMonotone | scripts/generate_dataset.py:132-135 | for any monotone calibration and the same draw, a riskier student's label is at least the less risky one's |
| GenerateDataset.WeakRecordScoresHigher | scripts/generate_dataset.py:113-118 | the record (4.5, 60, 2 failed, 3 overdue) scores 50 more than (8.5, 95, 0, 0) when the other columns agree |
| GenerateDataset.RiskScores | scripts/generate_dataset.py:110-129 | the accumulated column holds the risk score of every row, each in [0, 188] where its inputs are in range |
| GenerateDataset.Row | scripts/generate_dataset.py:27-145 | one row: sampled columns, the label drawn at the calibrated score, then the ratios; stated by `RowInvariants` |
| GenerateDataset.Generated | scripts/generate_dataset.py:13-147 | the whole table, row i numbered i + 1; stated by `GeneratedTableInvariants`, and `GenerateStudentDropoutDataset` is proved equal to it |
| GenerateDataset.GenerateStudentDropoutDataset | scripts/generate_dataset.py:13-147 | the table built stage by stage equals row i: sampled columns, label drawn at the calibrated score, derived ratios |
| GenerateDataset.RowInvariants | scripts/generate_dataset.py:43-145 | a generated row is in range, has total >= 2, a success rate in [0, 100], a score in [0, 188], a binary label and its identifier |
| GenerateDataset.GeneratedTableInvariants | scripts/generate_dataset.py:13-147 | n draws give n rows, every one with the row invariants including row i's identifier `STU` with i + 1 padded to four digits, and pairwise distinct identifiers |
| ExampleDataset.ExampleRow | scripts/download_real_dataset.py:107-147 | every clipped fallback column is in range (failed in [0, 8], sessions in [0, 60], hours in [0, 250], engagement in [0, 200], overdue and pending in [0, 6], amount in [0, 8000], ...), total_enrollments is the drawn value, the row carries its identifier |
| ExampleDataset.ExampleRows | scripts/download_real_dataset.py:107-147 | the fallback DataFrame before its label column, one row per draw record, row i numbered i + 1; stated by `ExampleRowsFacts` |
| ExampleDataset.RiskColumn | scripts/download_real_dataset.py:150-161 | the `risk_factors` Series the rebalance reads at line 170, one `RiskFactors` count per row, each in [0, 118] |
| ExampleDataset.ExampleRowFromDraws | scripts/download_real_dataset.py:123-128 | for well-drawn values total_enrollments lies in [max(1, 4s - 3), 4s + 4] and so is at least 1, completed_courses lies in [0, 32], age in [17, 35] |
| ExampleDataset.CompletedMayExceedEnrollments | scripts/download_real_dataset.py:123-128 | a well-drawn student can have 32 completed courses out of 1 enrolment, and so a success rate of 3200 |
| ExampleDataset.FailureRateMayExceedPercent | scripts/download_real_dataset.py:123-124 | a well-drawn student with one enrolment and eight failures has a failure rate of 800 |
| ExampleDataset.RiskFactors | scripts/download_real_dataset.py:150-161 | `risk_factors` is an integer in [0, 118] |
| ExampleDataset.RiskFactorsMaximum | scripts/download_real_dataset.py:150-161 | the bound 118 is reached: grade below 5 counts 25 + 15 and semester 1 counts 10 |
| ExampleDataset.RiskFactorsMonotone | scripts/download_real_dataset.py:150-161 | lower grade, attendance, socioeconomic level or interactions, more failures, overdue payments or inactivity, and an earlier standing among semester 1, semester 2 and later never lower the count |
| ExampleDataset.DropoutLabelMonotone | scripts/download_real_dataset.py:164-165 | for a calibration that never lowers the probability and the same draw, a student at least as exposed on every factor never gets a lower label |
| ExampleDataset.SampledLabels | scripts/download_real_dataset.py:164-165 | the labels drawn at the calibrated `risk_factors` before rebalancing; stated binary by `SampledLabelsBinary` |
| ExampleDataset.WithLabels | scripts/download_real_dataset.py:165 | `df['dropout'] = labels`; stated by `WithLabelsKeepsRows` |
| ExampleDataset.ExampleLabels | scripts/download_real_dataset.py:164-171 | the sampled labels after the rebalancing pass; stated by `ExampleLabelsInvariants` |
| ExampleDataset.Example | scripts/download_real_dataset.py:96-173 | the whole fallback table; stated by `ExampleLabelsInvariants` and `ExampleRowsInvariants`, and `CreateExampleRealDataset` is proved equal to it |
| ExampleDataset.SampledLabelsBinary | scripts/download_real_dataset.py:164-165 | the labels drawn before rebalancing are all 0 or 1 |
| ExampleDataset.WithLabelsKeepsRows | scripts/download_real_dataset.py:165 | assigning the dropout column sets exactly that column and keeps every other |
| ExampleDataset.ExampleRowsFacts | scripts/download_real_dataset.py:107-147 | the sampled rows are numbered from 1 and all in range |
| ExampleDataset.CreateExampleRealDataset | scripts/download_real_dataset.py:96-173 | the table built stage by stage (rows, risk column, label array, in-place rebalance) equals the rows with the rebalanced sampled labels |
| ExampleDataset.ExampleLabelsInvariants | scripts/download_real_dataset.py:163-171 | the final dropout column is binary, is the rebalanced sampled column, holds at least as many 1s, and after a pass that runs at least min(int(0.15 n), rows with risk above 60) |
| ExampleDataset.ExampleRowsInvariants | scripts/download_real_dataset.py:107-147 | n draws give n rows, all in range, row i identified `STU` with i + 1 padded to four digits, and identifiers pairwise distinct |
| Rebalance.Quota | scripts/download_real_dataset.py:170 | `int(n_students * 0.15)` as n * 15 / 100; used by `SelectedCount` and `RebalancePositives` |
| Rebalance.NeedsRebalance | scripts/download_real_dataset.py:168 | the mean label is below 0.10, false for an empty column; `RebalanceOnlyRaises` states that nothing changes otherwise |
| Rebalance.Selected | scripts/download_real_dataset.py:170 | row i has risk above 60 and fewer than quota such rows precede it; counted by `SelectedCount` |
| Rebalance.ForceSelected | scripts/download_real_dataset.py:171 | selected rows set to 1, others kept; stated by `RebalanceOnlyRaises` and `RebalancePositives` |
| Rebalance.Rebalanced | scripts/download_real_dataset.py:168-171 | the whole pass; `RebalanceLabels` is proved equal to it, and `RebalanceOnlyRaises`, `RebalanceNeverLowersCount`, `RebalancePositives`, `SelectionIgnoresRiskOrder` and `FloorNotGuaranteed` state its properties |
| Rebalance.RebalanceLabels | scripts/download_real_dataset.py:168-171 | the array after the pass is `Rebalanced` of the array before it |
| Rebalance.RebalanceOnlyRaises | scripts/download_real_dataset.py:168-171 | labels stay binary, no 1 becomes 0, only rows with risk above 60 change (to 1), and nothing changes when the mean is at least 0.10 |
| Rebalance.RebalanceNeverLowersCount | scripts/download_real_dataset.py:168-171 | the number of students labelled 1 never falls |
| Rebalance.SelectedCount | scripts/download_real_dataset.py:170 | the pass selects exactly min(quota, rows with risk above 60) rows |
| Rebalance.RebalancePositives | scripts/download_real_dataset.py:168-171 | after a pass that runs, at least min(int(0.15 n), rows with risk above 60) labels are 1 |
| Rebalance.SelectionIgnoresRiskOrder | scripts/download_real_dataset.py:170 | with one slot, a first row at risk 61 is chosen over a second at risk 118 |
| Rebalance.FloorNotGuaranteed | scripts/download_real_dataset.py:168-171 | with no row above risk 60 the pass runs yet leaves every label 0 |
| CompatibleFormat.ExpectedColumns | scripts/download_real_dataset.py:188-196 | the 23 expected column names in order; stated by `ExpectedColumnsShape` |
| CompatibleFormat.Project | scripts/download_real_dataset.py:200 | `df[cols]` has exactly the wanted columns in that order with their data |
| CompatibleFormat.TransformToCompatibleFormat | scripts/download_real_dataset.py:188-206 | with all 23 expected columns present the result has exactly those, in order, with their data; otherwise the input comes back unchanged |
| CompatibleFormat.TransformIdempotent | scripts/download_real_dataset.py:198-200 | transforming a transformed table changes nothing |
| CompatibleFormat.ExpectedColumnsShape | scripts/download_real_dataset.py:188-196 | the expected list has 23 distinct names, `dropout` twentieth and the three ratios last |

## Left out

- Random sampling: the numpy distributions, the global seed and the
  reproducibility it gives are not modelled; the drawn values are inputs and
  `WellDrawn` records only each distribution's support.
- Numeric.Bernoulli: `binomial(1, p)` is modelled as comparing one uniform
  draw with p; numpy's own sampling algorithm is not modelled.
- The logistic calibration uses floating-point `exp`; it is the parameter
  `calibrate`, so that the probability lies in (0, 1) is not proved.
- Floating point: grades, attendance, hours, amounts, scores and ratios are
  exact reals; rounding, NaN propagation other than the zero-denominator
  case, and the float product behind `int(n_students * 0.15)` (modelled as
  `n * 15 / 100`, exact for the fixed n = 1000) are not modelled.
- The fallback fixes n_students = 1000 and seed 42; the model takes the
  population size as the number of draw records.
- A negative `n_students` in the main generator makes numpy raise
  `ValueError` at the first draw (scripts/generate_dataset.py:30); the
  model's population size is the number of draw records, which cannot be
  negative, so that error is not modelled. Zero students gives an empty
  table in both.
- Tables are row records (`Student`); pandas columns, dtypes and the
  column order of the written file are modelled only by
  `CompatibleFormat.Frame`, which does not model duplicate column names.
- Dataset download (network fetch, ZIP extraction, CSV separator sniffing),
  printing, directory creation, `to_csv`, the `requests` install shim and
  both `main` functions are I/O.
- scripts/deploy_model.py (model loading, prediction and reporting over
  external libraries) is not part of this model.
