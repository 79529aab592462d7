/** The offline fallback generator, `create_example_real_dataset`: clipped
    samples, the three derived ratios, an integer count of risk factors,
    a dropout label drawn at the calibrated probability, and the
    rebalancing pass. The random draws are inputs; the logistic calibration
    is a parameter. */
module ExampleDataset {
  import opened Numeric
  import opened Students
  import StudentIds
  import opened Rebalance

  /** The values numpy draws for one student, before any clipping. */
  datatype ExampleDraws = ExampleDraws(
    age: int,                     // choice of 17..35
    gender: Gender,               // choice of M, F, O
    socioeconomicLevel: int,      // choice of 1..5
    gradeNormal: real,            // normal(7.0, 1.8)
    attendanceNormal: real,       // normal(82, 18)
    currentSemester: int,         // choice of 1..8
    enrollmentSemester: int,      // a second, independent choice of 1..8
    totalEnrollments: int,        // randint(max(1, 4s - 3), 4s + 5) for that s
    failedPoisson: int,           // poisson(0.8)
    completionEnrollment: int,    // randint(1, 33)
    completionFailedPoisson: int, // a second, independent poisson(0.8)
    completionGap: int,           // randint(0, clipped second poisson + 2)
    interactionsPoisson: int,     // poisson(45)
    sessionsPoisson: int,         // poisson(18)
    durationGamma: real,          // gamma(2.5, 12)
    daysExponential: real,        // exponential(4)
    engagementNormal: real,       // normal(85, 25)
    scholarshipPercentage: int,   // choice of 0, 25, 50, 75, 100
    overduePoisson: int,          // poisson(0.4)
    pendingPoisson: int,          // poisson(0.6)
    outstandingExponential: real, // exponential(800)
    dropoutUniform: real)         // the draw behind binomial(1, p)

  /** Lowest total_enrollments drawn for semester s. */
  function EnrollmentLow(s: int): int
  {
    MaxInt(1, s * 4 - 3)
  }

  /** The supports of the distributions the draws come from. */
  predicate WellDrawn(d: ExampleDraws)
  {
    && 17 <= d.age <= 35
    && 1 <= d.socioeconomicLevel <= 5
    && 1 <= d.currentSemester <= 8
    && 1 <= d.enrollmentSemester <= 8
    && EnrollmentLow(d.enrollmentSemester) <= d.totalEnrollments < d.enrollmentSemester * 4 + 5
    && 0 <= d.failedPoisson
    && 1 <= d.completionEnrollment < 33
    && 0 <= d.completionFailedPoisson
    && 0 <= d.completionGap < Clip(d.completionFailedPoisson, 0, 8) + 2
    && 0 <= d.interactionsPoisson
    && 0 <= d.sessionsPoisson
    && 0.0 <= d.durationGamma
    && 0.0 <= d.daysExponential
    && d.scholarshipPercentage in {0, 25, 50, 75, 100}
    && 0 <= d.overduePoisson
    && 0 <= d.pendingPoisson
    && 0.0 <= d.outstandingExponential
    && 0.0 <= d.dropoutUniform < 1.0
  }

  /** The bounds every clipped column of a fallback row keeps. */
  predicate ClippedRanges(s: Student)
  {
    && 0.0 <= s.avgGrade <= 10.0
    && 0.0 <= s.avgAttendance <= 100.0
    && 0 <= s.failedCourses <= 8
    && 0 <= s.completedCourses
    && 0 <= s.totalInteractions <= 200
    && 0 <= s.uniqueSessionsCount <= 60
    && 0.0 <= s.totalDurationHours <= 250.0
    && 0.0 <= s.daysSinceLastInteraction <= 30.0
    && 0.0 <= s.engagementScore <= 200.0
    && 0 <= s.overduePayments <= 6
    && 0 <= s.pendingPayments <= 6
    && 0.0 <= s.outstandingAmount <= 8000.0
  }

  /** The sampled columns of row `id`, with the derived ratios already
      added; the label is added later and holds 0 here. */
  function ExampleRow(d: ExampleDraws, id: nat): (s: Student)
    ensures ClippedRanges(s)
    ensures s.studentId == StudentIds.StudentId(id)
    ensures s.totalEnrollments == d.totalEnrollments
  {
    var primary := Student(
      studentId := StudentIds.StudentId(id),
      age := d.age,
      gender := d.gender,
      socioeconomicLevel := d.socioeconomicLevel,
      avgGrade := ClipReal(d.gradeNormal, 0.0, 10.0),
      avgAttendance := ClipReal(d.attendanceNormal, 0.0, 100.0),
      currentSemester := d.currentSemester,
      totalEnrollments := d.totalEnrollments,
      failedCourses := Clip(d.failedPoisson, 0, 8),
      completedCourses := MaxInt(0, d.completionEnrollment - d.completionGap),
      totalInteractions := Clip(d.interactionsPoisson, 0, 200),
      uniqueSessionsCount := Clip(d.sessionsPoisson, 0, 60),
      totalDurationHours := ClipReal(d.durationGamma, 0.0, 250.0),
      daysSinceLastInteraction := ClipReal(d.daysExponential, 0.0, 30.0),
      engagementScore := ClipReal(d.engagementNormal, 0.0, 200.0),
      scholarshipPercentage := d.scholarshipPercentage,
      overduePayments := Clip(d.overduePoisson, 0, 6),
      pendingPayments := Clip(d.pendingPoisson, 0, 6),
      outstandingAmount := ClipReal(d.outstandingExponential, 0.0, 8000.0),
      successRate := 0.0,
      failureRate := 0.0,
      interactionPerEnrollment := 0.0,
      dropout := 0);
    WithDerivedFeatures(primary)
  }

  /** For well-drawn values, total_enrollments lies in
      [max(1, 4s - 3), 4s + 4] and so is at least 1, and completed_courses
      lies in [0, 32]; the ratios therefore never take the zero fallback. */
  lemma ExampleRowFromDraws(d: ExampleDraws, id: nat)
    requires WellDrawn(d)
    ensures var s := ExampleRow(d, id);
            EnrollmentLow(d.enrollmentSemester) <= s.totalEnrollments <= 4 * d.enrollmentSemester + 4 &&
            1 <= s.totalEnrollments &&
            0 <= s.completedCourses <= 32 &&
            17 <= s.age <= 35
  {
  }

  /** completed_courses comes from its own enrolment draw, so it can exceed
      total_enrollments and the success rate can exceed 100. */
  lemma CompletedMayExceedEnrollments()
    ensures var d := ExampleDraws(20, M, 3, 7.0, 82.0, 1, 1, 1, 0, 32, 0, 0,
                                  45, 18, 30.0, 4.0, 85.0, 0, 0, 0, 800.0, 0.5);
            WellDrawn(d) &&
            ExampleRow(d, 1).completedCourses == 32 &&
            ExampleRow(d, 1).totalEnrollments == 1 &&
            ExampleRow(d, 1).successRate == 3200.0
  {
  }

  /** failure_rate is not a percentage either: one enrolment with eight
      failed courses gives 800. */
  lemma FailureRateMayExceedPercent()
    ensures var d := ExampleDraws(20, M, 3, 7.0, 82.0, 1, 1, 1, 8, 1, 0, 0,
                                  45, 18, 30.0, 4.0, 85.0, 0, 0, 0, 800.0, 0.5);
            WellDrawn(d) &&
            ExampleRow(d, 1).totalEnrollments == 1 &&
            ExampleRow(d, 1).failedCourses == 8 &&
            ExampleRow(d, 1).failureRate == 800.0
  {
  }

  // ---- risk factors --------------------------------------------------

  function Weight(condition: bool, weight: int): int
  {
    if condition then weight else 0
  }

  /** `risk_factors`: ten threshold terms; grade below 5 counts 25 + 15. */
  function RiskFactors(s: Student): (r: int)
    ensures 0 <= r <= 118
  {
    Weight(s.avgGrade < 5.0, 25)
    + Weight(s.avgGrade < 6.0, 15)
    + Weight(s.avgAttendance < 70.0, 20)
    + Weight(s.failedCourses >= 3, 15)
    + Weight(s.currentSemester == 1, 10)
    + Weight(s.currentSemester == 2, 5)
    + Weight(s.socioeconomicLevel <= 2, 10)
    + Weight(s.overduePayments >= 2, 8)
    + Weight(s.daysSinceLastInteraction > 10.0, 8)
    + Weight(s.totalInteractions < 20, 7)
  }

  /** The bound 118 is reached. */
  lemma RiskFactorsMaximum(s: Student)
    requires s.avgGrade < 5.0 && s.avgAttendance < 70.0 && s.failedCourses >= 3
    requires s.currentSemester == 1 && s.socioeconomicLevel <= 2 && s.overduePayments >= 2
    requires s.daysSinceLastInteraction > 10.0 && s.totalInteractions < 20
    ensures RiskFactors(s) == 118
  {
  }

  /** `a` is at least as exposed as `b` on every factor the count reads;
      for the semester, a student in semester 1 is at least as exposed as
      one in semester 2, who is at least as exposed as one further on. */
  predicate AtLeastAsRisky(a: Student, b: Student)
  {
    && a.avgGrade <= b.avgGrade
    && a.avgAttendance <= b.avgAttendance
    && a.failedCourses >= b.failedCourses
    && (b.currentSemester == 1 ==> a.currentSemester == 1)
    && (b.currentSemester == 2 ==> a.currentSemester == 1 || a.currentSemester == 2)
    && a.socioeconomicLevel <= b.socioeconomicLevel
    && a.overduePayments >= b.overduePayments
    && a.daysSinceLastInteraction >= b.daysSinceLastInteraction
    && a.totalInteractions <= b.totalInteractions
  }

  lemma RiskFactorsMonotone(a: Student, b: Student)
    requires AtLeastAsRisky(a, b)
    ensures RiskFactors(a) >= RiskFactors(b)
  {
  }

  /** With a calibration that never lowers the probability and the same
      uniform draw, the more exposed student's label is never the lower. */
  lemma DropoutLabelMonotone(a: Student, b: Student, calibrate: real -> real, u: real)
    requires Monotone(calibrate)
    requires AtLeastAsRisky(a, b)
    ensures Bernoulli(calibrate(RiskFactors(b) as real), u) <= Bernoulli(calibrate(RiskFactors(a) as real), u)
  {
    RiskFactorsMonotone(a, b);
    assert calibrate(RiskFactors(b) as real) <= calibrate(RiskFactors(a) as real);
    BernoulliMonotone(calibrate(RiskFactors(b) as real), calibrate(RiskFactors(a) as real), u);
  }

  // ---- the whole table -----------------------------------------------

  /** The fallback DataFrame before the label column, rows numbered from 1. */
  function ExampleRows(draws: seq<ExampleDraws>): seq<Student>
  {
    seq(|draws|, i requires 0 <= i < |draws| => ExampleRow(draws[i], i + 1))
  }

  /** The `risk_factors` column, one count per row. */
  function RiskColumn(rows: seq<Student>): seq<int>
  {
    seq(|rows|, i requires 0 <= i < |rows| => RiskFactors(rows[i]))
  }

  /** `np.random.binomial(1, dropout_prob)` before rebalancing. */
  function SampledLabels(rows: seq<Student>, draws: seq<ExampleDraws>, calibrate: real -> real): seq<int>
    requires |rows| == |draws|
  {
    seq(|rows|, i requires 0 <= i < |rows| =>
      Bernoulli(calibrate(RiskFactors(rows[i]) as real), draws[i].dropoutUniform))
  }

  function DropoutColumn(table: seq<Student>): seq<int>
  {
    seq(|table|, i requires 0 <= i < |table| => table[i].dropout)
  }

  /** `df['dropout'] = labels`. */
  function WithLabels(rows: seq<Student>, labels: seq<int>): seq<Student>
    requires |rows| == |labels|
  {
    seq(|rows|, i requires 0 <= i < |rows| => rows[i].(dropout := labels[i]))
  }

  /** The final dropout column: sampled, then rebalanced. */
  function ExampleLabels(draws: seq<ExampleDraws>, calibrate: real -> real): seq<int>
  {
    var rows := ExampleRows(draws);
    Rebalanced(SampledLabels(rows, draws, calibrate), RiskColumn(rows))
  }

  /** The fallback table for the given draws, rows numbered from 1. */
  function Example(draws: seq<ExampleDraws>, calibrate: real -> real): seq<Student>
  {
    WithLabels(ExampleRows(draws), ExampleLabels(draws, calibrate))
  }

  method CreateExampleRealDataset(draws: seq<ExampleDraws>, calibrate: real -> real)
    returns (table: seq<Student>)
    ensures table == Example(draws, calibrate)
  {
    var n := |draws|;
    var rows := seq(n, i requires 0 <= i < n => ExampleRow(draws[i], i + 1));
    var risk := seq(n, i requires 0 <= i < n => RiskFactors(rows[i]));
    var dropout := new int[n](i requires 0 <= i < n =>
      Bernoulli(calibrate(risk[i] as real), draws[i].dropoutUniform));
    assert dropout[..] == SampledLabels(rows, draws, calibrate);
    RebalanceLabels(dropout, risk);
    var labels := dropout[..];
    table := seq(n, i requires 0 <= i < n => rows[i].(dropout := labels[i]));
  }

  /** Setting the label column changes nothing else. */
  lemma WithLabelsKeepsRows(rows: seq<Student>, labels: seq<int>)
    requires |rows| == |labels|
    ensures |WithLabels(rows, labels)| == |rows|
    ensures DropoutColumn(WithLabels(rows, labels)) == labels
    ensures forall i :: 0 <= i < |rows| ==>
              WithLabels(rows, labels)[i].(dropout := rows[i].dropout) == rows[i]
    ensures forall i :: 0 <= i < |rows| ==>
              WithLabels(rows, labels)[i].studentId == rows[i].studentId &&
              (ClippedRanges(rows[i]) ==> ClippedRanges(WithLabels(rows, labels)[i]))
  {
  }

  lemma ExampleRowsFacts(draws: seq<ExampleDraws>)
    ensures |ExampleRows(draws)| == |draws|
    ensures NumberedFromOne(ExampleRows(draws))
    ensures forall i :: 0 <= i < |draws| ==> ClippedRanges(ExampleRows(draws)[i])
  {
  }

  lemma SampledLabelsBinary(rows: seq<Student>, draws: seq<ExampleDraws>, calibrate: real -> real)
    requires |rows| == |draws|
    ensures Binary(SampledLabels(rows, draws, calibrate))
  {
    var sampled := SampledLabels(rows, draws, calibrate);
    forall i | 0 <= i < |sampled|
      ensures sampled[i] == 0 || sampled[i] == 1
    {
      var p := calibrate(RiskFactors(rows[i]) as real);
      assert sampled[i] == Bernoulli(p, draws[i].dropoutUniform);
    }
  }

  /** The final dropout column is binary and is the sampled one after the
      rebalancing pass, which lowers no label and, when it runs, leaves at
      least min(int(0.15 n), rows with risk above 60) labels at 1. */
  lemma ExampleLabelsInvariants(draws: seq<ExampleDraws>, calibrate: real -> real)
    ensures var t := Example(draws, calibrate);
            var sampled := SampledLabels(ExampleRows(draws), draws, calibrate);
            DropoutColumn(t) == Rebalanced(sampled, RiskColumn(ExampleRows(draws))) &&
            Binary(DropoutColumn(t)) &&
            Sum(sampled) <= Sum(DropoutColumn(t)) &&
            (NeedsRebalance(sampled) ==>
               var n := |draws|;
               var high := CountAbove(RiskColumn(ExampleRows(draws)), n);
               Sum(DropoutColumn(t)) >= if high < Quota(n) then high else Quota(n))
  {
    var rows := ExampleRows(draws);
    var sampled := SampledLabels(rows, draws, calibrate);
    var labels := ExampleLabels(draws, calibrate);
    assert |rows| == |draws|;
    SampledLabelsBinary(rows, draws, calibrate);
    RebalanceOnlyRaises(sampled, RiskColumn(rows));
    RebalanceNeverLowersCount(sampled, RiskColumn(rows));
    if NeedsRebalance(sampled) {
      RebalancePositives(sampled, RiskColumn(rows));
    }
    WithLabelsKeepsRows(rows, labels);
  }

  /** Every fallback row keeps its clipped bounds, row i carries the
      identifier `StudentId(i + 1)`, and identifiers are pairwise distinct. */
  lemma ExampleRowsInvariants(draws: seq<ExampleDraws>, calibrate: real -> real)
    ensures var t := Example(draws, calibrate);
            |t| == |draws| &&
            (forall i :: 0 <= i < |t| ==> ClippedRanges(t[i])) &&
            NumberedFromOne(t) &&
            (forall i, j :: 0 <= i < j < |t| ==> t[i].studentId != t[j].studentId)
  {
    var rows := ExampleRows(draws);
    var labels := ExampleLabels(draws, calibrate);
    ExampleRowsFacts(draws);
    assert |labels| == |rows|;
    WithLabelsKeepsRows(rows, labels);
    NumberedIdsDistinct(Example(draws, calibrate));
  }
}
