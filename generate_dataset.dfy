/** The main synthetic generator, `generate_student_dropout_dataset`: per
    student it clips sampled features to fixed bounds, derives the
    engagement score and outstanding amount, accumulates a real-valued risk
    score, turns it into a dropout label, and adds the three ratio columns.
    The random draws are inputs; the logistic calibration is a parameter. */
module GenerateDataset {
  import opened Numeric
  import opened Students
  import StudentIds

  /** The values numpy draws for one student, before any clipping. */
  datatype Draws = Draws(
    ageNormal: real,              // normal(22, 3)
    gender: Gender,               // choice of M, F, O
    socioeconomicLevel: int,      // choice of 1..5
    gradeNormal: real,            // normal(6.5, 1.5)
    attendanceNormal: real,       // normal(80, 15)
    currentSemester: int,         // choice of 1..6
    enrollmentOffset: int,        // randint(-2, 3)
    failedPoisson: int,           // poisson(0.5)
    completionGap: int,           // randint(0, 3)
    interactionsPoisson: int,     // poisson(50)
    sessionsPoisson: int,         // poisson(15)
    durationGamma: real,          // gamma(2, 10)
    daysExponential: real,        // exponential(5)
    scholarshipPercentage: int,   // choice of 0, 25, 50, 75, 100
    overduePoisson: int,          // poisson(0.3)
    pendingPoisson: int,          // poisson(0.5)
    amountUniform: real,          // uniform(500, 2000)
    dropoutUniform: real)         // the draw behind binomial(1, p)

  /** The supports of the distributions the draws come from. */
  predicate WellDrawn(d: Draws)
  {
    && 1 <= d.socioeconomicLevel <= 5
    && 1 <= d.currentSemester <= 6
    && -2 <= d.enrollmentOffset <= 2
    && 0 <= d.failedPoisson
    && 0 <= d.completionGap <= 2
    && 0 <= d.interactionsPoisson
    && 0 <= d.sessionsPoisson
    && 0.0 <= d.durationGamma
    && 0.0 <= d.daysExponential
    && d.scholarshipPercentage in {0, 25, 50, 75, 100}
    && 0 <= d.overduePoisson
    && 0 <= d.pendingPoisson
    && 500.0 <= d.amountUniform < 2000.0
    && 0.0 <= d.dropoutUniform < 1.0
  }

  /** The bounds every clipped column of a generated row keeps. */
  predicate ClippedRanges(s: Student)
  {
    && 18 <= s.age <= 35
    && 0.0 <= s.avgGrade <= 10.0
    && 0.0 <= s.avgAttendance <= 100.0
    && 1 <= s.totalEnrollments <= 30
    && 0 <= s.failedCourses <= 5
    && 0 <= s.completedCourses <= s.totalEnrollments
    && 0 <= s.totalInteractions <= 200
    && 0 <= s.uniqueSessionsCount <= 50
    && 0.0 <= s.totalDurationHours <= 200.0
    && 0.0 <= s.daysSinceLastInteraction <= 30.0
    && 0.0 <= s.engagementScore
    && 0 <= s.overduePayments <= 5
    && 0 <= s.pendingPayments <= 5
  }

  /** engagement_score = 0.3 interactions + 2 sessions + 0.5 hours. */
  function EngagementScore(interactions: int, sessions: int, hours: real): (e: real)
    ensures 0 <= interactions && 0 <= sessions && 0.0 <= hours ==> 0.0 <= e
    ensures 0 <= interactions && 0 <= sessions && 0.0 <= hours ==>
              e >= 2.0 * sessions as real && e >= 0.5 * hours && e >= 0.3 * interactions as real
  {
    interactions as real * 0.3 + sessions as real * 2.0 + hours * 0.5
  }

  /** outstanding_amount = (overdue + pending) * u with u drawn from
      [500, 2000): 0 exactly when nothing is owed, otherwise between 500
      and 2000 per payment. */
  function OutstandingAmount(overdue: int, pending: int, u: real): (a: real)
    ensures 0 <= overdue && 0 <= pending && 500.0 <= u < 2000.0 ==>
              (a == 0.0 <==> overdue + pending == 0) &&
              500.0 * (overdue + pending) as real <= a &&
              (overdue + pending > 0 ==> a < 2000.0 * (overdue + pending) as real)
  {
    ScaleWithinRange(overdue + pending, u);
    (overdue + pending) as real * u
  }

  lemma ScaleWithinRange(count: int, u: real)
    ensures 0 <= count && 500.0 <= u < 2000.0 ==>
              (count as real * u == 0.0 <==> count == 0) &&
              500.0 * count as real <= count as real * u &&
              (count > 0 ==> count as real * u < 2000.0 * count as real)
  {
    var k := count as real;
    if 0 < count && 500.0 <= u < 2000.0 {
      assert k * u - 500.0 * k == k * (u - 500.0);
      assert 2000.0 * k - k * u == k * (2000.0 - u);
      assert 0.0 < k * (2000.0 - u);
    }
  }

  /** The primary columns of row `id`; the derived columns and the label
      are added later and hold 0 here. */
  function Sample(d: Draws, id: nat): (s: Student)
    ensures ClippedRanges(s)
    ensures s.studentId == StudentIds.StudentId(id)
    ensures 500.0 <= d.amountUniform < 2000.0 ==> 0.0 <= s.outstandingAmount
  {
    var failed := Clip(d.failedPoisson, 0, 5);
    var total := Clip(d.currentSemester * 4 + d.enrollmentOffset, 1, 30);
    var interactions := Clip(d.interactionsPoisson, 0, 200);
    var sessions := Clip(d.sessionsPoisson, 0, 50);
    var hours := ClipReal(d.durationGamma, 0.0, 200.0);
    var overdue := Clip(d.overduePoisson, 0, 5);
    var pending := Clip(d.pendingPoisson, 0, 5);
    Student(
      studentId := StudentIds.StudentId(id),
      age := Clip(TruncToInt(d.ageNormal), 18, 35),
      gender := d.gender,
      socioeconomicLevel := d.socioeconomicLevel,
      avgGrade := ClipReal(d.gradeNormal, 0.0, 10.0),
      avgAttendance := ClipReal(d.attendanceNormal, 0.0, 100.0),
      currentSemester := d.currentSemester,
      totalEnrollments := total,
      failedCourses := failed,
      completedCourses := Clip(total - failed - d.completionGap, 0, total),
      totalInteractions := interactions,
      uniqueSessionsCount := sessions,
      totalDurationHours := hours,
      daysSinceLastInteraction := ClipReal(d.daysExponential, 0.0, 30.0),
      engagementScore := EngagementScore(interactions, sessions, hours),
      scholarshipPercentage := d.scholarshipPercentage,
      overduePayments := overdue,
      pendingPayments := pending,
      outstandingAmount := OutstandingAmount(overdue, pending, d.amountUniform),
      successRate := 0.0,
      failureRate := 0.0,
      interactionPerEnrollment := 0.0,
      dropout := 0)
  }

  /** total_enrollments is never clipped for well-drawn values: it is
      4 * semester + offset, between 2 and 26. */
  lemma EnrollmentsFollowSemester(d: Draws, id: nat)
    requires WellDrawn(d)
    ensures Sample(d, id).totalEnrollments == 4 * d.currentSemester + d.enrollmentOffset
    ensures 2 <= Sample(d, id).totalEnrollments <= 26
  {
  }

  /** failure_rate is not a percentage: two enrolments (semester 1, offset
      -2) with five failed courses give 250. */
  lemma FailureRateMayExceedPercent(calibrate: real -> real)
    ensures var d := Draws(22.0, M, 3, 6.5, 80.0, 1, -2, 5, 0, 50, 15, 20.0, 5.0, 0, 0, 0, 1000.0, 0.5);
            WellDrawn(d) &&
            Row(d, 1, calibrate).totalEnrollments == 2 &&
            Row(d, 1, calibrate).failedCourses == 5 &&
            Row(d, 1, calibrate).failureRate == 250.0
  {
  }

  // ---- risk score ----------------------------------------------------

  function GradeTerm(grade: real): real
  {
    if grade < 6.0 then (6.0 - grade) / 6.0 * 40.0 else 0.0
  }

  function AttendanceTerm(attendance: real): real
  {
    if attendance < 75.0 then (75.0 - attendance) / 75.0 * 30.0 else 0.0
  }

  function OutstandingTerm(amount: real): real
  {
    Min(amount / 1000.0, 15.0)
  }

  function Indicator(condition: bool, weight: real): real
  {
    if condition then weight else 0.0
  }

  /** The sum of the eleven academic, financial, behavioural and
      demographic terms. */
  function RiskScore(s: Student): real
  {
    GradeTerm(s.avgGrade)
    + AttendanceTerm(s.avgAttendance)
    + s.failedCourses as real * 5.0
    + s.overduePayments as real * 8.0
    + OutstandingTerm(s.outstandingAmount)
    + Indicator(s.scholarshipPercentage == 0, 5.0)
    + Indicator(s.totalInteractions < 20, 10.0)
    + Indicator(s.daysSinceLastInteraction > 7.0, 8.0)
    + Indicator(s.engagementScore < 50.0, 7.0)
    + Indicator(s.socioeconomicLevel <= 2, 5.0)
    + Indicator(s.currentSemester == 1, 3.0)
  }

  /** The columns the score's bounds depend on. */
  predicate ScoreInputsInRange(s: Student)
  {
    && 0.0 <= s.avgGrade
    && 0.0 <= s.avgAttendance
    && 0 <= s.failedCourses <= 5
    && 0 <= s.overduePayments <= 5
    && 0.0 <= s.outstandingAmount
  }

  /** The grade term is at most 40, the attendance term at most 30 and the
      outstanding term is capped at 15, so the score lies in [0, 188]. */
  lemma RiskScoreBounds(s: Student)
    requires ScoreInputsInRange(s)
    ensures 0.0 <= RiskScore(s) <= 188.0
  {
    assert GradeTerm(s.avgGrade) <= 40.0;
    assert AttendanceTerm(s.avgAttendance) <= 30.0;
    assert 0.0 <= OutstandingTerm(s.outstandingAmount) <= 15.0;
  }

  /** `a` is at least as exposed as `b` on every factor the score reads. */
  predicate AtLeastAsRisky(a: Student, b: Student)
  {
    && a.avgGrade <= b.avgGrade
    && a.avgAttendance <= b.avgAttendance
    && a.failedCourses >= b.failedCourses
    && a.overduePayments >= b.overduePayments
    && a.outstandingAmount >= b.outstandingAmount
    && (b.scholarshipPercentage == 0 ==> a.scholarshipPercentage == 0)
    && a.totalInteractions <= b.totalInteractions
    && a.daysSinceLastInteraction >= b.daysSinceLastInteraction
    && a.engagementScore <= b.engagementScore
    && a.socioeconomicLevel <= b.socioeconomicLevel
    && (b.currentSemester == 1 ==> a.currentSemester == 1)
  }

  /** Lower grade or attendance, more failures, overdue payments or debt
      (and so on for every factor) never lower the score. */
  lemma RiskScoreMonotone(a: Student, b: Student)
    requires AtLeastAsRisky(a, b)
    ensures RiskScore(a) >= RiskScore(b)
  {
    assert GradeTerm(a.avgGrade) >= GradeTerm(b.avgGrade);
    assert AttendanceTerm(a.avgAttendance) >= AttendanceTerm(b.avgAttendance);
    assert OutstandingTerm(a.outstandingAmount) >= OutstandingTerm(b.outstandingAmount);
  }

  /** With the same uniform draw, a riskier student is never labelled 0
      where a less risky one is labelled 1, for any monotone calibration. */
  lemma DropoutLabelMonotone(a: Student, b: Student, calibrate: real -> real, u: real)
    requires Monotone(calibrate)
    requires AtLeastAsRisky(a, b)
    ensures Bernoulli(calibrate(RiskScore(b)), u) <= Bernoulli(calibrate(RiskScore(a)), u)
  {
    RiskScoreMonotone(a, b);
    assert calibrate(RiskScore(b)) <= calibrate(RiskScore(a));
    BernoulliMonotone(calibrate(RiskScore(b)), calibrate(RiskScore(a)), u);
  }

  /** Of two records that differ only in grade, attendance, failures,
      overdue payments and enrolments, the weaker one (4.5, 60, 2, 3, 4 with
      1 completed) scores strictly higher than the stronger one (8.5, 95, 0,
      0, 12 with 11 completed). */
  lemma WeakRecordScoresHigher(s: Student)
    ensures
      var weak := s.(avgGrade := 4.5, avgAttendance := 60.0, failedCourses := 2,
                     overduePayments := 3, totalEnrollments := 4, completedCourses := 1);
      var strong := s.(avgGrade := 8.5, avgAttendance := 95.0, failedCourses := 0,
                       overduePayments := 0, totalEnrollments := 12, completedCourses := 11);
      RiskScore(weak) == RiskScore(strong) + 50.0
  {
  }

  /** The risk score of every row, accumulated term by term. */
  method RiskScores(rows: seq<Student>) returns (scores: seq<real>)
    ensures |scores| == |rows|
    ensures forall k :: 0 <= k < |rows| ==> scores[k] == RiskScore(rows[k])
    ensures forall k :: 0 <= k < |rows| && ScoreInputsInRange(rows[k]) ==>
              0.0 <= scores[k] <= 188.0
  {
    scores := [];
    for i := 0 to |rows|
      invariant |scores| == i
      invariant forall k :: 0 <= k < i ==> scores[k] == RiskScore(rows[k])
    {
      var s := rows[i];
      var score := 0.0;
      score := score + GradeTerm(s.avgGrade);
      score := score + AttendanceTerm(s.avgAttendance);
      score := score + s.failedCourses as real * 5.0;
      score := score + s.overduePayments as real * 8.0;
      score := score + OutstandingTerm(s.outstandingAmount);
      score := score + Indicator(s.scholarshipPercentage == 0, 5.0);
      score := score + Indicator(s.totalInteractions < 20, 10.0);
      score := score + Indicator(s.daysSinceLastInteraction > 7.0, 8.0);
      score := score + Indicator(s.engagementScore < 50.0, 7.0);
      score := score + Indicator(s.socioeconomicLevel <= 2, 5.0);
      score := score + Indicator(s.currentSemester == 1, 3.0);
      scores := scores + [score];
    }
    forall k | 0 <= k < |rows| && ScoreInputsInRange(rows[k])
      ensures 0.0 <= scores[k] <= 188.0
    {
      RiskScoreBounds(rows[k]);
    }
  }

  // ---- the whole table -----------------------------------------------

  /** Row `id` of the table: sampled columns, the label drawn at the
      calibrated probability, then the derived ratios. */
  function Row(d: Draws, id: nat, calibrate: real -> real): Student
  {
    var s := Sample(d, id);
    WithDerivedFeatures(s.(dropout := Bernoulli(calibrate(RiskScore(s)), d.dropoutUniform)))
  }

  /** The table for the given draws, rows numbered from 1. */
  function Generated(draws: seq<Draws>, calibrate: real -> real): seq<Student>
  {
    seq(|draws|, i requires 0 <= i < |draws| => Row(draws[i], i + 1, calibrate))
  }

  method GenerateStudentDropoutDataset(draws: seq<Draws>, calibrate: real -> real)
    returns (table: seq<Student>)
    ensures table == Generated(draws, calibrate)
  {
    var rows := seq(|draws|, i requires 0 <= i < |draws| => Sample(draws[i], i + 1));
    var risk := RiskScores(rows);
    table := [];
    for i := 0 to |rows|
      invariant |table| == i
      invariant forall k :: 0 <= k < i ==> table[k] == Row(draws[k], k + 1, calibrate)
    {
      var outcome := Bernoulli(calibrate(risk[i]), draws[i].dropoutUniform);
      table := table + [WithDerivedFeatures(rows[i].(dropout := outcome))];
    }
  }

  /** One generated row keeps the clipped bounds, has total_enrollments
      at least 2, a success rate in [0, 100], a risk score in [0, 188] and a
      binary label. */
  lemma RowInvariants(d: Draws, id: nat, calibrate: real -> real)
    requires WellDrawn(d)
    ensures var r := Row(d, id, calibrate);
            ClippedRanges(r) && 2 <= r.totalEnrollments &&
            0.0 <= r.successRate <= 100.0 &&
            0.0 <= RiskScore(r) <= 188.0 &&
            (r.dropout == 0 || r.dropout == 1) &&
            r.studentId == StudentIds.StudentId(id)
  {
    var s := Sample(d, id);
    EnrollmentsFollowSemester(d, id);
    var labelled := s.(dropout := Bernoulli(calibrate(RiskScore(s)), d.dropoutUniform));
    SuccessRateIsPercentage(labelled);
    RiskScoreBounds(Row(d, id, calibrate));
  }

  /** Every row of a generated table keeps the clipped bounds, has
      completed_courses within [0, total_enrollments] and total_enrollments
      at least 2, a success rate in [0, 100], a risk score in [0, 188], a
      binary label and row i's identifier `StudentId(i + 1)`; identifiers are
      pairwise distinct. */
  lemma GeneratedTableInvariants(draws: seq<Draws>, calibrate: real -> real)
    requires forall i :: 0 <= i < |draws| ==> WellDrawn(draws[i])
    ensures |Generated(draws, calibrate)| == |draws|
    ensures forall i :: 0 <= i < |draws| ==>
              var r := Generated(draws, calibrate)[i];
              ClippedRanges(r) && 2 <= r.totalEnrollments &&
              0.0 <= r.successRate <= 100.0 &&
              0.0 <= RiskScore(r) <= 188.0 &&
              (r.dropout == 0 || r.dropout == 1) &&
              r.studentId == StudentIds.StudentId(i + 1)
    ensures forall i, j :: 0 <= i < j < |draws| ==>
              Generated(draws, calibrate)[i].studentId != Generated(draws, calibrate)[j].studentId
  {
    var t := Generated(draws, calibrate);
    forall i | 0 <= i < |draws|
      ensures t[i] == Row(draws[i], i + 1, calibrate)
      ensures var r := t[i];
              ClippedRanges(r) && 2 <= r.totalEnrollments &&
              0.0 <= r.successRate <= 100.0 &&
              0.0 <= RiskScore(r) <= 188.0 &&
              (r.dropout == 0 || r.dropout == 1) &&
              r.studentId == StudentIds.StudentId(i + 1)
    {
      RowInvariants(draws[i], i + 1, calibrate);
    }
    NumberedIdsDistinct(t);
  }
}
