/** One row of the generated student table and its three derived columns,
    computed the same way by both generators. */
module Students {
  import opened Numeric
  import StudentIds

  datatype Gender = M | F | O

  /** The columns of one student; `dropout` is the binary target. */
  datatype Student = Student(
    studentId: string,
    // demographic
    age: int,
    gender: Gender,
    socioeconomicLevel: int,
    // academic
    avgGrade: real,
    avgAttendance: real,
    currentSemester: int,
    totalEnrollments: int,
    failedCourses: int,
    completedCourses: int,
    // behavioural
    totalInteractions: int,
    uniqueSessionsCount: int,
    totalDurationHours: real,
    daysSinceLastInteraction: real,
    engagementScore: real,
    // financial
    scholarshipPercentage: int,
    overduePayments: int,
    pendingPayments: int,
    outstandingAmount: real,
    // derived
    successRate: real,
    failureRate: real,
    interactionPerEnrollment: real,
    // target
    dropout: int)

  /** Adds success_rate, failure_rate and interaction_per_enrollment, each
      0 where total_enrollments is 0; every other column is kept. */
  function WithDerivedFeatures(s: Student): (r: Student)
    ensures r.(successRate := s.successRate, failureRate := s.failureRate,
               interactionPerEnrollment := s.interactionPerEnrollment) == s
    ensures s.totalEnrollments == 0 ==>
              r.successRate == 0.0 && r.failureRate == 0.0 && r.interactionPerEnrollment == 0.0
    ensures s.totalEnrollments != 0 ==>
              r.successRate * s.totalEnrollments as real == s.completedCourses as real * 100.0 &&
              r.failureRate * s.totalEnrollments as real == s.failedCourses as real * 100.0 &&
              r.interactionPerEnrollment * s.totalEnrollments as real == s.totalInteractions as real
  {
    s.(successRate := SafeRate(s.completedCourses, s.totalEnrollments),
       failureRate := SafeRate(s.failedCourses, s.totalEnrollments),
       interactionPerEnrollment := SafeQuotient(s.totalInteractions, s.totalEnrollments))
  }

  /** Where completed_courses does not exceed total_enrollments the success
      rate is a percentage. */
  lemma SuccessRateIsPercentage(s: Student)
    requires 0 <= s.completedCourses <= s.totalEnrollments
    ensures 0.0 <= WithDerivedFeatures(s).successRate <= 100.0
  {
    RateWithinPercent(s.completedCourses, s.totalEnrollments);
  }

  /** Row i (from 0) carries the identifier of row number i + 1. */
  predicate NumberedFromOne(rows: seq<Student>)
  {
    forall i :: 0 <= i < |rows| ==> rows[i].studentId == StudentIds.StudentId(i + 1)
  }

  /** A table numbered this way has pairwise distinct identifiers. */
  lemma NumberedIdsDistinct(rows: seq<Student>)
    requires NumberedFromOne(rows)
    ensures forall i, j :: 0 <= i < j < |rows| ==> rows[i].studentId != rows[j].studentId
  {
    forall i, j | 0 <= i < j < |rows|
      ensures rows[i].studentId != rows[j].studentId
    {
      StudentIds.StudentIdInjective(i + 1, j + 1);
    }
  }
}
