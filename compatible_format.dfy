/** `transform_to_compatible_format`: when every expected column is present
    the table is cut down to exactly those columns, in the expected order;
    otherwise it is returned as it is. */
module CompatibleFormat {

  const ExpectedColumns: seq<string> := [
    "student_id", "age", "gender", "socioeconomic_level",
    "avg_grade", "avg_attendance", "current_semester",
    "total_enrollments", "failed_courses", "completed_courses",
    "total_interactions", "unique_sessions_count",
    "total_duration_hours", "days_since_last_interaction",
    "engagement_score", "scholarship_percentage",
    "overdue_payments", "pending_payments", "outstanding_amount",
    "dropout", "success_rate", "failure_rate",
    "interaction_per_enrollment"]

  /** A table as its column order and the data of each named column. */
  datatype Frame<C> = Frame(columns: seq<string>, data: map<string, C>)

  /** Every listed column has data and every column with data is listed. */
  predicate WellFormed<C>(f: Frame<C>)
  {
    f.data.Keys == set c | c in f.columns
  }

  predicate HasAll<C>(f: Frame<C>, wanted: seq<string>)
  {
    forall c :: c in wanted ==> c in f.columns
  }

  /** `df[wanted]`: the named columns, in that order, with their data. */
  function Project<C>(f: Frame<C>, wanted: seq<string>): (r: Frame<C>)
    requires WellFormed(f) && HasAll(f, wanted)
    ensures WellFormed(r)
    ensures r.columns == wanted
    ensures forall c :: c in wanted ==> r.data[c] == f.data[c]
  {
    Frame(wanted, map c | c in wanted :: f.data[c])
  }

  function TransformToCompatibleFormat<C>(f: Frame<C>): (r: Frame<C>)
    requires WellFormed(f)
    ensures WellFormed(r)
    ensures HasAll(f, ExpectedColumns) ==>
              r.columns == ExpectedColumns &&
              forall c :: c in ExpectedColumns ==> r.data[c] == f.data[c]
    ensures !HasAll(f, ExpectedColumns) ==> r == f
  {
    if HasAll(f, ExpectedColumns) then Project(f, ExpectedColumns) else f
  }

  /** Transforming an already transformed table changes nothing. */
  lemma TransformIdempotent<C>(f: Frame<C>)
    requires WellFormed(f)
    ensures TransformToCompatibleFormat(TransformToCompatibleFormat(f)) == TransformToCompatibleFormat(f)
  {
    var r := TransformToCompatibleFormat(f);
    if HasAll(f, ExpectedColumns) {
      assert HasAll(r, ExpectedColumns);
      var r2 := TransformToCompatibleFormat(r);
      assert r2.data == r.data;
    }
  }

  /** There are 23 expected columns, none listed twice, ending with the
      three derived ratios. */
  lemma ExpectedColumnsShape()
    ensures |ExpectedColumns| == 23
    ensures forall i, j :: 0 <= i < j < |ExpectedColumns| ==> ExpectedColumns[i] != ExpectedColumns[j]
    ensures ExpectedColumns[19] == "dropout"
    ensures ExpectedColumns[20..] == ["success_rate", "failure_rate", "interaction_per_enrollment"]
  {
  }
}
