/**
 * The students page: how often each student opened a guide, the total
 * number of guide accesses, and the headline counts of students and of
 * distinct schools. The two query results are inputs; None is a query
 * that returned no data.
 */
module Students {
  import opened Wrappers
  import opened Tally

  /** A row of `students`; None is a null school. */
  datatype Student = Student(nis: string, name: string, school: Option<string>)

  /** `allViews ?? []`, as the `student_nis` of each row (None is a null nis). */
  function ViewRows(views: Option<seq<Option<string>>>): seq<Option<string>>
  {
    views.GetOr([])
  }

  function Schools(students: seq<Student>): (r: seq<Option<string>>)
    ensures |r| == |students|
    ensures forall i :: 0 <= i < |students| ==> r[i] == students[i].school
  {
    if students == [] then [] else [students[0].school] + Schools(students[1..])
  }

  /** A sequence without repeats has as many elements as its set. */
  lemma {:induction false} DistinctCardinality<T>(s: seq<T>)
    requires Distinct(s)
    ensures |set x | x in s| == |s|
  {
    if s != [] {
      assert Distinct(s[1..]);
      DistinctCardinality(s[1..]);
      assert (set x | x in s) == (set x | x in s[1..]) + {s[0]};
      assert s[0] !in s[1..];
    }
  }

  /** `new Set(students?.map(s => s.asal_sekolah)).size || 0`. */
  function DistinctSchools(students: Option<seq<Student>>): (n: nat)
    ensures students.None? ==> n == 0
    ensures students.Some? ==> n == |set x | x in Schools(students.value)|
    ensures students.Some? ==> n <= |students.value|
    ensures students.Some? && students.value == [] ==> n == 0
  {
    match students
    case None => 0
    case Some(ss) =>
      var distinct := FirstSeen(Schools(ss));
      DistinctCardinality(distinct);
      assert (set x | x in distinct) == (set x | x in Schools(ss));
      |distinct|
  }

  /** `students?.length || 0`. */
  function TotalStudents(students: Option<seq<Student>>): nat
  {
    if students.Some? then |students.value| else 0
  }

  datatype Summary = Summary(totalStudents: nat, viewCounts: map<Option<string>, nat>, totalAccess: nat, schools: nat)

  /** `reduce((a, b) => a + b, 0)` over the dictionary's values. */
  method SumValues(values: seq<Entry<Option<string>>>) returns (total: nat)
    ensures total == SumCounts(values)
  {
    total := 0;
    for i := 0 to |values|
      invariant total == SumCounts(values[..i])
    {
      SumCountsSnoc(values[..i], values[i]);
      assert values[..i + 1] == values[..i] + [values[i]];
      total := total + values[i].count;
    }
    assert values[..|values|] == values;
  }

  /**
   * The figures the page shows: `counts` built row by row, the total
   * access summed over its values, and the two headline counts.
   */
  method Summarize(students: Option<seq<Student>>, views: Option<seq<Option<string>>>) returns (s: Summary)
    ensures s.totalStudents == TotalStudents(students)
    ensures forall k :: k in s.viewCounts <==> k in ViewRows(views)
    ensures forall k :: k in s.viewCounts ==> s.viewCounts[k] == Count(ViewRows(views), k)
    ensures s.totalAccess == |ViewRows(views)|
    ensures s.schools == DistinctSchools(students)
  {
    var rows := ViewRows(views);
    var keys, counts := CountByKey(rows);
    CountByKeyEntries(rows, keys, counts);
    TalliedSum(rows);
    var total := SumValues(EntriesOf(keys, counts));
    s := Summary(TotalStudents(students), counts, total, DistinctSchools(students));
  }
}
