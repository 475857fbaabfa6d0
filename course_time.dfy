// The time spent per course: every completed task with a measured duration
// adds its duration, rounded to whole minutes, to its course's total; each
// listed course becomes a pie slice with a colour chosen by its position in
// the list, and slices worth 0 minutes are dropped.
module CourseTime {
  import opened Base
  import opened Types
  import opened Lists
  import opened Tally
  import opened Numeric

  /** The filter of `completed`: completed, with a measured duration. */
  predicate Counted(t: Task)
  {
    t.status == Completed && t.actualDuration.Some?
  }

  /** The key a counted task adds its minutes to. */
  function CourseKey(t: Task): Option<string>
  {
    if Counted(t) then Some(t.courseId) else None
  }

  /** `Math.round(actualDuration / 60)`: the task's duration in whole minutes, halves rounded up. */
  function Minutes(t: Task): int
  {
    RoundDiv(if t.actualDuration.Some? then t.actualDuration.value else 0, 60)
  }

  function SecondsOf(t: Task): int
  {
    if t.actualDuration.Some? then t.actualDuration.value else 0
  }

  /** `COLORS`. */
  const Colors: seq<string> := ["#3b82f6", "#f59e0b", "#10b981", "#8b5cf6", "#ef4444", "#6366f1",
                                "#f472b6", "#14b8a6", "#f43f5e", "#a3e635", "#eab308", "#0ea5e9"]

  /** A pie slice: the course name, its minutes and its colour. */
  datatype Slice = Slice(name: string, value: int, color: string)

  /** The minutes of course `id`: the sum of the rounded minutes of its counted tasks. */
  function CourseMinutes(s: seq<Task>, id: string): int
  {
    SumWhere(s, CourseKey, Minutes, id)
  }

  /** One slice per course, in course order, before the filter. */
  function AllSlices(s: seq<Task>, courses: seq<Course>): (r: seq<Slice>)
    ensures |r| == |courses|
    ensures forall i :: 0 <= i < |courses| ==>
      r[i] == Slice(courses[i].name, CourseMinutes(s, courses[i].id), Colors[i % |Colors|])
  {
    if |courses| == 0 then []
    else
      var c := courses[|courses| - 1];
      AllSlices(s, courses[..|courses| - 1]) + [Slice(c.name, CourseMinutes(s, c.id), Colors[(|courses| - 1) % |Colors|])]
  }

  predicate HasTime(d: Slice)
  {
    d.value > 0
  }

  /** `data`: the slices worth more than 0 minutes, in course order. */
  function Slices(s: seq<Task>, courses: seq<Course>): seq<Slice>
  {
    Filter(AllSlices(s, courses), HasTime)
  }

  /** `courses.map((c, i) => …)` over the accumulated `totals`. */
  function SlicesFrom(courses: seq<Course>, totals: map<string, Bucket>): (r: seq<Slice>)
    ensures |r| == |courses|
    ensures forall i :: 0 <= i < |courses| ==>
      r[i] == Slice(courses[i].name, if courses[i].id in totals then totals[courses[i].id].sum else 0, Colors[i % |Colors|])
  {
    if |courses| == 0 then []
    else
      var c := courses[|courses| - 1];
      SlicesFrom(courses[..|courses| - 1], totals)
        + [Slice(c.name, if c.id in totals then totals[c.id].sum else 0, Colors[(|courses| - 1) % |Colors|])]
  }

  /** What the view shows: the empty state, or the pie. */
  datatype View = NoData | Pie(slices: seq<Slice>)

  /**
   * A slice is shown exactly when it is the slice of a listed course with
   * more than 0 minutes; its colour is the colour of the course's position.
   */
  lemma SlicesMembers(s: seq<Task>, courses: seq<Course>)
    ensures forall d :: d in Slices(s, courses) <==>
      d.value > 0 && exists i :: 0 <= i < |courses| && d == Slice(courses[i].name, CourseMinutes(s, courses[i].id), Colors[i % 12])
  {
    var all := AllSlices(s, courses);
    forall d ensures d in all <==> exists i :: 0 <= i < |courses| && d == Slice(courses[i].name, CourseMinutes(s, courses[i].id), Colors[i % 12]) {
      if d in all {
        var i :| 0 <= i < |all| && all[i] == d;
        assert 0 <= i < |courses| && d == Slice(courses[i].name, CourseMinutes(s, courses[i].id), Colors[i % 12]);
      }
    }
  }

  /** A task whose course is not listed changes no slice. */
  lemma UnlistedCourseIgnored(s: seq<Task>, courses: seq<Course>, t: Task)
    requires forall c :: c in courses ==> c.id != t.courseId
    ensures Slices(s + [t], courses) == Slices(s, courses)
  {
    forall c | c in courses ensures CourseMinutes(s + [t], c.id) == CourseMinutes(s, c.id) {
      WhereSnoc(s, t, CourseKey, Minutes, c.id);
    }
    var a, b := AllSlices(s + [t], courses), AllSlices(s, courses);
    forall i | 0 <= i < |courses| ensures a[i] == b[i] {
      assert courses[i] in courses;
    }
    assert a == b;
  }

  /**
   * A course's value is the sum of per-task roundings, which can be up to
   * half a minute per task away from the total time: 60 * value lies within
   * 30 seconds per task of the total seconds.
   */
  lemma {:induction false} MinutesNearTotal(s: seq<Task>, id: string)
    ensures var n, secs := CountWhere(s, CourseKey, id), SumWhere(s, CourseKey, SecondsOf, id);
      60 * CourseMinutes(s, id) - 30 * n <= secs <= 60 * CourseMinutes(s, id) + 30 * n
  {
    if |s| > 0 {
      MinutesNearTotal(s[1..], id);
    }
  }

  /** Two 30-second tasks count 2 minutes, although together they took 1 minute. */
  lemma PerTaskRounding(t1: Task, t2: Task)
    requires Counted(t1) && Counted(t2) && t1.courseId == t2.courseId
    requires t1.actualDuration == Some(30) && t2.actualDuration == Some(30)
    ensures CourseMinutes([t1, t2], t1.courseId) == 2
    ensures RoundDiv(SumWhere([t1, t2], CourseKey, SecondsOf, t1.courseId), 60) == 1
  {
    var c := t1.courseId;
    assert Minutes(t1) == 1 && Minutes(t2) == 1;
    assert SecondsOf(t1) == 30 && SecondsOf(t2) == 30;
    assert [t1, t2][1..] == [t2] && [t2][1..] == [];
    assert CourseKey(t2) == Some(c);
    assert SumWhere([t2], CourseKey, Minutes, c) == 1;
    assert SumWhere([t2][1..], CourseKey, SecondsOf, c) == 0;
    assert SumWhere([t2], CourseKey, SecondsOf, c) == 30;
    assert SumWhere([t1, t2], CourseKey, SecondsOf, c) == 60;
  }

  /**
   * The component: accumulate `totals` over the counted tasks, build one
   * slice per course and drop the empty ones; the empty state when none is left.
   */
  method CourseTimeView(tasks: seq<Task>, courses: seq<Course>) returns (v: View)
    ensures v.NoData? <==> Slices(Filter(tasks, Counted), courses) == []
    ensures v.Pie? ==> v.slices == Slices(Filter(tasks, Counted), courses)
  {
    var completed := Filter(tasks, Counted);
    var totals := Accumulate(completed, CourseKey, Minutes);
    var all := SlicesFrom(courses, totals);
    forall i | 0 <= i < |courses| ensures all[i] == AllSlices(completed, courses)[i] {
      TallyAt(completed, CourseKey, Minutes, courses[i].id);
      if courses[i].id !in totals {
        SumWhereEmpty(completed, CourseKey, Minutes, courses[i].id);
      }
    }
    assert all == AllSlices(completed, courses);
    var data := Filter(all, HasTime);
    if |data| == 0 {
      v := NoData;
    } else {
      v := Pie(data);
    }
  }
}
