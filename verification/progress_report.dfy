/** The progress report (`get_courses_and_lessons`): one text block per
    course of an already decoded progress collection, in collection order. */
module ProgressReport {
  import opened Wrappers
  import opened PhpValues
  import opened StatusLabels
  import opened Timestamps
  import opened TextLines
  import Decimal

  /** One course's progress. `lessons` pairs each lesson id with its
      completion flag, in the stored order; a record with no `lessons`
      entry is given `[]`, since the loop over it then emits nothing.
      The other entries are `None` when absent or null. */
  datatype Record = Record(
    lessons: seq<(int, bool)>,
    total: Option<Value>,
    completed: Option<Value>,
    status: Option<Value>,
    timestamp: Option<Value>)

  /** The collaborators the formatter calls: the title of a course or lesson
      post (`None` when there is no such post or the lookup errs), and the
      date rendering. */
  datatype Lookups = Lookups(
    courseTitle: int -> Option<string>,
    lessonTitle: int -> Option<string>,
    formatDate: DateFormatter)

  const UnknownCourse := "Unknown Course"
  const UnknownLesson := "Unknown Lesson"

  function CourseName(lookups: Lookups, courseId: int): string {
    lookups.courseTitle(courseId).UnwrapOr(UnknownCourse)
  }

  function LessonName(lookups: Lookups, lessonId: int): string {
    lookups.lessonTitle(lessonId).UnwrapOr(UnknownLesson)
  }

  /** The progress word of a lesson line. */
  function LessonLabel(done: bool): string {
    if done then "Completed" else "Not Started"
  }

  /** The line reporting one lesson. */
  function LessonLine(name: string, done: bool): string {
    name + ": " + LessonLabel(done)
  }

  /** A lesson line is the lesson's name, a colon, and then `Completed`
      exactly for finished lessons and `Not Started` exactly for the others. */
  lemma LessonLineStatus(name: string, done: bool)
    ensures StartsWith(LessonLine(name, done), name + ": ")
    ensures EndsWith(LessonLine(name, done), ": Completed") <==> done
    ensures EndsWith(LessonLine(name, done), ": Not Started") <==> !done
  {
    StartsWithAppend(name + ": ", LessonLabel(done));
    LessonLineEnding(name, done);
    DistinctEndings();
    EndingsExclusive(LessonLine(name, done), ": Completed", ": Not Started");
  }

  lemma LessonLineEnding(name: string, done: bool)
    ensures EndsWith(LessonLine(name, done), ": " + LessonLabel(done))
  {
    assert LessonLine(name, done) == name + (": " + LessonLabel(done));
    EndsWithAppend(name, ": " + LessonLabel(done));
  }

  /** The two endings disagree where they overlap. */
  lemma DistinctEndings()
    ensures ": " + LessonLabel(true) == ": Completed"
    ensures ": " + LessonLabel(false) == ": Not Started"
    ensures !EndsWith(": Not Started", ": Completed")
  {
    assert ": Not Started"[2] != ": Completed"[0];
  }

  /** One line per lesson, in lesson order. */
  function LessonLines(lookups: Lookups, lessons: seq<(int, bool)>): (lines: seq<string>)
    ensures |lines| == |lessons|
    ensures forall i :: 0 <= i < |lessons| ==>
              lines[i] == LessonLine(LessonName(lookups, lessons[i].0), lessons[i].1)
    ensures forall i :: 0 <= i < |lessons| && lookups.lessonTitle(lessons[i].0).None? ==>
              lines[i] == LessonLine(UnknownLesson, lessons[i].1)
  {
    if lessons == [] then []
    else
      var last := lessons[|lessons| - 1];
      LessonLines(lookups, lessons[..|lessons| - 1]) + [LessonLine(LessonName(lookups, last.0), last.1)]
  }

  lemma LessonLinesStep(lookups: Lookups, lessons: seq<(int, bool)>, j: nat)
    requires j < |lessons|
    ensures LessonLines(lookups, lessons[..j + 1])
            == LessonLines(lookups, lessons[..j]) + [LessonLine(LessonName(lookups, lessons[j].0), lessons[j].1)]
  {
    assert lessons[..j + 1][..j] == lessons[..j];
  }

  /** A count entry, or 0 when it is missing. */
  function CountText(count: Option<Value>): string {
    ToText(count.UnwrapOr(Int(0)))
  }

  /** The status label: a missing status is "", a string goes through the
      course-status table, and any other scalar fails the table's strict
      comparisons and is interpolated as it is. */
  function StatusText(status: Option<Value>): string {
    match status.UnwrapOr(Str(""))
    case Str(s) => CourseStatus(s)
    case v => ToText(v)
  }

  /** The `Timestamp:` line, present exactly when the record holds a
      timestamp. */
  function TimestampLines(format: DateFormatter, timestamp: Option<Value>): seq<string> {
    match timestamp
    case None => []
    case Some(v) => ["Timestamp: " + ConvertTimestamp(v, format)]
  }

  /** The course title line and the lessons heading. */
  function BlockHeader(lookups: Lookups, courseId: int): seq<string> {
    ["Course: " + CourseName(lookups, courseId), "Lessons Progress:"]
  }

  /** The counts, the status, the optional timestamp and the separator. */
  function BlockTail(lookups: Lookups, rec: Record): seq<string> {
    [ "Total Lessons: " + CountText(rec.total),
      "Completed Lessons: " + CountText(rec.completed),
      "Status: " + StatusText(rec.status) ]
    + TimestampLines(lookups.formatDate, rec.timestamp)
    + [""]
  }

  /** The lines of one course's block. */
  function BlockLines(lookups: Lookups, courseId: int, rec: Record): seq<string> {
    BlockHeader(lookups, courseId) + LessonLines(lookups, rec.lessons) + BlockTail(lookups, rec)
  }

  /** The text of one course's block. */
  function BlockText(lookups: Lookups, course: (int, Record)): string {
    Unlines(BlockLines(lookups, course.0, course.1))
  }

  /** What the lines after the lessons say: the counts with their 0 default,
      the status label with its "" default, a `Timestamp:` line exactly when
      the record has a timestamp, and the separator. */
  lemma TailLayout(lookups: Lookups, rec: Record)
    ensures var tail := BlockTail(lookups, rec);
      && |tail| == (if rec.timestamp.Some? then 5 else 4)
      && (rec.total.None? ==> tail[0] == "Total Lessons: 0")
      && (rec.total.Some? ==> tail[0] == "Total Lessons: " + ToText(rec.total.value))
      && (rec.completed.None? ==> tail[1] == "Completed Lessons: 0")
      && (rec.completed.Some? ==> tail[1] == "Completed Lessons: " + ToText(rec.completed.value))
      && (rec.status.None? ==> tail[2] == "Status: ")
      && (rec.status.Some? && rec.status.value.Str? ==>
            tail[2] == "Status: " + CourseStatus(rec.status.value.s))
      && (rec.status.Some? && !rec.status.value.Str? ==>
            tail[2] == "Status: " + ToText(rec.status.value))
      && (StartsWith(tail[|tail| - 2], "Timestamp: ") <==> rec.timestamp.Some?)
      && (rec.timestamp.Some? ==>
            tail[|tail| - 2] == "Timestamp: " + ConvertTimestamp(rec.timestamp.value, lookups.formatDate))
      && tail[|tail| - 1] == ""
      && forall k :: 0 <= k < |tail| - 1 ==> tail[k] != ""
  {
    var tail := BlockTail(lookups, rec);
    assert ToText(Int(0)) == "0";
    assert CourseStatus("") == "";
    var last := tail[|tail| - 2];
    if rec.timestamp.Some? {
      StartsWithAppend("Timestamp: ", ConvertTimestamp(rec.timestamp.value, lookups.formatDate));
    } else {
      assert last[0] == 'S';
    }
  }

  lemma LessonLinesNonEmpty(lookups: Lookups, lessons: seq<(int, bool)>)
    ensures forall i :: 0 <= i < |lessons| ==> LessonLines(lookups, lessons)[i] != ""
  {
    var lines := LessonLines(lookups, lessons);
    assert forall i :: 0 <= i < |lessons| ==> |lines[i]| >= 2;
  }

  /** Three runs of lines, non-empty except for the very last line. */
  lemma OnlyLastEmpty(a: seq<string>, b: seq<string>, c: seq<string>)
    requires forall i :: 0 <= i < |a| ==> a[i] != ""
    requires forall i :: 0 <= i < |b| ==> b[i] != ""
    requires |c| > 0 && forall i :: 0 <= i < |c| - 1 ==> c[i] != ""
    ensures forall i :: 0 <= i < |a + b + c| - 1 ==> (a + b + c)[i] != ""
  {
  }

  /** The layout of a course block: the title line (with its fallback), the
      heading, one line per lesson in lesson order, the lines after the
      lessons, and a single empty line closing the block. */
  lemma BlockLayout(lookups: Lookups, courseId: int, rec: Record)
    ensures var lines := BlockLines(lookups, courseId, rec);
      && |lines| == |rec.lessons| + (if rec.timestamp.Some? then 7 else 6)
      && (lookups.courseTitle(courseId).Some? ==>
            lines[0] == "Course: " + lookups.courseTitle(courseId).value)
      && (lookups.courseTitle(courseId).None? ==> lines[0] == "Course: " + UnknownCourse)
      && lines[1] == "Lessons Progress:"
      && lines[2..|rec.lessons| + 2] == LessonLines(lookups, rec.lessons)
      && lines[|rec.lessons| + 2..] == BlockTail(lookups, rec)
      && (StartsWith(lines[|lines| - 2], "Timestamp: ") <==> rec.timestamp.Some?)
      && lines[|lines| - 1] == ""
      && forall i :: 0 <= i < |lines| - 1 ==> lines[i] != ""
  {
    var n := |rec.lessons|;
    var head := BlockHeader(lookups, courseId);
    var body := LessonLines(lookups, rec.lessons);
    var tail := BlockTail(lookups, rec);
    var lines := head + body + tail;
    TailLayout(lookups, rec);
    assert lines[2..n + 2] == body;
    assert lines[n + 2..] == tail;
    assert lines[|lines| - 2] == tail[|tail| - 2];
    LessonLinesNonEmpty(lookups, rec.lessons);
    OnlyLastEmpty(head, body, tail);
  }

  /** A course or lesson whose post cannot be found still gets its line,
      under the fallback name. */
  lemma UnknownTitleFallback(lookups: Lookups, courseId: int, rec: Record)
    ensures lookups.courseTitle(courseId).None? ==>
              BlockLines(lookups, courseId, rec)[0] == "Course: " + UnknownCourse
    ensures forall i :: 0 <= i < |rec.lessons| && lookups.lessonTitle(rec.lessons[i].0).None? ==>
              BlockLines(lookups, courseId, rec)[2 + i] == UnknownLesson + ": " + LessonLabel(rec.lessons[i].1)
  {
    BlockLayout(lookups, courseId, rec);
    var lines := BlockLines(lookups, courseId, rec);
    var body := LessonLines(lookups, rec.lessons);
    forall i | 0 <= i < |rec.lessons| && lookups.lessonTitle(rec.lessons[i].0).None?
      ensures lines[2 + i] == UnknownLesson + ": " + LessonLabel(rec.lessons[i].1)
    {
      assert lines[2 + i] == lines[2..|rec.lessons| + 2][i];
      assert body[i] == LessonLine(UnknownLesson, rec.lessons[i].1);
    }
  }

  /** Each block starts with its course line and the lessons heading, and
      ends with a blank line. */
  lemma BlockTextShape(lookups: Lookups, course: (int, Record))
    ensures StartsWith(BlockText(lookups, course),
                       "Course: " + CourseName(lookups, course.0) + "\n" + "Lessons Progress:" + "\n")
    ensures EndsWith(BlockText(lookups, course), "\n\n")
  {
    var lines := BlockLines(lookups, course.0, course.1);
    BlockLayout(lookups, course.0, course.1);
    UnlinesStart(lines);
    UnlinesEnd(lines);
  }

  /** The whole report: the course blocks, in collection order. */
  function Report(lookups: Lookups, courses: seq<(int, Record)>): string {
    if courses == [] then ""
    else Report(lookups, courses[..|courses| - 1]) + BlockText(lookups, courses[|courses| - 1])
  }

  /** The report as a list of lines. */
  function ReportLines(lookups: Lookups, courses: seq<(int, Record)>): seq<string> {
    if courses == [] then []
    else
      var last := courses[|courses| - 1];
      ReportLines(lookups, courses[..|courses| - 1]) + BlockLines(lookups, last.0, last.1)
  }

  /** The report of two collections laid end to end is the two reports laid
      end to end. */
  lemma {:induction false} ReportAppend(lookups: Lookups, a: seq<(int, Record)>, b: seq<(int, Record)>)
    ensures Report(lookups, a + b) == Report(lookups, a) + Report(lookups, b)
  {
    if b == [] {
      assert a + b == a;
    } else {
      var front := b[..|b| - 1];
      var block := BlockText(lookups, b[|b| - 1]);
      assert (a + b)[..|a + b| - 1] == a + front;
      assert (a + b)[|a + b| - 1] == b[|b| - 1];
      assert Report(lookups, a + b) == Report(lookups, a + front) + block;
      ReportAppend(lookups, a, front);
      assert Report(lookups, b) == Report(lookups, front) + block;
      ConcatAssoc(Report(lookups, a), Report(lookups, front), block);
    }
  }

  lemma ReportOfOne(lookups: Lookups, course: (int, Record))
    ensures Report(lookups, [course]) == BlockText(lookups, course)
  {
    assert [course][..0] == [];
  }

  /** Course `k`'s block sits between the blocks of the courses before it
      and the blocks of the courses after it. */
  lemma ReportBlockAt(lookups: Lookups, courses: seq<(int, Record)>, k: nat)
    requires k < |courses|
    ensures Report(lookups, courses) ==
            Report(lookups, courses[..k]) + BlockText(lookups, courses[k]) + Report(lookups, courses[k + 1..])
  {
    var c := courses[k];
    var after := [c] + courses[k + 1..];
    assert courses == courses[..k] + after;
    ReportAppend(lookups, courses[..k], after);
    ReportAppend(lookups, [c], courses[k + 1..]);
    ReportOfOne(lookups, c);
  }

  /** The report is the newline-terminated rendering of its lines. */
  lemma {:induction false} ReportIsUnlines(lookups: Lookups, courses: seq<(int, Record)>)
    ensures Unlines(ReportLines(lookups, courses)) == Report(lookups, courses)
  {
    if courses != [] {
      var last := courses[|courses| - 1];
      ReportIsUnlines(lookups, courses[..|courses| - 1]);
      UnlinesAppend(ReportLines(lookups, courses[..|courses| - 1]), BlockLines(lookups, last.0, last.1));
    }
  }

  /** Every course contributes exactly one empty separator line. */
  lemma {:induction false} OneSeparatorPerCourse(lookups: Lookups, courses: seq<(int, Record)>)
    ensures CountEmpty(ReportLines(lookups, courses)) == |courses|
  {
    if courses != [] {
      var last := courses[|courses| - 1];
      var block := BlockLines(lookups, last.0, last.1);
      OneSeparatorPerCourse(lookups, courses[..|courses| - 1]);
      BlockLayout(lookups, last.0, last.1);
      CountEmptyLastOnly(block);
      CountEmptyAppend(ReportLines(lookups, courses[..|courses| - 1]), block);
    }
  }

  /** When no title, value or rendered date contains a newline, a reader who
      splits the report into lines gets back exactly its lines, and finds one
      blank line per course. */
  lemma ReadBackReport(lookups: Lookups, courses: seq<(int, Record)>)
    requires forall i :: 0 <= i < |ReportLines(lookups, courses)| ==> NoNewline(ReportLines(lookups, courses)[i])
    ensures SplitLines(Report(lookups, courses)) == ReportLines(lookups, courses)
    ensures CountEmpty(SplitLines(Report(lookups, courses))) == |courses|
  {
    ReportIsUnlines(lookups, courses);
    SplitUnlines(ReportLines(lookups, courses));
    OneSeparatorPerCourse(lookups, courses);
  }

  /** A one-course collection whose record has a zero timestamp: its block
      carries a `Timestamp:` line with nothing after the label, because 0
      counts as empty and is never handed to the date rendering. */
  lemma ZeroTimestampScenario(lookups: Lookups)
    requires lookups.courseTitle(101) == Some("Intro to VHDL")
    requires lookups.lessonTitle(5001) == Some("Lesson 1")
    requires lookups.lessonTitle(5002) == Some("Lesson 2")
    ensures var rec := Record([(5001, true), (5002, false)], Some(Int(2)), Some(Int(1)),
                              Some(Str("in_progress")), Some(Int(0)));
            ReportLines(lookups, [(101, rec)]) == [
              "Course: " + "Intro to VHDL",
              "Lessons Progress:",
              "Lesson 1" + ": " + "Completed",
              "Lesson 2" + ": " + "Not Started",
              "Total Lessons: " + "2",
              "Completed Lessons: " + "1",
              "Status: " + "In-progress",
              "Timestamp: ",
              ""
            ]
  {
    var lessons := [(5001, true), (5002, false)];
    var rec := Record(lessons, Some(Int(2)), Some(Int(1)), Some(Str("in_progress")), Some(Int(0)));
    assert [(101, rec)][..0] == [];
    assert lessons[..1] == [(5001, true)];
    assert lessons[..1][..0] == lessons[..0];
    assert Decimal.IntToDecimal(2) == "2";
    assert Decimal.IntToDecimal(1) == "1";
    assert ConvertTimestamp(Int(0), lookups.formatDate) == "";
    assert "Timestamp: " + "" == "Timestamp: ";
  }

  /** Appends one course's block to `output`, line by line, as the body of
      the course loop of `get_courses_and_lessons` does. */
  method AppendBlock(lookups: Lookups, courseId: int, rec: Record, output: string)
    returns (extended: string)
    ensures extended == output + BlockText(lookups, (courseId, rec))
  {
    var head := BlockHeader(lookups, courseId);
    extended := output + "Course: " + CourseName(lookups, courseId) + "\n";
    extended := extended + "Lessons Progress:" + "\n";
    UnlinesCons(head[0], [head[1]]);
    UnlinesCons(head[1], []);
    assert extended == output + Unlines(head);
    var withLessons := AppendLessons(lookups, rec.lessons, extended);
    extended := AppendTail(lookups, rec, withLessons);
    var body := LessonLines(lookups, rec.lessons);
    var tail := BlockTail(lookups, rec);
    UnlinesAppend(head, body);
    UnlinesAppend(head + body, tail);
    ConcatAssoc(output, Unlines(head), Unlines(body));
    ConcatAssoc(output, Unlines(head + body), Unlines(tail));
  }

  /** Appends one line per lesson, in lesson order. */
  method AppendLessons(lookups: Lookups, lessons: seq<(int, bool)>, output: string)
    returns (extended: string)
    ensures extended == output + Unlines(LessonLines(lookups, lessons))
  {
    extended := output;
    var j := 0;
    while j < |lessons|
      invariant 0 <= j <= |lessons|
      invariant extended == output + Unlines(LessonLines(lookups, lessons[..j]))
    {
      var (lessonId, done) := lessons[j];
      var line := LessonLine(LessonName(lookups, lessonId), done);
      LessonLinesStep(lookups, lessons, j);
      AppendLine(output, LessonLines(lookups, lessons[..j]), line);
      extended := extended + line + "\n";
      j := j + 1;
    }
    assert lessons[..j] == lessons;
  }

  /** Appends the lines after the lessons: the two counts, the status, the
      timestamp when the record has one, and the separator. */
  method AppendTail(lookups: Lookups, rec: Record, output: string) returns (extended: string)
    ensures extended == output + Unlines(BlockTail(lookups, rec))
  {
    extended := output;
    ghost var tail := BlockTail(lookups, rec);
    ghost var k := 0;
    var line := "Total Lessons: " + CountText(rec.total);
    EmitNext(output, tail, k, line);
    extended, k := extended + line + "\n", k + 1;
    assert extended == output + Unlines(tail[..k]);
    line := "Completed Lessons: " + CountText(rec.completed);
    EmitNext(output, tail, k, line);
    extended, k := extended + line + "\n", k + 1;
    assert extended == output + Unlines(tail[..k]);
    line := "Status: " + StatusText(rec.status);
    EmitNext(output, tail, k, line);
    extended, k := extended + line + "\n", k + 1;
    assert extended == output + Unlines(tail[..k]);
    if rec.timestamp.Some? {
      line := "Timestamp: " + ConvertTimestamp(rec.timestamp.value, lookups.formatDate);
      EmitNext(output, tail, k, line);
      extended, k := extended + line + "\n", k + 1;
      assert extended == output + Unlines(tail[..k]);
    }
    EmitNext(output, tail, k, "");
    extended, k := extended + "\n", k + 1;
    assert extended == output + Unlines(tail[..k]);
    assert tail[..k] == tail;
  }

  /** Builds the report course by course, in collection order, as
      `get_courses_and_lessons` does. */
  method CoursesAndLessons(lookups: Lookups, courses: seq<(int, Record)>) returns (output: string)
    ensures output == Report(lookups, courses)
  {
    output := "";
    var i := 0;
    while i < |courses|
      invariant 0 <= i <= |courses|
      invariant output == Report(lookups, courses[..i])
    {
      var (courseId, rec) := courses[i];
      output := AppendBlock(lookups, courseId, rec, output);
      assert courses[..i + 1][..i] == courses[..i];
      assert courses[..i + 1][i] == (courseId, rec);
      assert Report(lookups, courses[..i + 1])
          == Report(lookups, courses[..i]) + BlockText(lookups, (courseId, rec));
      i := i + 1;
    }
    assert courses[..i] == courses;
  }
}
