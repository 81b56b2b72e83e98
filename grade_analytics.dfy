/** The read handlers of grade-service/src/controllers/gradeController.ts that
    post-process documents in memory: `gradeDistribution`,
    `strengthsWeaknesses`, `coursePerformances`, `performanceOverTime` and the
    merge step of `batchSemesterAggregate`. The documents a query returns
    are given as a sequence; the query itself runs in the database. */
module GradeAnalytics {
  import opened Wrappers
  import opened Text
  import opened Grades

  /** A handler's JSON answer: `{ success: true, data }` or an error. */
  datatype Reply<T> = Success(data: T) | Fail(status: int, message: string)

  // ---------------------------------------------------------------------
  // Sorting with a descending comparator (`result.sort((a, b) => key(b) - key(a))`)

  ghost predicate SortedDesc<T>(s: seq<T>, key: T -> real) {
    forall i, j :: 0 <= i < j < |s| ==> key(s[i]) >= key(s[j])
  }

  /** Inserts `x` after every element whose key is at least `x`'s. */
  function InsertDesc<T(==)>(x: T, s: seq<T>, key: T -> real): (r: seq<T>)
    requires SortedDesc(s, key)
    ensures SortedDesc(r, key)
    ensures multiset(r) == multiset(s) + multiset{x}
    ensures |r| == |s| + 1
  {
    if s == [] then [x]
    else if key(s[0]) < key(x) then [x] + s
    else
      var rest := InsertDesc(x, s[1..], key);
      assert s == [s[0]] + s[1..];
      InsertedBelowHead(x, s, key, rest);
      [s[0]] + rest
  }

  /** Whatever the head of a sorted sequence is followed by, once `x` is
      inserted below it, keys no greater than the head's. */
  lemma InsertedBelowHead<T>(x: T, s: seq<T>, key: T -> real, rest: seq<T>)
    requires SortedDesc(s, key) && |s| > 0 && key(x) <= key(s[0])
    requires multiset(rest) == multiset(s[1..]) + multiset{x}
    ensures forall k :: 0 <= k < |rest| ==> key(rest[k]) <= key(s[0])
  {
    forall k | 0 <= k < |rest| ensures key(rest[k]) <= key(s[0]) {
      assert rest[k] in multiset(rest);
      if rest[k] != x {
        assert rest[k] in multiset(s[1..]);
        var j :| 0 <= j < |s[1..]| && s[1..][j] == rest[k];
        assert s[j + 1] == rest[k];
      }
    }
  }

  /** The result is ordered by non-increasing key and is a permutation of the input. */
  function SortDesc<T(==)>(s: seq<T>, key: T -> real): (r: seq<T>)
    ensures SortedDesc(r, key)
    ensures multiset(r) == multiset(s)
    ensures |r| == |s|
  {
    if s == [] then []
    else
      assert s == s[..|s| - 1] + [s[|s| - 1]];
      InsertDesc(s[|s| - 1], SortDesc(s[..|s| - 1], key), key)
  }

  // ---------------------------------------------------------------------
  // gradeDistribution

  datatype Band = A | B | C | D

  /** The letter bucket of a score. */
  function BandOf(score: int): (b: Band)
    ensures b == A <==> score >= 85
    ensures b == B <==> 70 <= score < 85
    ensures b == C <==> 60 <= score < 70
    ensures b == D <==> score < 60
  {
    if score >= 85 then A else if score >= 70 then B else if score >= 60 then C else D
  }

  /** The `counts` object `{ A, B, C, D }`. */
  datatype Distribution = Distribution(a: nat, b: nat, c: nat, d: nat)

  function Bump(t: Distribution, band: Band): Distribution {
    match band
    case A => t.(a := t.a + 1)
    case B => t.(b := t.b + 1)
    case C => t.(c := t.c + 1)
    case D => t.(d := t.d + 1)
  }

  /** The counts after incrementing one bucket per score, in order. */
  function Tally(scores: seq<int>): Distribution {
    if scores == [] then Distribution(0, 0, 0, 0)
    else Bump(Tally(scores[..|scores| - 1]), BandOf(scores[|scores| - 1]))
  }

  /** Reference definition: how many of the scores fall in a bucket. */
  function CountBand(scores: seq<int>, band: Band): nat {
    if scores == [] then 0
    else (if BandOf(scores[0]) == band then 1 else 0) + CountBand(scores[1..], band)
  }

  lemma {:induction false} CountBandAppend(scores: seq<int>, x: int, band: Band)
    ensures CountBand(scores + [x], band) == CountBand(scores, band) + (if BandOf(x) == band then 1 else 0)
  {
    if scores != [] {
      assert (scores + [x])[1..] == scores[1..] + [x];
      CountBandAppend(scores[1..], x, band);
    }
  }

  /** Each bucket of the tally holds exactly the scores of that bucket. */
  lemma {:induction false} TallyCountsBands(scores: seq<int>)
    ensures Tally(scores) == Distribution(CountBand(scores, A), CountBand(scores, B),
                                          CountBand(scores, C), CountBand(scores, D))
  {
    if scores != [] {
      var prefix := scores[..|scores| - 1];
      TallyCountsBands(prefix);
      assert scores == prefix + [scores[|scores| - 1]];
      CountBandAppend(prefix, scores[|scores| - 1], A);
      CountBandAppend(prefix, scores[|scores| - 1], B);
      CountBandAppend(prefix, scores[|scores| - 1], C);
      CountBandAppend(prefix, scores[|scores| - 1], D);
    }
  }

  /** Every score lands in exactly one bucket: the counts sum to the number of scores. */
  lemma {:induction false} TallyTotal(scores: seq<int>)
    ensures Tally(scores).a + Tally(scores).b + Tally(scores).c + Tally(scores).d == |scores|
  {
    if scores != [] {
      TallyTotal(scores[..|scores| - 1]);
    }
  }

  /** The scores of the courses with the given code, in order. */
  function CourseScores(courses: seq<Course>, code: string): seq<int> {
    if courses == [] then []
    else
      var c := courses[|courses| - 1];
      CourseScores(courses[..|courses| - 1], code) + (if c.courseCode == code then [c.score] else [])
  }

  /** The scores of every course entry with the given code, document by document. */
  function MatchingScores(docs: seq<StudentGrades>, code: string): seq<int> {
    if docs == [] then []
    else MatchingScores(docs[..|docs| - 1], code) + CourseScores(docs[|docs| - 1].courses, code)
  }

  lemma TallyStep(before: seq<int>, courses: seq<Course>, code: string, j: nat)
    requires j < |courses|
    ensures Tally(before + CourseScores(courses[..j + 1], code)) ==
      if courses[j].courseCode == code
      then Bump(Tally(before + CourseScores(courses[..j], code)), BandOf(courses[j].score))
      else Tally(before + CourseScores(courses[..j], code))
  {
    assert courses[..j + 1][..j] == courses[..j];
    var prev := before + CourseScores(courses[..j], code);
    if courses[j].courseCode == code {
      assert before + CourseScores(courses[..j + 1], code) == prev + [courses[j].score];
      assert (prev + [courses[j].score])[..|prev|] == prev;
    } else {
      assert before + CourseScores(courses[..j + 1], code) == prev;
    }
  }

  /** `gradeDistribution`: 400 without a course code; otherwise the tally of
      every matching course entry's score. */
  method GradeDistribution(courseCode: string, docs: seq<StudentGrades>) returns (reply: Reply<Distribution>)
    ensures courseCode == "" ==> reply == Fail(400, "courseCode required")
    ensures courseCode != "" ==> reply == Success(Tally(MatchingScores(docs, courseCode)))
  {
    if courseCode == "" {
      return Fail(400, "courseCode required");
    }
    var counts := Distribution(0, 0, 0, 0);
    for i := 0 to |docs|
      invariant counts == Tally(MatchingScores(docs[..i], courseCode))
    {
      var courses := docs[i].courses;
      ghost var before := MatchingScores(docs[..i], courseCode);
      assert before + CourseScores(courses[..0], courseCode) == before;
      for j := 0 to |courses|
        invariant counts == Tally(before + CourseScores(courses[..j], courseCode))
      {
        TallyStep(before, courses, courseCode, j);
        var c := courses[j];
        if c.courseCode != courseCode {
          continue;
        }
        var s := c.score;
        if s >= 85 {
          counts := counts.(a := counts.a + 1);
        } else if s >= 70 {
          counts := counts.(b := counts.b + 1);
        } else if s >= 60 {
          counts := counts.(c := counts.c + 1);
        } else {
          counts := counts.(d := counts.d + 1);
        }
      }
      assert courses[..|courses|] == courses;
      assert docs[..i + 1][..i] == docs[..i];
    }
    assert docs[..|docs|] == docs;
    return Success(counts);
  }

  // ---------------------------------------------------------------------
  // strengthsWeaknesses

  /** Every course entry of the documents, document by document. */
  function Entries(docs: seq<StudentGrades>): seq<Course> {
    if docs == [] then [] else Entries(docs[..|docs| - 1]) + docs[|docs| - 1].courses
  }

  /** One value of the handler's `Map`: the course name seen first, the score total and the count. */
  datatype CourseTotal = CourseTotal(courseName: string, total: int, count: nat)

  /** The `Map` after the loop: `order` is its insertion order (the order in
      which `map.entries()` yields keys), `totals` its contents. */
  datatype Totals = Totals(order: seq<string>, totals: map<string, CourseTotal>)

  predicate Distinct(s: seq<string>) {
    forall i, j :: 0 <= i < j < |s| ==> s[i] != s[j]
  }

  ghost predicate WellFormedTotals(t: Totals) {
    && Distinct(t.order)
    && (forall k :: k in t.order <==> k in t.totals)
    && (forall k :: k in t.totals ==> t.totals[k].count >= 1)
  }

  /** One iteration of the handler's inner loop on the map. */
  function Add(t: Totals, c: Course): Totals {
    var e := if c.courseCode in t.totals then t.totals[c.courseCode] else CourseTotal(c.courseName, 0, 0);
    Totals(if c.courseCode in t.totals then t.order else t.order + [c.courseCode],
           t.totals[c.courseCode := e.(total := e.total + c.score, count := e.count + 1)])
  }

  function Accumulate(entries: seq<Course>): Totals {
    if entries == [] then Totals([], map[])
    else Add(Accumulate(entries[..|entries| - 1]), entries[|entries| - 1])
  }

  /** The insertion order lists every key of the map exactly once, and every
      value counts at least one score. */
  lemma {:induction false} AccumulateWellFormed(entries: seq<Course>)
    ensures WellFormedTotals(Accumulate(entries))
  {
    if entries != [] {
      AccumulateWellFormed(entries[..|entries| - 1]);
    }
  }

  lemma AccumulateStep(before: seq<Course>, courses: seq<Course>, j: nat)
    requires j < |courses|
    ensures Accumulate(before + courses[..j + 1]) == Add(Accumulate(before + courses[..j]), courses[j])
  {
    assert before + courses[..j + 1] == (before + courses[..j]) + [courses[j]];
  }

  /** Reference definitions: the sum and number of scores for a code, and the
      name carried by its first entry. */
  function SumFor(entries: seq<Course>, code: string): int {
    if entries == [] then 0
    else (if entries[0].courseCode == code then entries[0].score else 0) + SumFor(entries[1..], code)
  }

  function CountFor(entries: seq<Course>, code: string): nat {
    if entries == [] then 0
    else (if entries[0].courseCode == code then 1 else 0) + CountFor(entries[1..], code)
  }

  function FirstName(entries: seq<Course>, code: string): string {
    if entries == [] then ""
    else if entries[0].courseCode == code then entries[0].courseName
    else FirstName(entries[1..], code)
  }

  lemma {:induction false} AbsentSumsToZero(entries: seq<Course>, code: string)
    requires CountFor(entries, code) == 0
    ensures SumFor(entries, code) == 0
  {
    if entries != [] {
      AbsentSumsToZero(entries[1..], code);
    }
  }

  lemma {:induction false} ReferenceAppend(entries: seq<Course>, c: Course, code: string)
    ensures SumFor(entries + [c], code) == SumFor(entries, code) + (if c.courseCode == code then c.score else 0)
    ensures CountFor(entries + [c], code) == CountFor(entries, code) + (if c.courseCode == code then 1 else 0)
    ensures FirstName(entries + [c], code) ==
      (if CountFor(entries, code) > 0 then FirstName(entries, code)
       else if c.courseCode == code then c.courseName else "")
  {
    if entries != [] {
      assert (entries + [c])[1..] == entries[1..] + [c];
      ReferenceAppend(entries[1..], c, code);
    }
  }

  /** The handler's map holds one value per course code that occurs, with the
      total and number of that code's scores and the name of its first entry. */
  lemma {:induction false} AccumulateMeans(entries: seq<Course>, code: string)
    ensures code in Accumulate(entries).totals <==> CountFor(entries, code) > 0
    ensures code in Accumulate(entries).totals ==>
      Accumulate(entries).totals[code] ==
        CourseTotal(FirstName(entries, code), SumFor(entries, code), CountFor(entries, code))
  {
    if entries != [] {
      var prefix := entries[..|entries| - 1];
      var c := entries[|entries| - 1];
      assert entries == prefix + [c];
      AccumulateMeans(prefix, code);
      ReferenceAppend(prefix, c, code);
      if CountFor(prefix, code) == 0 {
        AbsentSumsToZero(prefix, code);
      }
    }
  }

  /** The average of one course as the handler reports it (before rounding). */
  datatype CourseAverage = CourseAverage(courseCode: string, courseName: string, avgScore: real)

  function AverageKey(a: CourseAverage): real { a.avgScore }

  function AveragesOf(order: seq<string>, totals: map<string, CourseTotal>): (r: seq<CourseAverage>)
    requires forall k :: k in order ==> k in totals && totals[k].count >= 1
    ensures |r| == |order|
    ensures forall i :: 0 <= i < |order| ==>
      r[i] == CourseAverage(order[i], totals[order[i]].courseName,
                            totals[order[i]].total as real / totals[order[i]].count as real)
  {
    if order == [] then []
    else
      var k := order[|order| - 1];
      AveragesOf(order[..|order| - 1], totals)
        + [CourseAverage(k, totals[k].courseName, totals[k].total as real / totals[k].count as real)]
  }

  /** The unsorted result: one average per course code, in first-seen order. */
  function Averages(entries: seq<Course>): seq<CourseAverage> {
    var t := Accumulate(entries);
    AccumulateWellFormed(entries);
    AveragesOf(t.order, t.totals)
  }

  /** Each course code that occurs gets exactly one row, whose average is
      the mean of that code's scores and whose name is its first entry's. */
  lemma AveragesMeans(entries: seq<Course>, code: string)
    ensures CountFor(entries, code) > 0 <==> exists i :: 0 <= i < |Averages(entries)| && Averages(entries)[i].courseCode == code
    ensures forall i, j :: 0 <= i < j < |Averages(entries)| ==> Averages(entries)[i].courseCode != Averages(entries)[j].courseCode
    ensures forall i :: 0 <= i < |Averages(entries)| && Averages(entries)[i].courseCode == code ==>
      Averages(entries)[i] == CourseAverage(code, FirstName(entries, code),
                                            SumFor(entries, code) as real / CountFor(entries, code) as real)
  {
    AccumulateMeans(entries, code);
    AccumulateWellFormed(entries);
    var t := Accumulate(entries);
    if CountFor(entries, code) > 0 {
      var i :| 0 <= i < |t.order| && t.order[i] == code;
      assert Averages(entries)[i].courseCode == code;
    }
  }

  lemma EntriesStep(docs: seq<StudentGrades>, i: nat)
    requires i < |docs|
    ensures Entries(docs[..i + 1]) == Entries(docs[..i]) + docs[i].courses
  {
    assert docs[..i + 1][..i] == docs[..i];
  }

  /** The handler's inner loop: folds one document's courses into the map. */
  method AddCourses(order0: seq<string>, totals0: map<string, CourseTotal>, ghost before: seq<Course>, courses: seq<Course>)
    returns (order: seq<string>, totals: map<string, CourseTotal>)
    requires Totals(order0, totals0) == Accumulate(before)
    ensures Totals(order, totals) == Accumulate(before + courses)
  {
    order, totals := order0, totals0;
    assert before + courses[..0] == before;
    for j := 0 to |courses|
      invariant Totals(order, totals) == Accumulate(before + courses[..j])
    {
      var c := courses[j];
      AccumulateStep(before, courses, j);
      ghost var prev := Totals(order, totals);
      var key := c.courseCode;
      var entry := if key in totals then totals[key] else CourseTotal(c.courseName, 0, 0);
      entry := entry.(total := entry.total + c.score, count := entry.count + 1);
      if key !in totals {
        order := order + [key];
      }
      totals := totals[key := entry];
      assert Totals(order, totals) == Add(prev, c);
    }
    assert courses[..|courses|] == courses;
  }

  /** The handler's second loop: one row per map entry, in insertion order. */
  method ReportAverages(order: seq<string>, totals: map<string, CourseTotal>) returns (result: seq<CourseAverage>)
    requires forall k :: k in order ==> k in totals && totals[k].count >= 1
    ensures result == AveragesOf(order, totals)
  {
    result := [];
    for k := 0 to |order|
      invariant result == AveragesOf(order[..k], totals)
    {
      assert order[..k + 1][..k] == order[..k];
      var v := totals[order[k]];
      result := result + [CourseAverage(order[k], v.courseName, v.total as real / v.count as real)];
    }
    assert order[..|order|] == order;
  }

  /** `strengthsWeaknesses`: 400 without a student id; otherwise one average
      per course code, strongest first. */
  method StrengthsWeaknesses(studentId: string, docs: seq<StudentGrades>) returns (reply: Reply<seq<CourseAverage>>)
    ensures studentId == "" ==> reply == Fail(400, "studentId required")
    ensures studentId != "" ==> reply == Success(SortDesc(Averages(Entries(docs)), AverageKey))
  {
    if studentId == "" {
      return Fail(400, "studentId required");
    }
    var order: seq<string> := [];
    var totals: map<string, CourseTotal> := map[];
    for i := 0 to |docs|
      invariant Totals(order, totals) == Accumulate(Entries(docs[..i]))
    {
      order, totals := AddCourses(order, totals, Entries(docs[..i]), docs[i].courses);
      EntriesStep(docs, i);
    }
    assert docs[..|docs|] == docs;
    AccumulateWellFormed(Entries(docs));
    var result := ReportAverages(order, totals);
    return Success(SortDesc(result, AverageKey));
  }

  // ---------------------------------------------------------------------
  // coursePerformances

  /** One row of the `coursePerformances` result. */
  datatype Performance = Performance(
    studentId: string, studentName: string, batch: string, major: string, semester: string,
    courseCode: string, courseName: string, score: int)

  function ScoreKey(p: Performance): real { p.score as real }

  function RowsOf(d: StudentGrades, courses: seq<Course>, code: string): seq<Performance> {
    if courses == [] then []
    else
      var c := courses[|courses| - 1];
      RowsOf(d, courses[..|courses| - 1], code)
        + (if c.courseCode == code
           then [Performance(d.studentId, d.studentName, d.batch, d.major, d.semester, c.courseCode, c.courseName, c.score)]
           else [])
  }

  /** One row per matching course entry, document by document. */
  function Performances(docs: seq<StudentGrades>, code: string): seq<Performance> {
    if docs == [] then []
    else Performances(docs[..|docs| - 1], code) + RowsOf(docs[|docs| - 1], docs[|docs| - 1].courses, code)
  }

  lemma {:induction false} RowsOfMatch(d: StudentGrades, courses: seq<Course>, code: string)
    ensures |RowsOf(d, courses, code)| == |CourseScores(courses, code)|
    ensures forall i :: 0 <= i < |RowsOf(d, courses, code)| ==>
      && RowsOf(d, courses, code)[i].courseCode == code
      && RowsOf(d, courses, code)[i].score == CourseScores(courses, code)[i]
      && RowsOf(d, courses, code)[i].studentId == d.studentId
  {
    if courses != [] {
      RowsOfMatch(d, courses[..|courses| - 1], code);
    }
  }

  /** The rows are exactly the matching course entries: one per entry, with
      the requested code, and with the scores the distribution counts. */
  lemma {:induction false} PerformancesMatch(docs: seq<StudentGrades>, code: string)
    ensures |Performances(docs, code)| == |MatchingScores(docs, code)|
    ensures forall i :: 0 <= i < |Performances(docs, code)| ==>
      Performances(docs, code)[i].courseCode == code
      && Performances(docs, code)[i].score == MatchingScores(docs, code)[i]
  {
    if docs != [] {
      var d := docs[|docs| - 1];
      PerformancesMatch(docs[..|docs| - 1], code);
      RowsOfMatch(d, d.courses, code);
    }
  }

  /** `coursePerformances`: 400 without a course code; otherwise the rows of
      every matching course entry, highest score first. */
  method CoursePerformances(courseCode: string, docs: seq<StudentGrades>) returns (reply: Reply<seq<Performance>>)
    ensures courseCode == "" ==> reply == Fail(400, "courseCode required")
    ensures courseCode != "" ==> reply.Success?
    ensures courseCode != "" ==> multiset(reply.data) == multiset(Performances(docs, courseCode))
    ensures courseCode != "" ==> SortedDesc(reply.data, ScoreKey)
    ensures courseCode != "" ==> forall p :: p in reply.data ==> p.courseCode == courseCode
  {
    if courseCode == "" {
      return Fail(400, "courseCode required");
    }
    var result: seq<Performance> := [];
    for i := 0 to |docs|
      invariant result == Performances(docs[..i], courseCode)
    {
      var d := docs[i];
      ghost var before := result;
      for j := 0 to |d.courses|
        invariant result == before + RowsOf(d, d.courses[..j], courseCode)
      {
        assert d.courses[..j + 1][..j] == d.courses[..j];
        var c := d.courses[j];
        if c.courseCode != courseCode {
          continue;
        }
        result := result + [Performance(d.studentId, d.studentName, d.batch, d.major, d.semester,
                                        c.courseCode, c.courseName, c.score)];
      }
      assert d.courses[..|d.courses|] == d.courses;
      assert docs[..i + 1][..i] == docs[..i];
    }
    assert docs[..|docs|] == docs;
    var sorted := SortDesc(result, ScoreKey);
    PerformancesMatch(docs, courseCode);
    forall p | p in sorted ensures p.courseCode == courseCode {
      assert p in multiset(result);
    }
    return Success(sorted);
  }

  // ---------------------------------------------------------------------
  // performanceOverTime

  datatype SemesterCourses = SemesterCourses(semester: string, courses: seq<Course>)

  /** `performanceOverTime`: 400 without a student id; otherwise each
      document (already ordered by semester) reduced to its semester and courses. */
  function PerformanceOverTime(studentId: string, docs: seq<StudentGrades>): (r: Reply<seq<SemesterCourses>>)
    ensures studentId == "" ==> r == Fail(400, "studentId required")
    ensures studentId != "" ==> r.Success? && |r.data| == |docs|
    ensures studentId != "" ==> forall i :: 0 <= i < |docs| ==>
      r.data[i].semester == docs[i].semester && r.data[i].courses == docs[i].courses
  {
    if studentId == "" then Fail(400, "studentId required")
    else Success(seq(|docs|, i requires 0 <= i < |docs| => SemesterCourses(docs[i].semester, docs[i].courses)))
  }

  // ---------------------------------------------------------------------
  // batchSemesterAggregate: merging the three pipeline results

  /** A student in a per-course top or bottom list. */
  datatype Performer = Performer(studentId: string, studentName: string, score: int, semester: string)

  /** One document of the top or bottom pipeline. */
  datatype Ranked = Ranked(courseCode: string, performers: seq<Performer>)

  /** One document of the stats pipeline; `None` is a missing or null field. */
  datatype CourseStat = CourseStat(
    courseCode: string, courseName: string,
    avgScore: Option<real>, minScore: Option<int>, maxScore: Option<int>, count: Option<int>)

  datatype CourseSummary = CourseSummary(
    courseCode: string, courseName: string, average: real, min: int, max: int, count: int,
    top: seq<Performer>, bottom: seq<Performer>)

  /** `new Map(ranked.map(r => [r.courseCode, r.performers])).get(code)`:
      when a code repeats, the later entry wins. */
  function LookupRanked(ranked: seq<Ranked>, code: string): (r: Option<seq<Performer>>)
    ensures r.None? <==> forall i :: 0 <= i < |ranked| ==> ranked[i].courseCode != code
    ensures r.Some? ==> exists i :: (0 <= i < |ranked| && ranked[i].courseCode == code
                                     && ranked[i].performers == r.value
                                     && forall j :: i < j < |ranked| ==> ranked[j].courseCode != code)
  {
    if ranked == [] then None
    else if ranked[|ranked| - 1].courseCode == code then Some(ranked[|ranked| - 1].performers)
    else LookupRanked(ranked[..|ranked| - 1], code)
  }

  function Summarise(s: CourseStat, tops: seq<Ranked>, bottoms: seq<Ranked>): CourseSummary {
    CourseSummary(s.courseCode, s.courseName,
                  s.avgScore.GetOr(0.0), s.minScore.GetOr(0), s.maxScore.GetOr(0), s.count.GetOr(0),
                  LookupRanked(tops, s.courseCode).GetOr([]),
                  LookupRanked(bottoms, s.courseCode).GetOr([]))
  }

  /** One summary per stats document, in the same order; a course with no
      top (bottom) document gets an empty list, a course with one gets that
      document's list. */
  function MergeStats(stats: seq<CourseStat>, tops: seq<Ranked>, bottoms: seq<Ranked>): (r: seq<CourseSummary>)
    ensures |r| == |stats|
    ensures forall i :: 0 <= i < |stats| ==>
      && r[i].courseCode == stats[i].courseCode
      && r[i].courseName == stats[i].courseName
      && r[i].count == stats[i].count.GetOr(0)
      && r[i].average == stats[i].avgScore.GetOr(0.0)
      && r[i].min == stats[i].minScore.GetOr(0)
      && r[i].max == stats[i].maxScore.GetOr(0)
    ensures forall i :: 0 <= i < |stats| ==>
      ((forall j :: 0 <= j < |tops| ==> tops[j].courseCode != stats[i].courseCode) ==> r[i].top == [])
    ensures forall i :: 0 <= i < |stats| ==>
      ((forall j :: 0 <= j < |bottoms| ==> bottoms[j].courseCode != stats[i].courseCode) ==> r[i].bottom == [])
    ensures forall i, j ::
      (0 <= i < |stats| && 0 <= j < |tops| && tops[j].courseCode == stats[i].courseCode
       && (forall k :: j < k < |tops| ==> tops[k].courseCode != stats[i].courseCode))
      ==> r[i].top == tops[j].performers
    ensures forall i, j ::
      (0 <= i < |stats| && 0 <= j < |bottoms| && bottoms[j].courseCode == stats[i].courseCode
       && (forall k :: j < k < |bottoms| ==> bottoms[k].courseCode != stats[i].courseCode))
      ==> r[i].bottom == bottoms[j].performers
  {
    seq(|stats|, i requires 0 <= i < |stats| => Summarise(stats[i], tops, bottoms))
  }

  /** `batchSemesterAggregate` after its three queries (parameters trimmed as
      `Field` trims a CSV cell): 400 unless both the
      trimmed batch and semester are non-empty; otherwise the merged summaries. */
  function BatchSemesterAggregate(batch: Option<string>, semester: Option<string>,
                                  stats: seq<CourseStat>, tops: seq<Ranked>, bottoms: seq<Ranked>)
    : (r: Reply<seq<CourseSummary>>)
    ensures Field(batch) == "" || Field(semester) == "" ==>
      r == Fail(400, "batch and semester required")
    ensures Field(batch) != "" && Field(semester) != "" ==>
      r == Success(MergeStats(stats, tops, bottoms))
  {
    if Field(batch) == "" || Field(semester) == "" then Fail(400, "batch and semester required")
    else Success(MergeStats(stats, tops, bottoms))
  }
}
