/** Grade ingestion (`uploadGrades` in grade-service/src/controllers/gradeController.ts).
    Each CSV row, once parsed, is folded into a store of StudentGrades
    documents keyed by (studentId, semester): the row is skipped, overwrites
    one course of an existing document, appends a course to it, or creates a
    new document. */
module Grades {
  import opened Wrappers
  import opened Text

  datatype Course = Course(courseCode: string, courseName: string, score: int)

  datatype StudentGrades = StudentGrades(
    studentId: string,
    studentName: string,
    batch: string,
    major: string,
    semester: string,
    courses: seq<Course>)

  /** Documents are looked up by `{ studentId, semester }`. */
  type Key = (string, string)
  type Store = map<Key, StudentGrades>

  /** A CSV row as csv-parser yields it: a missing column is `None`. */
  datatype RawRow = RawRow(
    studentId: Option<string>,
    studentName: Option<string>,
    batch: Option<string>,
    major: Option<string>,
    semester: Option<string>,
    courseCode: Option<string>,
    courseName: Option<string>,
    score: Option<ScoreCell>)

  /** A score cell: its text, and the value JavaScript's `Number` gives for
      that text (`None` for NaN). Number parsing itself is not modelled. */
  datatype ScoreCell = ScoreCell(text: string, number: Option<int>)

  /** A row after trimming and number conversion; `score == None` is NaN. */
  datatype Row = Row(
    studentId: string,
    studentName: string,
    batch: string,
    major: string,
    semester: string,
    courseCode: string,
    courseName: string,
    score: Option<int>)

  /** `(raw.field || "").toString().trim()` */
  function Field(f: Option<string>): (r: string)
    ensures Trimmed(r)
    ensures f.None? ==> r == ""
    ensures f.Some? ==> r == Trim(f.value)
  {
    Trim(f.GetOr(""))
  }

  /** `Number(raw.score || 0)`: a missing or empty score counts as 0, any
      other text is converted by `Number` (`None` standing for NaN). */
  function ParseScore(f: Option<ScoreCell>): (r: Option<int>)
    ensures f.None? || f.value.text == "" ==> r == Some(0)
    ensures f.Some? && f.value.text != "" ==> r == f.value.number
  {
    match f
    case None => Some(0)
    case Some(cell) => if cell.text == "" then Some(0) else cell.number
  }

  function Normalise(raw: RawRow): Row {
    Row(Field(raw.studentId), Field(raw.studentName), Field(raw.batch), Field(raw.major),
        Field(raw.semester), Field(raw.courseCode), Field(raw.courseName),
        ParseScore(raw.score))
  }

  function NormaliseAll(raws: seq<RawRow>): (rows: seq<Row>)
    ensures |rows| == |raws|
    ensures forall i {:trigger Normalise(raws[i])} :: 0 <= i < |raws| ==> rows[i] == Normalise(raws[i])
  {
    if raws == [] then [] else [Normalise(raws[0])] + NormaliseAll(raws[1..])
  }

  /** The row is logged and skipped. */
  predicate Skipped(row: Row) {
    row.studentId == "" || row.courseCode == "" || row.score.None?
  }

  function KeyOf(row: Row): Key {
    (row.studentId, row.semester)
  }

  /** `courses.findIndex(c => c.courseCode === code)` */
  function FindCourse(courses: seq<Course>, code: string): (idx: int)
    ensures -1 <= idx < |courses|
    ensures idx == -1 <==> forall j :: 0 <= j < |courses| ==> courses[j].courseCode != code
    ensures idx >= 0 ==> courses[idx].courseCode == code
    ensures idx >= 0 ==> forall j :: 0 <= j < idx ==> courses[j].courseCode != code
  {
    if courses == [] then -1
    else if courses[0].courseCode == code then 0
    else
      var k := FindCourse(courses[1..], code);
      if k == -1 then -1 else k + 1
  }

  /** The set of course codes of a document. */
  function Codes(courses: seq<Course>): set<string> {
    set c | c in courses :: c.courseCode
  }

  /** No course code occurs twice in a document. */
  predicate DistinctCodes(courses: seq<Course>) {
    forall i, j :: 0 <= i < j < |courses| ==> courses[i].courseCode != courses[j].courseCode
  }

  /** What mongoose's `required` validators demand when a document is saved:
      non-empty studentId, studentName, batch and major, and a non-empty code
      on every course. */
  predicate Saveable(g: StudentGrades) {
    g.studentId != "" && g.studentName != "" && g.batch != "" && g.major != ""
    && forall c :: c in g.courses ==> c.courseCode != ""
  }

  /** Every document is filed under its own key, passes validation and
      lists each course once. */
  predicate ValidStore(store: Store) {
    forall k :: k in store ==>
      && store[k].studentId == k.0 && store[k].semester == k.1
      && Saveable(store[k]) && DistinctCodes(store[k].courses)
  }

  /** `value || fallback` on strings. */
  function OrElse(value: string, fallback: string): string {
    if value != "" then value else fallback
  }

  lemma ReplaceKeepsCodes(s: seq<Course>, i: nat, c: Course)
    requires i < |s| && s[i].courseCode == c.courseCode
    ensures Codes(s[i := c]) == Codes(s)
  {
    var t := s[i := c];
    forall x | x in Codes(s) ensures x in Codes(t) {
      var j :| 0 <= j < |s| && s[j].courseCode == x;
      assert t[j].courseCode == x;
    }
    forall x | x in Codes(t) ensures x in Codes(s) {
      var j :| 0 <= j < |t| && t[j].courseCode == x;
      assert s[j].courseCode == x;
    }
  }

  lemma AppendCodes(s: seq<Course>, c: Course)
    ensures Codes(s + [c]) == Codes(s) + {c.courseCode}
  {
    var t := s + [c];
    forall x | x in Codes(s) ensures x in Codes(t) {
      var j :| 0 <= j < |s| && s[j].courseCode == x;
      assert t[j].courseCode == x;
    }
    assert t[|s|] == c;
  }

  /** The update of an existing document by an accepted row. */
  function MergeRow(g: StudentGrades, row: Row): (r: StudentGrades)
    requires row.score.Some?
    ensures r.studentId == g.studentId && r.semester == g.semester
    ensures r.studentName == (if row.studentName != "" then row.studentName else g.studentName)
    ensures r.batch == (if row.batch != "" then row.batch else g.batch)
    ensures r.major == (if row.major != "" then row.major else g.major)
    ensures FindCourse(g.courses, row.courseCode) >= 0 ==>
      var i := FindCourse(g.courses, row.courseCode);
      && |r.courses| == |g.courses|
      && r.courses[i].courseCode == row.courseCode
      && r.courses[i].score == row.score.value
      && r.courses[i].courseName == (if row.courseName != "" then row.courseName else g.courses[i].courseName)
      && forall j :: 0 <= j < |g.courses| && j != i ==> r.courses[j] == g.courses[j]
    ensures FindCourse(g.courses, row.courseCode) == -1 ==>
      r.courses == g.courses + [Course(row.courseCode, row.courseName, row.score.value)]
    ensures Codes(r.courses) == Codes(g.courses) + {row.courseCode}
  {
    var i := FindCourse(g.courses, row.courseCode);
    var courses := (
      if i >= 0 then
        var c := g.courses[i].(score := row.score.value, courseName := OrElse(row.courseName, g.courses[i].courseName));
        ReplaceKeepsCodes(g.courses, i, c);
        g.courses[i := c]
      else
        var c := Course(row.courseCode, row.courseName, row.score.value);
        AppendCodes(g.courses, c);
        g.courses + [c]);
    g.(studentName := OrElse(row.studentName, g.studentName),
       batch := OrElse(row.batch, g.batch),
       major := OrElse(row.major, g.major),
       courses := courses)
  }

  /** The document `StudentGrades.create` is given for a row with no document yet. */
  function NewRecord(row: Row): (r: StudentGrades)
    requires row.score.Some?
    ensures r.courses == [Course(row.courseCode, row.courseName, row.score.value)]
    ensures (r.studentId, r.semester) == KeyOf(row)
  {
    StudentGrades(row.studentId, row.studentName, row.batch, row.major, row.semester,
                  [Course(row.courseCode, row.courseName, row.score.value)])
  }

  /** One row's effect: the new store, or the validation failure that
      `save()`/`create()` throws. */
  datatype Step = Applied(store: Store) | Rejected

  function ApplyRow(store: Store, row: Row): (r: Step)
    // an invalid row is skipped and changes nothing
    ensures Skipped(row) ==> r == Applied(store)
    // an accepted row touches only its own key
    ensures !Skipped(row) && r.Applied? ==>
      && r.store.Keys == store.Keys + {KeyOf(row)}
      && forall k :: k in store && k != KeyOf(row) ==> r.store[k] == store[k]
    // with no document for the key, exactly the one-course document is created
    ensures !Skipped(row) && KeyOf(row) !in store ==>
      r == (if Saveable(NewRecord(row)) then Applied(store[KeyOf(row) := NewRecord(row)]) else Rejected)
    // with a document, it is merged and saved
    ensures !Skipped(row) && KeyOf(row) in store ==>
      var m := MergeRow(store[KeyOf(row)], row);
      r == (if Saveable(m) then Applied(store[KeyOf(row) := m]) else Rejected)
    // a store that satisfies the invariant keeps it
    ensures ValidStore(store) && r.Applied? ==> ValidStore(r.store)
    // a valid document always saves
    ensures ValidStore(store) && !Skipped(row) && KeyOf(row) in store ==> r.Applied?
  {
    if Skipped(row) then Applied(store)
    else
      var k := KeyOf(row);
      var g := if k in store then MergeRow(store[k], row) else NewRecord(row);
      if !Saveable(g) then Rejected
      else
        MergeKeepsValid(store, row);
        Applied(store[k := g])
  }

  /** Merging a row into a valid document keeps it saveable and keeps its
      course codes distinct. */
  lemma MergedRecordValid(g: StudentGrades, row: Row)
    requires !Skipped(row) && Saveable(g) && DistinctCodes(g.courses)
    ensures Saveable(MergeRow(g, row)) && DistinctCodes(MergeRow(g, row).courses)
  {
    var m := MergeRow(g, row);
    var i := FindCourse(g.courses, row.courseCode);
    forall c | c in m.courses ensures c.courseCode != "" {
      assert c.courseCode in Codes(m.courses);
    }
    if i == -1 {
      assert forall a :: 0 <= a < |g.courses| ==> m.courses[a] == g.courses[a];
    } else {
      forall a, b | 0 <= a < b < |m.courses|
        ensures m.courses[a].courseCode != m.courses[b].courseCode
      {
        assert m.courses[a].courseCode == g.courses[a].courseCode;
        assert m.courses[b].courseCode == g.courses[b].courseCode;
      }
    }
  }

  lemma MergeKeepsValid(store: Store, row: Row)
    requires !Skipped(row)
    ensures ValidStore(store) && KeyOf(row) in store ==>
      var m := MergeRow(store[KeyOf(row)], row);
      Saveable(m) && DistinctCodes(m.courses)
    ensures ValidStore(store) && KeyOf(row) !in store && Saveable(NewRecord(row)) ==>
      ValidStore(store[KeyOf(row) := NewRecord(row)])
    ensures ValidStore(store) && KeyOf(row) in store ==>
      ValidStore(store[KeyOf(row) := MergeRow(store[KeyOf(row)], row)])
  {
    var k := KeyOf(row);
    if ValidStore(store) && k in store {
      MergedRecordValid(store[k], row);
    }
  }

  /** The fold over all rows, in order. Rows before a validation failure keep
      their effect; the failure stops the upload. */
  datatype Upload = Done(store: Store) | Failed(store: Store)

  function UploadRows(store: Store, rows: seq<Row>): Upload
    decreases |rows|
  {
    if rows == [] then Done(store)
    else
      match UploadRows(store, rows[..|rows| - 1])
      case Failed(s) => Failed(s)
      case Done(s) =>
        match ApplyRow(s, rows[|rows| - 1])
        case Applied(t) => Done(t)
        case Rejected => Failed(s)
  }

  /** Uploading keeps the store invariant, never removes a document, and never
      fails on rows that only update existing documents. */
  lemma {:induction false} UploadKeepsValid(store: Store, rows: seq<Row>)
    requires ValidStore(store)
    ensures ValidStore(UploadRows(store, rows).store)
    ensures store.Keys <= UploadRows(store, rows).store.Keys
    ensures (forall i :: 0 <= i < |rows| ==> Skipped(rows[i]) || KeyOf(rows[i]) in store) ==>
      UploadRows(store, rows).Done?
  {
    if rows != [] {
      var prefix := rows[..|rows| - 1];
      UploadKeepsValid(store, prefix);
      assert forall i :: 0 <= i < |prefix| ==> prefix[i] == rows[i];
    }
  }

  /** Every document an upload adds is keyed by one of the accepted rows. */
  lemma {:induction false} UploadAddsOnlyRowKeys(store: Store, rows: seq<Row>)
    ensures forall k :: k in UploadRows(store, rows).store && k !in store ==>
      exists i :: 0 <= i < |rows| && !Skipped(rows[i]) && KeyOf(rows[i]) == k
  {
    if rows != [] {
      var prefix := rows[..|rows| - 1];
      UploadAddsOnlyRowKeys(store, prefix);
      forall k | k in UploadRows(store, rows).store && k !in store
        ensures exists i :: 0 <= i < |rows| && !Skipped(rows[i]) && KeyOf(rows[i]) == k
      {
        if k in UploadRows(store, prefix).store {
          var i :| 0 <= i < |prefix| && !Skipped(prefix[i]) && KeyOf(prefix[i]) == k;
          assert rows[i] == prefix[i];
        } else {
          assert KeyOf(rows[|rows| - 1]) == k;
        }
      }
    }
  }

  /** The grade store that `uploadGrades` writes through. */
  class GradeStore {
    var records: Store

    constructor ()
      ensures records == map[]
    {
      records := map[];
    }

    /** One accepted row: find the document for its key, overwrite or append
        the course in place and refresh the names, or build a new document;
        then save it unless validation fails. */
    method Upsert(row: Row) returns (saved: bool)
      requires !Skipped(row)
      modifies this
      ensures ApplyRow(old(records), row) == (if saved then Applied(records) else Rejected)
      ensures !saved ==> records == old(records)
    {
      var key := KeyOf(row);
      var doc: StudentGrades;
      if key in records {
        doc := records[key];
        var idx := FindCourse(doc.courses, row.courseCode);
        if idx >= 0 {
          var c := doc.courses[idx];
          c := c.(score := row.score.value);
          if row.courseName != "" {
            c := c.(courseName := row.courseName);
          }
          doc := doc.(courses := doc.courses[idx := c]);
        } else {
          doc := doc.(courses := doc.courses + [Course(row.courseCode, row.courseName, row.score.value)]);
        }
        doc := doc.(studentName := OrElse(row.studentName, doc.studentName));
        doc := doc.(batch := OrElse(row.batch, doc.batch));
        doc := doc.(major := OrElse(row.major, doc.major));
        assert doc == MergeRow(records[key], row);
      } else {
        doc := StudentGrades(row.studentId, row.studentName, row.batch, row.major, row.semester,
                             [Course(row.courseCode, row.courseName, row.score.value)]);
      }
      saved := Saveable(doc);
      if saved {
        records := records[key := doc];
      }
    }

    /** `uploadGrades`: 400 without a file; otherwise each row is applied in
        order; a document that fails validation aborts the upload with 500
        and leaves the rows before it applied; otherwise 200. */
    method UploadGrades(file: Option<seq<RawRow>>)
      returns (status: int, message: string)
      modifies this
      ensures file.None? ==>
        status == 400 && message == "CSV file is required under field 'file'" && records == old(records)
      ensures file.Some? ==> records == UploadRows(old(records), NormaliseAll(file.value)).store
      ensures file.Some? ==> (status == 200 <==> UploadRows(old(records), NormaliseAll(file.value)).Done?)
      ensures file.Some? ==> (status == 500 <==> UploadRows(old(records), NormaliseAll(file.value)).Failed?)
      ensures status == 200 ==> message == "CSV processed"
      ensures status == 500 ==> message == "Failed to process CSV"
    {
      if file.None? {
        return 400, "CSV file is required under field 'file'";
      }
      var raws := file.value;
      var rows := NormaliseAll(raws);
      var i := 0;
      assert rows[..0] == [];
      while i < |raws|
        invariant 0 <= i <= |raws|
        invariant UploadRows(old(records), rows[..i]) == Done(records)
      {
        var row := rows[i];
        UploadStep(old(records), rows, i, records);
        if !Skipped(row) {
          var saved := Upsert(row);
          if !saved {
            UploadFailureSticks(old(records), rows, i + 1);
            assert UploadRows(old(records), rows) == Failed(records);
            return 500, "Failed to process CSV";
          }
        }
        i := i + 1;
      }
      assert rows[..|raws|] == rows;
      assert UploadRows(old(records), rows) == Done(records);
      return 200, "CSV processed";
    }
  }

  lemma UploadStep(store: Store, rows: seq<Row>, i: nat, s: Store)
    requires i < |rows| && UploadRows(store, rows[..i]) == Done(s)
    ensures UploadRows(store, rows[..i + 1]) ==
      match ApplyRow(s, rows[i])
      case Applied(t) => Done(t)
      case Rejected => Failed(s)
  {
    assert rows[..i + 1][..i] == rows[..i];
  }

  /** Once a prefix has failed, the whole upload has failed with the same store. */
  lemma {:induction false} UploadFailureSticks(store: Store, rows: seq<Row>, n: nat)
    requires n <= |rows|
    requires UploadRows(store, rows[..n]).Failed?
    ensures UploadRows(store, rows) == UploadRows(store, rows[..n])
    decreases |rows| - n
  {
    if n < |rows| {
      assert rows[..n + 1][..n] == rows[..n];
      UploadFailureSticks(store, rows, n + 1);
    } else {
      assert rows[..n] == rows;
    }
  }
}
