/**
 * Student records kept in a JSON file as a list of
 * {student_id, name, age, grade} objects. The file is the value
 * `Option<seq<StudentRecord>>`: `None` when it does not exist.
 */
module StudentRecords {
  import opened Wrappers

  datatype StudentRecord = StudentRecord(studentId: string, name: string, age: int, grade: string)

  /** What a successful search returns: the record's age and grade. */
  datatype AgeGrade = AgeGrade(age: int, grade: string)

  /**
   * The string stored under `key` in a record, as `record.get(key)` compares
   * with a string value: "age" holds an int, which never equals a string, and
   * any other key is absent.
   */
  function FieldValue(record: StudentRecord, key: string): Option<string>
  {
    if key == "student_id" then Some(record.studentId)
    else if key == "name" then Some(record.name)
    else if key == "grade" then Some(record.grade)
    else None
  }

  /** The records as loaded: a missing file is an empty list. */
  function Loaded(stored: Option<seq<StudentRecord>>): seq<StudentRecord>
  {
    match stored
    case None => []
    case Some(records) => records
  }

  /** Loads the records, appends the new one at the end, and gives back the list written to the file. */
  method AddStudentRecord(stored: Option<seq<StudentRecord>>, studentId: string, name: string, age: int, grade: string)
    returns (written: seq<StudentRecord>)
    ensures |written| == |Loaded(stored)| + 1
    ensures written[..|written| - 1] == Loaded(stored)
    ensures written[|written| - 1] == StudentRecord(studentId, name, age, grade)
    ensures stored.None? ==> written == [StudentRecord(studentId, name, age, grade)]
  {
    var records := if stored.Some? then stored.value else [];
    var newRecord := StudentRecord(studentId, name, age, grade);
    records := records + [newRecord];
    written := records;
  }

  /** The position of the first record whose `key` field equals `value`, or `|records|` when there is none. */
  function FirstMatch(records: seq<StudentRecord>, key: string, value: string): (i: nat)
    ensures i <= |records|
    ensures i < |records| ==> FieldValue(records[i], key) == Some(value)
    ensures forall j :: 0 <= j < i ==> FieldValue(records[j], key) != Some(value)
  {
    if records == [] then 0
    else if FieldValue(records[0], key) == Some(value) then 0
    else 1 + FirstMatch(records[1..], key, value)
  }

  /**
   * The age and grade of the first record, in stored order, whose `key` field
   * equals `value`; None when none matches or the file is missing.
   */
  method SearchStudent(stored: Option<seq<StudentRecord>>, key: string, value: string) returns (found: Option<AgeGrade>)
    ensures stored.None? ==> found == None
    ensures stored.Some? ==>
              var records := stored.value;
              var i := FirstMatch(records, key, value);
              found == if i < |records| then Some(AgeGrade(records[i].age, records[i].grade)) else None
  {
    if stored.None? {
      return None;
    }
    var records := stored.value;
    var i := 0;
    while i < |records|
      invariant 0 <= i <= |records|
      invariant forall j :: 0 <= j < i ==> FieldValue(records[j], key) != Some(value)
    {
      if FieldValue(records[i], key) == Some(value) {
        return Some(AgeGrade(records[i].age, records[i].grade));
      }
      i := i + 1;
    }
    return None;
  }

  /**
   * Appending a record never changes which record a search finds when one
   * already matched, so with duplicate ids the earlier record wins; otherwise
   * the search finds the new record exactly when it matches.
   */
  lemma {:induction false} FirstMatchAppend(records: seq<StudentRecord>, record: StudentRecord, key: string, value: string)
    ensures FirstMatch(records, key, value) < |records| ==>
              FirstMatch(records + [record], key, value) == FirstMatch(records, key, value)
    ensures FirstMatch(records, key, value) == |records| ==>
              (FirstMatch(records + [record], key, value) == |records| <==> FieldValue(record, key) == Some(value))
  {
    if records != [] {
      assert (records + [record])[1..] == records[1..] + [record];
      FirstMatchAppend(records[1..], record, key, value);
    }
  }

  /**
   * The module-level demo: from no file, records 1232 and 6211 are added; a
   * search for student_id 12345 finds nothing.
   */
  method Demo() returns (found: Option<AgeGrade>)
    ensures found == None
  {
    var written1 := AddStudentRecord(None, "1232", "Aavash Bhattarai ", 30, "A");
    var written2 := AddStudentRecord(Some(written1), "6211", "Samyam Aryal", 17, "B");
    found := SearchStudent(Some(written2), "student_id", "12345");
  }
}
