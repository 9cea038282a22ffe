/** `SubjectFormSchema`, shared by the create and edit forms: four
    independent field rules and the issue each failing rule reports. */
module SubjectSchema {
  import opened Common

  /** The raw form values; `departmentId` is undefined until a department is
      picked. */
  datatype SubjectFormValues = SubjectFormValues(
    subjectCode: string,
    name: string,
    departmentId: Option<int>,
    courseIds: seq<nat>)

  /** What the schema yields on success (`SubjectFormData`). */
  datatype SubjectFormData = SubjectFormData(
    subjectCode: string,
    name: string,
    departmentId: int,
    courseIds: seq<nat>)

  /** The schema's four keys, which are the paths its issues report. */
  datatype Field = SubjectCode | Name | DepartmentId | CourseIds

  /** One reported issue: the field and its message. */
  datatype Issue = Issue(path: Field, message: string)

  const CodeRequired: string := "El c\U{00F3}digo es obligatorio"
  const CodeTooLong: string := "El c\U{00F3}digo es demasiado largo"
  const NameTooShort: string := "El nombre debe tener al menos 3 caracteres"
  const NameTooLong: string := "El nombre es demasiado largo"
  const DepartmentRequired: string := "El departamento es obligatorio"
  const CoursesRequired: string := "Debe seleccionar al menos un curso"

  predicate CodeValid(code: string) { 1 <= |code| <= 50 }
  predicate NameValid(name: string) { 3 <= |name| <= 200 }

  /** The four field rules hold jointly. */
  predicate Accepts(v: SubjectFormValues)
  {
    CodeValid(v.subjectCode) && NameValid(v.name) && v.departmentId.Some? && |v.courseIds| >= 1
  }

  /** The rule of one field holds. */
  predicate FieldValid(v: SubjectFormValues, f: Field)
  {
    match f
    case SubjectCode => CodeValid(v.subjectCode)
    case Name => NameValid(v.name)
    case DepartmentId => v.departmentId.Some?
    case CourseIds => |v.courseIds| >= 1
  }

  /** The issues of one string field with a `min` and a `max` check. */
  function BoundIssues(path: Field, s: string, min: nat, max: nat, short: string, long: string): (r: seq<Issue>)
    ensures r == [] <==> min <= |s| <= max
    ensures |s| < min ==> Issue(path, short) in r
    ensures |s| > max ==> Issue(path, long) in r
    ensures forall x :: x in r ==> x.path == path && !(min <= |s| <= max)
  {
    (if |s| < min then [Issue(path, short)] else [])
    + (if |s| > max then [Issue(path, long)] else [])
  }

  /** The issue of a field with a single check: reported exactly when the
      check fails. */
  function CheckIssue(path: Field, fails: bool, message: string): (r: seq<Issue>)
    ensures fails ==> Issue(path, message) in r
    ensures forall x :: x in r ==> x.path == path && fails
  {
    if fails then [Issue(path, message)] else []
  }

  /** Every issue the schema reports, in field order: each failing rule
      reports its own issue, and an issue is reported only for a field whose
      rule fails. */
  function Issues(v: SubjectFormValues): (r: seq<Issue>)
    ensures |v.subjectCode| == 0 ==> Issue(SubjectCode, CodeRequired) in r
    ensures |v.subjectCode| > 50 ==> Issue(SubjectCode, CodeTooLong) in r
    ensures |v.name| < 3 ==> Issue(Name, NameTooShort) in r
    ensures |v.name| > 200 ==> Issue(Name, NameTooLong) in r
    ensures v.departmentId.None? ==> Issue(DepartmentId, DepartmentRequired) in r
    ensures |v.courseIds| == 0 ==> Issue(CourseIds, CoursesRequired) in r
    ensures forall x :: x in r ==> !FieldValid(v, x.path)
  {
    var code := BoundIssues(SubjectCode, v.subjectCode, 1, 50, CodeRequired, CodeTooLong);
    var name := BoundIssues(Name, v.name, 3, 200, NameTooShort, NameTooLong);
    var department := CheckIssue(DepartmentId, v.departmentId.None?, DepartmentRequired);
    var courses := CheckIssue(CourseIds, |v.courseIds| == 0, CoursesRequired);
    assert forall x :: x in code ==> !FieldValid(v, x.path);
    assert forall x :: x in name ==> !FieldValid(v, x.path);
    assert forall x :: x in department ==> !FieldValid(v, x.path);
    assert forall x :: x in courses ==> !FieldValid(v, x.path);
    ConcatMembers(code, name, department, courses);
    code + name + department + courses
  }

  /** An element of a four-part concatenation lies in one of the parts. */
  lemma ConcatMembers(a: seq<Issue>, b: seq<Issue>, c: seq<Issue>, d: seq<Issue>)
    ensures forall x :: x in a + b + c + d ==> x in a || x in b || x in c || x in d
  {
  }

  /** A record is accepted exactly when no rule reports an issue. */
  lemma AcceptedIffNoIssues(v: SubjectFormValues)
    ensures Accepts(v) <==> Issues(v) == []
  {
  }

  /** Parsing: the data when every rule holds, nothing otherwise. */
  function Parse(v: SubjectFormValues): (r: Option<SubjectFormData>)
    ensures r.Some? <==> Accepts(v)
    ensures r.Some? ==> r.value.subjectCode == v.subjectCode && r.value.name == v.name
                        && Some(r.value.departmentId) == v.departmentId && r.value.courseIds == v.courseIds
  {
    if Accepts(v) then Some(SubjectFormData(v.subjectCode, v.name, v.departmentId.value, v.courseIds))
    else None
  }

  /** Parsed data, read back as form values, parses to itself. */
  lemma ParseRoundTrip(d: SubjectFormData)
    requires CodeValid(d.subjectCode) && NameValid(d.name) && |d.courseIds| >= 1
    ensures Parse(SubjectFormValues(d.subjectCode, d.name, Some(d.departmentId), d.courseIds)) == Some(d)
  {
  }
}
