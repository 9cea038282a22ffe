/** The subject form: its default values, the change set it submits in edit
    mode, and the submit branch. */
module SubjectForm {
  import opened Common
  import opened JsSort
  import opened SubjectSchema

  datatype Mode = Create | Edit

  datatype Department = Department(departmentId: int)
  datatype Course = Course(courseId: nat)

  /** The subject being edited (`initialData`), as far as the form reads it. */
  datatype Subject = Subject(subjectCode: string, name: string, department: Department, courses: seq<Course>)

  /** `initialData.courses.map(c => c.courseId)`. */
  function CourseIdsOf(s: Subject): (ids: seq<nat>)
    ensures |ids| == |s.courses|
    ensures forall i :: 0 <= i < |ids| ==> ids[i] == s.courses[i].courseId
    decreases |s.courses|
  {
    if |s.courses| == 0 then []
    else CourseIdsOf(s.(courses := s.courses[..|s.courses| - 1])) + [s.courses[|s.courses| - 1].courseId]
  }

  /** The form's `defaultValues`: the subject's own values when editing one,
      empty values otherwise. */
  function DefaultValues(mode: Mode, initialData: Option<Subject>): (v: SubjectFormValues)
    ensures mode == Edit && initialData.Some? ==>
              v.subjectCode == initialData.value.subjectCode && v.name == initialData.value.name
              && v.departmentId == Some(initialData.value.department.departmentId)
              && v.courseIds == CourseIdsOf(initialData.value)
    ensures !(mode == Edit && initialData.Some?) ==> v == SubjectFormValues("", "", None, [])
  {
    if mode == Edit && initialData.Some? then
      var s := initialData.value;
      SubjectFormValues(s.subjectCode, s.name, Some(s.department.departmentId), CourseIdsOf(s))
    else SubjectFormValues("", "", None, [])
  }

  /** The empty create form cannot be submitted: every field rule fails. */
  lemma CreateDefaultsRejected(initialData: Option<Subject>)
    ensures !Accepts(DefaultValues(Create, initialData))
    ensures |Issues(DefaultValues(Create, initialData))| == 4
  {
  }

  /** A change set (`Partial<SubjectFormData>`): `None` for a key not set. */
  datatype SubjectPatch = SubjectPatch(
    subjectCode: Option<string>,
    name: Option<string>,
    departmentId: Option<int>,
    courseIds: Option<seq<nat>>)

  const NoChanges: SubjectPatch := SubjectPatch(None, None, None, None)

  /** The whole form data as a change set (every key set). */
  function Whole(data: SubjectFormData): (p: SubjectPatch)
    ensures p.subjectCode == Some(data.subjectCode) && p.name == Some(data.name)
    ensures p.departmentId == Some(data.departmentId) && p.courseIds == Some(data.courseIds)
    ensures Apply(NoChanges, p) == p
  {
    SubjectPatch(Some(data.subjectCode), Some(data.name), Some(data.departmentId), Some(data.courseIds))
  }

  /** The change set against `initial`: each key whose value differs, with
      the new value; course ids differ when they differ as multisets. */
  function ChangesAgainst(initial: Subject, data: SubjectFormData): (p: SubjectPatch)
  {
    SubjectPatch(
      if data.subjectCode != initial.subjectCode then Some(data.subjectCode) else None,
      if data.name != initial.name then Some(data.name) else None,
      if data.departmentId != initial.department.departmentId then Some(data.departmentId) else None,
      if multiset(data.courseIds) != multiset(CourseIdsOf(initial)) then Some(data.courseIds) else None)
  }

  /** Data equal to the subject (course ids in any order) yields no
      changes. */
  lemma UnchangedYieldsNoChanges(initial: Subject, data: SubjectFormData)
    requires data.subjectCode == initial.subjectCode && data.name == initial.name
    requires data.departmentId == initial.department.departmentId
    requires multiset(data.courseIds) == multiset(CourseIdsOf(initial))
    ensures ChangesAgainst(initial, data) == NoChanges
  {
  }

  /** Submitting the edit form's defaults unchanged sends an empty change
      set. */
  lemma EditDefaultsYieldNoChanges(initial: Subject)
    ensures var v := DefaultValues(Edit, Some(initial));
            ChangesAgainst(initial, SubjectFormData(v.subjectCode, v.name, v.departmentId.value, v.courseIds)) == NoChanges
  {
  }

  /** `patch` overrides the keys it sets. */
  function Apply(base: SubjectPatch, patch: SubjectPatch): (p: SubjectPatch)
  {
    SubjectPatch(
      if patch.subjectCode.Some? then patch.subjectCode else base.subjectCode,
      if patch.name.Some? then patch.name else base.name,
      if patch.departmentId.Some? then patch.departmentId else base.departmentId,
      if patch.courseIds.Some? then patch.courseIds else base.courseIds)
  }

  /** The change set is minimal and complete: it sets exactly the keys that
      differ, and applied to the subject's own values it restores the data
      (course ids up to order). */
  lemma ChangesAreMinimalAndComplete(initial: Subject, data: SubjectFormData)
    ensures var p := ChangesAgainst(initial, data);
            (p.subjectCode.Some? <==> data.subjectCode != initial.subjectCode)
            && (p.name.Some? <==> data.name != initial.name)
            && (p.departmentId.Some? <==> data.departmentId != initial.department.departmentId)
            && (p.courseIds.Some? <==> multiset(data.courseIds) != multiset(CourseIdsOf(initial)))
    ensures var r := Apply(Whole(SubjectFormData(initial.subjectCode, initial.name,
                                                 initial.department.departmentId, CourseIdsOf(initial))),
                           ChangesAgainst(initial, data));
            r.subjectCode == Some(data.subjectCode) && r.name == Some(data.name)
            && r.departmentId == Some(data.departmentId)
            && r.courseIds.Some? && multiset(r.courseIds.value) == multiset(data.courseIds)
  {
  }

  /** `getChangedFields(data)`, with the submitted data's course ids in an
      array. Without a subject it returns the data itself. With one, it sorts a
      copy of the subject's ids and the data's own array in place with the
      default comparator, and keeps the ids when the sorted lists differ;
      that is exactly a multiset difference. */
  method GetChangedFields(initialData: Option<Subject>, subjectCode: string, name: string,
                          departmentId: int, courseIds: array<nat>) returns (patch: SubjectPatch)
    modifies courseIds
    ensures initialData.None? ==>
              courseIds[..] == old(courseIds[..])
              && patch == Whole(SubjectFormData(subjectCode, name, departmentId, courseIds[..]))
    ensures initialData.Some? ==>
              SortedPermutationOf(courseIds[..], old(courseIds[..]))
              && patch == ChangesAgainst(initialData.value, SubjectFormData(subjectCode, name, departmentId, courseIds[..]))
  {
    if initialData.None? {
      patch := Whole(SubjectFormData(subjectCode, name, departmentId, courseIds[..]));
      return;
    }
    var initial := initialData.value;
    patch := NoChanges;
    if subjectCode != initial.subjectCode {
      patch := patch.(subjectCode := Some(subjectCode));
    }
    if name != initial.name {
      patch := patch.(name := Some(name));
    }
    if departmentId != initial.department.departmentId {
      patch := patch.(departmentId := Some(departmentId));
    }
    var changed := CourseIdsChanged(CourseIdsOf(initial), courseIds);
    if changed {
      patch := patch.(courseIds := Some(courseIds[..]));
    }
  }

  /** The course-id comparison of `getChangedFields`: sorts a copy of the
      subject's ids and the data's own array, then compares the sorted
      lists. The answer is whether the ids differ as multisets. */
  method CourseIdsChanged(ids: seq<nat>, courseIds: array<nat>) returns (changed: bool)
    modifies courseIds
    ensures SortedPermutationOf(courseIds[..], old(courseIds[..]))
    ensures changed <==> multiset(courseIds[..]) != multiset(ids)
  {
    var currentCourseIds := new nat[|ids|](i requires 0 <= i < |ids| => ids[i]);
    assert currentCourseIds[..] == ids;
    SortInPlace(currentCourseIds);
    SortInPlace(courseIds);
    SortedCompareIsMultisetCompare(ids, currentCourseIds[..], old(courseIds[..]), courseIds[..]);
    changed := currentCourseIds[..] != courseIds[..];
  }

  /** `handleFormSubmit(data)`: what is handed to `onSubmit`. Editing a
      subject submits its change set; otherwise the whole data is
      submitted, untouched. */
  method HandleFormSubmit(mode: Mode, initialData: Option<Subject>, subjectCode: string, name: string,
                          departmentId: int, courseIds: array<nat>) returns (submitted: SubjectPatch)
    modifies courseIds
    ensures mode == Edit && initialData.Some? ==>
              SortedPermutationOf(courseIds[..], old(courseIds[..]))
              && submitted == ChangesAgainst(initialData.value, SubjectFormData(subjectCode, name, departmentId, courseIds[..]))
    ensures !(mode == Edit && initialData.Some?) ==>
              courseIds[..] == old(courseIds[..])
              && submitted == Whole(SubjectFormData(subjectCode, name, departmentId, courseIds[..]))
  {
    if mode == Edit && initialData.Some? {
      submitted := GetChangedFields(initialData, subjectCode, name, departmentId, courseIds);
    } else {
      submitted := Whole(SubjectFormData(subjectCode, name, departmentId, courseIds[..]));
    }
  }

  /** The submit button's label. */
  function ButtonLabel(mode: Mode): (text: string)
    ensures mode == Create <==> text == "Crear Asignatura"
    ensures mode == Edit <==> text == "Actualizar Asignatura"
  {
    assert "Crear Asignatura"[0] != "Actualizar Asignatura"[0];
    match mode
    case Create => "Crear Asignatura"
    case Edit => "Actualizar Asignatura"
  }

  /** The ids of a subject with three courses. */
  lemma ThreeCourseIds(initial: Subject, a: nat, b: nat, c: nat)
    requires initial.courses == [Course(a), Course(b), Course(c)]
    ensures CourseIdsOf(initial) == [a, b, c]
  {
    assert initial.courses[..2] == [Course(a), Course(b)];
    assert initial.courses[..2][..1] == [Course(a)];
  }

  /** Reversing three ids keeps their multiset. */
  lemma ReversedThreeIds(a: nat, b: nat, c: nat)
    ensures multiset([c, b, a]) == multiset([a, b, c])
  {
  }

  /** Editing a subject and submitting with nothing changed but the order of
      its three courses (here reversed) sends an empty change set, and
      leaves the submitted data's ids sorted. */
  method ReorderedCoursesScenario(initial: Subject, a: nat, b: nat, c: nat)
    returns (submitted: SubjectPatch, ids: seq<nat>)
    requires initial.courses == [Course(a), Course(b), Course(c)]
    ensures submitted == NoChanges
    ensures multiset(ids) == multiset{a, b, c} && Sorted(ids)
  {
    var courseIds := new nat[3];
    courseIds[0], courseIds[1], courseIds[2] := c, b, a;
    assert courseIds[..] == [c, b, a];
    ThreeCourseIds(initial, a, b, c);
    ReversedThreeIds(a, b, c);
    submitted := HandleFormSubmit(Edit, Some(initial), initial.subjectCode, initial.name,
                                  initial.department.departmentId, courseIds);
    ids := courseIds[..];
  }
}
