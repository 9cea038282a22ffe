/** The subject query hooks: the `subjectKeys` factory, the two queries and
    the cache effects of the two mutations. */
module UseSubjects {
  import opened Common
  import opened QueryCache

  const Root: string := "subjects"

  function All(): (k: QueryKey) { AllKey(Root) }
  function Lists(): (k: QueryKey) { ListsKey(Root) }
  function List(filters: Option<map<string, string>>): (k: QueryKey) { ListKey(Root, filters) }
  function Details(): (k: QueryKey) { DetailsKey(Root) }
  function Detail(subjectId: int): (k: QueryKey) { DetailKey(Root, Number(subjectId)) }

  /** `subjectKeys`: the literal arrays, the list and detail branches, and
      the prefix facts between them. */
  lemma SubjectKeys(f: Option<map<string, string>>, subjectId: int)
    ensures All() == [Text("subjects")] && Lists() == [Text("subjects"), Text("list")]
    ensures List(f) == Lists() + [Filters(f)] && Details() == [Text("subjects"), Text("detail")]
    ensures Detail(subjectId) == Details() + [Number(subjectId)]
    ensures IsPrefix(Lists(), List(f)) && IsPrefix(Details(), Detail(subjectId))
    ensures !IsPrefix(Details(), List(f)) && !IsPrefix(Lists(), Detail(subjectId))
  {
    KeyFamily(Root, f, f, Number(subjectId), Number(subjectId));
  }

  /** `useSubjects(filters)`. */
  function SubjectsQuery(filters: Option<map<string, string>>): (q: QueryOptions)
    ensures q.key == List(filters) && q.enabled && q.staleTime == 120000
  {
    QueryOptions(List(filters), true, ListStaleTime)
  }

  /** `useSubject(subjectId, enabled)`: `!!subjectId` is false for a missing
      id and for the id 0. */
  function SubjectQuery(subjectId: Option<int>, enabled: bool): (q: QueryOptions)
    ensures q.enabled <==> subjectId.Some? && subjectId.value != 0 && enabled
    ensures subjectId.Some? ==> q.key == Detail(subjectId.value)
    ensures subjectId.None? ==> q.key == Details() + [Undefined]
    ensures q.staleTime == 300000
  {
    QueryOptions(
      DetailKey(Root, if subjectId.Some? then Number(subjectId.value) else Undefined),
      subjectId.Some? && subjectId.value != 0 && enabled,
      DetailStaleTime)
  }

  /** The cache calls each mutation's `onSuccess` makes, in order; the
      departments' `all` key belongs to another hook and is a parameter. */
  function CreateSubjectEffects(departmentsAll: QueryKey): (effects: seq<CacheEffect>)
  {
    [CacheEffect(Invalidate, Lists()), CacheEffect(Invalidate, departmentsAll)]
  }

  function UpdateSubjectEffects(subjectId: int, departmentsAll: QueryKey): (effects: seq<CacheEffect>)
  {
    [CacheEffect(Invalidate, Lists()), CacheEffect(Invalidate, Detail(subjectId)), CacheEffect(Invalidate, departmentsAll)]
  }

  /** Creating a subject invalidates the lists and the departments and
      nothing else. */
  lemma CreateSubjectTouches(departmentsAll: QueryKey)
    ensures Touched(CreateSubjectEffects(departmentsAll), Invalidate) == {Lists(), departmentsAll}
    ensures Touched(CreateSubjectEffects(departmentsAll), SetData) == {}
    ensures Touched(CreateSubjectEffects(departmentsAll), Remove) == {}
  {
    var e := CreateSubjectEffects(departmentsAll);
    TouchedSmall(e[0], e[1], e[1], Invalidate);
    TouchedSmall(e[0], e[1], e[1], SetData);
    TouchedSmall(e[0], e[1], e[1], Remove);
  }

  /** Updating a subject also invalidates its own detail query. */
  lemma UpdateSubjectTouches(subjectId: int, departmentsAll: QueryKey)
    ensures Touched(UpdateSubjectEffects(subjectId, departmentsAll), Invalidate) == {Lists(), Detail(subjectId), departmentsAll}
    ensures Touched(UpdateSubjectEffects(subjectId, departmentsAll), SetData) == {}
    ensures Touched(UpdateSubjectEffects(subjectId, departmentsAll), Remove) == {}
  {
    var e := UpdateSubjectEffects(subjectId, departmentsAll);
    TouchedSmall(e[0], e[1], e[2], Invalidate);
    TouchedSmall(e[0], e[1], e[2], SetData);
    TouchedSmall(e[0], e[1], e[2], Remove);
  }

  /** An update marks that subject's detail query stale but, unless the
      department key reaches it, no other subject's. */
  lemma UpdateRefreshesOwnDetail(subjectId: int, other: int, departmentsAll: QueryKey)
    requires other != subjectId && !IsPrefix(departmentsAll, Detail(other))
    ensures Stale(UpdateSubjectEffects(subjectId, departmentsAll), Detail(subjectId))
    ensures !Stale(UpdateSubjectEffects(subjectId, departmentsAll), Detail(other))
  {
    UpdateSubjectTouches(subjectId, departmentsAll);
    var f: Option<map<string, string>> := None;
    KeyFamily(Root, f, f, Number(other), Number(subjectId));
    assert IsPrefix(Detail(subjectId), Detail(subjectId));
  }

  /** Subject keys and user keys are disjoint families. */
  lemma SubjectKeysAreNotUserKeys(k: QueryKey)
    requires |k| >= 1 && IsPrefix(All(), k)
    ensures !IsPrefix(AllKey("users"), k)
  {
    FamiliesDisjoint("users", Root, k);
  }
}
