/** The user query hooks: the `userKeys` factory, the two queries and the
    cache effects of the four mutations. `departmentKeys.all` belongs to the
    department hooks and is a parameter. */
module UseUsers {
  import opened Common
  import opened QueryCache

  const Root: string := "users"

  function All(): (k: QueryKey) { AllKey(Root) }
  function Lists(): (k: QueryKey) { ListsKey(Root) }
  function List(filters: Option<map<string, string>>): (k: QueryKey) { ListKey(Root, filters) }
  function Details(): (k: QueryKey) { DetailsKey(Root) }
  function Detail(userId: string): (k: QueryKey) { DetailKey(Root, Text(userId)) }

  /** `userKeys`: the literal arrays, the list and detail branches, and
      the prefix facts between them. */
  lemma UserKeys(f: Option<map<string, string>>, userId: string)
    ensures All() == [Text("users")] && Lists() == [Text("users"), Text("list")]
    ensures List(f) == Lists() + [Filters(f)] && Details() == [Text("users"), Text("detail")]
    ensures Detail(userId) == Details() + [Text(userId)]
    ensures IsPrefix(Lists(), List(f)) && IsPrefix(Details(), Detail(userId))
    ensures !IsPrefix(Details(), List(f)) && !IsPrefix(Lists(), Detail(userId))
  {
    KeyFamily(Root, f, f, Text(userId), Text(userId));
  }

  /** `useUsers(filters)`. */
  function UsersQuery(filters: Option<map<string, string>>): (q: QueryOptions)
    ensures q.key == List(filters) && q.enabled && q.staleTime == 120000
  {
    QueryOptions(List(filters), true, ListStaleTime)
  }

  /** `useUser(userId, enabled)`: the detail query, running only for a
      non-empty id with `enabled` set. */
  function UserQuery(userId: Option<string>, enabled: bool): (q: QueryOptions)
    ensures q.enabled <==> userId.Some? && userId.value != "" && enabled
    ensures userId.Some? ==> q.key == Detail(userId.value)
    ensures userId.None? ==> q.key == Details() + [Undefined]
    ensures q.staleTime == 300000
  {
    QueryOptions(
      DetailKey(Root, if userId.Some? then Text(userId.value) else Undefined),
      TruthyText(userId) && enabled,
      DetailStaleTime)
  }

  /** The cache calls each mutation's `onSuccess` makes, in order; the
      departments' `all` key belongs to another hook and is a parameter. */
  function CreateUserEffects(departmentsAll: QueryKey): (effects: seq<CacheEffect>)
  {
    [CacheEffect(Invalidate, Lists()), CacheEffect(Invalidate, departmentsAll)]
  }

  function UpdateUserEffects(updatedUserId: string, departmentsAll: QueryKey): (effects: seq<CacheEffect>)
  {
    [CacheEffect(SetData, Detail(updatedUserId)), CacheEffect(Invalidate, Lists()), CacheEffect(Invalidate, departmentsAll)]
  }

  function DeleteUserEffects(deletedUserId: string, departmentsAll: QueryKey): (effects: seq<CacheEffect>)
  {
    [CacheEffect(Remove, Detail(deletedUserId)), CacheEffect(Invalidate, Lists()), CacheEffect(Invalidate, departmentsAll)]
  }

  function UploadAvatarEffects(updatedUserId: string): (effects: seq<CacheEffect>)
  {
    [CacheEffect(SetData, Detail(updatedUserId)), CacheEffect(Invalidate, Lists())]
  }

  /** Creating a user invalidates the lists and the departments and nothing
      else. */
  lemma CreateUserTouches(departmentsAll: QueryKey)
    ensures Touched(CreateUserEffects(departmentsAll), Invalidate) == {Lists(), departmentsAll}
    ensures Touched(CreateUserEffects(departmentsAll), SetData) == {}
    ensures Touched(CreateUserEffects(departmentsAll), Remove) == {}
  {
    var e := CreateUserEffects(departmentsAll);
    TouchedSmall(e[0], e[1], e[1], Invalidate);
    TouchedSmall(e[0], e[1], e[1], SetData);
    TouchedSmall(e[0], e[1], e[1], Remove);
  }

  /** Updating a user overwrites its detail entry and invalidates the lists
      and the departments. */
  lemma UpdateUserTouches(userId: string, departmentsAll: QueryKey)
    ensures Touched(UpdateUserEffects(userId, departmentsAll), Invalidate) == {Lists(), departmentsAll}
    ensures Touched(UpdateUserEffects(userId, departmentsAll), SetData) == {Detail(userId)}
    ensures Touched(UpdateUserEffects(userId, departmentsAll), Remove) == {}
  {
    var e := UpdateUserEffects(userId, departmentsAll);
    TouchedSmall(e[0], e[1], e[2], Invalidate);
    TouchedSmall(e[0], e[1], e[2], SetData);
    TouchedSmall(e[0], e[1], e[2], Remove);
  }

  /** Deleting a user removes its detail entry and invalidates the lists and
      the departments. */
  lemma DeleteUserTouches(userId: string, departmentsAll: QueryKey)
    ensures Touched(DeleteUserEffects(userId, departmentsAll), Invalidate) == {Lists(), departmentsAll}
    ensures Touched(DeleteUserEffects(userId, departmentsAll), SetData) == {}
    ensures Touched(DeleteUserEffects(userId, departmentsAll), Remove) == {Detail(userId)}
  {
    var e := DeleteUserEffects(userId, departmentsAll);
    TouchedSmall(e[0], e[1], e[2], Invalidate);
    TouchedSmall(e[0], e[1], e[2], SetData);
    TouchedSmall(e[0], e[1], e[2], Remove);
  }

  /** Uploading an avatar overwrites the detail entry and invalidates only
      the lists. */
  lemma UploadAvatarTouches(userId: string)
    ensures Touched(UploadAvatarEffects(userId), Invalidate) == {Lists()}
    ensures Touched(UploadAvatarEffects(userId), SetData) == {Detail(userId)}
    ensures Touched(UploadAvatarEffects(userId), Remove) == {}
  {
    var e := UploadAvatarEffects(userId);
    TouchedSmall(e[0], e[1], e[1], Invalidate);
    TouchedSmall(e[0], e[1], e[1], SetData);
    TouchedSmall(e[0], e[1], e[1], Remove);
  }

  /** Every user mutation marks every user list query stale, whatever its
      filters. */
  lemma MutationsRefreshLists(userId: string, departmentsAll: QueryKey, f: Option<map<string, string>>)
    ensures Stale(CreateUserEffects(departmentsAll), List(f))
    ensures Stale(UpdateUserEffects(userId, departmentsAll), List(f))
    ensures Stale(DeleteUserEffects(userId, departmentsAll), List(f))
    ensures Stale(UploadAvatarEffects(userId), List(f))
  {
    KeyFamily(Root, f, f, Undefined, Undefined);
    CreateUserTouches(departmentsAll);
    assert Lists() in Touched(CreateUserEffects(departmentsAll), Invalidate);
    UpdateUserTouches(userId, departmentsAll);
    assert Lists() in Touched(UpdateUserEffects(userId, departmentsAll), Invalidate);
    DeleteUserTouches(userId, departmentsAll);
    assert Lists() in Touched(DeleteUserEffects(userId, departmentsAll), Invalidate);
    UploadAvatarTouches(userId);
    assert Lists() in Touched(UploadAvatarEffects(userId), Invalidate);
  }

  /** An avatar upload marks no detail query stale: the detail it changes is
      overwritten in place. */
  lemma UploadKeepsDetailsFresh(userId: string, other: string)
    ensures !Stale(UploadAvatarEffects(userId), Detail(other))
  {
    KeyFamily(Root, None, None, Text(other), Text(other));
    UploadAvatarTouches(userId);
  }
}
