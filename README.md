# AulaSegura front end: the verified core

AulaSegura is a React Native (Expo) client for a school-access back end. Under
its screens sits a small core, and this project models that core in Dafny and
proves properties of it:

- **JWT session** (`ApiInterceptors`, `TokenService`). The token store keeps
  two slots, `access_token` and `refresh_token`. The request interceptor
  attaches `Bearer <token>`. On a 401 the error interceptor either refreshes
  the token or rejects:
  - it starts at most one shared refresh;
  - it retries each request at most once;
  - when the refresh succeeds, the request is resent with the new token;
  - when it fails, both tokens are removed.

  This is a class `AuthSession` with the module-level refresh handle as a
  field. Its methods are atomic steps, because JavaScript never yields
  between testing the handle and creating it.
- **HTTP service** (`ApiService`, `UserService`): the lazily created client
  singleton, `handleError`'s message choice, the `update` URL join, image-URL
  joining, the user endpoints and the multipart avatar upload.
- **Form schemas** (`UserSchema`, `SubjectSchema`): the zod schemas written
  as predicates, with the create/edit inclusion and the subject schema's
  issue list.
- **Subject edit form** (`SubjectForm`): `getChangedFields` computes the
  change set. It sorts the course ids in place with JavaScript's default
  comparator (`JsSort`). The model proves that this comparison is exactly a
  multiset comparison.
- **Query keys** (`QueryCache`, `UseUsers`, `UseSubjects`): the key
  factories, the `enabled` and `staleTime` options, and the keys each
  mutation invalidates, overwrites or removes.
- **Search boxes** (`FilterChips`, `GlobalSearch`, `SearchMenu`): the
  input-buffer key rule, the chips, the placeholders and the badge.

Shared helpers:

- `Common`: `Option` plus JavaScript truthiness of optional strings.
- `JsText`: ECMAScript `trim`, `startsWith`, `includes`, and the decimal
  text of numbers.
- `JsSort`: `Array.prototype.sort()` without a comparator. It orders numbers
  by their decimal text, so `[10, 9]` stays as it is. The model proves this
  order total, antisymmetric and transitive, so the sorted permutation of a
  list is unique.

All `.dfy` files are in `src/` and are verified together.

## Model

| member | source | states |
|---|---|---|
| JsText.TrimStart | src/components/GlobalSearch.tsx:22 | the result is a suffix of the input; what was dropped is all white space; the result is empty or starts with a non-white-space character |
| JsText.TrimEnd | src/components/GlobalSearch.tsx:22 | mirror of TrimStart at the end of the string |
| JsText.Trim | src/components/GlobalSearch.tsx:22 | the result sits in the input between a white-space-only prefix and a white-space-only suffix, and is empty or starts and ends with a non-white-space character |
| JsText.TrimEmptyIffBlank | src/schemas/user.schema.ts:29 | `s.trim()` is empty exactly when every character of `s` is JavaScript white space |
| JsText.Decimal | src/services/userService.ts:38-39 | the decimal text of a number is a non-empty digit string, of two or more digits exactly when the number is at least 10 |
| JsText.DecimalDenotes | src/services/userService.ts:38-39 | the decimal text has no leading zero and, read as digits, denotes the number |
| JsText.DecimalInjective | src/components/SubjectForm/index.tsx:64-65 | distinct numbers have distinct decimal texts (each text denotes its number), so converting ids to strings for sorting loses nothing |
| JsText.IncludesIff | src/services/apiInterceptors.ts:85-88 | `includes` holds exactly when the needle occurs at some offset |
| JsText.IncludesCharIff | src/components/GlobalSearch.tsx:55 | `includes(':')` holds exactly when `:` is one of the characters |
| JsText.IncludesNeedsChar | src/services/apiInterceptors.ts:85-88 | a text missing some character of the needle does not include it |
| JsSort.LexTotal | src/components/SubjectForm/index.tsx:64-65 | code-unit order on strings is total |
| JsSort.LexAntisymmetric | src/components/SubjectForm/index.tsx:64-65 | code-unit order on strings is antisymmetric |
| JsSort.LexTransitive | src/components/SubjectForm/index.tsx:64-65 | code-unit order on strings is transitive |
| JsSort.IdLeTotal | src/components/SubjectForm/index.tsx:64-65 | of any two ids, one sorts before the other under the default comparator |
| JsSort.IdLeAntisymmetric | src/components/SubjectForm/index.tsx:64-65 | two ids that each sort before the other are equal |
| JsSort.IdLeTransitive | src/components/SubjectForm/index.tsx:64-65 | the default comparator's order on ids is transitive |
| JsSort.SortedHeadFirst | src/components/SubjectForm/index.tsx:64-65 | in a sorted list the first element precedes every element |
| JsSort.SortedHeadsEqual | src/components/SubjectForm/index.tsx:64-65 | two sorted lists with the same multiset start with the same element |
| JsSort.SortedPermutationUnique | src/components/SubjectForm/index.tsx:64-65 | two sorted lists with the same multiset are equal |
| JsSort.SortedCompareIsMultisetCompare | src/components/SubjectForm/index.tsx:64-66 | the sorted forms of two lists are equal iff the lists are equal as multisets |
| JsSort.SortInPlace | src/components/SubjectForm/index.tsx:65 | `a.sort()` leaves the array a sorted permutation of its old contents |
| TokenService.StorageKeysDistinct | src/services/tokenService.ts:52-53 | the two slots have distinct keys |
| TokenService.PresentIsTruthy | src/services/tokenService.ts:42-45 | "non-null and not empty" is JavaScript truthiness of the value |
| TokenService.TokenStore.Save | src/services/tokenService.ts:15-22 | writes the slot; on a storage fault nothing changes and the result is "Failed to save token" |
| TokenService.TokenStore.Get | src/services/tokenService.ts:24-31 | the stored value, `null` when absent; a fault yields `null`, never an error |
| TokenService.TokenStore.Remove | src/services/tokenService.ts:33-40 | deletes the slot; on a fault nothing changes and the result is "Failed to remove token" |
| TokenService.TokenStore.Has | src/services/tokenService.ts:42-45 | true iff no fault and the slot holds a non-empty string |
| TokenService.TokenStore.SaveTokens | src/services/tokenService.ts:69-71 | each slot holds its new token unless its own save faults; other keys are unchanged; rejects if either save faults |
| TokenService.TokenStore.RemoveTokens | src/services/tokenService.ts:73-75 | each slot is absent unless its own removal faults; other keys are unchanged |
| TokenService.SaveGetRemoveScenario | src/services/tokenService.ts:15-36 | `save` then `get` returns the token, the other slot is untouched, `remove` then `get` returns `null` |
| ApiInterceptors.IsAuthEndpoint | src/services/apiInterceptors.ts:85-88 | a request is an auth endpoint iff its URL is present and one of the three auth routes occurs in it at some offset |
| ApiInterceptors.EntersRefreshPath | src/services/apiInterceptors.ts:84-90 | the refresh condition: a 401, a known config, a URL that is no auth endpoint and `_retry` unset; ErrorInterceptor's contract states that the interceptor enters the refresh path exactly under it, and RegisterIsNotAuthEndpoint and CreateUserUnauthorizedRefreshes evaluate it |
| ApiInterceptors.RefreshResult | src/services/apiInterceptors.ts:15-45 | a token results iff the stored refresh token is truthy, the back end issues a pair and neither save faults; the token is then the issued access token |
| ApiInterceptors.Resume | src/services/apiInterceptors.ts:102-114 | a waiter with a truthy token is resent with `Bearer <token>`; without one it is rejected; other requests and every URL and `_retry` flag are untouched |
| ApiInterceptors.AuthSession.AuthInterceptor | src/services/apiInterceptors.ts:48-61 | returns the config, with `Authorization: Bearer <token>` iff the stored access token is a non-empty string; a read fault leaves the config unchanged |
| ApiInterceptors.AuthSession.Issue | src/services/apiInterceptors.ts:48-61 | a new request goes on the wire with the header the request interceptor sets; the handle and counters are unchanged |
| ApiInterceptors.AuthSession.Answer | src/services/apiService.ts:32-35 | a successful response marks the request answered and changes nothing else |
| ApiInterceptors.AuthSession.ErrorInterceptor | src/services/apiInterceptors.ts:64-115 | enters the refresh path iff the status is 401, the config exists, the URL contains no auth route and `_retry` is unset. On entry `_retry` is set, the request waits, and a refresh is started only if none is in flight. Otherwise the error is rejected and nothing else changes. The session invariant (at most one refresh outstanding, each request through the refresh path at most once) is kept |
| ApiInterceptors.AuthSession.RefreshAccessToken | src/services/apiInterceptors.ts:15-45 | resolves to `RefreshResult`; on success the store holds the issued pair; otherwise both slots are removed (those whose removal does not fault) |
| ApiInterceptors.AuthSession.RefreshSettles | src/services/apiInterceptors.ts:94-108 | the handle is cleared on success and failure alike; every waiter is resumed with the one outcome; no request is left waiting; the invariant is kept |
| ApiInterceptors.AuthRouteMatchedAnywhere | src/services/apiInterceptors.ts:85-88 | a URL containing an auth route at any position is an auth endpoint |
| ApiInterceptors.RegisterIsNotAuthEndpoint | src/services/userService.ts:21 | `/auth/register` is not an auth endpoint, so a 401 on it enters the refresh path |
| ApiInterceptors.ConcurrentUnauthorizedShareOneRefresh | src/services/apiInterceptors.ts:94-107 | two 401s on a non-auth URL share one refresh; both requests are resent with the issued access token, and the store holds the issued pair |
| ApiInterceptors.FailedRefreshLogsOut | src/services/apiInterceptors.ts:39-44 | from any store, a failed refresh removes both tokens and rejects the waiting request |
| ApiInterceptors.AuthRouteUnauthorizedNeverRefreshes | src/services/apiInterceptors.ts:85-90 | a 401 from any URL containing an auth route is rejected without a refresh |
| ApiInterceptors.SecondUnauthorizedIsRejected | src/services/apiInterceptors.ts:90-91 | a second 401 on a retried request is rejected and starts no second refresh |
| ApiService.ConfiguredUrl | src/constants.ts:8-9 | the environment value when it is a non-empty string, the default otherwise |
| ApiService.ApiClient.constructor | src/services/apiService.ts:20-35 | the client's base URL, 10 s timeout, JSON content type and attached interceptors |
| ApiService.ApiInstanceHolder.GetApiInstance | src/services/apiService.ts:18-38 | the first call creates the client; every later call returns that same object |
| ApiService.SingletonScenario | src/services/apiService.ts:18-38 | two calls return the same client, configured by the first call |
| ApiService.JoinComma | src/services/apiService.ts:46-47 | the comma-joined text starts with the first item, and is empty exactly for no items or one empty item |
| ApiService.HandleError | src/services/apiService.ts:41-51 | an axios error becomes a new error whose message is the first truthy one of the response message (a string, or an array joined with commas), the error message and "An error occurred"; anything else is rethrown unchanged; the message is empty exactly when the response message is an empty array or an array of one empty string |
| ApiService.Settle | src/services/apiService.ts:56-97 | a request method yields the response data, or what `handleError` throws |
| ApiService.Update | src/services/apiService.ts:100-102 | a PATCH whose path is the URL, one `/`, then the id's text |
| ApiService.GetImageUrl | src/services/apiService.ts:116-118 | the image server origin, then the path, with exactly one `/` between them |
| ApiService.ImageUrlSlashNotDoubled | src/services/apiService.ts:117 | `getImageUrl("/" + q) == getImageUrl(q)` when `q` has no leading slash |
| UserService.UserPath | src/services/userService.ts:16 | `/users/` followed by the user id |
| UserService.UserPathInjective | src/services/userService.ts:16 | distinct users have distinct paths |
| UserService.GetAllUsers | src/services/userService.ts:10-12 | GET `/users`, as UserEndpoints states |
| UserService.GetUserById | src/services/userService.ts:15-17 | GET `/users/<id>`, as UserEndpoints states |
| UserService.CreateUser | src/services/userService.ts:20-22 | POST `/auth/register`, as UserEndpoints states; CreateUserUnauthorizedRefreshes shows a 401 on it starts a refresh |
| UserService.UpdateUser | src/services/userService.ts:25-27 | PATCH `/users/<id>`, as UserEndpoints states |
| UserService.DeleteUser | src/services/userService.ts:30-32 | DELETE `/users/<id>`, as UserEndpoints states |
| UserService.UserEndpoints | src/services/userService.ts:10-32 | listing gets `/users`; get, update and delete address `/users/<id>` with GET, PATCH and DELETE; create posts to `/auth/register` |
| UserService.CreateUserUnauthorizedRefreshes | src/services/userService.ts:21 | a 401 on `createUser` enters the token-refresh path |
| UserService.AfterLastDot | src/services/userService.ts:37 | the result is a dot-free suffix of the file name, preceded by a dot unless it is the whole name |
| UserService.ExtensionOfDotlessName | src/services/userService.ts:37 | a name without a dot is its own extension |
| UserService.ExtensionAfterDot | src/services/userService.ts:37 | a name with a dot is a stem, a dot, then the extension |
| UserService.UploadAvatar | src/services/userService.ts:35-49 | POST to `/users/<id>/upload-avatar` as `multipart/form-data`, with exactly the entries `file` then `filename = avatar_<id>_<time>.<ext>` |
| UserSchema.RoleValues | src/types/User.ts:4-9 | the enum check accepts exactly the four role values, which are pairwise distinct |
| UserSchema.RolesAreRoleNames | src/schemas/user.schema.ts:23-24 | accepted roles are a non-empty list of `RoleName` values |
| UserSchema.ContainsInRange | src/schemas/user.schema.ts:11-22 | `/[lo-hi]/.test(s)` holds iff some character lies in the range |
| UserSchema.CreatePasswordRule | src/schemas/user.schema.ts:9-22 | a create password is accepted iff it has 8 or more characters, an ASCII capital, a lower-case letter and a digit |
| UserSchema.EditPasswordIsEmptyOrStrong | src/schemas/user.schema.ts:50-66 | an edit password is accepted iff it is empty or passes the create rules |
| UserSchema.ValidToRule | src/schemas/user.schema.ts:27-31 | a `validTo` string is accepted iff it is not all white space; `null` is accepted |
| UserSchema.CreateAccepts | src/schemas/user.schema.ts:5-43 | the create schema's acceptance, the field rules jointly with the teacher refinement; CreatePasswordRule, ShortFieldsRejected, ValidToRule, CreateIsEditWithPassword and DepartmentRule state what it accepts |
| UserSchema.EditAccepts | src/schemas/user.schema.ts:46-88 | the edit schema's acceptance, the same rules with the password optional; EditPasswordIsEmptyOrStrong, CreateIsEditWithPassword, SchemasDifferOnlyInPassword and DepartmentRule state what it accepts |
| UserSchema.ShortFieldsRejected | src/schemas/user.schema.ts:6-7 | a name or last name under two characters, an empty avatar or no role is rejected in both modes |
| UserSchema.CreateIsEditWithPassword | src/schemas/user.schema.ts:5-87 | create-accepted implies edit-accepted; create-accepted iff edit-accepted with a non-empty password |
| UserSchema.SchemasDifferOnlyInPassword | src/schemas/user.schema.ts:5-87 | an edit-accepted record with any strong password is create-accepted |
| UserSchema.DepartmentRule | src/schemas/user.schema.ts:32-43 | a teacher without a department is rejected in both modes; without the teacher role the department does not matter |
| SubjectSchema.Accepts | src/schemas/subject.schema.ts:8-13 | the four field rules jointly; AcceptedIffNoIssues ties it to the reported issues and Parse to the parsed data |
| SubjectSchema.BoundIssues | src/schemas/subject.schema.ts:9-10 | a length-bounded field reports no issue iff its length is within bounds; a value under the minimum reports the short message, one over the maximum the long one; every issue is for that field and only when out of bounds |
| SubjectSchema.CheckIssue | src/schemas/subject.schema.ts:11-12 | a single-check field reports its issue exactly when the check fails |
| SubjectSchema.Issues | src/schemas/subject.schema.ts:8-13 | each failing rule reports its own field and message, and every reported issue names a field whose rule fails |
| SubjectSchema.AcceptedIffNoIssues | src/schemas/subject.schema.ts:8-13 | a record is accepted iff no issue is reported, i.e. iff the code has 1 to 50 characters, the name 3 to 200, a department is set and at least one course is chosen |
| SubjectSchema.Parse | src/schemas/subject.schema.ts:8-15 | parsing yields data iff the record is accepted, and the data carries the same values |
| SubjectSchema.ParseRoundTrip | src/schemas/subject.schema.ts:8-15 | valid data, read back as form values, parses to itself |
| SubjectForm.CourseIdsOf | src/components/SubjectForm/index.tsx:44 | the subject's course ids, one per course, in order |
| SubjectForm.DefaultValues | src/components/SubjectForm/index.tsx:39-51 | editing a subject starts from its values; otherwise `""`, `""`, undefined and `[]` |
| SubjectForm.CreateDefaultsRejected | src/components/SubjectForm/index.tsx:46-51 | the empty create form fails all four schema rules |
| SubjectForm.Whole | src/components/SubjectForm/index.tsx:56 | the whole data as a change set sets every key to the data's own value |
| SubjectForm.ChangesAgainst | src/components/SubjectForm/index.tsx:58-70 | the change set of `getChangedFields` with a subject; ChangesAreMinimalAndComplete states that it sets exactly the differing keys and restores the data when applied, and GetChangedFields is proved to return it |
| SubjectForm.Apply | src/components/SubjectForm/index.tsx:58-70 | a change set overriding the keys it sets, the reading under which ChangesAreMinimalAndComplete states completeness |
| SubjectForm.UnchangedYieldsNoChanges | src/components/SubjectForm/index.tsx:58-70 | data equal to the subject (course ids in any order) gives an empty change set |
| SubjectForm.EditDefaultsYieldNoChanges | src/components/SubjectForm/index.tsx:39-70 | submitting the edit form's defaults unchanged gives an empty change set |
| SubjectForm.ChangesAreMinimalAndComplete | src/components/SubjectForm/index.tsx:58-70 | a key is set iff its value differs (course ids as multisets), and applying the change set to the subject restores the data |
| SubjectForm.GetChangedFields | src/components/SubjectForm/index.tsx:55-71 | without a subject, the data unchanged; with one, the array is left a sorted permutation of itself and the result is the minimal change set |
| SubjectForm.CourseIdsChanged | src/components/SubjectForm/index.tsx:64-68 | sorts the array in place into a sorted permutation, and answers whether the ids differ from the subject's as multisets |
| SubjectForm.HandleFormSubmit | src/components/SubjectForm/index.tsx:74-81 | edit mode with a subject submits the change set; otherwise the whole data, untouched |
| SubjectForm.ButtonLabel | src/components/SubjectForm/index.tsx:83 | "Crear Asignatura" in create mode, "Actualizar Asignatura" in edit mode |
| SubjectForm.ThreeCourseIds | src/components/SubjectForm/index.tsx:64 | the ids of a subject with three courses, in course order |
| SubjectForm.ReorderedCoursesScenario | src/components/SubjectForm/index.tsx:64-68 | submitting a subject's three course ids in reverse order, with every other field unchanged, gives an empty change set and leaves the ids sorted |
| QueryCache.KeyFamily | src/hooks/queries/useUsers.ts:11-17 | `all` prefixes every key, `lists()` every list key and `details()` every detail key; the branches are disjoint; keys determine their filters and ids |
| QueryCache.FamiliesDisjoint | src/hooks/queries/useSubjects.ts:12 | key families with different roots never prefix each other's keys |
| QueryCache.Touched | src/hooks/queries/useUsers.ts:45-51 | a key is reached by an operation iff some effect applies that operation to it |
| UseUsers.UserKeys | src/hooks/queries/useUsers.ts:11-17 | the literal user keys and their prefix facts |
| UseUsers.UsersQuery | src/hooks/queries/useUsers.ts:20-26 | the list query: key `list(filters)`, stale after 120000 ms |
| UseUsers.UserQuery | src/hooks/queries/useUsers.ts:29-36 | the detail query runs iff the id is non-empty and `enabled`; stale after 300000 ms |
| UseUsers.CreateUserEffects | src/hooks/queries/useUsers.ts:45-51 | the cache calls of `useCreateUser`'s `onSuccess`; CreateUserTouches states the keys they reach |
| UseUsers.UpdateUserEffects | src/hooks/queries/useUsers.ts:63-72 | the cache calls of `useUpdateUser`'s `onSuccess`; UpdateUserTouches states the keys they reach |
| UseUsers.DeleteUserEffects | src/hooks/queries/useUsers.ts:83-92 | the cache calls of `useDeleteUser`'s `onSuccess`; DeleteUserTouches states the keys they reach |
| UseUsers.UploadAvatarEffects | src/hooks/queries/useUsers.ts:104-110 | the cache calls of `useUploadAvatar`'s `onSuccess`; UploadAvatarTouches states the keys they reach |
| UseUsers.CreateUserTouches | src/hooks/queries/useUsers.ts:45-51 | create invalidates the lists and the department keys, nothing else |
| UseUsers.UpdateUserTouches | src/hooks/queries/useUsers.ts:63-72 | update overwrites the user's detail and invalidates the lists and department keys |
| UseUsers.DeleteUserTouches | src/hooks/queries/useUsers.ts:83-92 | delete removes the user's detail and invalidates the lists and department keys |
| UseUsers.UploadAvatarTouches | src/hooks/queries/useUsers.ts:104-110 | upload overwrites the detail and invalidates only the lists |
| UseUsers.MutationsRefreshLists | src/hooks/queries/useUsers.ts:45-110 | every mutation marks every list query stale, whatever its filters |
| UseUsers.UploadKeepsDetailsFresh | src/hooks/queries/useUsers.ts:104-110 | an avatar upload marks no detail query stale |
| UseSubjects.SubjectKeys | src/hooks/queries/useSubjects.ts:11-17 | the literal subject keys and their prefix facts |
| UseSubjects.SubjectsQuery | src/hooks/queries/useSubjects.ts:20-26 | the list query: key `list(filters)`, stale after 120000 ms |
| UseSubjects.SubjectQuery | src/hooks/queries/useSubjects.ts:29-36 | the detail query runs iff the id is present and not 0 and `enabled`; stale after 300000 ms |
| UseSubjects.CreateSubjectEffects | src/hooks/queries/useSubjects.ts:44-49 | the cache calls of `useCreateSubject`'s `onSuccess`; CreateSubjectTouches states the keys they reach |
| UseSubjects.UpdateSubjectEffects | src/hooks/queries/useSubjects.ts:60-66 | the cache calls of `useUpdateSubject`'s `onSuccess`; UpdateSubjectTouches states the keys they reach |
| UseSubjects.CreateSubjectTouches | src/hooks/queries/useSubjects.ts:44-49 | create invalidates the lists and the department keys, nothing else |
| UseSubjects.UpdateSubjectTouches | src/hooks/queries/useSubjects.ts:60-66 | update invalidates the lists, the subject's detail and the department keys |
| UseSubjects.UpdateRefreshesOwnDetail | src/hooks/queries/useSubjects.ts:60-66 | an update marks its own subject's detail stale and, unless the department key `departmentKeys.all` is a prefix of it, no other subject's detail |
| UseSubjects.SubjectKeysAreNotUserKeys | src/hooks/queries/useSubjects.ts:11-12 | no subject key lies under the user keys |
| FilterChips.OnKeyPress | src/components/GlobalSearch.tsx:16-27 | the key's default is prevented iff it is Enter or a comma |
| FilterChips.SubmitAddsFilter | src/components/GlobalSearch.tsx:20-26 | Enter or a comma on a non-blank buffer adds the untrimmed buffer and clears it |
| FilterChips.SubmitOnBlankDoesNothing | src/components/GlobalSearch.tsx:22-26 | on a blank buffer nothing is added and the buffer stays |
| FilterChips.OtherKeysDoNothing | src/components/GlobalSearch.tsx:20 | other keys change neither the filters nor the buffer |
| FilterChips.AddedFiltersAreNotBlank | src/components/GlobalSearch.tsx:22-24 | every added filter holds a visible character and leaves the buffer empty |
| FilterChips.ChipVariant | src/components/GlobalSearch.tsx:55 | `info` iff the filter contains `:` |
| FilterChips.Chips | src/components/GlobalSearch.tsx:51-58 | one chip per filter, in order; chip `i` shows filter `i` and closing it calls `removeFilter(i)` |
| GlobalSearch.Placeholder | src/components/GlobalSearch.tsx:69 | the hint text when no filter is active, "Agregar filtro..." otherwise |
| GlobalSearch.SearchBox.ChangeText | src/components/GlobalSearch.tsx:72 | typing replaces the buffer |
| GlobalSearch.SearchBox.HandleKeyPress | src/components/GlobalSearch.tsx:16-27 | the buffer and the calls change exactly as `OnKeyPress` says |
| GlobalSearch.SearchBox.HandleRemoveFilter | src/components/GlobalSearch.tsx:30-32 | calls `removeFilter(index)`; the buffer stays |
| GlobalSearch.TypingScenario | src/components/GlobalSearch.tsx:16-32 | a typed filter is added as typed, a comma on the empty buffer adds nothing, closing chip 0 removes index 0 |
| SearchMenu.Placeholder | src/components/SearchMenu.tsx:106 | the hint text when no filter is active, "Agregar filtro..." otherwise |
| SearchMenu.Badge | src/components/SearchMenu.tsx:58-67 | shown iff a filter is active, showing the number of filters |
| SearchMenu.Menu.ChangeText | src/components/SearchMenu.tsx:109 | typing replaces the buffer |
| SearchMenu.Menu.HandleKeyPress | src/components/SearchMenu.tsx:19-30 | the buffer and the calls change exactly as `OnKeyPress` says |
| SearchMenu.Menu.HandleRemoveFilter | src/components/SearchMenu.tsx:33-35 | calls `removeFilter(index)`; the buffer stays |
| SearchMenu.BlankInputScenario | src/components/SearchMenu.tsx:19-30 | Enter on a blank buffer and any other key change nothing |

## Left out

- Promises and real concurrency. Each interceptor step is one atomic method, and a waiter resumes when `RefreshSettles` runs. Interleavings inside `Promise.all` are not modelled: `saveTokens` and `removeTokens` run their two slot operations one after the other.
- The HTTP transport. The refresh call is a parameter `backend` mapping the refresh token to an issued pair or a failure. Responses, status codes and the resent request's own outcome are events the caller chooses.
- The resend. In the source, `axios(originalRequest)` goes through the global axios instance, so its errors never reach `errorInterceptor`. The model lets a resent request receive a further 401, which the `_retry` check then rejects. It thus admits more runs than the source, and every property holds on all of them.
- `errorInterceptor` is also registered as the request interceptor's error handler (src/services/apiService.ts:29). That path (a request that the request interceptor itself rejects) is not modelled.
- Platform storage. SecureStore and `localStorage` are one map from key to string. A fault is a boolean per call.
- TokenService.TokenStore.RemoveTokens: when a removal faults, the model states only that the slot keeps its old value. The rejection raised on the second removal's fault is folded into one `Rejected` outcome, as `Promise.all` reports only the first.
- ApiInterceptors.AuthSession.RefreshAccessToken: when both a removal faults and the refresh failed, the promise rejects rather than resolving to `null`. The model returns `None` in that case, because every waiter treats both the same way (the original error is rejected).
- ApiService.HandleError: the response body's `message` is modelled as absent, a string or an array of strings, the shapes the back end sends. It is read as untyped JSON, and numbers, objects and other values there are not modelled.
- ApiService.Update: a number id is an integer, and its text is its plain decimal digits, with a `-` when it is negative. That matches JavaScript's number-to-string conversion only for magnitudes below 1e21. Fractional ids, and the exponent form JavaScript prints from 1e21 up, are not modelled.
- Logging (`console.error`) throughout.
- `departmentKeys.all` belongs to the department hooks, which are not part of this model. It is a parameter. The value `setQueryData` stores is the server's reply and is not modelled. TanStack Query's own cache semantics (refetching, garbage collection) are not modelled beyond prefix matching for invalidation.
- zod's `.email()` check is a parameter `isEmail`. Every length bound counts Dafny characters (Unicode scalar values), whereas JavaScript counts UTF-16 code units. The two differ only for characters outside the Basic Multilingual Plane.
- UserSchema: only acceptance is modelled, not the issue messages zod reports for the user schemas. zod's order of running refinements after failed checks does not change acceptance.
- SubjectForm: course ids are non-negative integers, as database ids are. `JSON.stringify` of two number arrays is compared as sequence equality, which it is for integer arrays.
- `departmentId` in the form data is an integer. The `Subject`, `Department` and `Course` types are reduced to the fields the form reads, because `src/types/Subject.ts` is not part of this model.
- The `Date.now()` timestamp is a parameter. The uploaded file is reduced to its name.
- SearchMenu: the menu's visibility and hover state are presentation and are left out. The filter list itself belongs to the filter context, which is not part of this model. The components only read it and record their `addFilter`/`removeFilter` calls.
- Presentation code: the theme, styles, form widgets, dialogs, chips' colours, tooltips, top bar breakpoints, table rows and routing files.
