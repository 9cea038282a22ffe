/** The user endpoints: which method and path each service call uses, and
    the multipart request `uploadAvatar` builds. */
module UserService {
  import opened Common
  import opened JsText
  import ApiService
  import ApiInterceptors

  type HttpMethod = ApiService.HttpMethod

  const UsersPath: string := "/users"
  const RegisterPath: string := "/auth/register"
  const MultipartContentType: string := "multipart/form-data"

  /** `/users/<userId>`. */
  function UserPath(userId: string): (p: string)
    ensures StartsWith(p, "/users/") && p[7..] == userId
  {
    UsersPath + "/" + userId
  }

  /** Distinct users have distinct paths. */
  lemma UserPathInjective(a: string, b: string)
    requires UserPath(a) == UserPath(b)
    ensures a == b
  {
    assert UserPath(a)[7..] == a;
  }

  /** The request each `userService` call makes: its method and path. */
  function GetAllUsers(): (call: (HttpMethod, string))
  {
    (ApiService.Get, UsersPath)
  }

  function GetUserById(userId: string): (call: (HttpMethod, string))
  {
    (ApiService.Get, UserPath(userId))
  }

  function CreateUser(): (call: (HttpMethod, string))
  {
    (ApiService.Post, RegisterPath)
  }

  function UpdateUser(userId: string): (call: (HttpMethod, string))
  {
    (ApiService.Patch, UserPath(userId))
  }

  function DeleteUser(userId: string): (call: (HttpMethod, string))
  {
    (ApiService.Delete, UserPath(userId))
  }

  /** Reading, updating and deleting a user all address `/users/<userId>`,
      each with its own method; creating one posts to `/auth/register`. */
  lemma UserEndpoints(userId: string)
    ensures GetUserById(userId).1 == UpdateUser(userId).1 == DeleteUser(userId).1 == "/users/" + userId
    ensures GetUserById(userId).0 == ApiService.Get && UpdateUser(userId).0 == ApiService.Patch
    ensures DeleteUser(userId).0 == ApiService.Delete
    ensures CreateUser() == (ApiService.Post, "/auth/register")
    ensures GetAllUsers() == (ApiService.Get, "/users")
  {
  }

  /** Because `/auth/register` is no auth route, a 401 on `createUser`
      triggers a token refresh like any other request. */
  lemma CreateUserUnauthorizedRefreshes(authorization: Option<string>)
    ensures ApiInterceptors.EntersRefreshPath(Some(401),
              Some(ApiInterceptors.RequestConfig(Some(CreateUser().1), authorization, false)))
  {
    ApiInterceptors.RegisterIsNotAuthEndpoint(CreateUser().1, authorization);
  }

  /** `name.split('.').pop()`: the text after the last `.`, or the whole
      name when it has none. */
  function AfterLastDot(name: string): (ext: string)
    ensures |ext| <= |name| && ext == name[|name| - |ext|..]
    ensures forall i :: 0 <= i < |ext| ==> ext[i] != '.'
    ensures |ext| < |name| ==> name[|name| - |ext| - 1] == '.'
    decreases |name|
  {
    if |name| == 0 || name[|name| - 1] == '.' then ""
    else AfterLastDot(name[..|name| - 1]) + [name[|name| - 1]]
  }

  /** A name without a dot is its own extension. */
  lemma ExtensionOfDotlessName(name: string)
    requires forall i :: 0 <= i < |name| ==> name[i] != '.'
    ensures AfterLastDot(name) == name
  {
  }

  /** With a dot, the name is a stem, a dot and the extension. */
  lemma ExtensionAfterDot(name: string)
    requires exists i :: 0 <= i < |name| && name[i] == '.'
    ensures var ext := AfterLastDot(name);
            |ext| < |name| && name == name[..|name| - |ext| - 1] + "." + ext
  {
    var ext := AfterLastDot(name);
    var i :| 0 <= i < |name| && name[i] == '.';
  }

  /** The picked file (only its name matters here). */
  datatype File = File(name: string)

  /** One entry of a `FormData`. */
  datatype FormEntry = FileEntry(field: string, file: File) | TextEntry(field: string, text: string)

  /** The request `uploadAvatar` hands to the HTTP service. */
  datatype Upload = Upload(verb: HttpMethod, path: string, form: seq<FormEntry>, contentType: string)

  /** `uploadAvatar(userId, file)` at time `now` (`Date.now()`): appends the
      file, then the name `avatar_<userId>_<now>.<ext>`, and posts the form
      as multipart data to `/users/<userId>/upload-avatar`. */
  method UploadAvatar(userId: string, file: File, now: nat) returns (upload: Upload)
    ensures upload.verb == ApiService.Post
    ensures upload.path == "/users/" + userId + "/upload-avatar"
    ensures upload.contentType == MultipartContentType
    ensures upload.form == [FileEntry("file", file),
                            TextEntry("filename", "avatar_" + userId + "_" + Decimal(now) + "." + AfterLastDot(file.name))]
  {
    var formData: seq<FormEntry> := [];
    var fileExtension := AfterLastDot(file.name);
    var filename := "avatar_" + userId + "_" + Decimal(now) + "." + fileExtension;
    formData := formData + [FileEntry("file", file)];
    formData := formData + [TextEntry("filename", filename)];
    upload := Upload(ApiService.Post, UserPath(userId) + "/upload-avatar", formData, MultipartContentType);
  }
}
