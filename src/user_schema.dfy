/** The user form schemas: which records `UserCreateSchema` and
    `UserEditSchema` accept. Each is a predicate over the raw form record; the
    e-mail check belongs to the validation library and is a parameter. */
module UserSchema {
  import opened Common
  import opened JsText

  /** The roles a user can hold, with their wire values. */
  datatype RoleName = Admin | Teacher | Janitor | SupportStaff

  function RoleValue(r: RoleName): string
  {
    match r
    case Admin => "admin"
    case Teacher => "teacher"
    case Janitor => "janitor"
    case SupportStaff => "support_staff"
  }

  /** The enum check on one array element: the string is one of the four
      role values. */
  predicate IsRoleValue(s: string)
  {
    s == "admin" || s == "teacher" || s == "janitor" || s == "support_staff"
  }

  /** The enum check accepts exactly the values of the roles, and distinct
      roles have distinct values. */
  lemma RoleValues(s: string, a: RoleName, b: RoleName)
    ensures IsRoleValue(s) <==> s in {RoleValue(Admin), RoleValue(Teacher), RoleValue(Janitor), RoleValue(SupportStaff)}
    ensures RoleValue(a) == RoleValue(b) <==> a == b
  {
  }

  /** `/[lo-hi]/.test(s)`: some character of `s` lies in the range. */
  function ContainsInRange(s: string, lo: char, hi: char): (b: bool)
    ensures b <==> exists i :: 0 <= i < |s| && lo <= s[i] <= hi
    decreases |s|
  {
    if |s| == 0 then false
    else if lo <= s[|s| - 1] <= hi then true
    else ContainsInRange(s[..|s| - 1], lo, hi)
  }

  predicate HasUpper(s: string) { ContainsInRange(s, 'A', 'Z') }
  predicate HasLower(s: string) { ContainsInRange(s, 'a', 'z') }
  predicate HasDigit(s: string) { ContainsInRange(s, '0', '9') }

  /** The create-mode password chain: `min(8)` and the three class refines. */
  predicate CreatePassword(p: string)
  {
    |p| >= 8 && HasUpper(p) && HasLower(p) && HasDigit(p)
  }

  /** The edit-mode password chain: four refines, each passing the empty
      string. */
  predicate EditPassword(p: string)
  {
    (p == "" || |p| >= 8) && (p == "" || HasUpper(p)) && (p == "" || HasLower(p)) && (p == "" || HasDigit(p))
  }

  /** A create-mode password is accepted iff it has at least eight characters
      and an ASCII upper-case letter, lower-case letter and digit. */
  lemma CreatePasswordRule(p: string)
    ensures CreatePassword(p) <==>
              |p| >= 8
              && (exists i :: 0 <= i < |p| && 'A' <= p[i] <= 'Z')
              && (exists i :: 0 <= i < |p| && 'a' <= p[i] <= 'z')
              && (exists i :: 0 <= i < |p| && '0' <= p[i] <= '9')
  {
  }

  /** An edit-mode password is accepted iff it is empty or passes every
      create-mode rule. */
  lemma EditPasswordIsEmptyOrStrong(p: string)
    ensures EditPassword(p) <==> p == "" || CreatePassword(p)
  {
  }

  /** The form record as the schemas see it; `departmentId` may be
      undefined and `validTo` may be `null`. */
  datatype UserInput = UserInput(
    name: string,
    lastname: string,
    email: string,
    password: string,
    roles: seq<string>,
    avatar: string,
    departmentId: Option<int>,
    validTo: Option<string>)

  /** `roles`: at least one element, each a role value. */
  predicate RolesValid(roles: seq<string>)
  {
    |roles| >= 1 && forall i :: 0 <= i < |roles| ==> IsRoleValue(roles[i])
  }

  /** `s` is the value of some role. */
  predicate IsValueOfSomeRole(s: string)
  {
    exists r :: RoleValue(r) == s
  }

  /** Accepted roles are a non-empty list of `RoleName` values. */
  lemma RolesAreRoleNames(roles: seq<string>)
    requires RolesValid(roles)
    ensures |roles| >= 1
    ensures forall i :: 0 <= i < |roles| ==> IsValueOfSomeRole(roles[i])
  {
    forall i | 0 <= i < |roles|
      ensures IsValueOfSomeRole(roles[i])
    {
      var s := roles[i];
      if s == "admin" { assert RoleValue(Admin) == s; }
      else if s == "teacher" { assert RoleValue(Teacher) == s; }
      else if s == "janitor" { assert RoleValue(Janitor) == s; }
      else { assert RoleValue(SupportStaff) == s; }
    }
  }

  /** `validTo`: `null`, or a string that is not empty once trimmed. */
  predicate ValidToValid(v: Option<string>)
  {
    v.None? || |Trim(v.value)| > 0
  }

  /** A date string passes iff it holds a character other than white space. */
  lemma ValidToRule(s: string)
    ensures ValidToValid(Some(s)) <==> !Blank(s)
  {
    TrimEmptyIffBlank(s);
  }

  /** The object-level refine: a teacher needs a department. */
  predicate TeacherHasDepartment(u: UserInput)
  {
    RoleValue(Teacher) in u.roles ==> u.departmentId.Some?
  }

  /** Every field rule the two schemas share. */
  predicate SharedFieldsValid(u: UserInput, isEmail: string -> bool)
  {
    |u.name| >= 2 && |u.lastname| >= 2 && isEmail(u.email)
    && RolesValid(u.roles) && |u.avatar| >= 1 && ValidToValid(u.validTo)
  }

  /** `UserCreateSchema` accepts the record. */
  predicate CreateAccepts(u: UserInput, isEmail: string -> bool)
  {
    SharedFieldsValid(u, isEmail) && CreatePassword(u.password) && TeacherHasDepartment(u)
  }

  /** `UserEditSchema` accepts the record. */
  predicate EditAccepts(u: UserInput, isEmail: string -> bool)
  {
    SharedFieldsValid(u, isEmail) && EditPassword(u.password) && TeacherHasDepartment(u)
  }

  /** A name or last name under two characters, an empty avatar or an
      empty role list is rejected in both modes. */
  lemma ShortFieldsRejected(u: UserInput, isEmail: string -> bool)
    requires |u.name| < 2 || |u.lastname| < 2 || |u.avatar| < 1 || |u.roles| == 0
    ensures !CreateAccepts(u, isEmail) && !EditAccepts(u, isEmail)
  {
  }

  /** Every record the create schema accepts, the edit schema accepts too;
      beyond that the edit schema admits only the empty password. */
  lemma CreateIsEditWithPassword(u: UserInput, isEmail: string -> bool)
    ensures CreateAccepts(u, isEmail) ==> EditAccepts(u, isEmail)
    ensures CreateAccepts(u, isEmail) <==> EditAccepts(u, isEmail) && u.password != ""
  {
    EditPasswordIsEmptyOrStrong(u.password);
  }

  /** The schemas differ only in the password rule: giving an edit-accepted
      record any strong password makes it create-accepted. */
  lemma SchemasDifferOnlyInPassword(u: UserInput, isEmail: string -> bool, p: string)
    requires EditAccepts(u, isEmail) && CreatePassword(p)
    ensures CreateAccepts(u.(password := p), isEmail)
  {
  }

  /** With a teacher among the roles, a missing department rejects the
      record in both modes; without one, the department does not matter. */
  lemma DepartmentRule(u: UserInput, isEmail: string -> bool, d: Option<int>)
    ensures "teacher" in u.roles && u.departmentId.None? ==>
              !CreateAccepts(u, isEmail) && !EditAccepts(u, isEmail)
    ensures "teacher" !in u.roles ==>
              (CreateAccepts(u, isEmail) <==> CreateAccepts(u.(departmentId := d), isEmail))
              && (EditAccepts(u, isEmail) <==> EditAccepts(u.(departmentId := d), isEmail))
  {
  }
}
