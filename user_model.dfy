/** The `User` schema of identity-service/src/models/User.ts: its fields,
    defaults, required paths, the email setters and the `Role` enum. */
module UserModel {
  import opened Wrappers
  import opened Text

  datatype Role = USER | ADMIN

  function RoleName(r: Role): string {
    match r
    case USER => "USER"
    case ADMIN => "ADMIN"
  }

  /** The schema's `enum` validator on `role`: exactly the two role names are accepted. */
  function ParseRole(s: string): (r: Option<Role>)
    ensures r.Some? <==> s == "USER" || s == "ADMIN"
    ensures r.Some? ==> RoleName(r.value) == s
  {
    if s == "USER" then Some(USER) else if s == "ADMIN" then Some(ADMIN) else None
  }

  /** The string form of a document's `_id`. */
  type UserId = string

  /** A stored user; `None` is an absent or null optional field, and the
      expiry is a time in milliseconds. */
  datatype User = User(
    firstName: string,
    lastName: Option<string>,
    email: string,
    password: string,
    role: Role,
    isVerified: bool,
    twoFactorCode: Option<string>,
    twoFactorCodeExpiry: Option<int>)

  /** The `trim` then `lowercase` setters on `email`; they run on stored
      values and on query filters alike. */
  function NormalizeEmail(e: string): (r: string)
    ensures r == ToLower(Trim(e))
    ensures NoUpper(r)
    ensures Trimmed(r)
    ensures |r| <= |e|
    ensures r == [] <==> AllSpace(e)
  {
    var t := Trim(e);
    LowerPreserves(t);
    ToLower(t)
  }

  /** A stored email holds no upper-case letter. */
  lemma NormalizedEmailIsLower(e: string)
    ensures forall i :: 0 <= i < |NormalizeEmail(e)| ==> !('A' <= NormalizeEmail(e)[i] <= 'Z')
  {
    NoUpperAt(NormalizeEmail(e));
  }

  /** A stored email passes through the setters unchanged. */
  lemma NormalizeEmailIdempotent(e: string)
    ensures NormalizeEmail(NormalizeEmail(e)) == NormalizeEmail(e)
  {
    var n := NormalizeEmail(e);
    TrimOfTrimmed(n);
    LowerPreserves(Trim(e));
  }

  /** The fields handed to `User.create`; `password` is already hashed. */
  datatype UserInput = UserInput(
    firstName: Option<string>,
    lastName: Option<string>,
    email: Option<string>,
    password: string,
    role: Option<Role>,
    twoFactorCode: Option<string>,
    twoFactorCodeExpiry: Option<int>)

  /** The required paths that are missing or empty, in schema order. */
  function MissingPaths(input: UserInput): (r: seq<string>)
    ensures r == [] <==>
      input.firstName.GetOr("") != "" && NormalizeEmail(input.email.GetOr("")) != "" && input.password != ""
  {
    (if input.firstName.GetOr("") == "" then ["firstName"] else [])
    + (if NormalizeEmail(input.email.GetOr("")) == "" then ["email"] else [])
    + (if input.password == "" then ["password"] else [])
  }

  function RequiredMessages(paths: seq<string>): string {
    if paths == [] then ""
    else if |paths| == 1 then paths[0] + ": Path `" + paths[0] + "` is required."
    else paths[0] + ": Path `" + paths[0] + "` is required., " + RequiredMessages(paths[1..])
  }

  /** Mongoose's `ValidationError` message for missing required paths. */
  function ValidationMessage(paths: seq<string>): string {
    "User validation failed: " + RequiredMessages(paths)
  }

  /** `User.create`: setters, defaults and the `required` validators. A new
      user is unverified unless stated otherwise, has role USER unless one is
      given, and stores its email trimmed and lowercased. */
  function CreateUser(input: UserInput): (r: Result<User, string>)
    ensures r.Ok? <==> MissingPaths(input) == []
    ensures r.Err? ==> r.error == ValidationMessage(MissingPaths(input))
    ensures r.Ok? ==>
      && r.value.firstName == input.firstName.value
      && r.value.lastName == input.lastName
      && r.value.email == NormalizeEmail(input.email.value)
      && r.value.password == input.password
      && r.value.role == input.role.GetOr(USER)
      && !r.value.isVerified
      && r.value.twoFactorCode == input.twoFactorCode
      && r.value.twoFactorCodeExpiry == input.twoFactorCodeExpiry
    ensures r.Ok? ==> r.value.firstName != "" && r.value.email != "" && r.value.password != ""
  {
    var missing := MissingPaths(input);
    if missing != [] then Err(ValidationMessage(missing))
    else
      Ok(User(input.firstName.value, input.lastName, NormalizeEmail(input.email.value), input.password,
              input.role.GetOr(USER), false, input.twoFactorCode, input.twoFactorCodeExpiry))
  }
}
