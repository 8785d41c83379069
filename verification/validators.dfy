/**
 * The login and signup form schemas of src/lib/validators.ts. Each schema is
 * a function from the raw form to either the normalised form or the set of
 * problems found; lengths are counted in characters.
 */
module Validators {
  import opened Types

  datatype LoginInput = LoginInput(usernameOrEmail: string, password: string)

  datatype LoginIssue = UsernameOrEmailRequired | PasswordTooShort

  const MinPassword: nat := 6

  /** LoginSchema: a non-empty username or email and a password of at least six characters. */
  function ValidateLogin(i: LoginInput): (r: Result<LoginInput, set<LoginIssue>>)
    ensures r.Ok? <==> |i.usernameOrEmail| >= 1 && |i.password| >= MinPassword
    ensures r.Ok? ==> r.value == i
    ensures r.Err? ==> r.error != {}
    ensures r.Err? ==> && (UsernameOrEmailRequired in r.error <==> |i.usernameOrEmail| < 1)
                       && (PasswordTooShort in r.error <==> |i.password| < MinPassword)
  {
    var issues := (if |i.usernameOrEmail| < 1 then {UsernameOrEmailRequired} else {})
                + (if |i.password| < MinPassword then {PasswordTooShort} else {});
    if issues == {} then Ok(i) else Err(issues)
  }

  /**
   * The raw signup form. `email` is None when the field is undefined; `role`
   * is the string the form holds.
   */
  datatype SignupInput = SignupInput(username: string, email: Option<string>, password: string, role: string)

  /** The signup form once parsed: the role is one of the two kinds, an empty email is gone. */
  datatype SignupForm = SignupForm(username: string, email: Option<string>, password: string, role: UserRole)

  datatype SignupIssue = UsernameTooShort | InvalidEmail | SignupPasswordTooShort | InvalidRole

  const MinUsername: nat := 3

  function RoleName(r: UserRole): string
  {
    match r
    case Creator => "creator"
    case Consumer => "consumer"
  }

  /** `z.enum(["creator", "consumer"])`: exactly one of the two names. */
  function ParseRole(s: string): (r: Option<UserRole>)
    ensures r.Some? <==> s == "creator" || s == "consumer"
    ensures r.Some? ==> RoleName(r.value) == s
  {
    if s == "creator" then Some(Creator)
    else if s == "consumer" then Some(Consumer)
    else None
  }

  /**
   * The email field: an email address, or absent (first alternative), or the
   * empty string, which becomes absent (second alternative). The address
   * check itself is the parameter `isEmail`.
   */
  function ParseEmail(email: Option<string>, isEmail: string -> bool): (r: Option<Option<string>>)
    ensures r.None? <==> email.Some? && !isEmail(email.value) && email.value != ""
    ensures r == Some(None) <==> email.None? || (email.value == "" && !isEmail(""))
    ensures r.Some? && r.value.Some? ==> email == r.value && isEmail(email.value)
  {
    match email
    case None => Some(None)
    case Some(s) =>
      if isEmail(s) then Some(Some(s))
      else if s == "" then Some(None)
      else None
  }

  /** SignupSchema: every field is checked and every problem reported. */
  function ValidateSignup(i: SignupInput, isEmail: string -> bool): (r: Result<SignupForm, set<SignupIssue>>)
    ensures r.Ok? <==> && |i.username| >= MinUsername && |i.password| >= MinPassword
                       && ParseEmail(i.email, isEmail).Some? && ParseRole(i.role).Some?
    ensures r.Ok? ==> && r.value.username == i.username && r.value.password == i.password
                      && RoleName(r.value.role) == i.role
                      && r.value.email == ParseEmail(i.email, isEmail).value
    ensures r.Err? ==> && (UsernameTooShort in r.error <==> |i.username| < MinUsername)
                       && (InvalidEmail in r.error <==> ParseEmail(i.email, isEmail).None?)
                       && (SignupPasswordTooShort in r.error <==> |i.password| < MinPassword)
                       && (InvalidRole in r.error <==> ParseRole(i.role).None?)
  {
    var email, role := ParseEmail(i.email, isEmail), ParseRole(i.role);
    var issues := (if |i.username| < MinUsername then {UsernameTooShort} else {})
                + (if email.None? then {InvalidEmail} else {})
                + (if |i.password| < MinPassword then {SignupPasswordTooShort} else {})
                + (if role.None? then {InvalidRole} else {});
    if issues == {} then Ok(SignupForm(i.username, email.value, i.password, role.value))
    else Err(issues)
  }

  /** The form field as the parsed value would fill it again. */
  function Unparse(f: SignupForm): SignupInput
  {
    SignupInput(f.username, f.email, f.password, RoleName(f.role))
  }

  /** Parsing is idempotent: a parsed form, written back to the fields, parses to itself. */
  lemma SignupIdempotent(i: SignupInput, isEmail: string -> bool)
    requires ValidateSignup(i, isEmail).Ok?
    ensures ValidateSignup(Unparse(ValidateSignup(i, isEmail).value), isEmail) == ValidateSignup(i, isEmail)
  {
  }

  /** An empty email is accepted and dropped, unless the address check itself accepts "". */
  lemma EmptyEmailDropped(username: string, password: string, role: UserRole, isEmail: string -> bool)
    requires |username| >= MinUsername && |password| >= MinPassword && !isEmail("")
    ensures ValidateSignup(SignupInput(username, Some(""), password, RoleName(role)), isEmail)
         == Ok(SignupForm(username, None, password, role))
  {
  }

  /** The bounds are inclusive: three characters of username and six of password are enough. */
  lemma ShortestAccepted(username: string, password: string, role: UserRole, isEmail: string -> bool)
    requires |username| == MinUsername && |password| == MinPassword
    ensures ValidateSignup(SignupInput(username, None, password, RoleName(role)), isEmail).Ok?
    ensures ValidateLogin(LoginInput(username, password)).Ok?
  {
  }
}
