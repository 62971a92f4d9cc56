/**
 * The login form's validator (`LoginSchema`): an email address the platform
 * accepts and a password of 6 to 100 characters.
 */
module AuthSchema {

  import opened Common
  import opened Validation

  datatype Credentials = Credentials(email: string, password: string)

  const InvalidEmail := "Please enter a valid email address"
  const PasswordTooShort := "Password must be at least 6 characters"
  const PasswordTooLong := "Password is too long"

  function CheckEmail(p: Platform, v: Value): (r: Result<string, seq<Issue>>)
    ensures WellFormed(r)
    ensures r.Success? <==> v.Str? && p.isEmail(v.s)
    ensures r.Success? ==> r.value == v.s
    ensures v.Str? && !p.isEmail(v.s) ==> r == Failure([Issue(["email"], InvalidFormat, Text(InvalidEmail))])
  {
    match v
    case Str(s) => if p.isEmail(s) then Success(s) else Failure([Issue(["email"], InvalidFormat, Text(InvalidEmail))])
    case _ => Failure([Issue(["email"], InvalidType, LibraryText)])
  }

  function CheckPassword(v: Value): (r: Result<string, seq<Issue>>)
    ensures WellFormed(r)
    ensures r.Success? <==> v.Str? && 6 <= |v.s| <= 100
    ensures r.Success? ==> r.value == v.s
  {
    match v
    case Str(s) =>
      var issues := LengthIssues("password", s, 6, PasswordTooShort, 100, PasswordTooLong);
      if issues == [] then Success(s) else Failure(issues)
    case _ => Failure([Issue(["password"], InvalidType, LibraryText)])
  }

  /**
   * `LoginSchema.safeParse(input)`. Accepted exactly when the input is an
   * object with a string email the platform accepts and a string password of
   * 6 to 100 characters; the credentials are then those two strings.
   */
  function ParseLogin(p: Platform, input: Value): (r: Result<Credentials, seq<Issue>>)
    ensures r.Success? <==>
      && input.Obj?
      && Field(input.fields, "email").Str? && p.isEmail(Field(input.fields, "email").s)
      && Field(input.fields, "password").Str? && 6 <= |Field(input.fields, "password").s| <= 100
    ensures r.Success? ==>
      r.value == Credentials(Field(input.fields, "email").s, Field(input.fields, "password").s)
    ensures r.Failure? ==> r.error != []
  {
    if !input.Obj? then Failure([Issue([], InvalidType, LibraryText)])
    else
      var email := CheckEmail(p, Field(input.fields, "email"));
      var password := CheckPassword(Field(input.fields, "password"));
      var issues := IssuesOf(email) + IssuesOf(password);
      if issues == [] then Success(Credentials(email.value, password.value)) else Failure(issues)
  }

  /** The login object with the given email and password. */
  function LoginInput(email: string, password: string): Value {
    Obj(map["email" := Str(email), "password" := Str(password)])
  }

  /**
   * Each failed constraint is reported with the schema's message: a rejected
   * email first, then a password that is too short (code too-small) or too long.
   */
  lemma {:induction false} LoginMessages(p: Platform, email: string, password: string)
    ensures !p.isEmail(email) ==>
      ParseLogin(p, LoginInput(email, password)).Failure? &&
      ParseLogin(p, LoginInput(email, password)).error[0] == Issue(["email"], InvalidFormat, Text(InvalidEmail))
    ensures |password| < 6 ==>
      ParseLogin(p, LoginInput(email, password)).Failure? &&
      Issue(["password"], TooSmall, Text(PasswordTooShort)) in ParseLogin(p, LoginInput(email, password)).error
    ensures |password| > 100 ==>
      ParseLogin(p, LoginInput(email, password)).Failure? &&
      Issue(["password"], TooBig, Text(PasswordTooLong)) in ParseLogin(p, LoginInput(email, password)).error
    ensures p.isEmail(email) && |password| < 6 ==>
      ParseLogin(p, LoginInput(email, password)).error[0].code == TooSmall
  {
    var o := LoginInput(email, password).fields;
    assert Field(o, "email") == Str(email) && Field(o, "password") == Str(password);
  }

  /**
   * The schema's test inputs: an accepted email with "password123" passes;
   * "123" fails as too short; an empty email and password fail.
   */
  lemma LoginTestInputs(p: Platform, email: string)
    ensures p.isEmail(email) ==> ParseLogin(p, LoginInput(email, "password123")) == Success(Credentials(email, "password123"))
    ensures ParseLogin(p, LoginInput(email, "123")).Failure?
    ensures ParseLogin(p, LoginInput("", "")).Failure?
  {
    LoginMessages(p, email, "123");
    LoginMessages(p, "", "");
    var o := LoginInput(email, "password123").fields;
    assert Field(o, "email") == Str(email) && Field(o, "password") == Str("password123");
  }
}
