/**
 * front-end/src/data/validation/auth.ts: the sign-in and sign-up schemas. The
 * e-mail format check is Zod's own and is a parameter here.
 */
module AuthValidation {
  import opened Zod
  import opened FormData

  const IdentifierTooShortMessage: string := "사용자 이름 또는 이메일은 최소 3자 이상이어야 합니다."
  const PasswordTooShortMessage: string := "비밀번호는 최소 4자 이상이어야 합니다."
  const PasswordTooLongMessage: string := "비밀번호는 100자 이내여야 합니다."
  const UsernameTooShortMessage: string := "사용자 이름은 최소 3자 이상이어야 합니다."
  const UsernameTooLongMessage: string := "사용자 이름은 30자 이내여야 합니다."
  const UsernamePatternMessage: string := "사용자 이름은 영문자로 시작하고, 영문자, 숫자, 밑줄(_)만 포함할 수 있습니다."
  const EmailMessage: string := "유효한 이메일 주소를 입력하세요."
  const ConfirmTooShortMessage: string := "비밀번호 확인은 최소 4자 이상이어야 합니다."
  const ConfirmTooLongMessage: string := "비밀번호 확인은 100자 이내여야 합니다."
  const MismatchMessage: string := "비밀번호와 비밀번호 확인이 일치하지 않습니다."

  datatype Signin = Signin(identifier: string, password: string)

  predicate IdentifierOk(v: Value) { v.Str? && |v.s| >= 3 }
  predicate SigninPasswordOk(v: Value) { v.Str? && 6 <= |v.s| <= 100 }

  /**
   * `SigninFormSchema.safeParse(fields)`. The password must have 6 to 100
   * characters although its message speaks of 4.
   */
  function ParseSignin(fields: map<string, Value>): (r: Parsed<Signin>)
    ensures r.Valid? <==> IdentifierOk(Field(fields, "identifier")) && SigninPasswordOk(Field(fields, "password"))
    ensures r.Valid? ==> r.data == Signin(Field(fields, "identifier").s, Field(fields, "password").s)
    ensures r.Invalid? ==> r.fieldErrors.Keys <= {"identifier", "password"}
    ensures r.Invalid? ==> ("identifier" in r.fieldErrors <==> !IdentifierOk(Field(fields, "identifier")))
    ensures r.Invalid? ==> ("password" in r.fieldErrors <==> !SigninPasswordOk(Field(fields, "password")))
    ensures r.Invalid? && Field(fields, "password").Str? && |Field(fields, "password").s| < 6 ==>
      r.fieldErrors["password"] == [PasswordTooShortMessage]
    ensures r.Invalid? ==> r.fieldErrors == FieldErrors([
      ("identifier", MinIssues(Field(fields, "identifier"), 3, IdentifierTooShortMessage)),
      ("password", LengthIssues(Field(fields, "password"), 6, PasswordTooShortMessage, 100, PasswordTooLongMessage))])
  {
    var i, p := Field(fields, "identifier"), Field(fields, "password");
    var identifier := ("identifier", MinIssues(i, 3, IdentifierTooShortMessage));
    var password := ("password", LengthIssues(p, 6, PasswordTooShortMessage, 100, PasswordTooLongMessage));
    FieldErrorsOfTwo(identifier, password);
    var issues := [identifier, password];
    if NoIssues(issues) then Valid(Signin(i.s, p.s)) else Invalid(FieldErrors(issues))
  }

  /** A five-character password is refused although the message names four as the minimum. */
  lemma FiveCharacterPasswordRefused(identifier: string)
    requires |identifier| >= 3
    ensures ParseSignin(map["identifier" := Str(identifier), "password" := Str("abcde")])
         == Invalid(map["password" := [PasswordTooShortMessage]])
  {
    var pairs := [("identifier", MinIssues(Str(identifier), 3, IdentifierTooShortMessage)),
                  ("password", LengthIssues(Str("abcde"), 6, PasswordTooShortMessage, 100, PasswordTooLongMessage))];
    assert pairs[0].1 == [] && pairs[1].1 == [PasswordTooShortMessage];
    FieldErrorsSingle(pairs, 1);
  }

  predicate IsAsciiLetter(c: char) { ('a' <= c <= 'z') || ('A' <= c <= 'Z') }
  predicate IsWordChar(c: char) { IsAsciiLetter(c) || ('0' <= c <= '9') || c == '_' }

  /** `/^[a-zA-Z][a-zA-Z0-9_]*$/.test(s)`. */
  predicate UsernamePattern(s: string) {
    |s| >= 1 && IsAsciiLetter(s[0]) && forall i :: 1 <= i < |s| ==> IsWordChar(s[i])
  }

  /** The username checks: every failing one reports. */
  function UsernameIssues(v: Value): (issues: seq<string>)
    ensures issues == [] <==> v.Str? && 3 <= |v.s| <= 30 && UsernamePattern(v.s)
    ensures !v.Str? ==> issues == [NotAStringMessage(v)]
    ensures v.Str? ==> (issues ==
      (if |v.s| < 3 then [UsernameTooShortMessage] else []) + (if |v.s| > 30 then [UsernameTooLongMessage] else [])
      + (if !UsernamePattern(v.s) then [UsernamePatternMessage] else []))
  {
    match v
    case Str(s) =>
      FailedThree((|s| >= 3, UsernameTooShortMessage), (|s| <= 30, UsernameTooLongMessage),
                  (UsernamePattern(s), UsernamePatternMessage));
      Failed([(|s| >= 3, UsernameTooShortMessage), (|s| <= 30, UsernameTooLongMessage),
              (UsernamePattern(s), UsernamePatternMessage)])
    case _ => [NotAStringMessage(v)]
  }

  /** `z.email(EmailMessage)`: its message replaces every issue it reports, the type issue included. */
  function EmailIssues(v: Value, isEmail: string -> bool): (issues: seq<string>)
    ensures issues == [] <==> v.Str? && isEmail(v.s)
    ensures issues != [] ==> issues == [EmailMessage]
  {
    if v.Str? && isEmail(v.s) then [] else [EmailMessage]
  }

  datatype Signup = Signup(username: string, email: string, password: string, confirmPassword: string)

  /** Every field has the right type, so no issue stops the object-level refinement. */
  predicate AllStrings(fields: map<string, Value>) {
    Field(fields, "username").Str? && Field(fields, "email").Str?
    && Field(fields, "password").Str? && Field(fields, "confirmPassword").Str?
  }

  /** The refinement runs and fails: the two passwords differ. */
  predicate Mismatch(fields: map<string, Value>) {
    AllStrings(fields) && Field(fields, "password") != Field(fields, "confirmPassword")
  }

  /** The issues under `confirmPassword`: its own checks, then the refinement's message when it fails. */
  function ConfirmIssues(fields: map<string, Value>): (issues: seq<string>)
    ensures var c := Field(fields, "confirmPassword");
      issues == [] <==> c.Str? && 4 <= |c.s| <= 100 && !Mismatch(fields)
    ensures Mismatch(fields) ==> issues[|issues| - 1] == MismatchMessage
    ensures var c := Field(fields, "confirmPassword"); c.Str? ==> (issues ==
      (if |c.s| < 4 then [ConfirmTooShortMessage] else []) + (if |c.s| > 100 then [ConfirmTooLongMessage] else [])
      + (if Mismatch(fields) then [MismatchMessage] else []))
    ensures var c := Field(fields, "confirmPassword"); !c.Str? ==> issues == [NotAStringMessage(c)]
  {
    LengthIssues(Field(fields, "confirmPassword"), 4, ConfirmTooShortMessage, 100, ConfirmTooLongMessage)
      + (if Mismatch(fields) then [MismatchMessage] else [])
  }

  /** The issues of the sign-up object, by field, in the order Zod reports them. */
  function SignupIssues(fields: map<string, Value>, isEmail: string -> bool): (issues: seq<(string, seq<string>)>)
    ensures DistinctKeys(issues) && |issues| == 4
    ensures issues[0] == ("username", UsernameIssues(Field(fields, "username")))
    ensures issues[1] == ("email", EmailIssues(Field(fields, "email"), isEmail))
    ensures issues[2] == ("password", LengthIssues(Field(fields, "password"), 4, PasswordTooShortMessage, 100, PasswordTooLongMessage))
    ensures issues[3] == ("confirmPassword", ConfirmIssues(fields))
  {
    [("username", UsernameIssues(Field(fields, "username"))),
     ("email", EmailIssues(Field(fields, "email"), isEmail)),
     ("password", LengthIssues(Field(fields, "password"), 4, PasswordTooShortMessage, 100, PasswordTooLongMessage)),
     ("confirmPassword", ConfirmIssues(fields))]
  }

  /** What the sign-up schema accepts, stated directly. */
  predicate SignupValid(fields: map<string, Value>, isEmail: string -> bool) {
    var u, e, p, c := Field(fields, "username"), Field(fields, "email"), Field(fields, "password"), Field(fields, "confirmPassword");
    && u.Str? && 3 <= |u.s| <= 30 && UsernamePattern(u.s)
    && e.Str? && isEmail(e.s)
    && p.Str? && 4 <= |p.s| <= 100
    && c.Str? && 4 <= |c.s| <= 100
    && p == c
  }

  /** No field reports an issue exactly when the direct statement holds. */
  lemma SignupIssuesEmpty(fields: map<string, Value>, isEmail: string -> bool)
    ensures NoIssues(SignupIssues(fields, isEmail)) <==> SignupValid(fields, isEmail)
  {
    var issues := SignupIssues(fields, isEmail);
    if SignupValid(fields, isEmail) {
      assert !Mismatch(fields);
      forall i | 0 <= i < 4 ensures issues[i].1 == [] {}
    }
  }

  /** `SignupFormSchema.safeParse(fields)`, with the errors flattened. */
  function ParseSignup(fields: map<string, Value>, isEmail: string -> bool): (r: Parsed<Signup>)
    ensures r.Valid? <==> SignupValid(fields, isEmail)
    ensures r.Valid? ==> r.data == Signup(Field(fields, "username").s, Field(fields, "email").s,
                                         Field(fields, "password").s, Field(fields, "confirmPassword").s)
    ensures r.Invalid? ==> r.fieldErrors.Keys <= {"username", "email", "password", "confirmPassword"}
    ensures r.Invalid? && Mismatch(fields) ==>
      "confirmPassword" in r.fieldErrors && r.fieldErrors["confirmPassword"] == ConfirmIssues(fields)
      && r.fieldErrors["confirmPassword"][|r.fieldErrors["confirmPassword"]| - 1] == MismatchMessage
    ensures r.Invalid? ==> r.fieldErrors == FieldErrors(SignupIssues(fields, isEmail))
  {
    var issues := SignupIssues(fields, isEmail);
    SignupIssuesEmpty(fields, isEmail);
    FieldErrorsOfFour(issues[0], issues[1], issues[2], issues[3]);
    assert issues == [issues[0], issues[1], issues[2], issues[3]];
    if NoIssues(issues) then
      Valid(Signup(Field(fields, "username").s, Field(fields, "email").s,
                   Field(fields, "password").s, Field(fields, "confirmPassword").s))
    else Invalid(FieldErrors(issues))
  }

  /** Differing passwords that are otherwise valid leave exactly one error, on `confirmPassword`. */
  lemma MismatchOnConfirmPath(fields: map<string, Value>, isEmail: string -> bool)
    requires var u, e, p, c := Field(fields, "username"), Field(fields, "email"), Field(fields, "password"), Field(fields, "confirmPassword");
      && u.Str? && 3 <= |u.s| <= 30 && UsernamePattern(u.s)
      && e.Str? && isEmail(e.s)
      && p.Str? && 4 <= |p.s| <= 100
      && c.Str? && 4 <= |c.s| <= 100
      && p != c
    ensures ParseSignup(fields, isEmail) == Invalid(map["confirmPassword" := [MismatchMessage]])
  {
    var issues := SignupIssues(fields, isEmail);
    assert issues[0].1 == [] && issues[1].1 == [] && issues[2].1 == [];
    assert issues[3].1 == [MismatchMessage];
    FieldErrorsSingle(issues, 3);
  }
}
