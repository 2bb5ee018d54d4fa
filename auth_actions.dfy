/**
 * front-end/src/data/actions/auth.ts: `registerUserAction`, which validates
 * the sign-up form and returns a form state. It calls no service.
 */
module AuthActions {
  import opened Wrappers
  import opened Zod
  import opened FormData
  import opened ActionState
  import opened AuthValidation

  const ValidationFailedMessage: string := "유효성 검사 실패"
  const RegisteredMessage: string := "회원가입 성공"

  /** The fields object: exactly the four keys, each read with `formData.get`. */
  function SignupFields(formData: seq<Entry>): (fields: map<string, Value>)
    ensures fields.Keys == {"username", "email", "password", "confirmPassword"}
    ensures fields["username"] == Get(formData, "username") && fields["email"] == Get(formData, "email")
    ensures fields["password"] == Get(formData, "password") && fields["confirmPassword"] == Get(formData, "confirmPassword")
  {
    map["username" := Get(formData, "username"), "email" := Get(formData, "email"),
        "password" := Get(formData, "password"), "confirmPassword" := Get(formData, "confirmPassword")]
  }

  /** The validated data as an object. */
  function SignupData(v: Signup): map<string, Value> {
    map["username" := Str(v.username), "email" := Str(v.email),
        "password" := Str(v.password), "confirmPassword" := Str(v.confirmPassword)]
  }

  /** `registerUserAction(prevState, formData)`; `isEmail` is Zod's e-mail format check. */
  function RegisterUserAction(prevData: map<string, Value>, formData: seq<Entry>, isEmail: string -> bool): (s: FormState)
    ensures var fields := SignupFields(formData);
      var parsed := ParseSignup(fields, isEmail);
      && (s.success <==> SignupValid(fields, isEmail))
      && (parsed.Invalid? ==>
            s == FormState(false, ValidationFailedMessage, None, Some(parsed.fieldErrors), Merge(prevData, fields)))
      && (parsed.Valid? ==> s == FormState(true, RegisteredMessage, None, None, Merge(prevData, SignupData(parsed.data))))
  {
    var fields := SignupFields(formData);
    match ParseSignup(fields, isEmail)
    case Invalid(errors) => FormState(false, ValidationFailedMessage, None, Some(errors), Merge(prevData, fields))
    case Valid(v) => FormState(true, RegisteredMessage, None, None, Merge(prevData, SignupData(v)))
  }

  /** On success the validated data is the submitted fields themselves, so `data` always carries what was typed. */
  lemma RegisterKeepsFields(prevData: map<string, Value>, formData: seq<Entry>, isEmail: string -> bool)
    ensures RegisterUserAction(prevData, formData, isEmail).data == Merge(prevData, SignupFields(formData))
  {
    var fields := SignupFields(formData);
    var parsed := ParseSignup(fields, isEmail);
    if parsed.Valid? {
      assert SignupData(parsed.data) == fields;
    }
  }
}
