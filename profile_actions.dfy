/**
 * front-end/src/data/actions/profile.ts: `updateProfileAction`, which
 * validates the profile form, calls the profile service with the validated
 * data and returns a form state. The service call is not wrapped in a
 * `try`, so what it throws escapes the action.
 */
module ProfileActions {
  import opened Wrappers
  import opened Js
  import opened Zod
  import opened FormData
  import opened ActionState
  import opened ProfileValidation

  const ValidationFailedMessage: string := "유효성 검사 실패"
  const ServiceFailedMessage: string := "Failed to Login."
  const UpdatedMessage: string := "성공적으로 업데이트 처리되었습니다."

  /** One run: the state returned or the error that escapes, and the data given to the service. */
  datatype ProfileRun = ProfileRun(outcome: Result<FormState, Thrown>, call: Option<Profile>)

  /** `updateProfileAction(prevState, formData)`. */
  function UpdateProfileAction(prevData: map<string, Value>, formData: seq<Entry>, service: ServiceOutcome): (r: ProfileRun)
    ensures var fields := FromEntries(formData);
      var parsed := ParseProfile(fields);
      && (r.outcome.Ok? ==> r.outcome.value.data == Merge(prevData, fields) && !r.outcome.value.success)
      && (parsed.Invalid? ==>
            r == ProfileRun(Ok(FormState(false, ValidationFailedMessage, None, Some(parsed.fieldErrors), Merge(prevData, fields))), None))
      && (r.call.Some? <==> parsed.Valid?)
      && (parsed.Valid? ==> r.call == Some(parsed.data))
      && (parsed.Valid? && service.Raised? ==> r.outcome == Err(service.thrown))
      && (parsed.Valid? && service.Responded? && TruthyOpt(service.error) ==>
            r.outcome == Ok(FormState(false, ServiceFailedMessage, service.error, None, Merge(prevData, fields))))
      && (parsed.Valid? && service.Responded? && !TruthyOpt(service.error) ==>
            r.outcome == Ok(FormState(false, UpdatedMessage, None, None, Merge(prevData, fields))))
  {
    var fields := FromEntries(formData);
    var data := Merge(prevData, fields);
    match ParseProfile(fields)
    case Invalid(errors) => ProfileRun(Ok(FormState(false, ValidationFailedMessage, None, Some(errors), data)), None)
    case Valid(profile) =>
      match service
      case Raised(e) => ProfileRun(Err(e), Some(profile))
      case Responded(error) =>
        if TruthyOpt(error) then ProfileRun(Ok(FormState(false, ServiceFailedMessage, error, None, data)), Some(profile))
        else ProfileRun(Ok(FormState(false, UpdatedMessage, None, None, data)), Some(profile))
  }

  /** The service only ever receives a profile whose fields meet the schema. */
  lemma ServiceGetsValidProfile(prevData: map<string, Value>, formData: seq<Entry>, service: ServiceOutcome)
    ensures var r := UpdateProfileAction(prevData, formData, service);
      r.call.Some? ==>
        1 <= |r.call.value.firstName| <= 50 && 1 <= |r.call.value.lastName| <= 50 && 10 <= |r.call.value.bio| <= 500
  {
  }
}
