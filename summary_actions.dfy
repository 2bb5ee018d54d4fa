/**
 * front-end/src/data/actions/summary.ts: `updateSummaryAction` and
 * `deleteSummaryAction`, the form-state reducers around the summary update
 * and delete services.
 */
module SummaryActions {
  import opened Wrappers
  import opened Js
  import opened Zod
  import opened FormData
  import opened ActionState
  import opened SummaryValidation

  const ValidationFailedMessage: string := "Validation failed"
  const UpdateFailedMessage: string := "Failed to update summary."
  const UpdatedMessage: string := "Summary updated successfully!"
  const UpdateRetryPrefix: string := "Failed to update summary. Please try again. :"
  const DeleteFailedMessage: string := "Failed to delete summary."
  const DeleteRetryPrefix: string := "Failed to delete summary. Please try again. :"
  const SummariesPath: string := "/dashboard/summaries"

  /** `updateSummaryService(documentId, updateData)`: the id and the rest of the validated fields. */
  datatype UpdateCall = UpdateCall(documentId: string, updateData: map<string, string>)

  /** One run of the update action: the state it returns, the service call and the effects. */
  datatype UpdateRun = UpdateRun(state: FormState, call: Option<UpdateCall>, effects: seq<Effect>)

  /**
   * `updateSummaryAction(prevState, formData)`; `prevData` is `prevState.data`
   * (`{}` when absent) and `service` is what the update service does.
   */
  function UpdateSummaryAction(prevData: map<string, Value>, formData: seq<Entry>, service: ServiceOutcome): (r: UpdateRun)
    ensures var fields := FromEntries(formData);
      var parsed := ParseSummaryUpdate(fields);
      && r.state.data == Merge(prevData, fields)
      && (parsed.Invalid? ==>
            r == UpdateRun(FormState(false, ValidationFailedMessage, None, Some(parsed.fieldErrors), Merge(prevData, fields)), None, []))
      && (parsed.Valid? ==>
            r.call == Some(UpdateCall(parsed.data.documentId,
                                      map["title" := parsed.data.title, "content" := parsed.data.content])))
      && (parsed.Valid? && service.Responded? && TruthyOpt(service.error) ==>
            r.state == FormState(false, UpdateFailedMessage, service.error, None, Merge(prevData, fields)) && r.effects == [])
      && (parsed.Valid? && service.Raised? ==>
            r.state == FormState(false, UpdateRetryPrefix + ToJsString(service.thrown), None, None, Merge(prevData, fields))
            && r.effects == [])
      && (r.state.success <==> parsed.Valid? && service.Responded? && !TruthyOpt(service.error))
      && (r.state.success ==>
            r.state == FormState(true, UpdatedMessage, None, None, Merge(prevData, fields))
            && r.effects == [Revalidate(SummariesPath + "/" + parsed.data.documentId), Revalidate(SummariesPath)])
  {
    var fields := FromEntries(formData);
    var data := Merge(prevData, fields);
    match ParseSummaryUpdate(fields)
    case Invalid(errors) => UpdateRun(FormState(false, ValidationFailedMessage, None, Some(errors), data), None, [])
    case Valid(v) =>
      var call := UpdateCall(v.documentId, map["title" := v.title, "content" := v.content]);
      match service
      case Raised(e) => UpdateRun(FormState(false, UpdateRetryPrefix + ToJsString(e), None, None, data), Some(call), [])
      case Responded(error) =>
        if TruthyOpt(error) then UpdateRun(FormState(false, UpdateFailedMessage, error, None, data), Some(call), [])
        else
          UpdateRun(FormState(true, UpdatedMessage, None, None, data), Some(call),
                    [Revalidate(SummariesPath + "/" + v.documentId), Revalidate(SummariesPath)])
  }

  /** The service is given the validated values, never the raw submitted ones that failed the schema. */
  lemma UpdateCallIsValidated(prevData: map<string, Value>, formData: seq<Entry>, service: ServiceOutcome)
    ensures var r := UpdateSummaryAction(prevData, formData, service);
      var fields := FromEntries(formData);
      r.call.Some? ==>
        && TitleOk(Field(fields, "title")) && ContentOk(Field(fields, "content")) && DocumentIdOk(Field(fields, "documentId"))
        && r.call.value.documentId == fields["documentId"].s
        && r.call.value.updateData == map["title" := fields["title"].s, "content" := fields["content"].s]
  {
  }

  /** How the delete action ends: with a state, or by redirecting. */
  datatype DeleteResult = Returned(state: FormState) | Redirected(location: string)

  /** One run of the delete action: its result, the id passed to the delete service, and the effects. */
  datatype DeleteRun = DeleteRun(result: DeleteResult, call: Option<string>, effects: seq<Effect>)

  /** `deleteSummaryAction(prevState, formData)`. */
  function DeleteSummaryAction(prevData: map<string, Value>, formData: seq<Entry>, service: ServiceOutcome): (r: DeleteRun)
    ensures var fields := FromEntries(formData);
      var parsed := ParseSummaryDelete(fields);
      && (parsed.Invalid? ==>
            r == DeleteRun(Returned(FormState(false, ValidationFailedMessage, None, Some(parsed.fieldErrors), Merge(prevData, fields))), None, []))
      && (parsed.Valid? ==> r.call == Some(parsed.data))
      && (r.result.Returned? ==> r.result.state.data == Merge(prevData, fields) && !r.result.state.success)
      && (parsed.Valid? && service.Responded? && TruthyOpt(service.error) ==>
            r.result == Returned(FormState(false, DeleteFailedMessage, service.error, None, Merge(prevData, fields))))
      && (parsed.Valid? && service.Raised? ==>
            r.result == Returned(FormState(false, DeleteRetryPrefix + ToJsString(service.thrown), None, None, Merge(prevData, fields))))
      && (r.result.Redirected? <==> parsed.Valid? && service.Responded? && !TruthyOpt(service.error))
      && (r.result.Redirected? ==> r.result.location == SummariesPath && r.effects == [Revalidate(SummariesPath)])
      && (r.result.Returned? ==> r.effects == [])
  {
    var fields := FromEntries(formData);
    var data := Merge(prevData, fields);
    match ParseSummaryDelete(fields)
    case Invalid(errors) => DeleteRun(Returned(FormState(false, ValidationFailedMessage, None, Some(errors), data)), None, [])
    case Valid(documentId) =>
      match service
      case Raised(e) => DeleteRun(Returned(FormState(false, DeleteRetryPrefix + ToJsString(e), None, None, data)), Some(documentId), [])
      case Responded(error) =>
        if TruthyOpt(error) then DeleteRun(Returned(FormState(false, DeleteFailedMessage, error, None, data)), Some(documentId), [])
        else DeleteRun(Redirected(SummariesPath), Some(documentId), [Revalidate(SummariesPath)])
  }
}
