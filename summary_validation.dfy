/**
 * front-end/src/data/validation/summary.ts: the summary update and delete
 * form schemas.
 */
module SummaryValidation {
  import opened Zod
  import opened FormData

  const TitleRequiredMessage: string := "제목은 필수 입력 항목입니다."
  const TitleTooLongMessage: string := "제목은 200자 이하로 입력해주세요."
  const ContentTooShortMessage: string := "내용은 최소 10자 이상 입력해야 합니다."
  const ContentTooLongMessage: string := "내용은 50,000자 이하로 입력해주세요."
  const DocumentIdRequiredMessage: string := "문서 ID는 필수 입력 항목입니다."

  predicate TitleOk(v: Value) { v.Str? && 1 <= |v.s| <= 200 }
  predicate ContentOk(v: Value) { v.Str? && 10 <= |v.s| <= 50000 }
  predicate DocumentIdOk(v: Value) { v.Str? && |v.s| >= 1 }

  function TitleIssues(v: Value): seq<string> { LengthIssues(v, 1, TitleRequiredMessage, 200, TitleTooLongMessage) }
  function ContentIssues(v: Value): seq<string> { LengthIssues(v, 10, ContentTooShortMessage, 50000, ContentTooLongMessage) }
  function DocumentIdIssues(v: Value): seq<string> { MinIssues(v, 1, DocumentIdRequiredMessage) }

  datatype SummaryUpdate = SummaryUpdate(title: string, content: string, documentId: string)

  /** `SummaryUpdateFormSchema.safeParse(fields)`, with the errors flattened. */
  function ParseSummaryUpdate(fields: map<string, Value>): (r: Parsed<SummaryUpdate>)
    ensures r.Valid? <==> TitleOk(Field(fields, "title")) && ContentOk(Field(fields, "content")) && DocumentIdOk(Field(fields, "documentId"))
    ensures r.Valid? ==> r.data == SummaryUpdate(Field(fields, "title").s, Field(fields, "content").s, Field(fields, "documentId").s)
    ensures r.Invalid? ==> r.fieldErrors.Keys <= {"title", "content", "documentId"}
    ensures r.Invalid? ==> ("title" in r.fieldErrors <==> !TitleOk(Field(fields, "title")))
    ensures r.Invalid? ==> ("content" in r.fieldErrors <==> !ContentOk(Field(fields, "content")))
    ensures r.Invalid? ==> ("documentId" in r.fieldErrors <==> !DocumentIdOk(Field(fields, "documentId")))
    ensures r.Invalid? && !TitleOk(Field(fields, "title")) ==> r.fieldErrors["title"] == TitleIssues(Field(fields, "title"))
    ensures r.Invalid? && !ContentOk(Field(fields, "content")) ==> r.fieldErrors["content"] == ContentIssues(Field(fields, "content"))
    ensures r.Invalid? && !DocumentIdOk(Field(fields, "documentId")) ==>
      r.fieldErrors["documentId"] == DocumentIdIssues(Field(fields, "documentId"))
  {
    var t, c, d := Field(fields, "title"), Field(fields, "content"), Field(fields, "documentId");
    var title, content, documentId := ("title", TitleIssues(t)), ("content", ContentIssues(c)), ("documentId", DocumentIdIssues(d));
    FieldErrorsOfThree(title, content, documentId);
    var issues := [title, content, documentId];
    if NoIssues(issues) then Valid(SummaryUpdate(t.s, c.s, d.s)) else Invalid(FieldErrors(issues))
  }

  /** `SummaryDeleteFormSchema.safeParse(fields)`: only a non-empty `documentId` is required. */
  function ParseSummaryDelete(fields: map<string, Value>): (r: Parsed<string>)
    ensures var d := Field(fields, "documentId");
      && (r.Valid? <==> DocumentIdOk(d))
      && (r.Valid? ==> r.data == d.s)
      && (r.Invalid? ==> r.fieldErrors == map["documentId" := DocumentIdIssues(d)])
  {
    var d := Field(fields, "documentId");
    var issues := [("documentId", DocumentIdIssues(d))];
    assert issues[0].1 == DocumentIdIssues(d);
    if NoIssues(issues) then Valid(d.s) else Invalid(FieldErrors(issues))
  }

  /** An update form whose every field fails reports a message under each of the three fields. */
  lemma EmptyUpdateForm()
    ensures ParseSummaryUpdate(map[]) ==
      Invalid(map["title" := [NotAStringMessage(Undefined)], "content" := [NotAStringMessage(Undefined)],
                  "documentId" := [NotAStringMessage(Undefined)]])
  {
    var missing := [NotAStringMessage(Undefined)];
    var title, content, documentId := ("title", missing), ("content", missing), ("documentId", missing);
    FieldErrorsAllThree(title, content, documentId);
  }

  /** The delete form ignores every field but `documentId`. */
  lemma DeleteIgnoresOtherFields(fields: map<string, Value>, key: string, v: Value)
    requires key != "documentId"
    ensures ParseSummaryDelete(fields[key := v]) == ParseSummaryDelete(fields)
  {
  }
}
