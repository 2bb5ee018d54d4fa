/**
 * front-end/src/data/validation/profile.ts: the profile form schema and the
 * profile image schema.
 */
module ProfileValidation {
  import opened Zod
  import opened FormData

  const FirstNameRequiredMessage: string := "이름을 입력해주세요"
  const FirstNameTooLongMessage: string := "이름은 50자 이하로 입력해주세요"
  const LastNameRequiredMessage: string := "성을 입력해주세요"
  const LastNameTooLongMessage: string := "성은 50자 이하로 입력해주세요"
  const BioTooShortMessage: string := "자기소개는 최소 10자 이상 입력해주세요"
  const BioTooLongMessage: string := "자기소개는 500자 이하로 입력해주세요"

  predicate NameOk(v: Value) { v.Str? && 1 <= |v.s| <= 50 }
  predicate BioOk(v: Value) { v.Str? && 10 <= |v.s| <= 500 }

  datatype Profile = Profile(firstName: string, lastName: string, bio: string)

  /** `ProfileFormSchema.safeParse(fields)`, with the errors flattened. */
  function ParseProfile(fields: map<string, Value>): (r: Parsed<Profile>)
    ensures r.Valid? <==> NameOk(Field(fields, "firstName")) && NameOk(Field(fields, "lastName")) && BioOk(Field(fields, "bio"))
    ensures r.Valid? ==> r.data == Profile(Field(fields, "firstName").s, Field(fields, "lastName").s, Field(fields, "bio").s)
    ensures r.Invalid? ==> r.fieldErrors.Keys <= {"firstName", "lastName", "bio"}
    ensures r.Invalid? ==> ("firstName" in r.fieldErrors <==> !NameOk(Field(fields, "firstName")))
    ensures r.Invalid? ==> ("lastName" in r.fieldErrors <==> !NameOk(Field(fields, "lastName")))
    ensures r.Invalid? ==> ("bio" in r.fieldErrors <==> !BioOk(Field(fields, "bio")))
    ensures r.Invalid? && !NameOk(Field(fields, "firstName")) ==>
      r.fieldErrors["firstName"] == LengthIssues(Field(fields, "firstName"), 1, FirstNameRequiredMessage, 50, FirstNameTooLongMessage)
    ensures r.Invalid? && !NameOk(Field(fields, "lastName")) ==>
      r.fieldErrors["lastName"] == LengthIssues(Field(fields, "lastName"), 1, LastNameRequiredMessage, 50, LastNameTooLongMessage)
    ensures r.Invalid? && !BioOk(Field(fields, "bio")) ==>
      r.fieldErrors["bio"] == LengthIssues(Field(fields, "bio"), 10, BioTooShortMessage, 500, BioTooLongMessage)
  {
    var f, l, b := Field(fields, "firstName"), Field(fields, "lastName"), Field(fields, "bio");
    var firstName := ("firstName", LengthIssues(f, 1, FirstNameRequiredMessage, 50, FirstNameTooLongMessage));
    var lastName := ("lastName", LengthIssues(l, 1, LastNameRequiredMessage, 50, LastNameTooLongMessage));
    var bio := ("bio", LengthIssues(b, 10, BioTooShortMessage, 500, BioTooLongMessage));
    FieldErrorsOfThree(firstName, lastName, bio);
    var issues := [firstName, lastName, bio];
    if NoIssues(issues) then Valid(Profile(f.s, l.s, b.s)) else Invalid(FieldErrors(issues))
  }

  const NotAFileMessage: string := "Input not instance of File"
  const ImageMissingMessage: string := "프로필 이미지를 업로드해주세요"
  const ImageTooLargeMessage: string := "이미지 크기는 5MB 이하여야 합니다"
  const ImageTypeMessage: string := "이미지는 JPEG, PNG, WebP 형식만 가능합니다"

  /** The largest accepted image, in bytes. */
  const MaxImageSize: int := 5000000

  const AllowedImageTypes: set<string> := {"image/jpeg", "image/png", "image/webp"}

  /**
   * The issues of `z.instanceof(File).refine(...).refine(...).refine(...)`: a
   * non-file stops at the first check, the three refinements all run on a file.
   */
  function ImageIssues(v: Value): (issues: seq<string>)
    ensures issues == [] <==> v.FileObj? && 0 < v.size <= MaxImageSize && v.mimeType in AllowedImageTypes
    ensures !v.FileObj? ==> issues == [NotAFileMessage]
    ensures v.FileObj? ==> (issues ==
      (if v.size <= 0 then [ImageMissingMessage] else []) + (if v.size > MaxImageSize then [ImageTooLargeMessage] else [])
      + (if v.mimeType !in AllowedImageTypes then [ImageTypeMessage] else []))
  {
    match v
    case FileObj(size, mimeType) =>
      FailedThree((size > 0, ImageMissingMessage), (size <= MaxImageSize, ImageTooLargeMessage),
                  (mimeType in AllowedImageTypes, ImageTypeMessage));
      Failed([(size > 0, ImageMissingMessage), (size <= MaxImageSize, ImageTooLargeMessage),
              (mimeType in AllowedImageTypes, ImageTypeMessage)])
    case _ => [NotAFileMessage]
  }

  datatype ImageFile = ImageFile(size: int, mimeType: string)

  /** `ProfileImageFormSchema.safeParse(fields)`. */
  function ParseProfileImage(fields: map<string, Value>): (r: Parsed<ImageFile>)
    ensures var v := Field(fields, "image");
      && (r.Valid? <==> ImageIssues(v) == [])
      && (r.Valid? ==> r.data == ImageFile(v.size, v.mimeType))
      && (r.Invalid? ==> r.fieldErrors == map["image" := ImageIssues(v)])
  {
    var v := Field(fields, "image");
    if ImageIssues(v) == [] then Valid(ImageFile(v.size, v.mimeType)) else Invalid(map["image" := ImageIssues(v)])
  }

  /** The size bound is inclusive: a file of exactly 5,000,000 bytes of an allowed type is accepted. */
  lemma LargestImageAccepted(mimeType: string)
    requires mimeType in AllowedImageTypes
    ensures ParseProfileImage(map["image" := FileObj(MaxImageSize, mimeType)]).Valid?
  {
  }

  /** An empty GIF fails two refinements and reports both messages, in order. */
  lemma EmptyGifReportsBoth()
    ensures ImageIssues(FileObj(0, "image/gif")) == [ImageMissingMessage, ImageTypeMessage]
  {
    assert "image/gif" !in AllowedImageTypes;
  }
}
