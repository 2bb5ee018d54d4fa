/**
 * front-end/src/data/services/summary/generate-transcript.ts: turning the video
 * information and caption segments returned by the YouTube client into the
 * transcript data, with the per-language fallback to an empty transcript.
 * The YouTube client itself is not modelled: its answers are parameters.
 */
module Transcript {
  import opened Wrappers
  import opened Strings
  import opened Js

  /** A caption segment as the YouTube client returns it (times in milliseconds, as strings). */
  datatype YouTubeSegment = YouTubeSegment(text: string, startMs: string, endMs: string)

  /** A processed segment: times parsed with `Number`, `duration` their difference. */
  datatype TranscriptSegment = TranscriptSegment(text: string, start: Num, end: Num, duration: Num)

  function ProcessSegment(s: YouTubeSegment): TranscriptSegment {
    TranscriptSegment(s.text, Number(s.startMs), Number(s.endMs), Sub(Number(s.endMs), Number(s.startMs)))
  }

  /** `processTranscriptSegments(segments)`. */
  function ProcessTranscriptSegments(segs: seq<YouTubeSegment>): (r: seq<TranscriptSegment>)
    ensures |r| == |segs|
    ensures forall i :: 0 <= i < |segs| ==>
      r[i].text == segs[i].text && r[i].start == Number(segs[i].startMs) && r[i].end == Number(segs[i].endMs)
    ensures forall i :: 0 <= i < |r| ==> r[i].duration == Sub(r[i].end, r[i].start)
  {
    seq(|segs|, i requires 0 <= i < |segs| => ProcessSegment(segs[i]))
  }

  /** For millisecond strings of digits, the duration is the arithmetic difference. */
  lemma DurationOfDigitTimes(s: YouTubeSegment)
    requires s.startMs != "" && AllDigits(s.startMs) && s.endMs != "" && AllDigits(s.endMs)
    ensures ProcessSegment(s).duration == Finite(DigitsValue(s.endMs) - DigitsValue(s.startMs))
  {
  }

  /** `cleanImageUrl(url)`: `url.split("?")[0]`. */
  function CleanImageUrl(url: string): (r: string)
    ensures r <= url && '?' !in r
    ensures '?' !in url ==> r == url
    ensures '?' in url ==> |r| < |url| && url[|r|] == '?'
  {
    SplitHead(url, '?');
    Split(url, '?')[0]
  }

  /** Cleaning a cleaned URL changes nothing. */
  lemma CleanImageUrlIdempotent(url: string)
    ensures CleanImageUrl(CleanImageUrl(url)) == CleanImageUrl(url)
  {
  }

  const InvalidIdentifierMessage: string := "잘못된 YouTube 비디오 식별자"
  const VideoNotFoundMessage: string := "동영상 정보를 찾을 수 없습니다."
  const NoTranscriptMessage: string := "이 영상에 대한 대본이 없습니다."
  const TranscriptFailedMessage: string := "대본을 가져오지 못했습니다."
  const UntitledVideo: string := "Untitled Video"

  /** `validateIdentifier(identifier)`: the message it throws, if any. */
  function ValidateIdentifier(identifier: string): (err: Option<string>)
    ensures err.Some? <==> identifier == ""
    ensures err.Some? ==> err.value == InvalidIdentifierMessage
  {
    if identifier == "" then Some(InvalidIdentifierMessage) else None
  }

  datatype Thumbnail = Thumbnail(url: string)

  /** `info.basic_info`: title and thumbnails may be missing. */
  datatype BasicInfo = BasicInfo(title: Option<string>, id: string, thumbnail: Option<seq<Thumbnail>>)

  datatype VideoBasics = VideoBasics(title: string, videoId: string, thumbnailUrl: Option<string>)

  /** `thumbnail?.[0]?.url`, with `None` for `undefined`. */
  function FirstThumbnailUrl(t: Option<seq<Thumbnail>>): Option<string> {
    if t.Some? && |t.value| > 0 then Some(t.value[0].url) else None
  }

  /** `extractBasicInfo(info)`. */
  function ExtractBasicInfo(info: BasicInfo): (b: VideoBasics)
    ensures info.title.None? || info.title.value == "" ==> b.title == UntitledVideo
    ensures info.title.Some? && info.title.value != "" ==> b.title == info.title.value
    ensures b.videoId == info.id
    ensures b.thumbnailUrl.Some? <==>
      info.thumbnail.Some? && |info.thumbnail.value| > 0 && info.thumbnail.value[0].url != ""
    ensures b.thumbnailUrl.Some? ==>
      b.thumbnailUrl.value == CleanImageUrl(info.thumbnail.value[0].url) && '?' !in b.thumbnailUrl.value
  {
    var thumbnailUrl := FirstThumbnailUrl(info.thumbnail);
    VideoBasics(
      if info.title.Some? && info.title.value != "" then info.title.value else UntitledVideo,
      info.id,
      if thumbnailUrl.Some? && thumbnailUrl.value != "" then Some(CleanImageUrl(thumbnailUrl.value)) else None)
  }

  /**
   * What `info.getTranscript()` gives: a thrown error, or a response whose chain
   * `transcript.content.body.initial_segments` is present or not (`None`).
   */
  datatype TranscriptFetch = FetchThrew(error: Thrown) | Fetched(initialSegments: Option<seq<YouTubeSegment>>)

  /** `getTranscriptSegments(info)`: the segments, or what it throws. */
  function GetTranscriptSegments(t: TranscriptFetch): (r: Result<seq<YouTubeSegment>, Thrown>)
    ensures r.Ok? <==> t.Fetched? && t.initialSegments.Some?
    ensures r.Ok? ==> r.value == t.initialSegments.value
    ensures t == Fetched(None) ==> r == Err(ErrorValue("Error", NoTranscriptMessage))
  {
    match t
    case FetchThrew(e) => Err(e)
    case Fetched(None) => Err(ErrorValue("Error", NoTranscriptMessage))
    case Fetched(Some(segs)) => Ok(segs)
  }

  /** What `youtube.getInfo(identifier)` gives. */
  datatype InfoOutcome =
    | InfoThrew(error: Thrown)
    | InfoNull
    | InfoFound(basic: BasicInfo, transcript: TranscriptFetch)

  /** The object `generateTranscript` resolves to. */
  datatype TranscriptData = TranscriptData(
    title: string,
    videoId: string,
    thumbnailUrl: Option<string>,
    fullTranscript: string,
    transcriptWithTimeCodes: seq<TranscriptSegment>,
    fullTranscriptKo: string,
    transcriptWithTimeCodesKo: seq<TranscriptSegment>)

  /** `segments.map(s => s.snippet.text)`. */
  function RawTexts(segs: seq<YouTubeSegment>): (r: seq<string>)
    ensures |r| == |segs| && forall i :: 0 <= i < |segs| ==> r[i] == segs[i].text
  {
    seq(|segs|, i requires 0 <= i < |segs| => segs[i].text)
  }

  /** `segments.map(s => s.snippet.text).join(" ")`. */
  function JoinTexts(segs: seq<YouTubeSegment>): string {
    Join(RawTexts(segs), " ")
  }

  /** The transcript string when no segment text holds a space: splitting it on spaces gives the texts back. */
  lemma FullTranscriptSplits(segs: seq<YouTubeSegment>)
    requires |segs| >= 1
    requires forall i :: 0 <= i < |segs| ==> ' ' !in segs[i].text
    ensures Split(JoinTexts(segs), ' ') == RawTexts(segs)
  {
    SplitJoin(RawTexts(segs), ' ');
  }

  /**
   * The transcript of one language: on success the processed segments, whose
   * texts are the raw snippet texts, and those texts joined with spaces; the
   * empty pair on failure.
   */
  method LanguageTranscript(fetch: Result<seq<YouTubeSegment>, Thrown>)
    returns (full: string, timed: seq<TranscriptSegment>)
    ensures fetch.Ok? ==> timed == ProcessTranscriptSegments(fetch.value)
    ensures fetch.Ok? ==> full == JoinTexts(fetch.value)
    ensures fetch.Ok? ==> forall i :: 0 <= i < |timed| ==> timed[i].text == RawTexts(fetch.value)[i]
    ensures fetch.Err? ==> full == "" && timed == []
  {
    if fetch.Ok? {
      timed := ProcessTranscriptSegments(fetch.value);
      full := JoinTexts(fetch.value);
    } else {
      full := "";
      timed := [];
    }
  }

  /**
   * The Korean try block: `youtubeKo.getInfo(identifier)` then
   * `getTranscriptSegments(infoKo)`. A null info throws the TypeError of its
   * `getTranscript` call.
   */
  function KoreanSegments(infoKo: InfoOutcome): (r: Result<seq<YouTubeSegment>, Thrown>)
    ensures r.Ok? <==> infoKo.InfoFound? && infoKo.transcript.Fetched? && infoKo.transcript.initialSegments.Some?
    ensures r.Ok? ==> r.value == infoKo.transcript.initialSegments.value
    ensures infoKo.InfoThrew? ==> r == Err(infoKo.error)
    ensures infoKo.InfoNull? ==> r.Err? && r.error.ErrorValue? && r.error.name == "TypeError"
  {
    match infoKo
    case InfoThrew(e) => Err(e)
    case InfoNull => Err(ErrorValue("TypeError", NullReadMessage("getTranscript")))
    case InfoFound(_, t) => GetTranscriptSegments(t)
  }

  /**
   * `generateTranscript(identifier)`. `createFailure` is what creating the two
   * YouTube clients threw, if anything; `infoEn`/`infoKo` are the two lookups.
   * The result is the data or the message of the error it throws: the outer
   * `catch` rethrows the caught error's message, or the generic message when
   * what was thrown is not an `Error`.
   */
  method GenerateTranscript(identifier: string, createFailure: Option<Thrown>, infoEn: InfoOutcome, infoKo: InfoOutcome)
    returns (r: Result<TranscriptData, string>)
    ensures r.Ok? <==> createFailure.None? && identifier != "" && infoEn.InfoFound?
    ensures createFailure.Some? ==> r == Err(MessageOr(createFailure.value, TranscriptFailedMessage))
    ensures createFailure.None? && identifier == "" ==> r == Err(InvalidIdentifierMessage)
    ensures createFailure.None? && identifier != "" && infoEn.InfoThrew? ==>
      r == Err(MessageOr(infoEn.error, TranscriptFailedMessage))
    ensures createFailure.None? && identifier != "" && infoEn.InfoNull? ==> r == Err(VideoNotFoundMessage)
    ensures r.Ok? ==>
      var basics := ExtractBasicInfo(infoEn.basic);
      r.value.title == basics.title && r.value.videoId == basics.videoId && r.value.thumbnailUrl == basics.thumbnailUrl
    ensures r.Ok? && GetTranscriptSegments(infoEn.transcript).Ok? ==>
      r.value.transcriptWithTimeCodes == ProcessTranscriptSegments(GetTranscriptSegments(infoEn.transcript).value) &&
      r.value.fullTranscript == JoinTexts(GetTranscriptSegments(infoEn.transcript).value)
    ensures r.Ok? && GetTranscriptSegments(infoEn.transcript).Err? ==>
      r.value.fullTranscript == "" && r.value.transcriptWithTimeCodes == []
    ensures r.Ok? && KoreanSegments(infoKo).Ok? ==>
      r.value.transcriptWithTimeCodesKo == ProcessTranscriptSegments(KoreanSegments(infoKo).value) &&
      r.value.fullTranscriptKo == JoinTexts(KoreanSegments(infoKo).value)
    ensures r.Ok? && KoreanSegments(infoKo).Err? ==>
      r.value.fullTranscriptKo == "" && r.value.transcriptWithTimeCodesKo == []
  {
    if createFailure.Some? {
      return Err(MessageOr(createFailure.value, TranscriptFailedMessage));
    }
    var invalid := ValidateIdentifier(identifier);
    if invalid.Some? {
      return Err(invalid.value);
    }
    var info;
    match infoEn {
      case InfoThrew(e) => return Err(MessageOr(e, TranscriptFailedMessage));
      case InfoNull => return Err(VideoNotFoundMessage);
      case InfoFound(basic, t) => info := infoEn;
    }
    var basics := ExtractBasicInfo(info.basic);

    var fullTranscript, transcriptWithTimeCodes := LanguageTranscript(GetTranscriptSegments(info.transcript));
    // a failed Korean lookup or segment fetch degrades to the empty pair
    var fullTranscriptKo, transcriptWithTimeCodesKo := LanguageTranscript(KoreanSegments(infoKo));

    r := Ok(TranscriptData(basics.title, basics.videoId, basics.thumbnailUrl,
                           fullTranscript, transcriptWithTimeCodes, fullTranscriptKo, transcriptWithTimeCodesKo));
  }
}
