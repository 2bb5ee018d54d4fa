/**
 * front-end/src/lib/utils.ts: the CMS base URL with its fallback, and the
 * extraction of an 11-character YouTube video ID from a bare ID or a link.
 */
module Utils {
  import opened Wrappers

  /** Base URL used when `NEXT_PUBLIC_STRAPI_URL` is unset or empty. */
  const DefaultStrapiURL: string := "http://localhost:1337"

  /** `getStrapiURL()`, with the environment variable passed in (`None` when unset). */
  function GetStrapiURL(env: Option<string>): (url: string)
    ensures env.Some? && env.value != "" ==> url == env.value
    ensures env.None? || env.value == "" ==> url == DefaultStrapiURL
    ensures url != ""
  {
    if env.Some? && env.value != "" then env.value else DefaultStrapiURL
  }

  /** A character of the class `[a-zA-Z0-9_-]`. */
  predicate IsIdChar(c: char) {
    ('a' <= c <= 'z') || ('A' <= c <= 'Z') || ('0' <= c <= '9') || c == '_' || c == '-'
  }

  /** The anchored regex `^[a-zA-Z0-9_-]{11}$`. */
  predicate IsVideoId(s: string) {
    |s| == 11 && forall i :: 0 <= i < |s| ==> IsIdChar(s[i])
  }

  /** The three link shapes of the unanchored regex, in the order its alternation tries them. */
  const WatchPrefix: string := "youtube.com/watch?v="
  const ShortsLinkPrefix: string := "youtube.com/shorts/"
  const SharePrefix: string := "youtu.be/"

  /** `prefix` followed by eleven ID characters matches at the start of `rest`. */
  predicate AltMatches(rest: string, prefix: string) {
    prefix <= rest && |rest| >= |prefix| + 11 && IsVideoId(rest[|prefix|..|prefix| + 11])
  }

  /**
   * The capture group when the regex is tried at index `p` of `s`: the alternatives
   * are tried in order and the first that matches supplies the eleven characters.
   */
  function MatchAt(s: string, p: nat): (r: Option<string>)
    ensures r.Some? ==> IsVideoId(r.value)
    ensures r.Some? ==> p < |s| && s[p] == 'y'
  {
    if p > |s| then None
    else
      var rest := s[p..];
      if AltMatches(rest, WatchPrefix) then Some(rest[|WatchPrefix|..|WatchPrefix| + 11])
      else if AltMatches(rest, ShortsLinkPrefix) then Some(rest[|ShortsLinkPrefix|..|ShortsLinkPrefix| + 11])
      else if AltMatches(rest, SharePrefix) then Some(rest[|SharePrefix|..|SharePrefix| + 11])
      else None
  }

  /** The leftmost index at or after `from` where the link regex matches. */
  function FindMatch(s: string, from: nat): (r: Option<nat>)
    ensures r.Some? ==> from <= r.value <= |s| && MatchAt(s, r.value).Some?
    ensures r.Some? ==> forall q :: from <= q < r.value ==> MatchAt(s, q).None?
    ensures r.None? ==> forall q :: from <= q ==> MatchAt(s, q).None?
    decreases |s| - from
  {
    if from > |s| then None
    else if MatchAt(s, from).Some? then Some(from)
    else FindMatch(s, from + 1)
  }

  /** `extractYouTubeID(urlOrID)`: a bare ID as is, else the capture of the leftmost link match. */
  function ExtractYouTubeID(s: string): (r: Option<string>)
    ensures IsVideoId(s) ==> r == Some(s)
    ensures r.Some? ==> IsVideoId(r.value)
    ensures !IsVideoId(s) ==> (r.None? <==> forall q :: MatchAt(s, q).None?)
    ensures !IsVideoId(s) && r.Some? ==>
      FindMatch(s, 0).Some? && r == MatchAt(s, FindMatch(s, 0).value)
  {
    if IsVideoId(s) then Some(s)
    else
      match FindMatch(s, 0)
      case None => None
      case Some(q) => MatchAt(s, q)
  }

  /** Two strings that differ at index `k` cannot both be prefixes of `rest`. */
  lemma PrefixesDiffer(rest: string, p1: string, p2: string, k: nat)
    requires k < |p1| && k < |p2| && p1[k] != p2[k]
    ensures !(p1 <= rest && p2 <= rest)
  {
  }

  /** At one index at most one of the three link prefixes can match, so the scan is deterministic. */
  lemma PrefixesExclusive(rest: string)
    ensures !(WatchPrefix <= rest && ShortsLinkPrefix <= rest)
    ensures !(WatchPrefix <= rest && SharePrefix <= rest)
    ensures !(ShortsLinkPrefix <= rest && SharePrefix <= rest)
  {
    PrefixesDiffer(rest, WatchPrefix, ShortsLinkPrefix, 12);
    PrefixesDiffer(rest, WatchPrefix, SharePrefix, 5);
    PrefixesDiffer(rest, ShortsLinkPrefix, SharePrefix, 5);
  }

  /** Extraction is idempotent: a result, extracted again, is itself. */
  lemma ExtractIdempotent(s: string)
    requires ExtractYouTubeID(s).Some?
    ensures ExtractYouTubeID(ExtractYouTubeID(s).value) == ExtractYouTubeID(s)
  {
  }

  /** A link match contains a `/`, which is no ID character. */
  lemma MatchNeedsSlash(s: string, q: nat)
    requires MatchAt(s, q).Some?
    ensures exists i :: 0 <= i < |s| && !IsIdChar(s[i])
  {
    var rest := s[q..];
    if WatchPrefix <= rest {
      assert rest[11] == '/' && s[q + 11] == rest[11];
    } else if ShortsLinkPrefix <= rest {
      assert rest[11] == '/' && s[q + 11] == rest[11];
    } else {
      assert SharePrefix <= rest;
      assert rest[8] == '/' && s[q + 8] == rest[8];
    }
  }

  /** A string of ID characters only is accepted iff it has exactly 11 of them (e.g. a 12-character ID is rejected). */
  lemma IdCharsOnly(s: string)
    requires forall i :: 0 <= i < |s| ==> IsIdChar(s[i])
    ensures ExtractYouTubeID(s).Some? <==> |s| == 11
  {
    if |s| != 11 && ExtractYouTubeID(s).Some? {
      MatchNeedsSlash(s, FindMatch(s, 0).value);
    }
  }

  /**
   * `pre + prefix + id + post`, for any of the three link shapes and any text `pre`
   * without a `y` (so no match can start inside it), yields exactly `id`.
   */
  lemma ExtractFromLink(pre: string, prefix: string, id: string, post: string)
    requires prefix == WatchPrefix || prefix == ShortsLinkPrefix || prefix == SharePrefix
    requires IsVideoId(id)
    requires 'y' !in pre
    ensures ExtractYouTubeID(pre + prefix + id + post) == Some(id)
  {
    var s := pre + prefix + id + post;
    MatchAtLink(pre, prefix, id, post);
    NoMatchInside(pre, prefix + id + post);
    assert s == pre + (prefix + id + post);
    LeftmostMatch(s, |pre|);
  }

  /** A match at `p` with none before it is the one the scan finds. */
  lemma LeftmostMatch(s: string, p: nat)
    requires MatchAt(s, p).Some?
    requires forall q :: 0 <= q < p ==> MatchAt(s, q).None?
    ensures FindMatch(s, 0) == Some(p)
  {
  }

  /** Right after `pre`, a link shape followed by an ID matches and captures the ID. */
  lemma MatchAtLink(pre: string, prefix: string, id: string, post: string)
    requires prefix == WatchPrefix || prefix == ShortsLinkPrefix || prefix == SharePrefix
    requires IsVideoId(id)
    ensures MatchAt(pre + prefix + id + post, |pre|) == Some(id)
  {
    var s := pre + prefix + id + post;
    var rest := s[|pre|..];
    assert rest == prefix + id + post;
    assert rest[|prefix|..|prefix| + 11] == id;
    PrefixesExclusive(rest);
  }

  /** No match can start inside a text without a `y`. */
  lemma NoMatchInside(pre: string, rest: string)
    requires 'y' !in pre
    ensures forall q :: 0 <= q < |pre| ==> MatchAt(pre + rest, q).None?
  {
    forall q | 0 <= q < |pre| ensures MatchAt(pre + rest, q).None? {
      assert (pre + rest)[q] == pre[q];
    }
  }
}
