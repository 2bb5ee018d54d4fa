/**
 * front-end/src/components/custom/strapi-image.tsx: resolving a media URL
 * against the CMS base URL, and the render guard of the image component.
 */
module StrapiImage {
  import opened Wrappers
  import Utils

  /** URLs that are already absolute (or inline) and are left as they are. */
  predicate IsAbsoluteMedia(url: string) {
    "data:" <= url || "http" <= url || "//" <= url
  }

  /** `getStrapiMedia(url)`, with the base URL's environment variable passed in. */
  function GetStrapiMedia(url: Option<string>, env: Option<string>): (r: Option<string>)
    ensures url.None? <==> r.None?
    ensures url.Some? && IsAbsoluteMedia(url.value) ==> r == url
    ensures url.Some? && !IsAbsoluteMedia(url.value) ==> r == Some(Utils.GetStrapiURL(env) + url.value)
    ensures r.Some? ==> r.value != ""
  {
    var strapiURL := Utils.GetStrapiURL(env);
    if url.None? then None
    else if "data:" <= url.value then url
    else if "http" <= url.value || "//" <= url.value then url
    else Some(strapiURL + url.value)
  }

  /** Resolution is idempotent when the base URL is absolute (starts with "http"). */
  lemma MediaIdempotent(url: Option<string>, env: Option<string>)
    requires "http" <= Utils.GetStrapiURL(env)
    ensures GetStrapiMedia(GetStrapiMedia(url, env), env) == GetStrapiMedia(url, env)
  {
    if url.Some? && !IsAbsoluteMedia(url.value) {
      var base := Utils.GetStrapiURL(env);
      assert (base + url.value)[..4] == base[..4];
    }
  }

  /** The `<Image>` element the component renders. */
  datatype ImageElement = ImageElement(src: string, alt: string)

  const DefaultAlt: string := "No alternative text provided"

  /** `StrapiImage({src, alt})`: nothing when the resolved URL is falsy. */
  function StrapiImage(src: Option<string>, alt: Option<string>, env: Option<string>): (e: Option<ImageElement>)
    ensures e.None? <==> GetStrapiMedia(src, env).None?
    ensures e.Some? ==> e.value.src == GetStrapiMedia(src, env).value
    ensures e.Some? ==> e.value.alt == alt.GetOr(DefaultAlt)
  {
    var imageUrl := GetStrapiMedia(src, env);
    if imageUrl.None? || imageUrl.value == "" then None
    else Some(ImageElement(imageUrl.value, alt.GetOr(DefaultAlt)))
  }
}
