/**
 * front-end/src/components/custom/pagination-component.tsx: the current page
 * read from the query string, the page-number links, the disabled arrows, the
 * ellipsis, and `createPageURL`. Only the values the markup is built from are
 * modelled, not the markup.
 */
module Pagination {
  import opened Wrappers
  import opened Js
  import opened SearchParams

  /** `Number(searchParams.get("page")) || 1`; `Number(null)` is 0. */
  function CurrentPage(page: Option<string>): (n: int)
    ensures n != 0
    ensures page.None? ==> n == 1
    ensures page.Some? && Number(page.value).Truthy() ==> n == Number(page.value).value
    ensures page.Some? && !Number(page.value).Truthy() ==> n == 1
  {
    var parsed := if page.None? then Finite(0) else Number(page.value);
    if parsed.Truthy() then parsed.value else 1
  }

  /** `currentPage`, read from the address's parameters. */
  function CurrentPageOf(params: seq<Pair>): int {
    CurrentPage(Get(params, "page"))
  }

  /** The length `Array.from` gives `Math.min(5, pageCount)`: negative lengths become 0. */
  function ListedCount(pageCount: int): (n: nat)
    ensures n <= 5 && n <= (if pageCount < 0 then 0 else pageCount)
    ensures n == 5 || n == pageCount || (pageCount < 0 && n == 0)
  {
    if pageCount < 0 then 0 else if pageCount < 5 then pageCount else 5
  }

  /** `pages`: the page numbers shown as links. */
  function PageList(pageCount: int): (pages: seq<int>)
    ensures |pages| == ListedCount(pageCount)
    ensures |pages| > 0 ==> pages[0] == 1
    ensures forall i :: 0 <= i < |pages| - 1 ==> pages[i + 1] == pages[i] + 1
    ensures forall i, j :: 0 <= i < j < |pages| ==> pages[i] < pages[j]
    ensures forall i :: 0 <= i < |pages| ==> 1 <= pages[i] <= 5 && pages[i] <= pageCount
  {
    seq(ListedCount(pageCount), i => i + 1)
  }

  /** At most one listed page is active, and one is exactly when the current page is listed. */
  lemma ActivePageUnique(pageCount: int, current: int)
    ensures var pages := PageList(pageCount);
      forall i, j :: 0 <= i < |pages| && 0 <= j < |pages| && pages[i] == current && pages[j] == current ==> i == j
    ensures (exists i :: 0 <= i < |PageList(pageCount)| && PageList(pageCount)[i] == current)
        <==> 1 <= current <= ListedCount(pageCount)
  {
    var pages := PageList(pageCount);
    if 1 <= current <= ListedCount(pageCount) {
      assert pages[current - 1] == current;
    }
  }

  /** The address `createPageURL(n)` builds. */
  function PageURL(pathname: string, params: seq<Pair>, n: int): string {
    pathname + "?" + Serialize(SetPairs(params, "page", IntToString(n)))
  }

  /** `createPageURL(n)`: copy the current parameters, set `page`, serialise. */
  method CreatePageURL(pathname: string, params: seq<Pair>, n: int) returns (url: string)
    ensures url == PageURL(pathname, params, n)
  {
    var copy := new URLSearchParams(params);
    copy.Set("page", IntToString(n));
    var query := copy.ToString();
    url := pathname + "?" + query;
  }

  /** Following a link built for page `n` makes `n` the current page (0 falls back to 1), other parameters unchanged. */
  lemma PageURLTargetsPage(params: seq<Pair>, n: int)
    ensures var target := SetPairs(params, "page", IntToString(n));
      CurrentPage(Get(target, "page")) == (if n == 0 then 1 else n)
      && Without(target, "page") == Without(params, "page")
  {
    SetThenGet(params, "page", IntToString(n));
    NumberOfIntToString(n);
    SetThenWithout(params, "page", IntToString(n));
  }

  datatype Arrow = Arrow(href: string, disabled: bool)
  datatype PageLink = PageLink(page: int, href: string, active: bool)
  datatype View = View(previous: Arrow, links: seq<PageLink>, ellipsis: bool, next: Arrow)

  /** The links for `pages`, the one equal to `current` marked active. */
  function Links(pathname: string, params: seq<Pair>, pages: seq<int>, current: int): (links: seq<PageLink>)
    ensures |links| == |pages|
    ensures forall i :: 0 <= i < |pages| ==> links[i].page == pages[i] && links[i].href == PageURL(pathname, params, pages[i])
    ensures forall i :: 0 <= i < |pages| ==> (links[i].active <==> pages[i] == current)
  {
    seq(|pages|, i requires 0 <= i < |pages| => PageLink(pages[i], PageURL(pathname, params, pages[i]), pages[i] == current))
  }

  /** What the component renders for the current address and `pageCount`. */
  function Render(pathname: string, params: seq<Pair>, pageCount: int): (v: View)
    ensures v.previous.disabled <==> CurrentPageOf(params) <= 1
    ensures v.next.disabled <==> CurrentPageOf(params) >= pageCount
    ensures v.previous.href == PageURL(pathname, params, CurrentPageOf(params) - 1)
    ensures v.next.href == PageURL(pathname, params, CurrentPageOf(params) + 1)
    ensures v.ellipsis <==> pageCount > 5
    ensures v.links == Links(pathname, params, PageList(pageCount), CurrentPageOf(params))
  {
    View(Arrow(PageURL(pathname, params, CurrentPageOf(params) - 1), CurrentPageOf(params) <= 1),
         Links(pathname, params, PageList(pageCount), CurrentPageOf(params)),
         pageCount > 5,
         Arrow(PageURL(pathname, params, CurrentPageOf(params) + 1), CurrentPageOf(params) >= pageCount))
  }

  /** On the first page Previous is disabled; with one page or fewer, Next is disabled too. */
  lemma FirstPageArrows(pathname: string, params: seq<Pair>, pageCount: int)
    requires !HasName(params, "page")
    ensures Render(pathname, params, pageCount).previous.disabled
    ensures pageCount <= 1 ==> Render(pathname, params, pageCount).next.disabled
  {
  }
}
