/**
 * front-end/src/components/custom/search.tsx: `handleSearch`, which rewrites
 * the current query string for a new search term and navigates to it. The
 * 300 ms debounce around it is not modelled.
 */
module Search {
  import opened Wrappers
  import opened SearchParams

  /** The pairs `handleSearch` navigates with: `page` reset to "1", then `query` set or removed. */
  function SearchPairs(current: seq<Pair>, term: string): seq<Pair> {
    var paged := SetPairs(current, "page", "1");
    if term != "" then SetPairs(paged, "query", term) else Without(paged, "query")
  }

  /** `set` does not change what `get` answers for another name. */
  lemma SetKeepsGet(l: seq<Pair>, name: string, value: string, other: string)
    requires other != name
    ensures Get(SetPairs(l, name, value), other) == Get(l, other)
  {
    DeleteKeepsGet(SetPairs(l, name, value), name, other);
    SetThenWithout(l, name, value);
    DeleteKeepsGet(l, name, other);
  }

  /** After a search `page` is "1"; `query` is the term, or absent for an empty term. */
  lemma SearchSetsPageAndQuery(current: seq<Pair>, term: string)
    ensures Get(SearchPairs(current, term), "page") == Some("1")
    ensures term != "" ==> Get(SearchPairs(current, term), "query") == Some(term)
    ensures term == "" ==> !HasName(SearchPairs(current, term), "query")
  {
    var paged := SetPairs(current, "page", "1");
    SetThenGet(current, "page", "1");
    if term != "" {
      SetKeepsGet(paged, "query", term, "page");
      SetThenGet(paged, "query", term);
    } else {
      DeleteKeepsGet(paged, "query", "page");
    }
  }

  /** Every pair other than `page` and `query` is kept, in its order. */
  lemma SearchKeepsOthers(current: seq<Pair>, term: string)
    ensures Without(Without(SearchPairs(current, term), "page"), "query")
         == Without(Without(current, "page"), "query")
  {
    var paged := SetPairs(current, "page", "1");
    SetThenWithout(current, "page", "1");
    if term != "" {
      SetCommutesWithOther(paged, "query", term, "page");
      SetThenWithout(Without(paged, "page"), "query", term);
    } else {
      WithoutCommutes(paged, "query", "page");
    }
  }

  /** `handleSearch(term)`: the address passed to `replace`. */
  method HandleSearch(pathname: string, current: seq<Pair>, term: string) returns (target: string)
    ensures target == pathname + "?" + Serialize(SearchPairs(current, term))
  {
    var params := new URLSearchParams(current);
    params.Set("page", "1");
    if term != "" {
      params.Set("query", term);
    } else {
      params.Delete("query");
    }
    var query := params.ToString();
    target := pathname + "?" + query;
  }
}
