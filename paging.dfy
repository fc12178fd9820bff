/**
 * The `getNextPageParam` rule shared by the chat history query and the three
 * space-list queries of the profile page: a page that reports its own index
 * `current` and the total `pages` asks for `current + 1` while it is not the
 * last page, and for nothing (`undefined`, so `hasNextPage` becomes false)
 * once it is.
 */
module Paging {
  import opened Nullable

  /** The `data` part of a page of a paginated API response. */
  datatype Page<T> = Page(results: seq<T>, current: int, pages: int)

  function NextPageParam(current: int, pages: int): (r: Option<int>)
    ensures r.Some? <==> current < pages
    ensures r.Some? ==> current < r.value <= pages
    ensures r.Some? ==> r.value == current + 1
  {
    if current < pages then Some(current + 1) else None
  }

  /** The page params requested one after another when every fetched page
      reports the index it was asked for, starting after page `current`. */
  function CursorChain(current: int, pages: int): seq<int>
    decreases pages - current
  {
    match NextPageParam(current, pages)
    case None => []
    case Some(next) => [next] + CursorChain(next, pages)
  }

  /** Following the rule from page `current` requests exactly the pages
      `current + 1` .. `pages`, each once and in increasing order, and stops
      at the last page. */
  lemma {:induction false} CursorChainIsRange(current: int, pages: int)
    ensures |CursorChain(current, pages)| == if current < pages then pages - current else 0
    ensures forall i :: 0 <= i < |CursorChain(current, pages)| ==>
              CursorChain(current, pages)[i] == current + 1 + i
    decreases pages - current
  {
    if current < pages {
      CursorChainIsRange(current + 1, pages);
    }
  }

  /** Hence no page is requested twice and none beyond the last one. */
  lemma CursorChainStrictlyIncreasing(current: int, pages: int, i: nat, j: nat)
    requires i < j < |CursorChain(current, pages)|
    ensures current < CursorChain(current, pages)[i] < CursorChain(current, pages)[j] <= pages
  {
    CursorChainIsRange(current, pages);
  }
}
