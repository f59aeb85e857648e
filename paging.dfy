/**
 * The previous/next buttons shared by the paged listings: `Math.max(1, p - 1)`
 * and `Math.min(totalPages, p + 1)`, shown only when there is more than one page.
 */
module Paging {
  /** The previous-page button. */
  function PrevPage(p: int): (q: int)
    ensures q >= 1
    ensures p > 1 ==> q == p - 1
    ensures p <= 1 ==> q == 1
  {
    if p - 1 > 1 then p - 1 else 1
  }

  /** The next-page button. */
  function NextPage(p: int, totalPages: int): (q: int)
    ensures q <= totalPages
    ensures p < totalPages ==> q == p + 1
    ensures p >= totalPages ==> q == totalPages
  {
    if p + 1 < totalPages then p + 1 else totalPages
  }

  /** The pagination bar is rendered only for more than one page. */
  predicate ShowsPagination(totalPages: int) {
    totalPages > 1
  }

  /** While the bar is shown, both buttons keep the page within 1..totalPages, and from an
      inner page the two buttons undo each other. */
  lemma PagingStaysInRange(p: int, totalPages: int)
    requires ShowsPagination(totalPages) && 1 <= p <= totalPages
    ensures 1 <= PrevPage(p) <= totalPages && 1 <= NextPage(p, totalPages) <= totalPages
    ensures p < totalPages ==> PrevPage(NextPage(p, totalPages)) == p
    ensures p > 1 ==> NextPage(PrevPage(p), totalPages) == p
  {
  }
}
