/** Page arithmetic and navigation guards of the pagination controls. A
    navigation handler either asks for a page (`Some`) or does nothing. */
module Pagination {
  import opened Wrappers

  const ItemsPerPageOptions: seq<nat> := [12, 24, 36, 48, 96]

  /** Back one page, unless already on the first. */
  function PreviousPage(currentPage: int): (r: Option<int>)
    ensures r.Some? <==> currentPage > 1
    ensures r.Some? ==> r.value == currentPage - 1
  {
    if currentPage > 1 then Some(currentPage - 1) else None
  }

  /** Forward one page, unless already on the last. */
  function NextPage(currentPage: int, totalPages: int): (r: Option<int>)
    ensures r.Some? <==> currentPage < totalPages
    ensures r.Some? ==> r.value == currentPage + 1
  {
    if currentPage < totalPages then Some(currentPage + 1) else None
  }

  /** To page 1, unless already there. */
  function FirstPage(currentPage: int): (r: Option<int>)
    ensures r.Some? <==> currentPage != 1
    ensures r.Some? ==> r.value == 1
  {
    if currentPage != 1 then Some(1) else None
  }

  /** To the last page, when there is one and it is not the current page. */
  function LastPage(currentPage: int, totalPages: int): (r: Option<int>)
    ensures r.Some? <==> currentPage != totalPages && totalPages > 0
    ensures r.Some? ==> r.value == totalPages
  {
    if currentPage != totalPages && totalPages > 0 then Some(totalPages) else None
  }

  /** From a page in range, every handler asks only for a page in range, and
      never for the page already shown. */
  lemma NavigationStaysInRange(currentPage: int, totalPages: int)
    requires 1 <= currentPage <= totalPages
    ensures forall r :: r in [PreviousPage(currentPage), NextPage(currentPage, totalPages),
                              FirstPage(currentPage), LastPage(currentPage, totalPages)] && r.Some? ==>
      1 <= r.value <= totalPages && r.value != currentPage
  {
  }

  /** Previous undoes Next and Next undoes Previous. */
  lemma PreviousNextInverse(currentPage: int, totalPages: int)
    requires currentPage >= 1
    ensures NextPage(currentPage, totalPages).Some? ==>
      PreviousPage(NextPage(currentPage, totalPages).value) == Some(currentPage)
    ensures PreviousPage(currentPage).Some? && currentPage <= totalPages ==>
      NextPage(PreviousPage(currentPage).value, totalPages) == Some(currentPage)
  {
  }

  /** Number of the first item shown, 0 when there are none. */
  function StartItem(currentPage: int, itemsPerPage: int, totalItems: int): (n: int)
    ensures totalItems <= 0 ==> n == 0
    ensures totalItems > 0 ==> n == (currentPage - 1) * itemsPerPage + 1
  {
    if totalItems > 0 then (currentPage - 1) * itemsPerPage + 1 else 0
  }

  /** Number of the last item shown: the page's end, capped by the total. */
  function EndItem(currentPage: int, itemsPerPage: int, totalItems: int): (n: int)
    ensures n <= totalItems && n <= currentPage * itemsPerPage
    ensures n == totalItems || n == currentPage * itemsPerPage
  {
    if currentPage * itemsPerPage <= totalItems then currentPage * itemsPerPage else totalItems
  }

  /** A full page ends right before the next page starts. */
  lemma PagesTile(currentPage: int, itemsPerPage: int, totalItems: int)
    requires currentPage * itemsPerPage <= totalItems && totalItems > 0
    ensures EndItem(currentPage, itemsPerPage, totalItems) + 1 == StartItem(currentPage + 1, itemsPerPage, totalItems)
  {
    assert currentPage * itemsPerPage == (currentPage + 1 - 1) * itemsPerPage;
  }

  /** Item `n` (counting from 1) is shown on page `(n - 1) / itemsPerPage + 1`. */
  lemma ItemOnItsPage(n: int, itemsPerPage: int, totalItems: int)
    requires 1 <= n <= totalItems && itemsPerPage > 0
    ensures var page := (n - 1) / itemsPerPage + 1;
      StartItem(page, itemsPerPage, totalItems) <= n <= EndItem(page, itemsPerPage, totalItems)
  {
    var q := (n - 1) / itemsPerPage;
    var rem := (n - 1) % itemsPerPage;
    assert n - 1 == q * itemsPerPage + rem && 0 <= rem < itemsPerPage;
    assert (q + 1 - 1) * itemsPerPage == q * itemsPerPage;
    assert (q + 1) * itemsPerPage == q * itemsPerPage + itemsPerPage;
  }

  /** What the controls render. */
  datatype View = Skeleton | Simplified | Full

  /** The skeleton while the first load is pending; the simplified bar (count
      and page size only) when nothing is loading and either nothing matched
      or everything fits on one page; the full bar otherwise. */
  function ViewFor(isLoading: bool, totalItems: int, itemsPerPage: int, totalPages: int): (v: View)
    ensures v == Skeleton <==> isLoading && totalItems == 0
    ensures v == Simplified <==>
      !isLoading && (totalItems == 0 || (totalItems > 0 && totalItems <= itemsPerPage && totalPages <= 1))
  {
    if isLoading && totalItems == 0 then Skeleton
    else if !isLoading && (totalItems == 0 || (totalItems > 0 && totalItems <= itemsPerPage && totalPages <= 1)) then Simplified
    else Full
  }

  /** The number of pages needed for `totalItems`. */
  function PagesFor(totalItems: nat, itemsPerPage: nat): (p: nat)
    requires itemsPerPage > 0
    ensures (p - 1) * itemsPerPage < totalItems <= p * itemsPerPage || (p == 0 && totalItems == 0)
  {
    (totalItems + itemsPerPage - 1) / itemsPerPage
  }

  /** When the page count is derived from the totals, the page-count test of
      the simplified view is implied by the item test: when idle the bar is
      simplified exactly when everything fits on one page. */
  lemma SimplifiedIffOnePage(totalItems: nat, itemsPerPage: nat)
    requires itemsPerPage > 0
    ensures ViewFor(false, totalItems, itemsPerPage, PagesFor(totalItems, itemsPerPage)) == Simplified <==>
      totalItems <= itemsPerPage
  {
    var p := PagesFor(totalItems, itemsPerPage);
    if totalItems <= itemsPerPage {
      if totalItems > 0 {
        assert p * itemsPerPage >= totalItems > 0;
      }
    }
  }
}
