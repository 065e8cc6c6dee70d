/**
 * The catalog pager: a page cursor over a fixed number of pages and the
 * "end of catalog" message raised when the cursor reaches the last page.
 */
module Catalog {

  /** `totalPages`, fixed at 12. */
  const TotalPages: int := 12

  datatype Pager = Pager(currentPage: int, showEndMessage: bool)

  const InitialPager: Pager := Pager(1, false)

  /** The states the screen can reach: the page is in [1, TotalPages], and the end
      message is up only on the last page. */
  predicate Reachable(p: Pager) {
    && 1 <= p.currentPage <= TotalPages
    && (p.showEndMessage ==> p.currentPage == TotalPages)
  }

  /** `goToNextPage`. */
  function NextPage(p: Pager): (r: Pager)
    ensures p.currentPage >= TotalPages ==> r == p
    ensures p.currentPage < TotalPages ==> r.currentPage == p.currentPage + 1
    ensures r.showEndMessage <==> p.showEndMessage || (p.currentPage < TotalPages && r.currentPage == TotalPages)
  {
    if p.currentPage < TotalPages then
      var next := p.currentPage + 1;
      Pager(next, if next == TotalPages then true else p.showEndMessage)
    else p
  }

  /** `goToPreviousPage`. */
  function PreviousPage(p: Pager): (r: Pager)
    ensures p.currentPage <= 1 ==> r == p
    ensures p.currentPage > 1 ==> r.currentPage == p.currentPage - 1 && !r.showEndMessage
  {
    if p.currentPage > 1 then Pager(p.currentPage - 1, false) else p
  }

  /** Closing the end-of-catalog modal (its OK button or the back gesture). */
  function DismissEndMessage(p: Pager): (r: Pager)
    ensures r.currentPage == p.currentPage && !r.showEndMessage
  {
    p.(showEndMessage := false)
  }

  /** Every operation keeps the pager reachable, starting from the initial state. */
  lemma {:induction false} OperationsKeepReachable(p: Pager)
    requires Reachable(p)
    ensures Reachable(InitialPager)
    ensures Reachable(NextPage(p)) && Reachable(PreviousPage(p)) && Reachable(DismissEndMessage(p))
  {
  }

  /** From any page before the last, Next then Previous comes back to the same page, with the
      end message down. */
  lemma NextThenPrevious(p: Pager)
    requires Reachable(p) && p.currentPage < TotalPages
    ensures PreviousPage(NextPage(p)) == Pager(p.currentPage, false)
  {
  }

  /** From any page after the first, Previous then Next comes back to the same page. */
  lemma PreviousThenNext(p: Pager)
    requires Reachable(p) && p.currentPage > 1
    ensures NextPage(PreviousPage(p)).currentPage == p.currentPage
    ensures NextPage(PreviousPage(p)).showEndMessage <==> p.currentPage == TotalPages
  {
  }

  /** The Previous button is disabled exactly on page 1 and Next exactly on the last page; on
      reachable states those are the states in which the handlers' own guards make them no-ops. */
  lemma DisabledButtonsAreNoOps(p: Pager)
    requires Reachable(p)
    ensures p.currentPage == 1 <==> PreviousPage(p) == p
    ensures p.currentPage == TotalPages <==> NextPage(p) == p
  {
  }

  /** Pressing Next n times. */
  function NextTimes(p: Pager, n: nat): Pager {
    if n == 0 then p else NextPage(NextTimes(p, n - 1))
  }

  /** From the first page, k presses of Next reach page 1 + k; the end message appears exactly
      when the last page is reached, and further presses change nothing. */
  lemma {:induction false} PagingFromStart(k: nat)
    ensures k < TotalPages ==> NextTimes(InitialPager, k) == Pager(1 + k, 1 + k == TotalPages)
    ensures k >= TotalPages ==> NextTimes(InitialPager, k) == Pager(TotalPages, true)
  {
    if k > 0 {
      PagingFromStart(k - 1);
    }
  }

  class CatalogScreen {
    var currentPage: int
    var showEndMessage: bool

    function State(): Pager
      reads this
    {
      Pager(currentPage, showEndMessage)
    }

    constructor ()
      ensures State() == InitialPager && Reachable(State())
    {
      currentPage := 1;
      showEndMessage := false;
    }

    method GoToNextPage()
      modifies this
      ensures State() == NextPage(old(State()))
    {
      if currentPage < TotalPages {
        var nextPage := currentPage + 1;
        currentPage := nextPage;
        if nextPage == TotalPages {
          showEndMessage := true;
        }
      }
    }

    method GoToPreviousPage()
      modifies this
      ensures State() == PreviousPage(old(State()))
    {
      if currentPage > 1 {
        var prevPage := currentPage - 1;
        currentPage := prevPage;
        showEndMessage := false;
      }
    }

    method CloseEndMessage()
      modifies this
      ensures State() == DismissEndMessage(old(State()))
    {
      showEndMessage := false;
    }
  }
}
