/**
 * The pager of src/components/Pagination2.tsx: a Prev button, one numbered
 * button per page, and a Next button, each requesting a page through the
 * `handlePageChange` callback.
 */
module Pagination {
  import opened Wrappers

  /** Prev or Next: whether it is disabled and the page its click requests. */
  datatype NavButton = NavButton(disabled: bool, requests: int)

  /** A numbered button: its number, whether it is highlighted, and the page its click requests. */
  datatype PageButton = PageButton(number: int, highlighted: bool, requests: int)

  datatype Pager = Pager(prev: NavButton, pages: seq<PageButton>, next: NavButton)

  /** What the user clicks; `ClickPage(i)` is the i-th numbered button, counted from 0. */
  datatype Click = ClickPrev | ClickPage(index: nat) | ClickNext

  /** `Array.from({ length: n })` makes no elements for a negative length. */
  function ArrayLength(n: int): nat
  {
    if n < 0 then 0 else n
  }

  /** The pager rendered for the props `currentPage` and `totalPages`. */
  function Render(currentPage: int, totalPages: int): (p: Pager)
    // Prev is disabled on the first page; Next only on exactly the last one
    ensures p.prev.disabled <==> currentPage == 1
    ensures p.next.disabled <==> currentPage == totalPages
    ensures p.prev.requests == currentPage - 1 && p.next.requests == currentPage + 1
    // the numbered buttons are 1..totalPages, each requesting its own page
    ensures |p.pages| == ArrayLength(totalPages)
    ensures forall i :: 0 <= i < |p.pages| ==> p.pages[i].number == i + 1 && p.pages[i].requests == i + 1
    ensures forall i :: 0 <= i < |p.pages| ==> (p.pages[i].highlighted <==> currentPage == i + 1)
  {
    Pager(NavButton(currentPage == 1, currentPage - 1),
          seq(ArrayLength(totalPages), index => PageButton(index + 1, currentPage == index + 1, index + 1)),
          NavButton(currentPage == totalPages, currentPage + 1))
  }

  /** The page handed to `handlePageChange` by a click, or None when the button is disabled or absent. */
  function Press(p: Pager, c: Click): (r: Option<int>)
    ensures r.Some? <==> match c
                         case ClickPrev => !p.prev.disabled
                         case ClickPage(i) => i < |p.pages|
                         case ClickNext => !p.next.disabled
  {
    match c
    case ClickPrev => if p.prev.disabled then None else Some(p.prev.requests)
    case ClickPage(i) => if i < |p.pages| then Some(p.pages[i].requests) else None
    case ClickNext => if p.next.disabled then None else Some(p.next.requests)
  }

  predicate InRange(page: int, totalPages: int)
  {
    1 <= page <= totalPages
  }

  /** The numbers increase strictly from left to right. */
  lemma NumbersIncrease(currentPage: int, totalPages: int, i: nat, j: nat)
    requires i < j < |Render(currentPage, totalPages).pages|
    ensures Render(currentPage, totalPages).pages[i].number < Render(currentPage, totalPages).pages[j].number
  {
  }

  /** At most one numbered button is highlighted. */
  lemma AtMostOneHighlighted(currentPage: int, totalPages: int, i: nat, j: nat)
    requires i < |Render(currentPage, totalPages).pages| && j < |Render(currentPage, totalPages).pages|
    requires Render(currentPage, totalPages).pages[i].highlighted
    requires Render(currentPage, totalPages).pages[j].highlighted
    ensures i == j
  {
  }

  /** On a page in range, exactly the current page's button is highlighted. */
  lemma CurrentPageHighlighted(currentPage: int, totalPages: int)
    requires InRange(currentPage, totalPages)
    ensures var p := Render(currentPage, totalPages);
            currentPage - 1 < |p.pages| && p.pages[currentPage - 1].highlighted
  {
  }

  /**
   * The pager's invariant: from a page in 1..totalPages, every click that
   * requests a page requests one in 1..totalPages.
   */
  lemma PressKeepsPageInRange(currentPage: int, totalPages: int, c: Click)
    requires InRange(currentPage, totalPages)
    ensures var r := Press(Render(currentPage, totalPages), c);
            r.Some? ==> InRange(r.value, totalPages)
  {
  }

  /** Clicking numbered button i requests page i + 1, whatever the current page. */
  lemma PageClickRequestsItsPage(currentPage: int, totalPages: int, i: nat)
    requires i < ArrayLength(totalPages)
    ensures Press(Render(currentPage, totalPages), ClickPage(i)) == Some(i + 1)
  {
  }

  /**
   * Next is disabled only on equality with the last page: with no pages at
   * all the current page 1 still offers Next, which requests page 2.
   */
  lemma NextEnabledWithoutPages()
    ensures Render(1, 0).pages == []
    ensures Press(Render(1, 0), ClickNext) == Some(2)
  {
  }
}
