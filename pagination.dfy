/** The pagination bar of components/Pagination.jsx: a window of at most
    five consecutive page numbers around the current page, shifted left
    when it would run past the last page, with shortcut buttons to the first
    and last page (each with an ellipsis when pages are skipped) and
    Previous/Next buttons. */
module Pagination {
  import opened Domain

  const SHOW_PAGES: nat := 5

  /** `n` consecutive page numbers starting at `first`. */
  function Consecutive(first: int, n: nat): (r: seq<int>)
    ensures |r| == n && forall i :: 0 <= i < n ==> r[i] == first + i
  {
    seq(n, i => first + i)
  }

  /** The window in closed form: min(5, totalPages) pages starting at
      max(1, min(currentPage - 2, totalPages - 4)), empty when there are no
      pages. It is consecutive and increasing, lies in [1, totalPages], and
      contains the current page whenever that page exists. */
  function Window(currentPage: int, totalPages: int): (w: seq<int>)
    ensures |w| <= SHOW_PAGES
    ensures |w| == if totalPages < 1 then 0 else Min(SHOW_PAGES, totalPages)
    ensures forall i :: 0 <= i < |w| ==> w[i] == w[0] + i
    ensures forall i :: 0 <= i < |w| ==> 1 <= w[i] <= totalPages
    ensures 1 <= currentPage <= totalPages ==> currentPage in w
  {
    if totalPages < 1 then []
    else
      var w := Consecutive(Max(1, Min(currentPage - 2, totalPages - 4)), Min(SHOW_PAGES, totalPages));
      assert 1 <= currentPage <= totalPages ==> w[currentPage - w[0]] == currentPage;
      w
  }

  /** getPageNumbers: start at currentPage - floor(5/2) (at least 1), end at
      most four pages later (at most totalPages), pull the start back when
      the window came out short, then push startPage..endPage. */
  method GetPageNumbers(currentPage: int, totalPages: int) returns (pages: seq<int>)
    ensures pages == Window(currentPage, totalPages)
  {
    pages := [];
    var startPage := Max(1, currentPage - SHOW_PAGES / 2);
    var endPage := Min(totalPages, startPage + SHOW_PAGES - 1);
    if endPage - startPage < SHOW_PAGES - 1 {
      startPage := Max(1, endPage - SHOW_PAGES + 1);
    }
    var i := startPage;
    while i <= endPage
      invariant startPage <= i <= Max(startPage, endPage + 1)
      invariant pages == Consecutive(startPage, i - startPage)
    {
      pages := pages + [i];
      i := i + 1;
    }
  }

  /** `getPageNumbers()[0] > 1` (false on an empty window). */
  predicate FirstShortcut(w: seq<int>)
  {
    |w| > 0 && w[0] > 1
  }

  /** The ellipsis after the first-page shortcut: `getPageNumbers()[0] > 2`. */
  predicate FirstEllipsis(w: seq<int>)
  {
    FirstShortcut(w) && w[0] > 2
  }

  /** `getPageNumbers()[last] < totalPages` (false on an empty window). */
  predicate LastShortcut(w: seq<int>, totalPages: int)
  {
    |w| > 0 && w[|w| - 1] < totalPages
  }

  /** The ellipsis before the last-page shortcut: `[last] < totalPages - 1`. */
  predicate LastEllipsis(w: seq<int>, totalPages: int)
  {
    LastShortcut(w, totalPages) && w[|w| - 1] < totalPages - 1
  }

  /** When the current page exists, the shortcuts and ellipses depend on it
      as follows: the first-page shortcut shows iff more than five pages
      exist and the current page is past 3 (with an ellipsis past 4 and more
      than six pages); the last-page shortcut shows iff more than five pages
      exist and the current page is more than two before the end (with an
      ellipsis when more than three before the end and more than six pages). */
  lemma ShortcutConditions(currentPage: int, totalPages: int)
    requires 1 <= currentPage <= totalPages
    ensures FirstShortcut(Window(currentPage, totalPages)) <==> totalPages > 5 && currentPage > 3
    ensures FirstEllipsis(Window(currentPage, totalPages)) <==> totalPages > 6 && currentPage > 4
    ensures LastShortcut(Window(currentPage, totalPages), totalPages)
      <==> totalPages > 5 && currentPage < totalPages - 2
    ensures LastEllipsis(Window(currentPage, totalPages), totalPages)
      <==> totalPages > 6 && currentPage < totalPages - 3
  {
    var w := Window(currentPage, totalPages);
    assert w[0] == Max(1, Min(currentPage - 2, totalPages - 4));
    assert w[|w| - 1] == w[0] + Min(SHOW_PAGES, totalPages) - 1;
  }

  /** The numbered buttons in render order: the first-page shortcut, the
      window, the last-page shortcut. */
  function Buttons(currentPage: int, totalPages: int): seq<int>
  {
    var w := Window(currentPage, totalPages);
    (if FirstShortcut(w) then [1] else []) + w + (if LastShortcut(w, totalPages) then [totalPages] else [])
  }

  /** No page gets two buttons: the rendered numbers strictly increase, all
      lie in [1, totalPages], the first and the last page are always among
      them. */
  lemma ButtonsStrictlyIncrease(currentPage: int, totalPages: int)
    requires totalPages >= 1
    ensures var b := Buttons(currentPage, totalPages);
      && (forall i, j :: 0 <= i < j < |b| ==> b[i] < b[j])
      && (forall i :: 0 <= i < |b| ==> 1 <= b[i] <= totalPages)
      && b[0] == 1 && b[|b| - 1] == totalPages
  {
    var w := Window(currentPage, totalPages);
    var b := Buttons(currentPage, totalPages);
    var head: seq<int> := if FirstShortcut(w) then [1] else [];
    var tail: seq<int> := if LastShortcut(w, totalPages) then [totalPages] else [];
    assert b == head + w + tail;
    forall i | 0 <= i < |b| ensures b[i] == if i < |head| then 1 else if i < |head| + |w| then w[i - |head|] else totalPages {
    }
    assert !FirstShortcut(w) ==> w[0] == 1;
    assert !LastShortcut(w, totalPages) ==> w[|w| - 1] == totalPages;
  }

  /** Previous is disabled exactly on page 1 and requests currentPage - 1. */
  predicate PrevDisabled(currentPage: int)
  {
    currentPage == 1
  }

  /** Next is disabled exactly on the last page and requests currentPage + 1. */
  predicate NextDisabled(currentPage: int, totalPages: int)
  {
    currentPage == totalPages
  }

  /** From an existing page, an enabled Previous requests an existing page,
      and Previous is disabled exactly when its target would not exist. */
  lemma PreviousStaysInRange(currentPage: int, totalPages: int)
    requires 1 <= currentPage <= totalPages
    ensures !PrevDisabled(currentPage) ==> 1 <= currentPage - 1 <= totalPages
    ensures PrevDisabled(currentPage) <==> currentPage - 1 < 1
  {
  }

  /** From an existing page, an enabled Next requests an existing page, and
      Next is disabled exactly when its target would not exist. */
  lemma NextStaysInRange(currentPage: int, totalPages: int)
    requires 1 <= currentPage <= totalPages
    ensures !NextDisabled(currentPage, totalPages) ==> 1 <= currentPage + 1 <= totalPages
    ensures NextDisabled(currentPage, totalPages) <==> currentPage + 1 > totalPages
  {
  }
}
