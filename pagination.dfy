/**
 * Client-side pagination: ten items per page, `Array.prototype.slice` for the
 * page, `Math.ceil` for the page count, and the three ways the components move
 * between pages.
 */
module Pagination {

  const PageSize: nat := 10

  /** How `slice` turns a possibly negative or too large bound into an index. */
  function SliceIndex(i: int, len: nat): (k: nat)
    ensures k <= len
    ensures 0 <= i <= len ==> k == i
    ensures i > len ==> k == len
    ensures i < 0 ==> k == if len + i < 0 then 0 else len + i
  {
    if i < 0 then (if len + i < 0 then 0 else len + i)
    else if i > len then len
    else i
  }

  /** `s.slice(start, end)`. */
  function Slice<T>(s: seq<T>, start: int, end: int): seq<T>
  {
    var lo := SliceIndex(start, |s|);
    var hi := SliceIndex(end, |s|);
    if lo < hi then s[lo..hi] else []
  }

  function Min(a: int, b: int): int
  {
    if a <= b then a else b
  }

  function Max(a: int, b: int): int
  {
    if a >= b then a else b
  }

  /** The items shown on page `page`: `s.slice((page - 1) * 10, page * 10)`
      (Asistencia and Nomina write the end as `inicio + 10`, the same number). */
  function PageOf<T>(s: seq<T>, page: int): seq<T>
  {
    Slice(s, (page - 1) * PageSize, page * PageSize)
  }

  /** `Math.ceil(len / 10)`. */
  function TotalPages(len: nat): (n: nat)
    ensures n * PageSize >= len
    ensures n > 0 ==> (n - 1) * PageSize < len
    ensures n == 0 <==> len == 0
  {
    (len + PageSize - 1) / PageSize
  }

  /** From page 1 on, a page is the run of at most ten items starting at
      index `(page - 1) * 10`. */
  lemma PageWindow<T>(s: seq<T>, page: int)
    requires page >= 1
    ensures PageOf(s, page) == s[Min((page - 1) * PageSize, |s|)..Min(page * PageSize, |s|)]
    ensures |PageOf(s, page)| <= PageSize
  {
  }

  /** Item `i` of the list is shown on page `i / 10 + 1`, at position `i % 10`,
      and that page exists. */
  lemma ItemOnItsPage<T>(s: seq<T>, i: nat)
    requires i < |s|
    ensures 1 <= i / PageSize + 1 <= TotalPages(|s|)
    ensures var page := PageOf(s, i / PageSize + 1);
            i % PageSize < |page| && page[i % PageSize] == s[i]
  {
    var p := i / PageSize + 1;
    assert (p - 1) * PageSize == i - i % PageSize;
    PageWindow(s, p);
  }

  /** A page past the last one, and page 0, show nothing. */
  lemma PageBeyondRange<T>(s: seq<T>, page: int)
    requires page == 0 || page > TotalPages(|s|)
    ensures PageOf(s, page) == []
  {
    if page > 0 {
      assert (page - 1) * PageSize >= TotalPages(|s|) * PageSize;
    }
  }

  /** Paging commutes with mapping every item: the mapped page is the page of
      the mapped list. */
  lemma PageOfMapped<T, U>(s: seq<T>, mapped: seq<U>, pageMapped: seq<U>, f: T -> U, page: int)
    requires |mapped| == |s| && forall i :: 0 <= i < |s| ==> mapped[i] == f(s[i])
    requires |pageMapped| == |PageOf(s, page)|
    requires forall i :: 0 <= i < |pageMapped| ==> pageMapped[i] == f(PageOf(s, page)[i])
    ensures pageMapped == PageOf(mapped, page)
  {
    var lo, hi := SliceIndex((page - 1) * PageSize, |s|), SliceIndex(page * PageSize, |s|);
    if lo < hi {
      assert forall i :: 0 <= i < |pageMapped| ==> PageOf(s, page)[i] == s[lo + i];
    }
  }

  // ---------------------------------------------------------------------------
  // "Previous"/"next" in frontend/src/seguimientos.js

  /** `p => Math.max(p - 1, 1)`, also used by Notas.js and Nomina.js. */
  function PrevAtLeastOne(p: int): (q: int)
    ensures q >= 1
    ensures p >= 2 ==> q == p - 1
    ensures p <= 2 ==> q == 1
  {
    Max(p - 1, 1)
  }

  /** `p => (p * 10 < length ? p + 1 : p)`. */
  function NextWhileMore(p: int, len: nat): int
  {
    if p * PageSize < len then p + 1 else p
  }

  /** "Next" moves only while items lie beyond the current page, so starting
      on an existing page it never leaves the existing pages. */
  lemma NextWhileMoreStaysInRange(p: int, len: nat)
    requires 1 <= p <= Max(1, TotalPages(len))
    ensures 1 <= NextWhileMore(p, len) <= Max(1, TotalPages(len))
    ensures NextWhileMore(p, len) == p + 1 <==> p * PageSize < len
  {
  }

  /** Moving forward lands on a page with something on it. */
  lemma NextWhileMoreShowsItems<T>(s: seq<T>, p: int)
    requires p >= 1 && NextWhileMore(p, |s|) == p + 1
    ensures PageOf(s, p + 1) != []
  {
    PageWindow(s, p + 1);
  }

  // ---------------------------------------------------------------------------
  // "Previous"/"next" in frontend/src/Notas.js and frontend/src/Nomina.js

  /** `prev => Math.min(prev + 1, totalPaginas)`. */
  function NextAtMostTotal(p: int, total: nat): (q: int)
    ensures q <= total
    ensures p < total ==> q == p + 1
    ensures p >= total ==> q == total
  {
    Min(p + 1, total)
  }

  /** With at least one page, both buttons keep the page among the existing ones. */
  lemma ClampedStaysInRange(p: int, total: nat)
    requires 1 <= p <= total
    ensures 1 <= PrevAtLeastOne(p) <= total
    ensures 1 <= NextAtMostTotal(p, total) <= total
  {
  }

  /** With an empty list there are no pages, "next" is not disabled on page 1
      (1 differs from 0 pages) and moves to page 0. */
  lemma EmptyListNextGoesToZero()
    ensures TotalPages(0) == 0
    ensures !NextDisabled(1, TotalPages(0))
    ensures NextAtMostTotal(1, TotalPages(0)) == 0
  {
  }

  // ---------------------------------------------------------------------------
  // "Previous"/"next" in frontend/src/Asistencia.js: unclamped updaters guarded
  // only by the buttons' `disabled` flags

  /** `disabled={currentPage === 1}`. */
  predicate PrevDisabled(p: int)
  {
    p == 1
  }

  /** `disabled={currentPage === totalPaginas}`. */
  predicate NextDisabled(p: int, total: nat)
  {
    p == total
  }

  /** `p => p - 1` */
  function PrevUnclamped(p: int): int
  {
    p - 1
  }

  /** `p => p + 1` */
  function NextUnclamped(p: int): int
  {
    p + 1
  }

  /** A click on an enabled button: the page after the click, or `p` when the button is disabled. */
  function ClickPrev(p: int): int
  {
    if PrevDisabled(p) then p else PrevUnclamped(p)
  }

  function ClickNext(p: int, total: nat): int
  {
    if NextDisabled(p, total) then p else NextUnclamped(p)
  }

  /** On a non-empty list the disabled flags alone keep the page within 1..total. */
  lemma GuardedClicksStayInRange(p: int, total: nat)
    requires 1 <= p <= total
    ensures 1 <= ClickPrev(p) <= total
    ensures 1 <= ClickNext(p, total) <= total
  {
  }

  /** Clicking "next" `n` times from page `p`. */
  function ClickNextTimes(p: int, total: nat, n: nat): int
    decreases n
  {
    if n == 0 then p else ClickNextTimes(ClickNext(p, total), total, n - 1)
  }

  /** With an empty list (no pages) nothing disables "next" from page 1 on:
      every click goes one page further. */
  lemma {:induction false} EmptyListNextUnbounded(p: int, n: nat)
    requires p >= 1
    ensures ClickNextTimes(p, TotalPages(0), n) == p + n
    decreases n
  {
    if n > 0 {
      EmptyListNextUnbounded(p + 1, n - 1);
    }
  }
}
