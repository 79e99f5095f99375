/** Client-side pagination as the pages compute it: `Math.ceil(n / k)` pages
    and `Array.prototype.slice` windows, one-based (task and meal lists) or
    zero-based (exercise list). */
module Paging {

  /** `Math.ceil(n / k)` for a positive page size. */
  function CeilDiv(n: nat, k: nat): (r: nat)
    requires k > 0
    ensures n <= r * k
    ensures r == 0 || (r - 1) * k < n
    ensures n == 0 <==> r == 0
  {
    var r := (n + k - 1) / k;
    assert r * k <= n + k - 1 < r * k + k;
    r
  }

  /** How `slice` turns an index into a position: negative counts from the end. */
  function Resolve(i: int, len: nat): (r: nat)
    ensures r <= len
    ensures 0 <= i <= len ==> r == i
    ensures i > len ==> r == len
  {
    if i < 0 then (if len + i < 0 then 0 else len + i)
    else if i > len then len
    else i
  }

  /** `s.slice(a, b)`. */
  function JsSlice<T>(s: seq<T>, a: int, b: int): (r: seq<T>)
    ensures |r| <= |s|
    ensures 0 <= a <= b ==> r == s[Resolve(a, |s|)..Resolve(b, |s|)]
  {
    var lo, hi := Resolve(a, |s|), Resolve(b, |s|);
    if lo < hi then s[lo..hi] else []
  }

  /** Page `page` (counting from 1) of `perPage` items:
      `s.slice(page * perPage - perPage, page * perPage)`. */
  function PageOneBased<T>(s: seq<T>, page: int, perPage: nat): seq<T>
    requires perPage > 0
  {
    JsSlice(s, page * perPage - perPage, page * perPage)
  }

  /** Page `page` (counting from 0): `s.slice(page * perPage, page * perPage + perPage)`. */
  function PageZeroBased<T>(s: seq<T>, page: int, perPage: nat): seq<T>
    requires perPage > 0
  {
    JsSlice(s, page * perPage, page * perPage + perPage)
  }

  function TotalPages(n: nat, perPage: nat): nat
    requires perPage > 0
  {
    CeilDiv(n, perPage)
  }

  /** Page p >= 1 is the window [(p-1)k, pk) of the list, cut at its end;
      it holds at most k items, and it is non-empty exactly for p <= TotalPages. */
  lemma PageOneBasedWindow<T>(s: seq<T>, page: int, perPage: nat)
    requires perPage > 0 && page >= 1
    ensures var lo := if (page - 1) * perPage <= |s| then (page - 1) * perPage else |s|;
            var hi := if page * perPage <= |s| then page * perPage else |s|;
            PageOneBased(s, page, perPage) == s[lo..hi]
    ensures |PageOneBased(s, page, perPage)| <= perPage
    ensures PageOneBased(s, page, perPage) != [] <==> page <= TotalPages(|s|, perPage)
  {
    var a := page * perPage - perPage;
    var b := page * perPage;
    assert a == (page - 1) * perPage;
    MulMonotone(1, page, perPage);
    assert 0 <= a <= b;
    var t := TotalPages(|s|, perPage);
    if page <= t {
      MulMonotone(page - 1, t - 1, perPage);
      assert a < |s|;
    } else {
      MulMonotone(t, page - 1, perPage);
      assert a >= |s|;
    }
  }

  lemma MulMonotone(a: int, b: int, k: nat)
    requires a <= b
    ensures a * k <= b * k
  {
  }

  /** The zero-based page p is the one-based page p + 1. */
  lemma ZeroBasedIsShiftedOneBased<T>(s: seq<T>, page: int, perPage: nat)
    requires perPage > 0
    ensures PageZeroBased(s, page, perPage) == PageOneBased(s, page + 1, perPage)
  {
    assert (page + 1) * perPage - perPage == page * perPage;
    assert (page + 1) * perPage == page * perPage + perPage;
  }

  /** Pages 1..m laid end to end. */
  function PagesUpTo<T>(s: seq<T>, perPage: nat, m: nat): seq<T>
    requires perPage > 0
  {
    if m == 0 then [] else PagesUpTo(s, perPage, m - 1) + PageOneBased(s, m, perPage)
  }

  lemma {:induction false} PagesUpToIsPrefix<T>(s: seq<T>, perPage: nat, m: nat)
    requires perPage > 0
    ensures PagesUpTo(s, perPage, m) == s[..if m * perPage <= |s| then m * perPage else |s|]
  {
    if m > 0 {
      PagesUpToIsPrefix(s, perPage, m - 1);
      PageOneBasedWindow(s, m, perPage);
      assert (m - 1) * perPage + perPage == m * perPage;
    }
  }

  /** Reading every page in order gives back the whole list, nothing lost or repeated. */
  lemma PagesCoverList<T>(s: seq<T>, perPage: nat)
    requires perPage > 0
    ensures PagesUpTo(s, perPage, TotalPages(|s|, perPage)) == s
  {
    PagesUpToIsPrefix(s, perPage, TotalPages(|s|, perPage));
  }
}
