/**
 * Fixed-size, 1-based pages over an ordered result: `skip (page - 1) * 10,
 * take 10`, and the page count `Math.ceil(count / 10)`.
 */
module Pagination {

  const PageSize: nat := 10

  function Min(a: int, b: int): int { if a <= b then a else b }

  /** How many rows a page skips. */
  function Offset(page: int): int { (page - 1) * PageSize }

  /** Page `page` of `s`; a page past the end is empty rather than an error. */
  function PageOf<T>(s: seq<T>, page: int): (p: seq<T>)
    requires page >= 1
    ensures |p| <= PageSize
    ensures |p| == if Offset(page) >= |s| then 0 else Min(PageSize, |s| - Offset(page))
    ensures forall k :: 0 <= k < |p| ==> p[k] == s[Offset(page) + k]
  {
    s[Min(Offset(page), |s|)..Min(Offset(page) + PageSize, |s|)]
  }

  /** `Math.ceil(n / PageSize)`: the fewest pages that hold `n` rows. */
  function TotalPages(n: nat): (r: nat)
    ensures r * PageSize >= n
    ensures r > 0 ==> (r - 1) * PageSize < n
  {
    (n + PageSize - 1) / PageSize
  }

  /** Every page from 1 to the last is non-empty; every page after it is empty. */
  lemma PageEmptyExactlyPastLast<T>(s: seq<T>, page: int)
    requires page >= 1
    ensures PageOf(s, page) == [] <==> page > TotalPages(|s|)
  {
    var t := TotalPages(|s|);
    if page > t {
      assert page - 1 >= t;
      assert Offset(page) >= t * PageSize;
    } else {
      assert page - 1 <= t - 1;
      assert Offset(page) <= (t - 1) * PageSize;
    }
  }

  /** Pages 1 to `k`, concatenated. */
  function Pages<T>(s: seq<T>, k: nat): seq<T> {
    if k == 0 then [] else Pages(s, k - 1) + PageOf(s, k)
  }

  /** The rows that `page` gives for pages 1 to `k`, one page after another. */
  function PagesBy<T>(page: nat -> seq<T>, k: nat): seq<T> {
    if k == 0 then [] else PagesBy(page, k - 1) + page(k)
  }

  /** Pages produced page by page as `PageOf` would produce them concatenate to `Pages`. */
  lemma {:induction false} PagesByAgree<T>(page: nat -> seq<T>, s: seq<T>, k: nat)
    requires forall j :: 1 <= j <= k ==> page(j) == PageOf(s, j)
    ensures PagesBy(page, k) == Pages(s, k)
  {
    if k > 0 {
      PagesByAgree(page, s, k - 1);
    }
  }

  /** The first `k` pages are exactly the first `k * PageSize` rows. */
  lemma {:induction false} PagesArePrefix<T>(s: seq<T>, k: nat)
    ensures Pages(s, k) == s[..Min(k * PageSize, |s|)]
  {
    if k > 0 {
      PagesArePrefix(s, k - 1);
      var lo, hi := Min((k - 1) * PageSize, |s|), Min(k * PageSize, |s|);
      assert PageOf(s, k) == s[lo..hi];
      assert s[..lo] + s[lo..hi] == s[..hi];
    }
  }

  /** Pages 1 to TotalPages, concatenated, give back the whole result with nothing lost or repeated. */
  lemma AllPagesGiveEverything<T>(s: seq<T>)
    ensures Pages(s, TotalPages(|s|)) == s
  {
    PagesArePrefix(s, TotalPages(|s|));
    assert s[..|s|] == s;
  }
}
