/**
 * Client-side pagination shared by the positions table (10 rows a page) and
 * the trade history (20 rows a page): `Math.ceil(n / size)` pages, page `p`
 * is `list.slice((p - 1) * size, p * size)`, and the Prev/Next buttons clamp
 * the page number with `Math.max(1, p - 1)` and `Math.min(totalPages, p + 1)`.
 */
module Paging {

  /** How `Array.prototype.slice` normalises an index: negative counts from the end, then clamp to [0, len]. */
  function ClampIndex(i: int, len: nat): (r: nat)
    ensures r <= len
    ensures 0 <= i <= len ==> r == i
    ensures i > len ==> r == len
    ensures i < 0 ==> r == (if len + i < 0 then 0 else len + i)
  {
    if i < 0 then (if len + i < 0 then 0 else len + i)
    else if i > len then len
    else i
  }

  /** `s.slice(start, end)`. */
  function Slice<T>(s: seq<T>, start: int, end: int): (r: seq<T>)
    ensures 0 <= start <= end ==> |r| <= end - start
    ensures 0 <= start <= |s| && start <= end ==> r == s[start..if end <= |s| then end else |s|]
    ensures start >= |s| ==> r == []
  {
    var lo := ClampIndex(start, |s|);
    var hi := ClampIndex(end, |s|);
    if lo < hi then s[lo..hi] else []
  }

  /** `Math.ceil(n / size)`. */
  function TotalPages(n: nat, size: nat): (r: nat)
    requires size > 0
    ensures n <= r * size
    ensures r > 0 ==> (r - 1) * size < n
    ensures r == 0 <==> n == 0
  {
    (n + size - 1) / size
  }

  /** The rows of page `page` (1-based). */
  function Page<T>(s: seq<T>, page: int, size: nat): (r: seq<T>)
    requires size > 0
    ensures |r| <= size
    ensures page >= 1 && (page - 1) * size < |s| ==> |r| > 0
    ensures page >= 1 && page * size <= |s| ==> r == s[(page - 1) * size..page * size]
  {
    Slice(s, (page - 1) * size, page * size)
  }

  /** A page holds only rows of the list, each at most as often as the list does. */
  lemma PageIsSubMultiset<T>(s: seq<T>, page: int, size: nat)
    requires size > 0
    ensures multiset(Page(s, page, size)) <= multiset(s)
  {
    var lo := ClampIndex((page - 1) * size, |s|);
    var hi := ClampIndex(page * size, |s|);
    if lo < hi {
      assert s == s[..lo] + s[lo..hi] + s[hi..];
    }
  }

  /** Pages 1 to k laid end to end. */
  function Pages<T>(s: seq<T>, size: nat, k: nat): seq<T>
    requires size > 0
  {
    if k == 0 then [] else Pages(s, size, k - 1) + Page(s, k, size)
  }

  /** The first k pages are the prefix of the list they cover. */
  lemma {:induction false} PagesArePrefix<T>(s: seq<T>, size: nat, k: nat)
    requires size > 0
    ensures Pages(s, size, k) == s[..if k * size <= |s| then k * size else |s|]
  {
    if k > 0 {
      PagesArePrefix(s, size, k - 1);
      var lo := if (k - 1) * size <= |s| then (k - 1) * size else |s|;
      var hi := if k * size <= |s| then k * size else |s|;
      assert (k - 1) * size <= k * size;
      assert Page(s, k, size) == s[lo..hi];
      assert s[..lo] + s[lo..hi] == s[..hi];
    }
  }

  /** Pages 1 to totalPages together are exactly the list, with every row in order. */
  lemma PagesCoverList<T>(s: seq<T>, size: nat)
    requires size > 0
    ensures Pages(s, size, TotalPages(|s|, size)) == s
  {
    PagesArePrefix(s, size, TotalPages(|s|, size));
  }

  /** The Prev button: `Math.max(1, p - 1)`. */
  function Prev(page: int): (r: int)
    ensures r >= 1
    ensures page > 1 ==> r == page - 1
    ensures page <= 1 ==> r == 1
  {
    if page - 1 < 1 then 1 else page - 1
  }

  /** The Next button: `Math.min(totalPages, p + 1)`. */
  function Next(page: int, total: nat): (r: int)
    ensures r <= total
    ensures page < total ==> r == page + 1
    ensures page >= total ==> r == total
  {
    if page + 1 < total then page + 1 else total
  }

  /** The pagination controls render only when there is more than one page. */
  predicate ShowControls(total: nat) {
    total > 1
  }

  /** From any page in range, Prev and Next stay in range, and each undoes the other away from the edges. */
  lemma ClampsKeepRange(page: int, total: nat)
    requires 1 <= page <= total
    ensures 1 <= Prev(page) <= total && 1 <= Next(page, total) <= total
    ensures page > 1 ==> Next(Prev(page), total) == page
    ensures page < total ==> Prev(Next(page, total)) == page
  {
  }

  /** On a page in range, the table is empty (and shows its placeholder row) exactly when the list is empty. */
  lemma EmptyPageIffEmptyList<T>(s: seq<T>, page: int, size: nat)
    requires size > 0
    requires 1 <= page <= (if TotalPages(|s|, size) == 0 then 1 else TotalPages(|s|, size))
    ensures |Page(s, page, size)| == 0 <==> |s| == 0
  {
    var total := TotalPages(|s|, size);
    if |s| > 0 {
      assert (page - 1) * size <= (total - 1) * size;
    }
  }
}
