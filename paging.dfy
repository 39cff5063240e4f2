/** Page arithmetic shared by the history screens: `Math.ceil(n / size)` pages, the
    page `slice((page - 1) * size, page * size)`, the list of page numbers and the
    two navigation rules (clamp, or ignore an out-of-range page). */
module Paging {
  import opened Seqs
  import Ratios

  /** `Math.ceil(n / size)`: the fewest pages of `size` items that hold `n` items. */
  function TotalPages(n: nat, size: nat): (r: nat)
    requires size > 0
    ensures r == 0 <==> n == 0
    ensures n <= r * size
    ensures r > 0 ==> (r - 1) * size < n
  {
    if n == 0 then 0
    else
      var q := (n - 1) / size;
      assert q * size <= n - 1 < q * size + size;
      q + 1
  }

  /** `s.slice((page - 1) * size, (page - 1) * size + size)` for a page number that is
      never negative; page 0 gives the empty slice, as JavaScript's `slice(-size, 0)` does. */
  function Page<T>(s: seq<T>, page: nat, size: nat): (r: seq<T>)
    requires size > 0
    ensures |r| <= size
    ensures page >= 1 && (page - 1) * size < |s| ==> r == s[(page - 1) * size..Min(page * size, |s|)]
    ensures page == 0 || (page - 1) * size >= |s| ==> r == []
  {
    if page == 0 then []
    else
      var start := (page - 1) * size;
      assert start + size == page * size;
      if start >= |s| then [] else s[start..Min(start + size, |s|)]
  }

  /** Pages 1..k laid end to end. */
  function PagesUpTo<T>(s: seq<T>, size: nat, k: nat): seq<T>
    requires size > 0
  {
    if k == 0 then [] else PagesUpTo(s, size, k - 1) + Page(s, k, size)
  }

  /** The first `k` pages are exactly the first `k * size` items. */
  lemma {:induction false} PagesUpToPrefix<T>(s: seq<T>, size: nat, k: nat)
    requires size > 0
    ensures PagesUpTo(s, size, k) == s[..Min(k * size, |s|)]
  {
    if k > 0 {
      PagesUpToPrefix(s, size, k - 1);
      var start := (k - 1) * size;
      assert start + size == k * size;
      SliceAfterPrefix(s, start, start + size);
    }
  }

  /** The first `a` items followed by the items from `a` up to `b` (none once `a` is
      past the end) are the first `b` items. */
  lemma SliceAfterPrefix<T>(s: seq<T>, a: nat, b: nat)
    requires a <= b
    ensures s[..Min(a, |s|)] + (if a >= |s| then [] else s[a..Min(b, |s|)]) == s[..Min(b, |s|)]
  {
  }

  /** Reading the pages 1..TotalPages in order gives back the whole list: no item is
      lost, repeated or moved. */
  lemma PagesCoverList<T>(s: seq<T>, size: nat)
    requires size > 0
    ensures PagesUpTo(s, size, TotalPages(|s|, size)) == s
  {
    PagesUpToPrefix(s, size, TotalPages(|s|, size));
    assert s[..|s|] == s;
  }

  /** A page past the last one is empty. */
  lemma PagePastEndEmpty<T>(s: seq<T>, page: nat, size: nat)
    requires size > 0 && page > TotalPages(|s|, size)
    ensures Page(s, page, size) == []
  {
    var t := TotalPages(|s|, size);
    Ratios.MulLeMono(t, page - 1, size);
  }

  /** `Array.from({length: total}, (_, i) => i + 1)`. */
  function PageNumbers(total: nat): (r: seq<nat>)
    ensures |r| == total
  {
    seq(total, i requires 0 <= i < total => i + 1)
  }

  /** The page list holds exactly the numbers 1..total, each once and in increasing order. */
  lemma PageNumbersExact(total: nat)
    ensures forall p :: p in PageNumbers(total) <==> 1 <= p <= total
    ensures forall i, j :: 0 <= i < j < total ==> PageNumbers(total)[i] < PageNumbers(total)[j]
  {
    var r := PageNumbers(total);
    forall p | 1 <= p <= total ensures p in r {
      assert r[p - 1] == p;
    }
  }

  /** `Math.max(1, Math.min(page, total))`. */
  function ClampPage(page: int, total: nat): (r: int)
    ensures r >= 1
    ensures total >= 1 ==> r <= total
    ensures 1 <= page <= total ==> r == page
    ensures page > total >= 1 ==> r == total
    ensures page < 1 || total == 0 ==> r == 1
  {
    Max(1, Min(page, total))
  }
}
