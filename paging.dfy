/**
 * The page arithmetic of the remote image browser (UI.py, `get_image_page`): the
 * listing is shown newest-first, 60 entries per page, with a page count that is the
 * floor of the length over 60 plus one.
 */
module Paging {
  import opened Runtime
  import opened Text

  /** `num_images_per_page`. */
  const PageSize: nat := 60

  /** `length // 60 + 1`. */
  function MaxPageIndex(length: nat): (m: nat)
    ensures m >= 1
    ensures (m - 1) * PageSize <= length < m * PageSize
  {
    length / PageSize + 1
  }

  /**
   * The three boundary checks, in order: -1 stands for the last page, anything
   * below 1 becomes 1, anything above the last page becomes the last page.
   */
  function ResolvePageIndex(requested: int, maxPage: nat): (p: int)
    requires maxPage >= 1
    ensures 1 <= p <= maxPage
    ensures requested == -1 ==> p == maxPage
    ensures requested != -1 && requested < 1 ==> p == 1
    ensures 1 <= requested <= maxPage ==> p == requested
    ensures requested > maxPage ==> p == maxPage
  {
    var p1 := if requested == -1 then maxPage else requested;
    var p2 := if p1 < 1 then 1 else p1;
    if p2 > maxPage then maxPage else p2
  }

  /** `s[::-1]`. */
  function Reversed<T>(s: seq<T>): (r: seq<T>)
    ensures |r| == |s|
    ensures forall i :: 0 <= i < |s| ==> r[i] == s[|s| - 1 - i]
  {
    if |s| == 0 then [] else Reversed(s[1..]) + [s[0]]
  }

  /** Reversing twice gives the listing back. */
  lemma ReversedTwice<T>(s: seq<T>)
    ensures Reversed(Reversed(s)) == s
  {
  }

  /** The index of the first entry of page `page`, `(page - 1) * 60`. */
  function PageStart(page: int): nat
    requires page >= 1
  {
    (page - 1) * PageSize
  }

  /** `entries[idx_frm : idx_frm + 60]`. */
  function PageWindow<T>(entries: seq<T>, page: int): seq<T>
    requires page >= 1
  {
    Slice(entries, PageStart(page), PageStart(page) + PageSize)
  }

  /**
   * A page holds at most 60 entries: every entry of the listing from the page's
   * start on, up to 60, in listing order.
   */
  lemma {:induction false} PageWindowContents<T>(entries: seq<T>, page: int)
    requires page >= 1
    ensures var w, start := PageWindow(entries, page), PageStart(page);
      && |w| <= PageSize
      && |w| == (if start >= |entries| then 0 else Min(PageSize, |entries| - start))
      && forall i :: 0 <= i < |w| ==> w[i] == entries[start + i]
  {
  }

  /**
   * Pages 1 to the last page cover the listing exactly once: entry `k` is entry
   * `k % 60` of page `k / 60 + 1`, which is at most the last page.
   */
  lemma PagesCoverListing<T>(entries: seq<T>, k: nat)
    requires k < |entries|
    ensures var page := k / PageSize + 1;
      && page <= MaxPageIndex(|entries|)
      && k % PageSize < |PageWindow(entries, page)|
      && PageWindow(entries, page)[k % PageSize] == entries[k]
  {
    var page := k / PageSize + 1;
    assert PageStart(page) + k % PageSize == k;
    PageWindowContents(entries, page);
  }

  /**
   * The last page holds the `length % 60` remaining entries; when the length is a
   * multiple of 60 (zero included) it is an empty page after the full ones.
   */
  lemma {:induction false} LastPageSize<T>(entries: seq<T>)
    ensures |PageWindow(entries, MaxPageIndex(|entries|))| == |entries| % PageSize
    ensures |entries| % PageSize == 0 ==> PageWindow(entries, MaxPageIndex(|entries|)) == []
  {
    var m := MaxPageIndex(|entries|);
    assert PageStart(m) == |entries| - |entries| % PageSize;
    PageWindowContents(entries, m);
  }

  /** The page count the summary message shows, `(length + 1) // 60 + 1`. */
  function ShownPageCount(length: nat): (n: nat)
    ensures n >= 1
  {
    (length + 1) / PageSize + 1
  }

  /**
   * The shown count equals the last page index except when the length is one short
   * of a multiple of 60, where it claims one page more than can be reached.
   */
  lemma ShownPageCountAgainstMax(length: nat)
    ensures ShownPageCount(length) == MaxPageIndex(length) <==> length % PageSize != PageSize - 1
    ensures ShownPageCount(length) != MaxPageIndex(length) ==> ShownPageCount(length) == MaxPageIndex(length) + 1
  {
    var q, r := length / PageSize, length % PageSize;
    assert length == q * PageSize + r;
    if r == PageSize - 1 {
      assert length + 1 == (q + 1) * PageSize;
    } else {
      assert length + 1 == q * PageSize + (r + 1);
    }
  }
}
