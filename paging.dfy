/**
 * Local paging of a list already fetched in full: page `p` (counted from 1) is the
 * slice `[(p - 1) * size, p * size)`, and a page is the last when the list ends
 * within it.
 */
module Paging {
  import opened JsString

  /** `list.slice((page - 1) * size, page * size)` */
  function Page<T>(list: seq<T>, page: int, size: nat): (r: seq<T>)
    ensures |r| <= size
    ensures page >= 1 && page * size <= |list| ==> r == list[(page - 1) * size..page * size]
  {
    Slice(list, (page - 1) * size, page * size)
  }

  /** `list.length <= page * size`: no element lies after this page. */
  predicate LastPage<T>(list: seq<T>, page: int, size: nat) {
    |list| <= page * size
  }

  /** Pages `page`, `page + 1`, ... laid end to end, stopping after the first last page. */
  function PagesFrom<T>(list: seq<T>, page: nat, size: nat): seq<T>
    requires page >= 1 && size > 0
    decreases |list| - (page - 1) * size
  {
    if LastPage(list, page, size) then Page(list, page, size)
    else Page(list, page, size) + PagesFrom(list, page + 1, size)
  }

  /** Reading page after page until the last page gives back what remains of the list. */
  lemma {:induction false} PagesFromRest<T>(list: seq<T>, page: nat, size: nat)
    requires page >= 1 && size > 0 && (page - 1) * size <= |list|
    ensures PagesFrom(list, page, size) == list[(page - 1) * size..]
    decreases |list| - (page - 1) * size
  {
    var lo := (page - 1) * size;
    var hi := page * size;
    assert hi == lo + size;
    SliceWithin(list, lo, hi);
    if !LastPage(list, page, size) {
      assert Page(list, page, size) == list[lo..hi];
      assert (page + 1 - 1) * size == hi;
      PagesFromRest(list, page + 1, size);
      assert list[lo..] == list[lo..hi] + list[hi..];
    } else {
      assert Page(list, page, size) == list[lo..];
    }
  }

  /** Reading from page 1 until the last page yields the whole list, in order, each item once. */
  lemma {:induction false} PagesCoverList<T>(list: seq<T>, size: nat)
    requires size > 0
    ensures PagesFrom(list, 1, size) == list
  {
    PagesFromRest(list, 1, size);
  }

  /** A page after the last page is empty. */
  lemma {:induction false} PastLastPageEmpty<T>(list: seq<T>, page: int, size: nat)
    requires LastPage(list, page - 1, size)
    ensures Page(list, page, size) == []
  {
  }
}
