/** Client-side pagination as the storefront (8 per page) and the order and customer
    tables (10 per page) do it: `Math.ceil(n / size)` pages, page `p` is the slice
    starting at `(p - 1) * size`, and the Previous / Next buttons clamp the page number. */
module Pagination {
  import opened Js

  /** `Math.ceil(n / size)` */
  function TotalPages(n: nat, size: nat): (r: nat)
    requires size > 0
    ensures n == 0 <==> r == 0
    ensures r > 0 ==> (r - 1) * size < n <= r * size
  {
    (n + size - 1) / size
  }

  /** The entries on page `page`: `s.slice((page - 1) * size, (page - 1) * size + size)`.
      (The customer table writes the same bounds as `page * size - size` and `page * size`.) */
  function Page<T>(s: seq<T>, page: int, size: nat): seq<T>
    requires size > 0
  {
    Slice(s, (page - 1) * size, (page - 1) * size + size)
  }

  function Min(a: int, b: int): int {
    if a < b then a else b
  }

  /** A page within range is the stretch of the list that starts at `(page - 1) * size`,
      holds at most `size` entries and is never empty. */
  lemma PageInRange<T>(s: seq<T>, page: int, size: nat)
    requires size > 0 && 1 <= page <= TotalPages(|s|, size)
    ensures Page(s, page, size) == s[(page - 1) * size..Min(page * size, |s|)]
    ensures 0 < |Page(s, page, size)| <= size
  {
    var n := TotalPages(|s|, size);
    var start := (page - 1) * size;
    MulLe(page - 1, n - 1, size);
    MulLe(0, page - 1, size);
    assert start + size == page * size;
    assert 0 <= start < |s|;
    SliceWithin(s, start, start + size);
  }

  lemma MulLe(a: int, b: int, c: nat)
    requires a <= b
    ensures a * c <= b * c
  {
    assert (b - a) * c >= 0;
  }

  /** Pages past the last one, and page 0, show nothing. */
  lemma PageOutOfRange<T>(s: seq<T>, page: int, size: nat)
    requires size > 0 && (page == 0 || page > TotalPages(|s|, size))
    ensures Page(s, page, size) == []
  {
    var n := TotalPages(|s|, size);
    if page > n {
      MulLe(n, page - 1, size);
      assert (page - 1) * size >= |s|;
    }
  }

  /** Pages 1 to k, one after the other. */
  function FirstPages<T>(s: seq<T>, k: nat, size: nat): seq<T>
    requires size > 0
  {
    if k == 0 then [] else FirstPages(s, k - 1, size) + Page(s, k, size)
  }

  lemma {:induction false} FirstPagesPrefix<T>(s: seq<T>, k: nat, size: nat)
    requires size > 0 && k <= TotalPages(|s|, size)
    ensures FirstPages(s, k, size) == s[..Min(k * size, |s|)]
  {
    if k > 0 {
      FirstPagesPrefix(s, k - 1, size);
      PageInRange(s, k, size);
      assert (k - 1) * size < |s|;
      assert Min((k - 1) * size, |s|) == (k - 1) * size;
      assert s[..(k - 1) * size] + s[(k - 1) * size..Min(k * size, |s|)] == s[..Min(k * size, |s|)];
    }
  }

  /** Reading every page in turn shows each entry exactly once, in order. */
  lemma PagesCoverList<T>(s: seq<T>, size: nat)
    requires size > 0
    ensures FirstPages(s, TotalPages(|s|, size), size) == s
  {
    var n := TotalPages(|s|, size);
    FirstPagesPrefix(s, n, size);
    assert Min(n * size, |s|) == |s|;
  }

  /** The Previous button: `Math.max(page - 1, 1)`. */
  function PrevPage(page: int): (r: int)
    ensures r >= 1
    ensures page > 1 ==> r == page - 1
    ensures page <= 1 ==> r == 1
  {
    if page - 1 > 1 then page - 1 else 1
  }

  /** The Next button: `Math.min(page + 1, totalPages)`. */
  function NextPage(page: int, totalPages: int): (r: int)
    ensures r <= totalPages
    ensures page < totalPages ==> r == page + 1
    ensures page >= totalPages ==> r == totalPages
  {
    if page + 1 < totalPages then page + 1 else totalPages
  }

  /** From a page within range, both buttons lead to a page within range. */
  lemma ButtonsStayInRange(page: int, totalPages: int)
    requires 1 <= page <= totalPages
    ensures 1 <= PrevPage(page) <= totalPages
    ensures 1 <= NextPage(page, totalPages) <= totalPages
  {
  }

  /** With nothing to show there are no pages, and Next moves from page 1 to page 0. */
  lemma NextWithNoPages<T>(size: nat)
    requires size > 0
    ensures TotalPages(0, size) == 0 && NextPage(1, TotalPages(0, size)) == 0
  {
  }
}
