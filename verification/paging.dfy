/** Page arithmetic of the selected-playlist view: the page-aligned upper
    bound computed when a playlist finishes loading, and the offset steps of
    the Right and Left keys. The page size is `PAGE_SIZE` of the song
    database crate, whose value is not part of this model: every fact below
    holds for any positive page size. */
module Paging {
  import opened Base

  type Positive = n: nat | n > 0 witness 1

  /** A positive `usize`: the type of the page size and of a page's length. */
  type PageSize = n: Positive | n <= USIZE_MAX witness 1

  /** The song database's page size; only that it is a positive `usize` is
      known. */
  const PAGE_SIZE: PageSize

  predicate Aligned(x: nat, p: Positive) {
    x % p == 0
  }

  /** `((len + page_size - 1) / page_size) * page_size`: the item count rounded
      up to a whole number of pages. */
  function PageCount(n: nat, p: Positive): (r: nat)
    ensures Aligned(r, p)
    ensures n <= r < n + p
  {
    var r := ((n + p - 1) / p) * p;
    DivMulAligned(n + p - 1, p);
    r
  }

  lemma DivMulAligned(x: nat, p: Positive)
    ensures (x / p) * p % p == 0
    ensures x - p < (x / p) * p <= x
  {
    var q := x / p;
    assert x == q * p + x % p;
    MulMod(q, p);
  }

  /** Euclidean division by a positive divisor has one quotient and one
      remainder. */
  lemma DivModUnique(x: nat, p: Positive, q: int, r: int)
    requires 0 <= r < p && x == q * p + r
    ensures q == x / p && r == x % p
  {
    var q', r' := x / p, x % p;
    assert x == q' * p + r';
    if q > q' {
      assert (q - q') * p == r' - r;
      MulAtLeast(q - q', p);
    } else if q' > q {
      assert (q' - q) * p == r - r';
      MulAtLeast(q' - q, p);
    }
  }

  lemma MulMod(q: nat, p: Positive)
    ensures (q * p) % p == 0
  {
    DivModUnique(q * p, p, q, 0);
  }

  /** The aligned number nearest above `n` is unique: an aligned `r` with
      `n <= r < n + p` is the page count of `n`. */
  lemma PageCountUnique(n: nat, p: Positive, r: nat)
    requires Aligned(r, p) && n <= r < n + p
    ensures r == PageCount(n, p)
  {
    var c := PageCount(n, p);
    AlignedGap(r, c, p);
  }

  /** Two aligned numbers less than `p` apart are equal. */
  lemma AlignedGap(a: nat, b: nat, p: Positive)
    requires Aligned(a, p) && Aligned(b, p)
    requires a - b < p && b - a < p
    ensures a == b
  {
    var qa, qb := a / p, b / p;
    assert a == qa * p;
    assert b == qb * p;
    if qa > qb {
      assert a - b == (qa - qb) * p;
      MulAtLeast(qa - qb, p);
    } else if qb > qa {
      assert b - a == (qb - qa) * p;
      MulAtLeast(qb - qa, p);
    }
  }

  lemma MulAtLeast(k: int, p: Positive)
    requires k >= 1
    ensures k * p >= p
  {
  }

  /** An item count that is already a whole number of pages is unchanged. */
  lemma PageCountOfAligned(n: nat, p: Positive)
    requires Aligned(n, p)
    ensures PageCount(n, p) == n
  {
    PageCountUnique(n, p, n);
  }

  /** The page count is zero exactly for an empty playlist. */
  lemma PageCountZeroIff(n: nat, p: Positive)
    ensures PageCount(n, p) == 0 <==> n == 0
  {
  }

  /** `(offset + PAGE_SIZE).min(max_page)`: one page on, but never past the
      page count. */
  function NextOffset(offset: nat, p: Positive, maxPage: nat): (r: nat)
    ensures r <= maxPage && r <= offset + p
    ensures r == offset + p || r == maxPage
  {
    if offset + p < maxPage then offset + p else maxPage
  }

  /** `(offset as i64 - PAGE_SIZE as i64).max(0) as usize`: one page back, but
      never below zero. */
  function PrevOffset(offset: nat, p: Positive): (r: nat)
    ensures r <= offset
    ensures offset >= p ==> r == offset - p
    ensures offset < p ==> r == 0
  {
    if offset >= p then offset - p else 0
  }

  /** Both steps keep an aligned offset aligned when the bound is aligned. */
  lemma StepsKeepAlignment(offset: nat, p: Positive, maxPage: nat)
    requires Aligned(offset, p) && Aligned(maxPage, p)
    ensures Aligned(NextOffset(offset, p, maxPage), p)
    ensures Aligned(PrevOffset(offset, p), p)
  {
    MulMod(offset / p + 1, p);
    assert offset + p == (offset / p + 1) * p;
    if offset >= p {
      MulMod(offset / p - 1, p);
      assert offset - p == (offset / p - 1) * p;
    }
  }

  /** A forward step that moved, from an offset within the bound, advanced by
      exactly one page; so the backward step undoes it. */
  lemma ForwardThenBack(offset: nat, p: Positive, maxPage: nat)
    requires Aligned(offset, p) && Aligned(maxPage, p)
    requires offset <= maxPage
    requires NextOffset(offset, p, maxPage) != offset
    ensures NextOffset(offset, p, maxPage) == offset + p
    ensures PrevOffset(NextOffset(offset, p, maxPage), p) == offset
  {
    if offset + p > maxPage {
      AlignedGap(offset, maxPage, p);
    }
  }

  /** The forward step cannot move from the bound itself, nor the backward
      step from zero. */
  lemma StepsAtBoundaries(p: Positive, maxPage: nat)
    ensures NextOffset(maxPage, p, maxPage) == maxPage
    ensures PrevOffset(0, p) == 0
  {
  }

  /** Seven items on pages of five: the bound is ten, the first forward step
      goes to five, and the second is not blocked but goes on to ten, the
      bound itself, where no item is left to show. */
  lemma SevenItemsOnPagesOfFive()
    ensures PageCount(7, 5) == 10
    ensures NextOffset(0, 5, 10) == 5
    ensures NextOffset(5, 5, 10) == 10
  {
  }
}
