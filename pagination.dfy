/**
  The arithmetic of `paginate_query`: how many rows to skip, how many pages
  the metadata reports, and which rows `LIMIT l OFFSET o` keeps.
*/
module Pagination {

  /** The `pagination` part of every list response. */
  datatype PaginationMeta = PaginationMeta(total: nat, page: int, limit: int, pages: int)

  /** Rows skipped before page `page`; pages count from 1. */
  function Offset(page: int, limit: int): nat
    requires page >= 1 && limit >= 1
  {
    (page - 1) * limit
  }

  lemma MulMonotone(a: int, b: int, limit: int)
    requires a <= b && limit >= 1
    ensures a * limit <= b * limit
  {
    var d := b - a;
    assert b * limit == a * limit + d * limit;
  }

  lemma CeilDivBounds(total: nat, limit: int)
    requires total > 0 && limit >= 1
    ensures var q := (total + limit - 1) / limit;
      (q - 1) * limit < total <= q * limit
  {
    var n := total + limit - 1;
    var q := n / limit;
    var r := n % limit;
    assert n == q * limit + r && 0 <= r < limit;
    assert (q - 1) * limit == q * limit - limit;
  }

  /** `math.ceil(n / d)` on the exact quotient. */
  function CeilDiv(n: nat, d: int): (q: int)
    requires d >= 1
    ensures n > 0 ==> q >= 1 && (q - 1) * d < n <= q * d
  {
    if n > 0 then
      CeilDivBounds(n, d);
      var q := (n + d - 1) / d;
      assert q >= 1 by {
        if q < 1 { MulMonotone(q, 0, d); }
      }
      q
    else (n + d - 1) / d
  }

  /** Page count reported by the metadata: the ceiling of `total / limit`, and 1 for an empty result. */
  function Pages(total: nat, limit: int): (pages: int)
    requires limit >= 1
    ensures pages >= 1
    ensures total == 0 ==> pages == 1
    ensures total > 0 ==> (pages - 1) * limit < total <= pages * limit
  {
    if total > 0 then CeilDiv(total, limit) else 1
  }

  /** The ceiling is the only page count with the bounds of `Pages`. */
  lemma PagesIsCeiling(total: nat, limit: int, p: int)
    requires limit >= 1 && total > 0
    requires (p - 1) * limit < total <= p * limit
    ensures p == Pages(total, limit)
  {
    var q := Pages(total, limit);
    if p < q {
      MulMonotone(p, q - 1, limit);
      assert false;
    } else if q < p {
      MulMonotone(q, p - 1, limit);
      assert false;
    }
  }

  /** The metadata `paginate_query` returns beside the rows. */
  function Meta(total: nat, page: int, limit: int): PaginationMeta
    requires limit >= 1
  {
    PaginationMeta(total, page, limit, Pages(total, limit))
  }

  function Min(a: int, b: int): int { if a <= b then a else b }

  /** The rows `LIMIT limit OFFSET offset` keeps of the ordered rows `s`. */
  function Window<T>(s: seq<T>, offset: nat, limit: nat): (w: seq<T>)
    ensures |w| == if offset >= |s| then 0 else Min(limit, |s| - offset)
    ensures forall k :: 0 <= k < |w| ==> w[k] == s[offset + k]
  {
    if offset >= |s| then [] else s[offset..Min(offset + limit, |s|)]
  }

  /**
    A page holds rows exactly when it is one of the `pages` pages the
    metadata announces; a later page is empty, with the same metadata.
  */
  lemma PageNonEmptyIff<T>(s: seq<T>, page: int, limit: int)
    requires page >= 1 && limit >= 1
    ensures |Window(s, Offset(page, limit), limit)| > 0
        <==> |s| > 0 && page <= Pages(|s|, limit)
  {
    var p := Pages(|s|, limit);
    if |s| > 0 {
      if page <= p {
        MulMonotone(page - 1, p - 1, limit);
      } else {
        MulMonotone(p, page - 1, limit);
      }
    }
  }

  /** Every row shows up on exactly one page: row `i` is item `i % limit` of page `i / limit + 1`. */
  lemma RowOnPage<T>(s: seq<T>, i: nat, limit: int)
    requires i < |s| && limit >= 1
    ensures Offset(i / limit + 1, limit) <= i < Offset(i / limit + 1, limit) + limit
    ensures Window(s, Offset(i / limit + 1, limit), limit)[i % limit] == s[i]
  {
    var q, r := i / limit, i % limit;
    assert i == q * limit + r && 0 <= r < limit;
    assert Offset(q + 1, limit) == q * limit;
  }

  /** Twelve matching rows, ten per page: page 2 holds the last two and the metadata says two pages. */
  lemma TwelveRowsSecondPage<T>(s: seq<T>)
    requires |s| == 12
    ensures |Window(s, Offset(2, 10), 10)| == 2
    ensures Meta(|s|, 2, 10) == PaginationMeta(12, 2, 10, 2)
  {
    PagesIsCeiling(12, 10, 2);
  }

  /** The page counts of the worked examples: 0 rows give 1 page, 25 and 30 rows give 3. */
  lemma PagesExamples()
    ensures Pages(0, 10) == 1 && Pages(25, 10) == 3 && Pages(30, 10) == 3
  {
    PagesIsCeiling(25, 10, 3);
    PagesIsCeiling(30, 10, 3);
  }
}
