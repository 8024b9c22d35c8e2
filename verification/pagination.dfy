/** The page arithmetic of the search handler: page clamping, offset, total pages. */
module Pagination {

  function Abs(x: int): nat {
    if x < 0 then -x else x
  }

  /** Go's integer `/`: the quotient truncated toward zero. */
  function GoDiv(a: int, b: int): (q: int)
    requires b != 0
    ensures Abs(a - q * b) < Abs(b)
    ensures a - q * b == 0 || (a - q * b > 0) == (a > 0)
  {
    var k: int := Abs(a) / Abs(b);
    TruncatedRemainder(a, b, k);
    if (a >= 0) == (b > 0) then k else -k
  }

  /**
   * With `k` the quotient of the magnitudes, the remainder left by the
   * signed quotient is the magnitudes' remainder, carrying the sign of `a`.
   */
  lemma TruncatedRemainder(a: int, b: int, k: int)
    requires b != 0 && k == Abs(a) / Abs(b)
    ensures var q := if (a >= 0) == (b > 0) then k else -k;
      a - q * b == if a >= 0 then Abs(a) % Abs(b) else -(Abs(a) % Abs(b))
    ensures a == 0 ==> Abs(a) % Abs(b) == 0
  {
    var B: int := Abs(b);
    var m: int := Abs(a) % B;
    assert Abs(a) == k * B + m;
    if a >= 0 && b > 0 {
      assert a - k * b == Abs(a) - k * B;
    } else if a >= 0 {
      assert (-k) * b == k * B;
      assert a - (-k) * b == Abs(a) - k * B;
    } else if b > 0 {
      assert (-k) * b == -(k * B);
      assert a - (-k) * b == -(Abs(a) - k * B);
    } else {
      assert k * b == -(k * B);
      assert a - k * b == -(Abs(a) - k * B);
    }
  }

  /** A page number below 1 is raised to 1; any other page is kept. */
  function NormalizePage(page: int): (p: int)
    ensures p >= 1
    ensures page >= 1 ==> p == page
    ensures page < 1 ==> p == 1
  {
    if page < 1 then 1 else page
  }

  /** The number of hits skipped before page `page`: `(page-1)*limit`. */
  function Offset(page: int, limit: int): (offset: int)
    ensures page >= 1 && limit >= 0 ==> offset >= 0
  {
    (page - 1) * limit
  }

  /** Consecutive pages start `limit` hits apart. */
  lemma PagesTile(page: int, limit: int)
    ensures Offset(page + 1, limit) == Offset(page, limit) + limit
  {
  }

  /** A multiple of a positive divisor divides back exactly. */
  lemma MultipleDivides(q: int, d: int)
    requires d > 0
    ensures (q * d) / d == q && (q * d) % d == 0
  {
    var o := q * d;
    var k, m := o / d, o % d;
    assert o == k * d + m && 0 <= m < d;
    assert (q - k) * d == m;
    if q - k >= 1 {
      assert false;
    } else if q - k <= -1 {
      assert false;
    }
  }

  /** With a positive limit the page can be read back from the offset. */
  lemma OffsetRecoversPage(page: int, limit: int)
    requires limit > 0
    ensures Offset(page, limit) % limit == 0
    ensures Offset(page, limit) / limit + 1 == page
  {
    MultipleDivides(page - 1, limit);
  }

  /**
   * `totalPages`: `(hits + limit - 1) / limit` when there are hits, otherwise
   * 0 (omitted from the response).  The division only happens when there are
   * hits, so a zero limit is fatal only then.
   */
  function TotalPages(hits: int, limit: int): (pages: int)
    requires hits > 0 ==> limit != 0
    ensures hits <= 0 ==> pages == 0
    ensures hits > 0 && limit > 0 ==> pages >= 1 && (pages - 1) * limit < hits <= pages * limit
  {
    if hits > 0 then
      var n := hits + limit - 1;
      assert limit > 0 ==> n == (n / limit) * limit + n % limit;
      GoDiv(n, limit)
    else 0
  }

  /** The page count is the least number of pages that holds all the hits. */
  lemma TotalPagesIsLeast(hits: int, limit: int, p: int)
    requires hits > 0 && limit > 0
    requires p * limit >= hits
    ensures TotalPages(hits, limit) <= p
  {
  }

  /** The last page starts before the last hit and the page after it starts past it. */
  lemma LastPageHoldsLastHit(hits: int, limit: int)
    requires hits > 0 && limit > 0
    ensures Offset(TotalPages(hits, limit), limit) < hits <= Offset(TotalPages(hits, limit) + 1, limit)
  {
  }
}
