/** The paging arithmetic of the listing handlers (myTransactions,
    getTransactions, getAllPayments): `page = parseInt(q.page) || 1`,
    `limit = parseInt(q.limit) || 10`, `skip = (page - 1) * limit` and
    `pages = Math.ceil(total / limit)`. A query value is None when it is
    absent or does not parse as a number (NaN). */
module Pagination {
  import opened Common

  const DefaultPage: int := 1
  const DefaultLimit: int := 10

  /** `parseInt(raw) || fallback`: NaN and 0 are falsy, so both give the fallback. */
  function OrDefault(raw: Option<int>, fallback: int): (v: int)
    requires fallback != 0
    ensures v != 0
    ensures raw.Some? && raw.value != 0 ==> v == raw.value
    ensures raw.None? || raw.value == 0 ==> v == fallback
  {
    if raw.Some? && raw.value != 0 then raw.value else fallback
  }

  function PageOf(raw: Option<int>): int { OrDefault(raw, DefaultPage) }

  function LimitOf(raw: Option<int>): int { OrDefault(raw, DefaultLimit) }

  function Skip(page: int, limit: int): int { (page - 1) * limit }

  /** `Math.ceil(a / b)` on integers. */
  function CeilDiv(a: int, b: int): (r: int)
    requires b != 0
    ensures b > 0 ==> (r - 1) * b < a <= r * b
    ensures b < 0 ==> r * b <= a < (r - 1) * b
  {
    if b > 0 then
      var q := (-a) / b;
      assert -a == q * b + (-a) % b;
      -q
    else
      var q := a / (-b);
      assert a == q * (-b) + a % (-b);
      -q
  }

  function PageCount(total: nat, limit: int): int
    requires limit != 0
  {
    CeilDiv(total, limit)
  }

  /** With the parsed page and limit both positive, the window starts at or
      after the first record, and there are never more pages than records. */
  lemma WindowBounds(total: nat, page: int, limit: int)
    requires page >= 1 && limit >= 1
    ensures Skip(page, limit) >= 0
    ensures 0 <= PageCount(total, limit) <= total
    ensures total > 0 ==> PageCount(total, limit) >= 1
  {
    var n := PageCount(total, limit);
    MulMonotone(0, page - 1, limit);
    if n < 0 {
      MulMonotone(n, -1, limit);
    }
    if n > total {
      MulMonotone(total, n - 1, limit);
      MulMonotone(1, limit, total);
    }
    if total > 0 && n < 1 {
      MulMonotone(n, 0, limit);
    }
  }

  /** For a positive limit the pages 1 .. PageCount(total, limit) split the
      records 0 .. total - 1: record k lies in the window of page k / limit + 1,
      which is in range, and in the window of no other page. */
  lemma PagesPartitionRecords(total: nat, limit: int, k: nat, page: int)
    requires limit >= 1 && k < total
    ensures var p := k / limit + 1;
      && 1 <= p <= PageCount(total, limit)
      && Skip(p, limit) <= k < Skip(p, limit) + limit
    ensures Skip(page, limit) <= k < Skip(page, limit) + limit ==> page == k / limit + 1
  {
    var p := k / limit + 1;
    var n := PageCount(total, limit);
    assert k == (k / limit) * limit + k % limit;
    assert Skip(p, limit) == (k / limit) * limit;
    assert k < n * limit;
    if p > n {
      MulMonotone(n, p - 1, limit);
    }
    if Skip(page, limit) <= k < Skip(page, limit) + limit {
      if page < p {
        MulMonotone(page, p - 1, limit);
      } else if page > p {
        MulMonotone(p, page - 1, limit);
      }
    }
  }

  lemma MulMonotone(a: int, b: int, c: int)
    requires a <= b && c >= 0
    ensures a * c <= b * c
  {
    assert b * c - a * c == (b - a) * c;
  }
}
