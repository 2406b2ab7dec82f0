/** The arithmetic of the admin list endpoints: `skip = (page - 1) * limit`
    and `pages = Math.ceil(total / limit)`. */
module Pagination {
  import opened Types

  /** The number of documents skipped before page `page`. */
  function Skip(page: int, limit: int): int
  {
    (page - 1) * limit
  }

  /** `Math.ceil(total / limit)` for a non-zero limit, on integers. */
  function CeilDiv(total: nat, limit: int): (r: int)
    requires limit != 0
    ensures limit > 0 ==> r >= 0 && (r - 1) * limit < total <= r * limit
    ensures limit < 0 ==> r <= 0 && r * limit <= total < (r - 1) * limit
  {
    if limit > 0 then
      CeilUp(total, limit);
      (total + limit - 1) / limit
    else
      CeilUp(total, -limit);
      -(total / -limit)
  }

  /** Euclidean division facts behind `CeilDiv`, for a positive divisor. */
  lemma CeilUp(total: nat, d: int)
    requires d > 0
    ensures var q := (total + d - 1) / d; q >= 0 && (q - 1) * d < total <= q * d
    ensures var q := total / d; q >= 0 && q * d <= total < (q + 1) * d
  {
    var q := (total + d - 1) / d;
    var m := (total + d - 1) % d;
    assert total + d - 1 == q * d + m;
    assert (q - 1) * d == q * d - d;
    var q2 := total / d;
    var m2 := total % d;
    assert total == q2 * d + m2;
    assert (q2 + 1) * d == q2 * d + d;
  }

  /** The `pages` field: `None` stands for the non-finite value JavaScript
      computes when `limit` is 0 (serialised as null). */
  function Pages(total: nat, limit: int): Option<int>
  {
    if limit == 0 then None else Some(CeilDiv(total, limit))
  }

  /** With a positive limit, `pages` pages of `limit` items hold all `total`
      items, and one page fewer would not. */
  lemma PagesBound(total: nat, limit: int)
    requires limit > 0
    ensures Pages(total, limit).Some?
    ensures var pages := Pages(total, limit).value;
      pages * limit >= total && (total > 0 ==> (pages - 1) * limit < total)
  {
  }

  /** With a positive limit, the item at position `i` of the sorted result
      is on exactly one page: page `i / limit + 1`, which is within
      1..pages, and its window [skip, skip + limit) contains `i`. */
  lemma PageOfItem(total: nat, limit: int, i: nat, page: int)
    requires limit > 0 && i < total
    ensures var p := i / limit + 1;
      1 <= p <= CeilDiv(total, limit) && Skip(p, limit) <= i < Skip(p, limit) + limit
    ensures Skip(page, limit) <= i < Skip(page, limit) + limit ==> page == i / limit + 1
  {
    var p := i / limit + 1;
    var pages := CeilDiv(total, limit);
    assert i == (i / limit) * limit + i % limit;
    assert Skip(p, limit) == (i / limit) * limit;
    if p - 1 >= pages {
      MulMonotone(pages, p - 1, limit);
    }
    if Skip(page, limit) <= i < Skip(page, limit) + limit {
      if page < p {
        MulMonotone(page, p - 1, limit);
        assert false;
      } else if page > p {
        MulMonotone(p, page - 1, limit);
        assert false;
      }
    }
  }

  lemma MulMonotone(a: int, b: int, c: int)
    requires a <= b && c > 0
    ensures a * c <= b * c
  {
    assert b * c - a * c == (b - a) * c;
  }
}
