/**
 * The page-size rule shared by both exporters and the number of search
 * pages the offset loop requests (business.py, lines 130-141 and 241-252).
 */
module Paging {

  /** The number of records after capping, and the page size of every search request. */
  datatype PageSetting = PageSetting(records: int, limit: int)

  /**
   * The page-size rule: more than 1000 requested records are capped at
   * 1000, and a page holds all requested records when there are at most
   * 50 of them, 50 otherwise.
   */
  function PageSize(records: int): (p: PageSetting)
    ensures p.records <= 1000
    ensures p.records == if records > 1000 then 1000 else records
    ensures p.limit == if p.records <= 50 then p.records else 50
    ensures 1 <= p.records ==> 1 <= p.limit <= 50 && p.limit <= p.records
  {
    if records > 1000 then PageSetting(1000, 50)
    else if records <= 50 then PageSetting(records, records)
    else PageSetting(records, 50)
  }

  /** Python's `min` on two integers. */
  function Min(a: int, b: int): int {
    if a <= b then a else b
  }

  /** The number of iterations of `while offset < bound: ...; offset += step`. */
  function PageCount(offset: int, bound: int, step: int): nat
    requires offset < bound ==> step >= 1
    decreases bound - offset
  {
    if offset < bound then 1 + PageCount(offset + step, bound, step) else 0
  }

  /** A non-zero multiple of a positive step is at least one step away from zero. */
  lemma MultipleBound(d: int, step: int)
    requires step >= 1
    ensures d >= 1 ==> d * step >= step
    ensures d <= -1 ==> d * step <= -step
  {
    if d >= 1 {
      assert d * step == (d - 1) * step + step;
    } else if d <= -1 {
      assert d * step == (d + 1) * step - step;
    }
  }

  /** Division by a positive step is determined by the quotient-remainder decomposition. */
  lemma DivisionUnique(a: int, step: int, q: int, r: int)
    requires step >= 1 && 0 <= r < step && a == q * step + r
    ensures a / step == q
  {
    var q', r' := a / step, a % step;
    var d := q' - q;
    assert d * step == q' * step - q * step;
    MultipleBound(d, step);
  }

  /** The offset loop runs ceil((bound - offset) / step) times. */
  lemma {:induction false} PageCountIsCeiling(offset: int, bound: int, step: int)
    requires step >= 1 && offset <= bound
    ensures PageCount(offset, bound, step) == (bound - offset + step - 1) / step
    decreases bound - offset
  {
    var n := bound - offset;
    if n == 0 {
      DivisionUnique(step - 1, step, 0, step - 1);
    } else if n <= step {
      DivisionUnique(n + step - 1, step, 1, n - 1);
      assert PageCount(offset + step, bound, step) == 0;
    } else {
      PageCountIsCeiling(offset + step, bound, step);
      var q := (n - 1) / step;
      var r := (n - 1) % step;
      DivisionUnique(n - 1, step, q, r);
      DivisionUnique(n + step - 1, step, q + 1, r);
    }
  }
}
