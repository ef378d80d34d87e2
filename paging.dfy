/** The pagination arithmetic shared by `getAllBrands` and `getAllPages`. */
module Paging {
  import opened Js

  /** `parseInt(q) || fallback`: NaN (also what an absent parameter parses to) and 0 are falsy. */
  function QueryInt(q: Option<string>, fallback: int): int
  {
    if q.None? then fallback
    else
      match ParseInt(q.value)
      case None => fallback
      case Some(n) => if n == 0 then fallback else n
  }

  /** With a non-zero fallback the value is never 0, so it can always be divided by. */
  lemma QueryIntNonZero(q: Option<string>, fallback: int)
    requires fallback != 0
    ensures QueryInt(q, fallback) != 0
  {
  }

  /** A positive decimal number is taken as written; "0" and an absent parameter give the fallback. */
  lemma QueryIntOfNumber(n: nat, fallback: int)
    ensures n != 0 ==> QueryInt(Some(NatToString(n)), fallback) == n
    ensures n == 0 ==> QueryInt(Some(NatToString(n)), fallback) == fallback
    ensures QueryInt(None, fallback) == fallback
  {
    ParseIntOfNatToString(n);
  }

  /** A parameter that does not start with a sign, a digit or white space gives the fallback. */
  lemma QueryIntOfNonNumeric(junk: string, fallback: int)
    requires junk == [] || (!IsRadixDigit(junk[0], 10) && !IsWhiteSpace(junk[0]) && junk[0] != '-' && junk[0] != '+')
    ensures QueryInt(Some(junk), fallback) == fallback
  {
    assert TrimStart(junk) == junk;
    assert DigitPrefix(junk, 10) == [];
    assert ParseDigits(junk) == None;
  }

  /** `Math.ceil(a / b)` on integers: the least multiple count reaching `a` (for b > 0). */
  function CeilDiv(a: int, b: int): (r: int)
    requires b != 0
    ensures b > 0 ==> (r - 1) * b < a <= r * b
    ensures b < 0 ==> r * b <= a < (r - 1) * b
  {
    if b > 0 then
      var q := (-a) / b;
      assert q * b <= -a < q * b + b;
      -q
    else
      var q := a / (-b);
      assert q * (-b) <= a < q * (-b) + (-b);
      -q
  }

  /** The `pagination` object of the list response, with the `skip` used in the query. */
  datatype Pagination = Pagination(total: nat, page: int, limit: int, skip: int, totalPages: int)

  /**
   * `page = parseInt(query.page) || 1`, `limit = parseInt(query.limit) || 10`,
   * `skip = (page - 1) * limit`, `totalPages = Math.ceil(total / limit)`.
   */
  function Paginate(pageQuery: Option<string>, limitQuery: Option<string>, total: nat): (p: Pagination)
    ensures p.total == total && p.page != 0 && p.limit != 0
  {
    QueryIntNonZero(limitQuery, 10);
    PaginationOf(QueryInt(pageQuery, 1), QueryInt(limitQuery, 10), total)
  }

  /** The pagination for a page number and a page size already read from the query. */
  function PaginationOf(page: int, limit: int, total: nat): Pagination
    requires limit != 0
  {
    Pagination(total, page, limit, (page - 1) * limit, CeilDiv(total, limit))
  }

  /** With no query parameters: page 1 of 10 documents, skipping none. */
  lemma PaginateDefaults(total: nat)
    ensures var p := Paginate(None, None, total);
      p.page == 1 && p.limit == 10 && p.skip == 0 && p.totalPages == (total + 9) / 10
  {
  }

  /**
   * For a positive page and limit, `totalPages` pages of `limit` cover all `total`
   * documents and one page fewer does not, and the requested page starts inside the
   * collection exactly when its number is at most `totalPages`.
   */
  lemma PagesCoverTotal(page: int, limit: int, total: nat)
    requires page >= 1 && limit >= 1
    ensures var p := PaginationOf(page, limit, total);
      && (p.totalPages - 1) * p.limit < total <= p.totalPages * p.limit
      && p.skip >= 0
      && (p.skip < total <==> p.page <= p.totalPages)
  {
    var n := CeilDiv(total, limit);
    MulMonotone(0, page - 1, limit);
    if page <= n {
      MulMonotone(page - 1, n - 1, limit);
    } else {
      MulMonotone(n, page - 1, limit);
    }
  }

  lemma MulMonotone(a: int, b: int, c: int)
    requires a <= b && c >= 0
    ensures a * c <= b * c
  {
    assert b * c - a * c == (b - a) * c;
  }

  /** A negative page number is not rejected: `page=-n` yields `skip = (-n - 1) * limit`. */
  lemma NegativePageSkipsBackwards(n: nat, total: nat)
    requires n != 0
    ensures var p := Paginate(Some("-" + NatToString(n)), None, total);
      p.page == -(n as int) && p.limit == 10 && p.skip == (-(n as int) - 1) * 10 < 0
  {
    ParseIntOfNatToString(n);
  }
}
