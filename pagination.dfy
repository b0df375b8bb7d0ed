/**
 * The pagination normaliser shared by the listing services, the page count
 * they report, and the slice of rows that `skip`/`take` select.
 */
module Pagination {
  import opened Common

  datatype SortOrder = Asc | Desc

  /** Pagination options as they arrive from the query string: every field may be absent. */
  datatype Options = Options(page: Option<int>, limit: Option<int>, sortBy: Option<string>, sortOrder: Option<string>)

  /** The normalised options. */
  datatype Pagination = Pagination(page: int, limit: int, skip: int, sortBy: Option<string>, sortOrder: SortOrder)

  /** Page metadata returned beside a listing. */
  datatype Meta = Meta(page: int, limit: int, totalDocs: nat, totalPages: nat)

  const DefaultPage: int := 1
  const DefaultLimit: int := 10

  /** `n && n > 0` for an optional number. */
  predicate Positive(n: Option<int>)
  {
    n.Some? && n.value > 0
  }

  function SortOrderName(o: SortOrder): string
  {
    match o
    case Asc => "asc"
    case Desc => "desc"
  }

  /** `calculatePagination`. */
  function Calculate(o: Options): (p: Pagination)
    ensures p.page >= 1 && p.limit >= 1 && p.skip >= 0
    ensures Positive(o.page) ==> p.page == o.page.value
    ensures !Positive(o.page) ==> p.page == DefaultPage
    ensures Positive(o.limit) ==> p.limit == o.limit.value
    ensures !Positive(o.limit) ==> p.limit == DefaultLimit
    ensures p.skip == (p.page - 1) * p.limit
    ensures p.sortBy == o.sortBy
    ensures p.sortOrder == Desc <==> o.sortOrder == Some("desc")
  {
    var page := if Positive(o.page) then o.page.value else DefaultPage;
    var limit := if Positive(o.limit) then o.limit.value else DefaultLimit;
    MulNonNegative(page - 1, limit);
    Pagination(page, limit, (page - 1) * limit, o.sortBy, if o.sortOrder == Some("desc") then Desc else Asc)
  }

  /** The options a normalised result stands for. */
  function AsOptions(p: Pagination): Options
  {
    Options(Some(p.page), Some(p.limit), p.sortBy, Some(SortOrderName(p.sortOrder)))
  }

  /** Normalising twice is normalising once. */
  lemma CalculateIdempotent(o: Options)
    ensures Calculate(AsOptions(Calculate(o))) == Calculate(o)
  {
  }

  /** `skip` always falls on a page boundary. */
  lemma SkipIsPageBoundary(o: Options)
    ensures Calculate(o).skip % Calculate(o).limit == 0
    ensures Calculate(o).skip / Calculate(o).limit == Calculate(o).page - 1
  {
    var p := Calculate(o);
    MulDiv(p.page - 1, p.limit);
  }

  lemma MulNonNegative(a: int, b: int)
    requires a >= 0 && b >= 0
    ensures a * b >= 0
  {
  }

  lemma MulDiv(q: int, d: int)
    requires q >= 0 && d >= 1
    ensures (q * d) % d == 0 && (q * d) / d == q
  {
    var n := q * d;
    var r, m := n / d, n % d;
    assert n == r * d + m && 0 <= m < d;
    assert (q - r) * d == m;
    if q - r >= 1 {
      MulMonotone(1, q - r, d);
    } else if q - r <= -1 {
      MulMonotone(q - r, -1, d);
    }
  }

  lemma MulMonotone(a: int, b: int, d: int)
    requires a <= b && d >= 0
    ensures a * d <= b * d
  {
    assert b * d - a * d == (b - a) * d;
    MulNonNegative(b - a, d);
  }

  /** `Math.ceil(total / limit)`. */
  function TotalPages(total: nat, limit: int): (r: nat)
    requires limit >= 1
    ensures r * limit >= total
    ensures r == 0 || (r - 1) * limit < total
  {
    var q := total / limit;
    assert total == q * limit + total % limit;
    if total % limit == 0 then q else q + 1
  }

  /** The page metadata `getAllUsers`, `getAthletes` and the fetch services return. */
  function PageMeta(p: Pagination, total: nat): (m: Meta)
    requires p.limit >= 1
    ensures m.page == p.page && m.limit == p.limit && m.totalDocs == total
    ensures m.totalPages == 0 <==> total == 0
    ensures m.totalPages * m.limit >= total
    ensures m.totalPages == 0 || (m.totalPages - 1) * m.limit < total
  {
    var r := TotalPages(total, p.limit);
    assert r >= 1 ==> (r - 1) * p.limit >= 0 by {
      if r >= 1 { MulNonNegative(r - 1, p.limit); }
    }
    Meta(p.page, p.limit, total, r)
  }

  /** The rows `findMany({skip, take: limit})` returns from an already ordered result. */
  function Window<T>(rows: seq<T>, p: Pagination): (w: seq<T>)
    requires p.skip >= 0 && p.limit >= 1
    ensures |w| <= p.limit
    ensures p.skip >= |rows| ==> w == []
    ensures p.skip < |rows| ==> |w| == if |rows| - p.skip < p.limit then |rows| - p.skip else p.limit
    ensures forall j :: 0 <= j < |w| ==> p.skip + j < |rows| && w[j] == rows[p.skip + j]
  {
    if p.skip >= |rows| then []
    else if |rows| - p.skip < p.limit then rows[p.skip..]
    else rows[p.skip..p.skip + p.limit]
  }

  /** A page is non-empty exactly when its number is at most the reported page count. */
  lemma {:induction false} NonEmptyPagesAreCounted<T>(rows: seq<T>, o: Options)
    ensures var p := Calculate(o);
            Window(rows, p) != [] <==> p.page <= PageMeta(p, |rows|).totalPages
  {
    var p := Calculate(o);
    var t := PageMeta(p, |rows|).totalPages;
    if p.page <= t {
      MulMonotone(p.page - 1, t - 1, p.limit);
    } else {
      MulMonotone(t, p.page - 1, p.limit);
    }
  }

  /** Every row is shown on exactly the page its index predicts. */
  lemma {:induction false} RowOnItsPage<T>(rows: seq<T>, i: nat, limit: int, sortBy: Option<string>, sortOrder: Option<string>)
    requires i < |rows| && limit >= 1
    ensures var p := Calculate(Options(Some(i / limit + 1), Some(limit), sortBy, sortOrder));
            i % limit < |Window(rows, p)| && Window(rows, p)[i % limit] == rows[i]
  {
    var p := Calculate(Options(Some(i / limit + 1), Some(limit), sortBy, sortOrder));
    assert i == (i / limit) * limit + i % limit;
    assert p.skip == (i / limit) * limit;
  }
}
