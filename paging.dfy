/** The `page`/`limit` pagination shared by the contact, campaign and message-log listings:
    `find(query).limit(limit * 1).skip((page - 1) * limit)` for the rows and
    `Math.ceil(count / limit)` for the page count. */
module Paging {
  import opened Common

  /** `Math.ceil(total / limit)`. A limit of 0 gives no page count: the division yields
      `Infinity` (or `NaN` when `total` is 0 as well). */
  function PageCount(total: nat, limit: nat): (r: Option<nat>)
    ensures r.None? <==> limit == 0
    ensures r.Some? ==> total <= r.value * limit
    ensures r.Some? && r.value > 0 ==> (r.value - 1) * limit < total
    ensures r.Some? ==> (r.value == 0 <==> total == 0)
    decreases total
  {
    if limit == 0 then None
    else if total == 0 then Some(0)
    else if total <= limit then Some(1)
    else
      var rest := PageCount(total - limit, limit).value;
      assert (rest + 1) * limit == rest * limit + limit;
      Some(rest + 1)
  }

  /** The number of records `.skip((page - 1) * limit)` passes over. */
  function SkipCount(page: int, limit: nat): (r: int)
    ensures r < 0 <==> page < 1 && limit > 0
  {
    NegativeProduct(page - 1, limit);
    (page - 1) * limit
  }

  lemma NegativeProduct(a: int, b: nat)
    ensures a * b < 0 <==> a < 0 && b > 0
  {
    if a < 0 && b > 0 {
      assert a * b <= a;
    }
  }

  /** A nonlinear step kept apart so that the solver meets it in isolation. */
  lemma MulMonotone(a: nat, b: nat, c: nat)
    requires a <= b
    ensures a * c <= b * c
  {
  }

  /** The rows of one page. MongoDB treats a limit of 0 as "no limit" and rejects a
      negative skip (a page below 1 with a positive limit), which is the `None` case. */
  function Window<T>(items: seq<T>, page: int, limit: nat): (r: Option<seq<T>>)
    ensures r.None? <==> page < 1 && limit > 0
    ensures r.Some? ==> limit == 0 || |r.value| <= limit
    ensures r.Some? ==> (limit > 0 && |r.value| == limit) || SkipCount(page, limit) + |r.value| >= |items|
    ensures r.Some? ==> forall k :: 0 <= k < |r.value| ==>
              0 <= SkipCount(page, limit) + k < |items| && r.value[k] == items[SkipCount(page, limit) + k]
  {
    var skip := SkipCount(page, limit);
    if skip < 0 then None
    else if skip >= |items| then Some([])
    else if limit == 0 || |items| - skip <= limit then Some(items[skip..])
    else Some(items[skip..skip + limit])
  }

  /** With a positive limit, a page holds rows exactly when its number lies between 1 and
      the reported page count: the two halves of the pagination response agree. */
  lemma {:induction false} NonEmptyPagesAreCounted<T>(items: seq<T>, page: int, limit: nat)
    requires limit > 0
    ensures Window(items, page, limit).Some? && |Window(items, page, limit).value| > 0
            <==> 1 <= page <= PageCount(|items|, limit).value
  {
    var n := PageCount(|items|, limit).value;
    if page >= 1 {
      var skip := SkipCount(page, limit);
      if page > n {
        MulMonotone(n, page - 1, limit);
        assert skip >= |items|;
      } else {
        MulMonotone(page - 1, n - 1, limit);
        assert skip < |items|;
      }
    }
  }

  /** The `{ data, pagination: { total, page, pages } }` body of a listing. */
  datatype Listing<T> = Listing(data: seq<T>, total: nat, page: int, pages: Option<nat>)

  /** A listing of `items` (already filtered and sorted); a page that MongoDB refuses to
      skip to is `None` (the handler's catch answers 500). */
  function ListPage<T>(items: seq<T>, page: int, limit: nat): (r: Option<Listing<T>>)
    ensures r.None? <==> page < 1 && limit > 0
    ensures r.Some? ==> r.value.data == Window(items, page, limit).value
    ensures r.Some? ==> r.value.total == |items| && r.value.page == page
    ensures r.Some? ==> r.value.pages == PageCount(|items|, limit)
  {
    var w := Window(items, page, limit);
    if w.None? then None else Some(Listing(w.value, |items|, page, PageCount(|items|, limit)))
  }
}
