/**
 * The admin funnel-stats endpoint (`/api/admin/funnel-stats`): the checks on
 * its query and the pagination arithmetic around the aggregation. The
 * aggregation itself (date window, mobile filter, user lookup, sort) is
 * replaced by the list of events it yields, newest first.
 */
module FunnelStats {
  import opened Wrappers
  import opened Text
  import opened FunnelEventModel

  /** The query string; `None` is a parameter that is absent. */
  datatype Query = Query(
    startDate: Option<string>,
    endDate: Option<string>,
    eventType: Option<string>,
    page: Option<string>,
    limit: Option<string>)

  const DefaultPage := 1
  const DefaultLimit := 50
  const MaxLimit := 200

  /** The checks made before the aggregation runs, in their order; `Success`
      carries the event type asked for. */
  function CheckQuery(q: Query): (r: Result<EventType, string>)
    ensures r.Success? <==>
      && q.startDate.Some? && q.startDate.value != "" && q.endDate.Some? && q.endDate.value != ""
      && q.eventType.Some? && ParseEventType(q.eventType.value).Some?
    ensures r.Success? ==> EventTypeName(r.value) == q.eventType.value
  {
    if q.startDate.None? || q.startDate.value == "" || q.endDate.None? || q.endDate.value == "" then
      Failure("startDate and endDate are required")
    else if q.eventType.None? || q.eventType.value == "" then
      Failure("eventType is now required")
    else match ParseEventType(q.eventType.value)
      case None => Failure("Invalid eventType")
      case Some(e) => Success(e)
  }

  /** `parseInt(s, 10) || d`: `NaN` and `0` both fall back to `d`. */
  function ParsedOr(s: string, d: int): (n: int)
    ensures n != 0 || d == 0
  {
    match ParseInt(s)
    case Some(v) => if v == 0 then d else v
    case None => d
  }

  /** The page fields of the response. */
  datatype Page = Page(pageNum: int, perPage: int, skip: int, totalPages: int, hasNext: bool, hasPrev: bool)

  /** `Math.ceil(a / b)` for a count `a` and a positive page size `b`. */
  function CeilDiv(a: nat, b: nat): nat
    requires b > 0
  {
    (a + b - 1) / b
  }

  /** The arithmetic of the handler for `total` matching events; an absent
      `page` is "1" and an absent `limit` is "50". */
  function Paginate(page: Option<string>, limit: Option<string>, total: nat): Page {
    PageArithmetic(ParsedOr(page.GetOr("1"), DefaultPage), ParsedOr(limit.GetOr("50"), DefaultLimit), total)
  }

  /** The same arithmetic from the two parsed numbers. */
  function PageArithmetic(pageParsed: int, limitParsed: int, total: nat): Page {
    var pageNum := Max(pageParsed, 1);
    var perPage := Min(Max(limitParsed, 1), MaxLimit);
    var skip := (pageNum - 1) * perPage;
    var totalPages := if total == 0 then 1 else CeilDiv(total, perPage);
    Page(pageNum, perPage, skip, totalPages, pageNum < totalPages, pageNum > 1)
  }

  function Max(a: int, b: int): int { if a < b then b else a }
  function Min(a: int, b: int): int { if a < b then a else b }

  /** The page number is at least 1, the page size lies in [1, 200], the skip
      is the number of events on the earlier pages, there is at least one
      page, and there is a previous page exactly when this is not the first. */
  lemma PaginateBounds(pageParsed: int, limitParsed: int, total: nat)
    ensures var p := PageArithmetic(pageParsed, limitParsed, total);
      && p.pageNum >= 1 && 1 <= p.perPage <= MaxLimit
      && p.skip == (p.pageNum - 1) * p.perPage && p.skip >= 0
      && p.totalPages >= 1
      && (p.hasPrev <==> p.pageNum != 1)
  {
    var p := PageArithmetic(pageParsed, limitParsed, total);
    assert p.pageNum - 1 >= 0 && p.perPage >= 1;
    if total > 0 {
      CeilDivBounds(total, p.perPage);
    }
  }

  /** There is a next page exactly when the events on this page and the
      earlier ones do not exhaust the total; with no events there is one
      empty page and no next one. */
  lemma HasNextIffEventsRemain(pageParsed: int, limitParsed: int, total: nat)
    ensures var p := PageArithmetic(pageParsed, limitParsed, total);
      && (p.hasNext <==> p.pageNum * p.perPage < total)
      && (total == 0 ==> p.totalPages == 1 && !p.hasNext)
      && (total > 0 ==> (p.totalPages - 1) * p.perPage < total <= p.totalPages * p.perPage)
  {
    var p := PageArithmetic(pageParsed, limitParsed, total);
    if total > 0 {
      CeilDivBounds(total, p.perPage);
      BelowCeil(p.pageNum, total, p.perPage);
    } else {
      assert p.pageNum * p.perPage >= 0;
    }
  }

  lemma CeilDivBounds(a: nat, b: nat)
    requires a > 0 && b > 0
    ensures CeilDiv(a, b) >= 1
    ensures (CeilDiv(a, b) - 1) * b < a <= CeilDiv(a, b) * b
  {
    var q := CeilDiv(a, b);
    var r := (a + b - 1) % b;
    assert a + b - 1 == q * b + r && 0 <= r < b;
    assert (q - 1) * b == q * b - b;
  }

  lemma BelowCeil(n: int, a: nat, b: nat)
    requires a > 0 && b > 0 && n >= 1
    requires (CeilDiv(a, b) - 1) * b < a <= CeilDiv(a, b) * b
    ensures n < CeilDiv(a, b) <==> n * b < a
  {
    var q: int := CeilDiv(a, b);
    if n < q {
      MulMonotone(n, q - 1, b);
    } else {
      MulMonotone(q, n, b);
    }
  }

  lemma {:induction false} MulMonotone(x: int, y: int, b: nat)
    requires x <= y
    ensures x * b <= y * b
    decreases y - x
  {
    if x < y {
      MulMonotone(x + 1, y, b);
      assert (x + 1) * b == x * b + b;
    }
  }

  /** A `limit` of "0" is read as the default 50, not as 1. */
  lemma ZeroLimitMeansDefault(page: Option<string>, total: nat)
    ensures Paginate(page, Some("0"), total).perPage == DefaultLimit
  {
    ParseIntOfRendering(0, []);
    assert NatToString(0) + [] == "0";
  }

  /** The events the response lists: `$skip` then `$limit` on the ordered
      list. */
  function PageOf<T>(events: seq<T>, p: Page): (shown: seq<T>)
    requires p.skip >= 0 && p.perPage >= 0
    ensures |shown| == if p.skip >= |events| then 0 else Min(p.perPage, |events| - p.skip)
    ensures forall i :: 0 <= i < |shown| ==> shown[i] == events[p.skip + i]
  {
    if p.skip >= |events| then []
    else if p.skip + p.perPage >= |events| then events[p.skip..]
    else events[p.skip..p.skip + p.perPage]
  }
}
