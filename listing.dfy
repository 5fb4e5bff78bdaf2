/**
 * Paging over an in-memory list, as the sample-data controllers do it:
 * `parseInt(x) || d` defaulting, `Array.prototype.slice` with its clamping
 * of negative and out-of-range indices, and `Math.ceil(total / limit)`.
 */
module Listing {
  import opened Common

  /** `parseInt(x) || d`, with None for a parse that yields NaN: NaN and 0 fall back to `d`. */
  function IntOr(parsed: Option<int>, d: int): (r: int)
    ensures TruthyInt(parsed) ==> r == parsed.value
    ensures !TruthyInt(parsed) ==> r == d
    ensures d != 0 ==> r != 0
  {
    if TruthyInt(parsed) then parsed.value else d
  }

  /** How `slice` reads one of its arguments: a negative index counts back from the end, and
      the result is clamped to `0..len`. */
  function ClampIndex(i: int, len: nat): (r: nat)
    ensures r <= len
    ensures 0 <= i <= len ==> r == i
    ensures i > len ==> r == len
    ensures i < 0 ==> r == if len + i < 0 then 0 else len + i
  {
    if i < 0 then (if len + i < 0 then 0 else len + i)
    else if i > len then len
    else i
  }

  /** `s.slice(start, end)`. */
  function Slice<T>(s: seq<T>, start: int, end: int): (r: seq<T>)
    ensures |r| == if ClampIndex(start, |s|) < ClampIndex(end, |s|) then ClampIndex(end, |s|) - ClampIndex(start, |s|) else 0
    ensures forall i :: 0 <= i < |r| ==> ClampIndex(start, |s|) + i < |s| && r[i] == s[ClampIndex(start, |s|) + i]
  {
    var a, b := ClampIndex(start, |s|), ClampIndex(end, |s|);
    if a < b then s[a..b] else []
  }

  /** `Math.ceil(a / b)` on integers. */
  function CeilDiv(a: int, b: int): int
    requires b != 0
  {
    if b > 0 then -((-a) / b) else -(a / (-b))
  }

  /** `CeilDiv` is the least integer that is not below the exact quotient. */
  lemma CeilDivIsCeiling(a: int, b: int)
    requires b != 0
    ensures b > 0 ==> b * (CeilDiv(a, b) - 1) < a <= b * CeilDiv(a, b)
    ensures b < 0 ==> b * CeilDiv(a, b) <= a < b * (CeilDiv(a, b) - 1)
  {
  }

  /** The body of a paged listing: `{ count, page, totalPages, data }`. */
  datatype ListPage<T> = ListPage(count: nat, page: int, totalPages: int, data: seq<T>)

  /** The body of a search or filter reply: `{ count, data }`. */
  datatype Found<T> = Found(count: nat, data: seq<T>)

  /** Where a page starts: `page - 1` full pages of `limit` items precede it. */
  function StartIndex(page: int, limit: int): int
  {
    (page - 1) * limit
  }

  /** The slice of `limit` items from the page's start, with `slice`'s clamping. */
  function PageData<T>(items: seq<T>, page: int, limit: int): seq<T>
  {
    var start := StartIndex(page, limit);
    Slice(items, start, start + limit)
  }

  /** The page of `items` selected by the `page` and `limit` query parameters, which default to 1 and `defaultLimit`. */
  function Paginate<T>(items: seq<T>, page: Option<int>, limit: Option<int>, defaultLimit: int): (r: ListPage<T>)
    requires defaultLimit != 0
    ensures r.count == |items|
    ensures r.page == IntOr(page, 1)
    ensures r.data == PageData(items, IntOr(page, 1), IntOr(limit, defaultLimit))
    ensures r.totalPages == CeilDiv(|items|, IntOr(limit, defaultLimit))
  {
    var p, l := IntOr(page, 1), IntOr(limit, defaultLimit);
    ListPage(|items|, p, CeilDiv(|items|, l), PageData(items, p, l))
  }

  /** With a positive limit, `totalPages` pages of `limit` items hold every item, and one page fewer would not. */
  lemma TotalPagesCoverItems(count: nat, limit: int)
    requires limit >= 1
    ensures limit * (CeilDiv(count, limit) - 1) < count <= limit * CeilDiv(count, limit)
    ensures CeilDiv(count, limit) >= 0
  {
    CeilDivIsCeiling(count, limit);
  }

  lemma StartIndexNonNegative(page: int, limit: int)
    requires page >= 1 && limit >= 0
    ensures StartIndex(page, limit) >= 0
  {
    assert (page - 1) * limit >= 0 * limit;
  }

  /** A window of `limit` items from a non-negative start: at most `limit` items, in their
      order, stopping early only at the end of the list. */
  lemma SliceWindow<T>(items: seq<T>, start: int, limit: int)
    requires start >= 0 && limit >= 1
    ensures var d := Slice(items, start, start + limit);
            && |d| <= limit
            && (forall i :: 0 <= i < |d| ==> start + i < |items| && d[i] == items[start + i])
            && (|d| == limit || start + |d| == |items| || start >= |items|)
  {
  }

  /** The slice a page takes: at most `limit` items from the page's start, in order, short only at the end. */
  lemma PageDataWindow<T>(items: seq<T>, page: int, limit: int)
    requires page >= 1 && limit >= 1
    ensures var d := PageData(items, page, limit);
            var start := StartIndex(page, limit);
            && |d| <= limit
            && (forall i :: 0 <= i < |d| ==> start + i < |items| && d[i] == items[start + i])
            && (|d| == limit || start + |d| == |items| || start >= |items|)
  {
    StartIndexNonNegative(page, limit);
    SliceWindow(items, StartIndex(page, limit), limit);
  }

  /** For a page and a limit of at least one, the page is the run of at most `limit` items that
      starts at `(page - 1) * limit`, in their order, and it stops early only at the end of the list. */
  lemma PageIsContiguousRun<T>(items: seq<T>, page: int, limit: int, defaultLimit: int)
    requires page >= 1 && limit >= 1 && defaultLimit != 0
    ensures var d := Paginate(items, Some(page), Some(limit), defaultLimit).data;
            var start := StartIndex(page, limit);
            && |d| <= limit
            && (forall i :: 0 <= i < |d| ==> start + i < |items| && d[i] == items[start + i])
            && (|d| == limit || start + |d| == |items| || start >= |items|)
  {
    PageDataWindow(items, page, limit);
  }

  /** Every item is on exactly one page: item `i` is at position `i % limit` of page `i / limit + 1`. */
  lemma ItemOnItsPage<T>(items: seq<T>, i: int, limit: int, defaultLimit: int)
    requires 0 <= i < |items| && limit >= 1 && defaultLimit != 0
    ensures var r := Paginate(items, Some(i / limit + 1), Some(limit), defaultLimit);
            i % limit < |r.data| && r.data[i % limit] == items[i]
  {
    var page := i / limit + 1;
    var start := StartIndex(page, limit);
    assert start == (i / limit) * limit;
    assert start + i % limit == i;
    assert start >= 0 by {
      assert (i / limit) * limit >= 0 * limit;
    }
    PageIsContiguousRun(items, page, limit, defaultLimit);
  }

  /** A page past the last one starts at or after the end of the list. */
  lemma {:induction false} PastLastPageStartsAfterEnd(count: nat, page: int, limit: int)
    requires limit >= 1 && page > CeilDiv(count, limit)
    ensures StartIndex(page, limit) >= count
  {
    var t := CeilDiv(count, limit);
    TotalPagesCoverItems(count, limit);
    var extra := page - 1 - t;
    assert StartIndex(page, limit) - limit * t == extra * limit;
    assert extra * limit >= 0;
  }

  /** A page past the last one is empty. */
  lemma PagePastEndIsEmpty<T>(items: seq<T>, page: int, limit: int, defaultLimit: int)
    requires limit >= 1 && defaultLimit != 0
    requires var r := Paginate(items, Some(page), Some(limit), defaultLimit);
             page > r.totalPages && page >= 1
    ensures Paginate(items, Some(page), Some(limit), defaultLimit).data == []
  {
    PastLastPageStartsAfterEnd(|items|, page, limit);
    assert ClampIndex(StartIndex(page, limit), |items|) == |items|;
  }
}
