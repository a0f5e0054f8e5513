/** `paginate`: validate the arguments, count the pages, clamp the requested
    page, cut its window out of the items and describe it as `"a-b of n"`.
    All three numeric arguments are integers here. */
module Pagination {
  import opened Wrappers
  import opened Errors
  import opened Strings

  /** One page of `items`: its elements, the number of pages and the range text. */
  datatype Page<T> = Page(items: seq<T>, pages: nat, pageRange: string)

  const DEFAULT_PAGE := 1
  const DEFAULT_LIMIT := 10

  function Min(a: int, b: int): int { if a < b then a else b }

  /** `Math.ceil(length / limit)`. */
  function PageCount(length: nat, limit: int): (pages: nat)
    requires limit >= 1
    ensures pages == 0 <==> length == 0
  {
    (length + limit - 1) / limit
  }

  /** The page count is the least number of windows of `limit` items that
      covers `length` items. */
  lemma PageCountBounds(length: nat, limit: int)
    requires limit >= 1 && length > 0
    ensures (PageCount(length, limit) - 1) * limit < length <= PageCount(length, limit) * limit
  {
    var q := PageCount(length, limit);
    var r := (length + limit - 1) % limit;
    assert q * limit + r == length + limit - 1;
    assert (q - 1) * limit == q * limit - limit;
  }

  /** `items.slice(start, end)` for `0 <= start <= end`: the indices are
      clipped to the length of `items`. */
  function Slice<T>(items: seq<T>, start: nat, end: nat): (r: seq<T>)
    requires start <= end
    ensures |r| == if end <= |items| then end - start else if start <= |items| then |items| - start else 0
    ensures forall i :: 0 <= i < |r| ==> r[i] == items[start + i]
  {
    items[Min(start, |items|)..Min(end, |items|)]
  }

  /** The page count times its window size never drops below the length:
      for a page that exists, the window starts inside the length. */
  lemma WindowStartsInside(page: int, limit: int, length: nat)
    requires limit >= 1 && length > 0 && 1 <= page <= PageCount(length, limit)
    ensures 0 <= (page - 1) * limit < length
  {
    var pages := PageCount(length, limit);
    PageCountBounds(length, limit);
    assert (page - 1) * limit <= (pages - 1) * limit by {
      assert (pages - 1) * limit - (page - 1) * limit == (pages - page) * limit;
    }
  }

  /** `paginate(items, page, limit, length)`. */
  function Paginate<T>(items: seq<T>, page: int, limit: int, length: int): (r: Result<Page<T>, AppError>)
    ensures page < 1 ==> r == Failure(BadRequestError("Page number must be a positive integer."))
    ensures page >= 1 && limit < 1 ==> r == Failure(BadRequestError("Limit must be a positive integer."))
    ensures page >= 1 && limit >= 1 && length < 0 ==> r == Failure(BadRequestError("Length cannot be negative."))
    ensures r.Success? <==> page >= 1 && limit >= 1 && length >= 0
    ensures r.Success? && length == 0 ==> r.value == Page([], 0, "0-0 of 0")
  {
    if page < 1 then Failure(BadRequestError("Page number must be a positive integer."))
    else if limit < 1 then Failure(BadRequestError("Limit must be a positive integer."))
    else if length < 0 then Failure(BadRequestError("Length cannot be negative."))
    else if length == 0 then Success(Page([], 0, "0-0 of 0"))
    else
      var pages := PageCount(length, limit);
      var p := Min(page, pages);
      WindowStartsInside(p, limit, length);
      var start := (p - 1) * limit;
      var end := Min(start + limit, length);
      Success(Page(Slice(items, start, end), pages, RangeText(start + 1, end, length)))
  }

  /** A successful call on a positive length: the page count, the clamped
      page, a window of at most `limit` positions inside the length, the
      items of that window and the range text describing it. */
  lemma PaginateWindow<T>(items: seq<T>, page: int, limit: int, length: int)
    requires page >= 1 && limit >= 1 && length > 0
    ensures var r := Paginate(items, page, limit, length);
      var p := Min(page, r.value.pages);
      var start := (p - 1) * limit;
      var end := Min(start + limit, length);
      && r.value.pages == PageCount(length, limit)
      && 1 <= p <= r.value.pages
      && 0 <= start < end <= length && end - start <= limit
      && r.value.items == Slice(items, start, end)
      && r.value.pageRange == RangeText(start + 1, end, length)
  {
    WindowStartsInside(Min(page, PageCount(length, limit)), limit, length);
  }

  /** The call with JavaScript's default arguments filled in: page 1, ten
      items per page and the length of `items`. */
  function PaginateDefaults<T>(items: seq<T>, page: Option<int>, limit: Option<int>, length: Option<int>): (r: Result<Page<T>, AppError>)
    ensures page.None? && limit.None? && length.None? ==>
      r.Success? && r.value.items == items[..Min(DEFAULT_LIMIT, |items|)]
  {
    Paginate(items, page.GetOr(DEFAULT_PAGE), limit.GetOr(DEFAULT_LIMIT), length.GetOr(|items|))
  }

  /** A page number past the last page is served as the last page. */
  lemma ClampedToLastPage<T>(items: seq<T>, page: int, limit: int, length: int)
    requires limit >= 1 && length > 0 && page > PageCount(length, limit)
    ensures Paginate(items, page, limit, length) == Paginate(items, PageCount(length, limit), limit, length)
  {
  }

  /** The `"<first>-<last> of <length>"` text of a non-empty page. */
  function RangeText(first: nat, last: nat, length: nat): string {
    NatToString(first) + "-" + NatToString(last) + " of " + NatToString(length)
  }

  /** Reads a range text back into its three numbers. */
  function ParseRange(s: string): Option<(nat, nat, nat)> {
    var halves := Split(s, '-');
    if |halves| != 2 then None
    else
      var words := Split(halves[1], ' ');
      if |words| != 3 || words[1] != "of" then None
      else if AllDigits(halves[0]) && AllDigits(words[0]) && AllDigits(words[2])
      then Some((DecimalValue(halves[0]), DecimalValue(words[0]), DecimalValue(words[2])))
      else None
  }

  /** `"<b> of <n>"` splits on spaces into the two numbers around `"of"`. */
  lemma {:induction false} TailWords(b: string, n: string)
    requires AllDigits(b) && AllDigits(n)
    ensures Split(b + " of " + n, ' ') == [b, "of", n]
  {
    var rest := "of" + [' '] + n;
    assert b + " of " + n == b + [' '] + rest;
    NonDigitAbsent(b, ' ');
    SplitAtFirst(b, ' ', rest);
    NonDigitAbsent(n, ' ');
    SplitNoSeparator(n, ' ');
    assert ' ' !in "of";
    SplitAtFirst("of", ' ', n);
  }

  /** `"<a>-<tail>"` splits on the dash into `a` and the tail. */
  lemma {:induction false} RangeHalves(a: string, b: string, n: string)
    requires AllDigits(a) && AllDigits(b) && AllDigits(n)
    ensures Split(a + "-" + b + " of " + n, '-') == [a, b + " of " + n]
  {
    var tail := b + " of " + n;
    assert a + "-" + b + " of " + n == a + ['-'] + tail;
    NonDigitAbsent(a, '-');
    SplitAtFirst(a, '-', tail);
    NonDigitAbsent(b, '-');
    NonDigitAbsent(n, '-');
    assert '-' !in " of ";
    assert '-' !in tail;
    SplitNoSeparator(tail, '-');
  }

  /** The range text is unambiguous: it reads back as the first shown
      position, the last shown position and the length it was built from. */
  lemma RangeTextReadsBack(first: nat, last: nat, length: nat)
    ensures ParseRange(RangeText(first, last, length)) == Some((first, last, length))
  {
    var a, b, n := NatToString(first), NatToString(last), NatToString(length);
    RangeHalves(a, b, n);
    TailWords(b, n);
    DecimalRoundTrip(first);
    DecimalRoundTrip(last);
    DecimalRoundTrip(length);
  }

  /** The window of page `p` (a page that exists) when `length` is the
      number of items: `limit` positions from `start = (p-1)*limit`, cut at the end. */
  lemma PageWindow<T>(items: seq<T>, p: int, limit: int, start: nat)
    requires limit >= 1 && 1 <= p <= PageCount(|items|, limit) && start == (p - 1) * limit
    ensures start < |items|
    ensures PageItems(items, p, limit) == items[start..Min(start + limit, |items|)]
  {
    WindowStartsInside(p, limit, |items|);
  }

  /** The items of pages `from` to `pages`, in order, with `length` defaulted
      to the number of items. */
  function PagesFrom<T>(items: seq<T>, limit: int, from: int, pages: int): seq<T>
    requires limit >= 1 && from >= 1
    decreases pages - from
  {
    if from > pages then [] else PageItems(items, from, limit) + PagesFrom(items, limit, from + 1, pages)
  }

  /** The items shown on page `p` when `length` is the number of items. */
  function PageItems<T>(items: seq<T>, p: int, limit: int): seq<T>
    requires limit >= 1 && p >= 1
  {
    Paginate(items, p, limit, |items|).value.items
  }

  /** One page in front of the pages after it: if the pages after `from`
      hold the items from `start + limit` on, pages `from` onwards hold the
      items from `start` on, `start` being the first position of page `from`. */
  lemma PagesFromStep<T>(items: seq<T>, limit: int, from: int, start: nat)
    requires limit >= 1 && 1 <= from <= PageCount(|items|, limit) && start == (from - 1) * limit
    requires PagesFrom(items, limit, from + 1, PageCount(|items|, limit)) == items[Min(start + limit, |items|)..]
    ensures PagesFrom(items, limit, from, PageCount(|items|, limit)) == items[Min(start, |items|)..]
  {
    var pages := PageCount(|items|, limit);
    var end := Min(start + limit, |items|);
    PageWindow(items, from, limit, start);
    var page := PageItems(items, from, limit);
    var rest := PagesFrom(items, limit, from + 1, pages);
    assert PagesFrom(items, limit, from, pages) == page + rest;
    assert items[start..] == items[start..end] + items[end..];
  }

  /** Nothing follows the last page. */
  lemma PastLastPage<T>(items: seq<T>, limit: int, start: nat)
    requires limit >= 1 && start == PageCount(|items|, limit) * limit
    ensures PagesFrom(items, limit, PageCount(|items|, limit) + 1, PageCount(|items|, limit)) == []
    ensures Min(start, |items|) == |items|
  {
    if |items| > 0 {
      PageCountBounds(|items|, limit);
    }
  }

  /** Pages `from` onwards hold the items from position `start` on. */
  lemma {:induction false} PagesFromIsSuffix<T>(items: seq<T>, limit: int, from: int, start: nat)
    requires limit >= 1 && 1 <= from <= PageCount(|items|, limit) + 1 && start == (from - 1) * limit
    ensures PagesFrom(items, limit, from, PageCount(|items|, limit)) == items[Min(start, |items|)..]
    decreases PageCount(|items|, limit) - from
  {
    var pages := PageCount(|items|, limit);
    if from > pages {
      assert from == pages + 1;
      PastLastPage(items, limit, start);
    } else {
      assert start + limit == (from + 1 - 1) * limit;
      PagesFromIsSuffix(items, limit, from + 1, start + limit);
      PagesFromStep(items, limit, from, start);
    }
  }

  /** Reading every page from the first to the last returns exactly the items:
      each item is shown once, on one page, in its original order. */
  lemma PagesCoverItems<T>(items: seq<T>, limit: int)
    requires limit >= 1
    ensures PagesFrom(items, limit, 1, PageCount(|items|, limit)) == items
  {
    PagesFromIsSuffix(items, limit, 1, 0);
  }
}
