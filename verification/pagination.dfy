/**
 * The paginator the bar and line charts share: how many records a page
 * holds on each device class, which records the current page shows, how
 * many pages there are, and the clamped Previous/Next navigation.
 */
module Pagination {
  import opened Breakpoints
  import Text
  import opened Wrappers

  function Min(a: int, b: int): int {
    if a <= b then a else b
  }

  function Max(a: int, b: int): int {
    if a >= b then a else b
  }

  /**
   * `getItemsPerPage`: three records a page on mobile, four on tablet, all
   * of them on desktop, never more than there are.
   */
  function ItemsPerPage(d: Device, n: nat): (k: nat)
    ensures k <= n
    ensures n > 0 ==> k > 0
    ensures d == Desktop ==> k == n
    ensures d == Mobile ==> k <= 3 && (k < n ==> k == 3)
    ensures d == Tablet ==> k <= 4 && (k < n ==> k == 4)
  {
    match d
    case Mobile => if n <= 3 then n else 3
    case Tablet => if n <= 4 then n else 4
    case Desktop => n
  }

  /** `Array.prototype.slice(start, end)` with `0 <= start <= end`: both ends clamp to the length. */
  function Slice<T>(s: seq<T>, start: nat, end: nat): (r: seq<T>)
    requires start <= end
    ensures |r| == if start < |s| then Min(end, |s|) - start else 0
    ensures forall i :: 0 <= i < |r| ==> r[i] == s[start + i]
  {
    if start >= |s| then [] else s[start..Min(end, |s|)]
  }

  /**
   * `getVisibleData`: everything when one page holds it all, otherwise the
   * page'th run of `ItemsPerPage` records, cut short by the end of the data.
   */
  function VisibleData<T>(data: seq<T>, d: Device, page: nat): (r: seq<T>)
    ensures ItemsPerPage(d, |data|) >= |data| ==> r == data
    ensures ItemsPerPage(d, |data|) < |data| ==> |r| <= ItemsPerPage(d, |data|)
    ensures ItemsPerPage(d, |data|) < |data| ==>
              var k := ItemsPerPage(d, |data|);
              && |r| == (if page * k < |data| then Min(k, |data| - page * k) else 0)
              && forall i :: 0 <= i < |r| ==> r[i] == data[page * k + i]
  {
    var k := ItemsPerPage(d, |data|);
    if k >= |data| then data else Slice(data, page * k, page * k + k)
  }

  /**
   * `getTotalPages`, `Math.ceil(n / itemsPerPage)`: the fewest pages of
   * `ItemsPerPage` records that hold all `n`. With no records the source
   * divides 0 by 0; see ShowPagination for how that result is used.
   */
  function TotalPages(d: Device, n: nat): (t: nat)
    requires n > 0
    ensures t >= 1
    ensures (t - 1) * ItemsPerPage(d, n) < n <= t * ItemsPerPage(d, n)
  {
    var k := ItemsPerPage(d, n);
    var t := (n + k - 1) / k;
    assert n + k - 1 == k * t + (n + k - 1) % k;
    t
  }

  /** The records shown on pages `p`, `p + 1`, ..., `t - 1`, one after another. */
  function PagesFrom<T>(data: seq<T>, d: Device, p: nat, t: nat): seq<T>
    decreases t - p
  {
    if p >= t then [] else VisibleData(data, d, p) + PagesFrom(data, d, p + 1, t)
  }

  lemma MulMonotone(p: nat, q: nat, k: nat)
    requires p <= q
    ensures p * k <= q * k
  {
  }

  /** Showing every page in turn shows every record exactly once, in order. */
  lemma {:induction false} PagesReassemble<T>(data: seq<T>, d: Device)
    requires |data| > 0
    ensures PagesFrom(data, d, 0, TotalPages(d, |data|)) == data
  {
    var n, k, t := |data|, ItemsPerPage(d, |data|), TotalPages(d, |data|);
    if k >= n {
      assert t == 1 by {
        if t > 1 { MulMonotone(1, t - 1, k); }
      }
      assert PagesFrom(data, d, 1, t) == [];
    } else {
      PagesSuffix(data, d, 0);
    }
  }

  /** From page `p` on, the pages show exactly the records from index `p * k` on. */
  lemma {:induction false} PagesSuffix<T>(data: seq<T>, d: Device, p: nat)
    requires 0 < ItemsPerPage(d, |data|) < |data|
    requires p <= TotalPages(d, |data|)
    ensures p * ItemsPerPage(d, |data|) <= |data| || p == TotalPages(d, |data|)
    ensures PagesFrom(data, d, p, TotalPages(d, |data|)) == data[Min(p * ItemsPerPage(d, |data|), |data|)..]
    decreases TotalPages(d, |data|) - p
  {
    var n, k, t := |data|, ItemsPerPage(d, |data|), TotalPages(d, |data|);
    if p == t {
      assert p * k >= n;
    } else {
      MulMonotone(p, t - 1, k);
      assert p * k < n;
      PagesSuffix(data, d, p + 1);
      assert (p + 1) * k == p * k + k;
      var page := VisibleData(data, d, p);
      assert page == data[p * k..Min(p * k + k, n)];
      assert data[p * k..] == page + data[Min(p * k + k, n)..];
    }
  }

  /**
   * A page index in range shows at least one record; one past the last page
   * shows none.
   */
  lemma PageNonEmpty<T>(data: seq<T>, d: Device, page: nat)
    requires |data| > 0
    ensures page < TotalPages(d, |data|) ==> |VisibleData(data, d, page)| > 0
    ensures ItemsPerPage(d, |data|) < |data| && page >= TotalPages(d, |data|) ==> VisibleData(data, d, page) == []
  {
    var n, k, t := |data|, ItemsPerPage(d, |data|), TotalPages(d, |data|);
    if page < t { MulMonotone(page, t - 1, k); } else { MulMonotone(t, page, k); }
  }

  /** The Previous button: `Math.max(0, currentPage - 1)`. */
  function PrevPage(page: nat): (q: nat)
    ensures q <= page
    ensures page > 0 ==> q == page - 1
  {
    Max(0, page - 1)
  }

  /** The Next button: `Math.min(totalPages - 1, currentPage + 1)`. */
  function NextPage(page: nat, total: nat): (q: nat)
    requires total >= 1
    ensures q < total
    ensures page < total - 1 ==> q == page + 1
    ensures page >= total - 1 ==> q == total - 1
  {
    Min(total - 1, page + 1)
  }

  /** Previous is disabled on the first page. */
  predicate PrevDisabled(page: nat) {
    page == 0
  }

  /** Next is disabled on the last page. */
  predicate NextDisabled(page: nat, total: nat) {
    page == total - 1
  }

  /**
   * From a page in range both buttons keep the page in range, a disabled
   * button would leave it where it is, and an enabled one moves exactly one
   * page.
   */
  lemma NavigationInRange(page: nat, total: nat)
    requires page < total
    ensures PrevPage(page) < total && NextPage(page, total) < total
    ensures PrevDisabled(page) <==> PrevPage(page) == page
    ensures NextDisabled(page, total) <==> NextPage(page, total) == page
    ensures !PrevDisabled(page) ==> PrevPage(page) + 1 == page
    ensures !NextDisabled(page, total) ==> NextPage(page, total) == page + 1
  {
  }

  /**
   * `totalPages > 1`, which guards the pagination controls and the page
   * indicator. With no records `totalPages` is NaN in the source and the
   * comparison is false.
   */
  function ShowPagination(d: Device, n: nat): (show: bool)
    ensures show <==> ItemsPerPage(d, n) < n
    ensures d == Desktop ==> !show
  {
    if n == 0 then false
    else
      var t := TotalPages(d, n);
      assert t <= 1 ==> ItemsPerPage(d, n) >= n by {
        if t <= 1 { assert t == 1; }
      }
      assert t > 1 ==> ItemsPerPage(d, n) < n by {
        if t > 1 { MulMonotone(1, t - 1, ItemsPerPage(d, n)); }
      }
      t > 1
  }

  /** The `(page/total)` indicator beside the bar chart's subtitle, present only with pagination. */
  function PageIndicator(d: Device, n: nat, page: nat): (r: Option<string>)
    ensures r.Some? <==> ShowPagination(d, n)
    ensures r.Some? ==> |r.value| > 2 && r.value[0] == '(' && r.value[|r.value| - 1] == ')'
  {
    if ShowPagination(d, n) then
      Some("(" + Text.Decimal(page + 1) + "/" + Text.Decimal(TotalPages(d, n)) + ")")
    else None
  }

  /**
   * The page index a component may hold: 0 when there are no records,
   * otherwise one of the pages. Mounting starts at page 0 and every resize
   * returns there.
   */
  predicate PageInRange(d: Device, n: nat, page: nat) {
    if n == 0 then page == 0 else page < TotalPages(d, n)
  }

  /** Page 0 is in range for every device and record count, so a resize always lands in range. */
  lemma FirstPageInRange(d: Device, n: nat)
    ensures PageInRange(d, n, 0)
  {
  }
}
