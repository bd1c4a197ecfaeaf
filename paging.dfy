/** Client-side pagination exactly as the table components write it:
    `totalPages = Math.ceil(n / size)`, the page `rows.slice((p - 1) * size, p * size)`
    with JavaScript's `slice` semantics, the Prev/Next/number buttons, and the
    loading-then-error-then-table precedence of the views that render both flags. */
module Paging {
  import opened Js

  /** How `slice` reads one index: a negative one counts from the end; the result
      is clamped to `[0, len]`. */
  function RelativeIndex(i: int, len: nat): (k: nat)
    ensures k <= len
    ensures 0 <= i ==> k == Min(i, len)
    ensures i < 0 ==> k == Max(len + i, 0)
  {
    if i < 0 then (if len + i < 0 then 0 else len + i) else if i < len then i else len
  }

  /** `s.slice(start, end)`. */
  function JsSlice<T>(s: seq<T>, start: int, end: int): (r: seq<T>)
    ensures |r| <= |s|
  {
    var from, to := RelativeIndex(start, |s|), RelativeIndex(end, |s|);
    if from < to then s[from..to] else []
  }

  /** `Math.ceil(n / size)`: the fewest pages of `size` rows that hold `n` rows. */
  function TotalPages(n: nat, size: nat): (t: nat)
    requires size > 0
    ensures n <= t * size
    ensures t > 0 ==> (t - 1) * size < n
    ensures t == 0 <==> n == 0
  {
    CeilDivision(n, size);
    (n + size - 1) / size
  }

  /** The quotient and remainder facts behind `Math.ceil`, with the products spelled out. */
  lemma CeilDivision(n: nat, size: nat)
    requires size > 0
    ensures var t := (n + size - 1) / size;
      && t * size <= n + size - 1 < t * size + size
      && (t - 1) * size == t * size - size
      && (t >= 1 ==> t * size >= size)
  {
    var x := n + size - 1;
    var t, r := x / size, x % size;
    assert x == t * size + r && 0 <= r < size;
    MulShift(t, size);
    if t >= 1 {
      MulMonotone(1, t, size);
    }
  }

  /** The rows shown on page `p`. */
  function PageOf<T>(s: seq<T>, p: int, size: nat): seq<T> {
    JsSlice(s, (p - 1) * size, p * size)
  }

  lemma ProductBounds(p: int, size: nat)
    requires p >= 1
    ensures 0 <= (p - 1) * size <= p * size
    ensures p * size == (p - 1) * size + size
  {
  }

  lemma MulShift(p: int, size: nat)
    ensures p * size == (p - 1) * size + size
  {
  }

  /** Every page, whatever its index, holds at most `size` rows. */
  lemma {:induction false} PageAtMostSize<T>(s: seq<T>, p: int, size: nat)
    ensures |PageOf(s, p, size)| <= size
  {
    MulShift(p, size);
    if p >= 1 {
      ProductBounds(p, size);
    } else {
      assert p * size <= 0;
    }
  }

  lemma MulMonotone(a: nat, b: nat, size: nat)
    requires a <= b
    ensures a * size <= b * size
  {
  }

  /** Page `p >= 1` is the window `[(p - 1) * size, p * size)` of the rows, cut at the end,
      so it never holds more than `size` rows and shows them in order. */
  lemma {:induction false} PageWindow<T>(s: seq<T>, p: int, size: nat)
    requires p >= 1
    ensures 0 <= (p - 1) * size <= p * size
    ensures var lo, hi := Min((p - 1) * size, |s|), Min(p * size, |s|);
      lo <= hi && PageOf(s, p, size) == s[lo..hi]
    ensures |PageOf(s, p, size)| <= size
    ensures forall k :: 0 <= k < |PageOf(s, p, size)| ==>
      (p - 1) * size + k < |s| && PageOf(s, p, size)[k] == s[(p - 1) * size + k]
  {
    ProductBounds(p, size);
  }

  /** Page 0, which "Next" reaches on an empty table, shows nothing: its start index
      `-size` counts from the end but its end index 0 does not move. */
  lemma PageZeroIsEmpty<T>(s: seq<T>, size: nat)
    ensures PageOf(s, 0, size) == []
  {
  }

  /** For a page index that the buttons can reach (never negative), the page is non-empty
      exactly when it lies in `[1, totalPages]`. */
  lemma {:induction false} PageNonEmptyIff<T>(s: seq<T>, p: int, size: nat)
    requires size > 0 && p >= 0
    ensures PageOf(s, p, size) != [] <==> 1 <= p <= TotalPages(|s|, size)
  {
    var t := TotalPages(|s|, size);
    if p == 0 {
      PageZeroIsEmpty(s, size);
    } else {
      PageWindow(s, p, size);
      ProductBounds(p, size);
      if p <= t {
        MulMonotone(p - 1, t - 1, size);
        assert (p - 1) * size < |s|;
      } else {
        MulMonotone(t, p - 1, size);
        assert |s| <= (p - 1) * size;
      }
    }
  }

  /** Pages 1..k laid end to end. */
  function FirstPages<T>(s: seq<T>, size: nat, k: nat): seq<T> {
    if k == 0 then [] else FirstPages(s, size, k - 1) + PageOf(s, k, size)
  }

  lemma {:induction false} FirstPagesArePrefix<T>(s: seq<T>, size: nat, k: nat)
    ensures FirstPages(s, size, k) == s[..Min(k * size, |s|)]
  {
    if k > 0 {
      FirstPagesArePrefix(s, size, k - 1);
      PageWindow(s, k, size);
      ProductBounds(k, size);
      var a, b := Min((k - 1) * size, |s|), Min(k * size, |s|);
      assert s[..a] + s[a..b] == s[..b];
    }
  }

  /** The pages 1..totalPages, in order, show every row exactly once and in order. */
  lemma {:induction false} PagesCoverRows<T>(s: seq<T>, size: nat)
    requires size > 0
    ensures FirstPages(s, size, TotalPages(|s|, size)) == s
  {
    FirstPagesArePrefix(s, size, TotalPages(|s|, size));
  }

  /** The pagination buttons: "Prev", "Next" and the number button `i + 1`. */
  datatype Button = Prev | Next | Number(i: nat)

  /** `Math.max(prev - 1, 1)`. */
  function ClampedPrev(p: int): (q: int)
    ensures q >= 1
    ensures p > 1 ==> q == p - 1
    ensures p <= 1 ==> q == 1
  {
    Max(p - 1, 1)
  }

  /** `Math.min(prev + 1, totalPages)`. */
  function ClampedNext(p: int, total: nat): (q: int)
    ensures q <= total
    ensures p < total ==> q == p + 1
    ensures p >= total ==> q == total
  {
    Min(p + 1, total)
  }

  /** One click in the tables whose Prev/Next handlers clamp. Prev is disabled on page 1,
      Next on page `totalPages`; a disabled button, or a number button that is not
      rendered (`i >= totalPages`), changes nothing. */
  function ClampedClick(p: int, total: nat, b: Button): int {
    match b
    case Prev => if p == 1 then p else ClampedPrev(p)
    case Next => if p == total then p else ClampedNext(p, total)
    case Number(i) => if i < total then i + 1 else p
  }

  /** One click in the contest table, whose handlers are `setPage(page - 1)` and
      `setPage(page + 1)` and rely on the disabled state alone. */
  function UnclampedClick(p: int, total: nat, b: Button): int {
    match b
    case Prev => if p == 1 then p else p - 1
    case Next => if p == total then p else p + 1
    case Number(i) => if i < total then i + 1 else p
  }

  /** The pages a clamped table can be on: `[1, totalPages]`, or `{0, 1}` when there are
      no rows (Next from page 1 goes to `min(2, 0) = 0`). */
  predicate InRange(p: int, total: nat) {
    if total == 0 then 0 <= p <= 1 else 1 <= p <= total
  }

  function ClampedClicks(p: int, total: nat, bs: seq<Button>): int
    decreases |bs|
  {
    if bs == [] then p else ClampedClicks(ClampedClick(p, total, bs[0]), total, bs[1..])
  }

  function UnclampedClicks(p: int, total: nat, bs: seq<Button>): int
    decreases |bs|
  {
    if bs == [] then p else UnclampedClicks(UnclampedClick(p, total, bs[0]), total, bs[1..])
  }

  /** Whatever the user clicks, a clamped table stays in range while its rows do not change. */
  lemma {:induction false} ClampedClicksStayInRange(p: int, total: nat, bs: seq<Button>)
    requires InRange(p, total)
    ensures InRange(ClampedClicks(p, total, bs), total)
    decreases |bs|
  {
    if bs != [] {
      ClampedClicksStayInRange(ClampedClick(p, total, bs[0]), total, bs[1..]);
    }
  }

  /** On an empty table, Next from page 1 drives the page to 0, and Prev brings it back to 1. */
  lemma EmptyTableNextGoesToZero()
    ensures ClampedClick(1, 0, Next) == 0
    ensures ClampedClick(0, 0, Prev) == 1
    ensures ClampedClick(0, 0, Next) == 0
  {
  }

  /** The unclamped handlers stay in `[1, totalPages]` too, because the disabled state
      blocks exactly the two clicks that would leave it. */
  lemma {:induction false} UnclampedClicksStayInRange(p: int, total: nat, bs: seq<Button>)
    requires 1 <= p <= total
    ensures 1 <= UnclampedClicks(p, total, bs) <= total
    decreases |bs|
  {
    if bs != [] {
      UnclampedClicksStayInRange(UnclampedClick(p, total, bs[0]), total, bs[1..]);
    }
  }

  /** What a view that renders both flags shows: the spinner while loading, else the
      error text when it is non-empty, else the table. */
  datatype Screen<R> = Spinner | Message(text: string) | Table(rows: seq<R>)

  function Precedence<R>(loading: bool, error: string, rows: seq<R>): (v: Screen<R>)
    ensures v.Spinner? <==> loading
    ensures v.Message? <==> !loading && error != ""
    ensures v.Message? ==> v.text == error
    ensures v.Table? ==> v.rows == rows
  {
    if loading then Spinner else if error != "" then Message(error) else Table(rows)
  }
}
