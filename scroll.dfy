/**
 * The stop arithmetic of `autoScroll` (download.ts lines 158-175). Every tick
 * of the timer re-reads the page's scroll height, scrolls by 100 pixels,
 * adds 100 to `totalHeight` and stops once `totalHeight` reaches the scroll
 * height minus the viewport height. The page is given as the heights it
 * reports on the first ticks, after which it has stopped growing and keeps
 * reporting `settled`.
 */
module Scroll {

  /** The pixels scrolled per tick (`distance`, line 162). */
  const Distance: int := 100

  /** A page as the scroll loop sees it: the scroll height read on each tick, and the viewport height. */
  datatype Page = Page(heights: seq<int>, settled: int, innerHeight: int)

  /** `document.body.scrollHeight` as read on tick `k` (ticks count from 1). */
  function Reading(p: Page, k: nat): int
    requires k >= 1
  {
    if k - 1 < |p.heights| then p.heights[k - 1] else p.settled
  }

  /** The stop test of line 168 on tick `k`, when `totalHeight` has reached `Distance * k`. */
  predicate StopsAt(p: Page, k: nat)
    requires k >= 1
  {
    Distance * k >= Reading(p, k) - p.innerHeight
  }

  /** Tick `k` is the one on which the loop stops: the test holds there and on no earlier tick. */
  predicate IsStopTick(p: Page, k: nat)
  {
    k >= 1 && StopsAt(p, k) && forall j :: 1 <= j < k ==> !StopsAt(p, j)
  }

  /** Every reading of the page is at most `h`. */
  predicate ReadingsAtMost(p: Page, h: int)
  {
    p.settled <= h && forall i :: 0 <= i < |p.heights| ==> p.heights[i] <= h
  }

  /** The largest height the page ever reports. */
  function MaxReading(p: Page): (h: int)
    ensures ReadingsAtMost(p, h)
    ensures h == p.settled || h in p.heights
    decreases |p.heights|
  {
    if |p.heights| == 0 then p.settled
    else
      var h := MaxReading(p.(heights := p.heights[1..]));
      if p.heights[0] > h then p.heights[0] else h
  }

  /** ceil(max(h - innerHeight, 100) / 100): the tick count within which a page no higher than `h` stops. */
  function TickBound(h: int, innerHeight: int): (n: nat)
    ensures n >= 1
  {
    var gap := if h - innerHeight > Distance then h - innerHeight else Distance;
    (gap + Distance - 1) / Distance
  }

  /** On tick TickBound(h, innerHeight) the stop test holds for every page no higher than `h`. */
  lemma StopsAtBound(p: Page, h: int)
    requires ReadingsAtMost(p, h)
    ensures StopsAt(p, TickBound(h, p.innerHeight))
  {
    var n := TickBound(h, p.innerHeight);
    var gap := if h - p.innerHeight > Distance then h - p.innerHeight else Distance;
    assert Distance * n >= gap;
    assert Reading(p, n) <= h;
  }

  /** There is at most one stop tick. */
  lemma StopTickUnique(p: Page, k: nat, k': nat)
    requires IsStopTick(p, k) && IsStopTick(p, k')
    ensures k == k'
  {
  }

  /** A page whose first reading is within 100 pixels of the viewport stops on the first tick. */
  lemma StopsOnFirstTick(p: Page)
    requires Reading(p, 1) - p.innerHeight <= Distance
    ensures IsStopTick(p, 1)
  {
  }

  /** A page no higher than `h` stops within TickBound(h, innerHeight) ticks. */
  lemma StopTickBounded(p: Page, h: int, k: nat)
    requires ReadingsAtMost(p, h)
    requires IsStopTick(p, k)
    ensures k <= TickBound(h, p.innerHeight)
  {
    StopsAtBound(p, h);
  }

  /**
   * The timer loop of `autoScroll`. It returns the number of ticks run and the
   * final `totalHeight`: the loop stops on the first tick whose test holds,
   * and `totalHeight` is then 100 times the tick count, which is bounded by
   * the page's largest reported height.
   */
  method AutoScroll(p: Page) returns (ticks: nat, totalHeight: int)
    ensures IsStopTick(p, ticks)
    ensures totalHeight == Distance * ticks
    ensures ticks <= TickBound(MaxReading(p), p.innerHeight)
  {
    ghost var bound := TickBound(MaxReading(p), p.innerHeight);
    StopsAtBound(p, MaxReading(p));
    ticks, totalHeight := 1, Distance;
    var scrollHeight := Reading(p, 1);
    while totalHeight < scrollHeight - p.innerHeight
      invariant 1 <= ticks <= bound
      invariant totalHeight == Distance * ticks
      invariant scrollHeight == Reading(p, ticks)
      invariant forall j :: 1 <= j < ticks ==> !StopsAt(p, j)
      decreases bound - ticks
    {
      ticks := ticks + 1;
      scrollHeight := Reading(p, ticks);
      totalHeight := totalHeight + Distance;
    }
  }
}
