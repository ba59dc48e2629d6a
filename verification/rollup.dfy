/**
 The rolling-window driver: trailing 7-day windows stepping back from `now`
 over the last 120 days, newest first, each aggregated for internal and
 external PRs.
 */
module Rollup {
  import opened Records
  import opened Aggregator

  const SpanDays: int := 120
  const StepDays: int := 7

  /** Python's `range(start, stop, step)` for a positive step. */
  function Range(start: int, stop: int, step: int): (r: seq<int>)
    requires step > 0
    ensures |r| == if start >= stop then 0 else CeilDiv(stop - start, step)
    ensures forall k :: 0 <= k < |r| ==> r[k] == start + k * step
    decreases stop - start
  {
    if start >= stop then []
    else
      var rest := Range(start + step, stop, step);
      CeilDivStep(stop - start, step);
      [start] + rest
  }

  /** Taking one step off a positive amount takes one off its ceiling quotient. */
  lemma CeilDivStep(a: int, b: int)
    requires a > 0 && b > 0
    ensures a - b <= 0 ==> CeilDiv(a, b) == 1
    ensures a - b > 0 ==> CeilDiv(a, b) == CeilDiv(a - b, b) + 1
  {
    if a - b <= 0 {
      UniqueCeil(CeilDiv(a, b), 1, a, b);
    } else {
      var q' := CeilDiv(a - b, b);
      assert (q' + 1) * b == q' * b + b;
      UniqueCeil(CeilDiv(a, b), q' + 1, a, b);
    }
  }

  /** The ceiling quotient is the only q with (q - 1) * b < a <= q * b. */
  lemma UniqueCeil(q1: int, q2: int, a: int, b: int)
    requires b > 0
    requires (q1 - 1) * b < a <= q1 * b
    requires (q2 - 1) * b < a <= q2 * b
    ensures q1 == q2
  {
    if q1 < q2 {
      MulMono(q1, q2 - 1, b);
    } else if q2 < q1 {
      MulMono(q2, q1 - 1, b);
    }
  }

  lemma MulMono(x: int, y: int, b: int)
    requires x <= y && b >= 0
    ensures x * b <= y * b
  {
    var d := y - x;
    assert y * b == x * b + d * b;
  }

  /** A window of time, both ends inclusive, in seconds. */
  datatype Window = Window(dateFrom: int, dateTo: int)

  /** The window that ends `i` days before `now` and starts a week earlier. */
  function WindowAt(now: int, i: int): Window {
    Window(now - (i + StepDays) * Day, now - i * Day)
  }

  /** The 18 trailing weekly windows, newest first: window k ends 7k days
      before `now`, each is exactly 7 days wide, and each starts where the
      next one (one step older) ends. */
  function Windows(now: int): (ws: seq<Window>)
    ensures |ws| == 18
    ensures forall k :: 0 <= k < |ws| ==> ws[k] == Window(now - (StepDays * k + StepDays) * Day, now - StepDays * k * Day)
    ensures forall k :: 0 <= k < |ws| ==> ws[k].dateTo - ws[k].dateFrom == StepDays * Day
    ensures forall k :: 0 < k < |ws| ==> ws[k].dateTo == ws[k - 1].dateFrom && ws[k].dateTo < ws[k - 1].dateTo
  {
    var offsets := Range(0, SpanDays, StepDays);
    assert CeilDiv(SpanDays, StepDays) == 18;
    seq(|offsets|, k requires 0 <= k < |offsets| => WindowAt(now, offsets[k]))
  }

  /** Together the windows cover the 126 days before `now` without a gap:
      every instant in that span lies in some window. */
  lemma WindowsCover(now: int, t: int)
    requires now - 18 * StepDays * Day <= t <= now
    ensures exists k :: 0 <= k < 18 && Windows(now)[k].dateFrom <= t <= Windows(now)[k].dateTo
  {
    var ws := Windows(now);
    var k := (now - t) / (StepDays * Day);
    assert k * (StepDays * Day) <= now - t < k * (StepDays * Day) + StepDays * Day;
    if k >= 18 {
      k := 17;
    }
    assert ws[k] == Window(now - (StepDays * k + StepDays) * Day, now - StepDays * k * Day);
    assert 0 <= k < 18 && ws[k].dateFrom <= t <= ws[k].dateTo;
  }

  /** One point of the time series: a window and its statistics. */
  datatype Period = Period(window: Window, stats: PeriodStats)

  /** The weekly series the charts are drawn from, newest window first. */
  function DrawStats(cfg: Config, prs: seq<PullRequest>, now: int): (ps: seq<Period>)
    ensures |ps| == 18
    ensures forall k :: 0 <= k < |ps| ==>
              ps[k].window == Windows(now)[k]
              && ps[k].stats == CalcPrStats(cfg, prs, ps[k].window.dateFrom, ps[k].window.dateTo)
  {
    var ws := Windows(now);
    seq(|ws|, k requires 0 <= k < |ws| => Period(ws[k], CalcPrStats(cfg, prs, ws[k].dateFrom, ws[k].dateTo)))
  }
}
