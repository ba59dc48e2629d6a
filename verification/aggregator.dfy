/**
 The window aggregator: for one window [dateFrom, dateTo] it makes one pass
 over the records for external PRs and one for internal PRs, and each pass
 counts the records that overlap the window, their ages in whole days, the
 cumulative age buckets, the records closed inside the window, and the
 average age and time to close.

 Each pass is modelled twice: `Pass` is the loop as written, one record at a
 time through the same chain of skips and if/elif bucket updates; the
 reference side (`Counted`, `Ages`, `ClosedAges`, `BucketsOf`) says what the
 numbers should be over the whole record sequence at once.
 `PassMatchesReference` connects the two.
 */
module Aggregator {
  import opened Records
  import opened Classifier

  // ---------------------------------------------------------------------
  // Ages

  /** Python's `math.ceil(a / b)` for a positive divisor. */
  function CeilDiv(a: int, b: int): (q: int)
    requires b > 0
    ensures (q - 1) * b < a <= q * b
  {
    var k := (-a) / b;
    assert -a == k * b + (-a) % b;
    -k
  }

  /** Whole days (partial days rounded up) from `createdAt` to the earlier of
      the PR's end and the window's end. */
  function DaysOpen(createdAt: int, prEnd: int, dateTo: int): (days: int)
    ensures (days - 1) * Day < Min(prEnd, dateTo) - createdAt <= days * Day
  {
    if prEnd < dateTo then CeilDiv(prEnd - createdAt, Day)
    else CeilDiv(dateTo - createdAt, Day)
  }

  /** The age of a record as seen at the window's end. A record that is
      still open is always measured up to the window's end. */
  function Age(pr: PullRequest, dateTo: int): (days: int)
    ensures (days - 1) * Day < Min(EndDate(pr, dateTo), dateTo) - pr.createdAt <= days * Day
    ensures pr.state == StateOpen ==> (days - 1) * Day < dateTo - pr.createdAt <= days * Day
  {
    DaysOpen(pr.createdAt, EndDate(pr, dateTo), dateTo)
  }

  // ---------------------------------------------------------------------
  // Age buckets

  /** Counters by days open. `ltN` counts ages below N, `geN` ages of at
      least N. */
  datatype Buckets = Buckets(
    lt5: nat, ge5: nat, lt10: nat, ge10: nat, lt15: nat, ge15: nat, ge20: nat, ge30: nat)

  const NoBuckets := Buckets(0, 0, 0, 0, 0, 0, 0, 0)

  function Ind(b: bool): nat {
    if b then 1 else 0
  }

  /** The if/elif chain that files one record of age `days`. Every counter
      moves by exactly its own threshold test. */
  function AddToBuckets(b: Buckets, days: int): (r: Buckets)
    ensures r.lt5 == b.lt5 + Ind(days < 5)
    ensures r.ge5 == b.ge5 + Ind(days >= 5)
    ensures r.lt10 == b.lt10 + Ind(days < 10)
    ensures r.ge10 == b.ge10 + Ind(days >= 10)
    ensures r.lt15 == b.lt15 + Ind(days < 15)
    ensures r.ge15 == b.ge15 + Ind(days >= 15)
    ensures r.ge20 == b.ge20 + Ind(days >= 20)
    ensures r.ge30 == b.ge30 + Ind(days >= 30)
  {
    if days >= 30 then
      b.(ge5 := b.ge5 + 1, ge10 := b.ge10 + 1, ge15 := b.ge15 + 1, ge20 := b.ge20 + 1, ge30 := b.ge30 + 1)
    else if days >= 20 then
      b.(ge5 := b.ge5 + 1, ge10 := b.ge10 + 1, ge15 := b.ge15 + 1, ge20 := b.ge20 + 1)
    else if days >= 15 then
      b.(ge5 := b.ge5 + 1, ge10 := b.ge10 + 1, ge15 := b.ge15 + 1)
    else if days >= 10 then
      b.(ge5 := b.ge5 + 1, ge10 := b.ge10 + 1, lt15 := b.lt15 + 1)
    else if days >= 5 then
      b.(ge5 := b.ge5 + 1, lt15 := b.lt15 + 1, lt10 := b.lt10 + 1)
    else
      b.(lt15 := b.lt15 + 1, lt10 := b.lt10 + 1, lt5 := b.lt5 + 1)
  }

  function CountAtLeast(ages: seq<int>, k: int): nat {
    if |ages| == 0 then 0 else CountAtLeast(ages[..|ages| - 1], k) + Ind(ages[|ages| - 1] >= k)
  }

  function CountBelow(ages: seq<int>, k: int): nat {
    if |ages| == 0 then 0 else CountBelow(ages[..|ages| - 1], k) + Ind(ages[|ages| - 1] < k)
  }

  /** The bucket table read directly off a list of ages. */
  function BucketsOf(ages: seq<int>): Buckets {
    Buckets(
      CountBelow(ages, 5), CountAtLeast(ages, 5),
      CountBelow(ages, 10), CountAtLeast(ages, 10),
      CountBelow(ages, 15), CountAtLeast(ages, 15),
      CountAtLeast(ages, 20), CountAtLeast(ages, 30))
  }

  /** Cumulative thresholds: the shape every bucket table has. */
  predicate Cumulative(b: Buckets, count: nat) {
    && b.ge5 >= b.ge10 >= b.ge15 >= b.ge20 >= b.ge30
    && b.lt5 <= b.lt10 <= b.lt15
    && b.lt5 + b.ge5 == count
    && b.lt10 + b.ge10 == count
    && b.lt15 + b.ge15 == count
  }

  lemma {:induction false} AtLeastAntitone(ages: seq<int>, k1: int, k2: int)
    requires k1 <= k2
    ensures CountAtLeast(ages, k2) <= CountAtLeast(ages, k1)
  {
    if |ages| > 0 {
      AtLeastAntitone(ages[..|ages| - 1], k1, k2);
    }
  }

  lemma {:induction false} BelowMonotone(ages: seq<int>, k1: int, k2: int)
    requires k1 <= k2
    ensures CountBelow(ages, k1) <= CountBelow(ages, k2)
  {
    if |ages| > 0 {
      BelowMonotone(ages[..|ages| - 1], k1, k2);
    }
  }

  lemma {:induction false} BelowAtLeastComplement(ages: seq<int>, k: int)
    ensures CountBelow(ages, k) + CountAtLeast(ages, k) == |ages|
  {
    if |ages| > 0 {
      BelowAtLeastComplement(ages[..|ages| - 1], k);
    }
  }

  /** Every table of ages has the cumulative shape. */
  lemma BucketsOfCumulative(ages: seq<int>)
    ensures Cumulative(BucketsOf(ages), |ages|)
  {
    AtLeastAntitone(ages, 5, 10);
    AtLeastAntitone(ages, 10, 15);
    AtLeastAntitone(ages, 15, 20);
    AtLeastAntitone(ages, 20, 30);
    BelowMonotone(ages, 5, 10);
    BelowMonotone(ages, 10, 15);
    BelowAtLeastComplement(ages, 5);
    BelowAtLeastComplement(ages, 10);
    BelowAtLeastComplement(ages, 15);
  }

  lemma BucketsOfSnoc(ages: seq<int>, d: int)
    ensures AddToBuckets(BucketsOf(ages), d) == BucketsOf(ages + [d])
  {
    assert (ages + [d])[..|ages|] == ages;
  }

  // ---------------------------------------------------------------------
  // One pass as written

  /** The running counters of one pass. */
  datatype Tally = Tally(
    count: nat,
    closedCount: nat,
    totalOpenDays: int,
    totalDaysToClose: int,
    openByDays: Buckets)

  const NoTally := Tally(0, 0, 0, 0, NoBuckets)

  /** The inclusion filter: main branch, not a draft, and the PR's span
      [createdAt, end] meets the window [dateFrom, dateTo], both ends
      inclusive. */
  predicate InWindow(cfg: Config, dateFrom: int, dateTo: int, pr: PullRequest) {
    && pr.branch == cfg.mainBranch
    && pr.isDraft != DraftFlag
    && EndDate(pr, dateTo) >= dateFrom
    && pr.createdAt <= dateTo
  }

  /** A record the external (or internal) pass counts. */
  predicate Counted(cfg: Config, external: bool, dateFrom: int, dateTo: int, pr: PullRequest) {
    IsExternal(pr, cfg.teamMembers) == external && InWindow(cfg, dateFrom, dateTo, pr)
  }

  /** A counted record that was merged or closed by the window's end. */
  predicate ClosesInWindow(pr: PullRequest, dateTo: int) {
    (pr.state == StateMerged || pr.state == StateClosed) && EndDate(pr, dateTo) <= dateTo
  }

  /** One iteration of the pass over the records. */
  function Visit(cfg: Config, external: bool, dateFrom: int, dateTo: int, t: Tally, pr: PullRequest): (r: Tally)
    ensures r.count == t.count + Ind(Counted(cfg, external, dateFrom, dateTo, pr))
    ensures r.closedCount == t.closedCount + Ind(Counted(cfg, external, dateFrom, dateTo, pr) && ClosesInWindow(pr, dateTo))
    ensures !Counted(cfg, external, dateFrom, dateTo, pr) ==> r == t
  {
    if external != IsExternal(pr, cfg.teamMembers) then t
    else if pr.branch != cfg.mainBranch || pr.isDraft == DraftFlag then t
    else
      var prEnd := EndDate(pr, dateTo);
      if prEnd < dateFrom || pr.createdAt > dateTo then t
      else
        var days := DaysOpen(pr.createdAt, prEnd, dateTo);
        var closes := (pr.state == StateMerged || pr.state == StateClosed) && prEnd <= dateTo;
        Tally(
          t.count + 1,
          if closes then t.closedCount + 1 else t.closedCount,
          t.totalOpenDays + days,
          if closes then t.totalDaysToClose + days else t.totalDaysToClose,
          AddToBuckets(t.openByDays, days))
  }

  /** Both window ends are inclusive: a record that ends exactly at the
      window's start, or was created exactly at its end, is counted. */
  lemma BoundaryRecordsCounted(cfg: Config, external: bool, dateFrom: int, dateTo: int, t: Tally, pr: PullRequest)
    requires pr.branch == cfg.mainBranch && pr.isDraft != DraftFlag
    requires IsExternal(pr, cfg.teamMembers) == external
    requires (EndDate(pr, dateTo) == dateFrom && pr.createdAt <= dateTo)
          || (pr.createdAt == dateTo && EndDate(pr, dateTo) >= dateFrom)
    ensures Visit(cfg, external, dateFrom, dateTo, t, pr).count == t.count + 1
  {
  }

  /** The pass over the records in store order, starting from zero. */
  function Pass(cfg: Config, external: bool, dateFrom: int, dateTo: int, prs: seq<PullRequest>): Tally {
    if |prs| == 0 then NoTally
    else
      var init, pr := prs[..|prs| - 1], prs[|prs| - 1];
      Visit(cfg, external, dateFrom, dateTo, Pass(cfg, external, dateFrom, dateTo, init), pr)
  }

  // ---------------------------------------------------------------------
  // The reference numbers

  function CountedBy(cfg: Config, external: bool, dateFrom: int, dateTo: int): PullRequest -> bool {
    pr => Counted(cfg, external, dateFrom, dateTo, pr)
  }

  function InWindowBy(cfg: Config, dateFrom: int, dateTo: int): PullRequest -> bool {
    pr => InWindow(cfg, dateFrom, dateTo, pr)
  }

  /** The records one pass counts. */
  function Selected(cfg: Config, external: bool, dateFrom: int, dateTo: int, prs: seq<PullRequest>): seq<PullRequest> {
    Filter(prs, CountedBy(cfg, external, dateFrom, dateTo))
  }

  function Ages(prs: seq<PullRequest>, dateTo: int): (ages: seq<int>)
    ensures |ages| == |prs|
  {
    if |prs| == 0 then [] else Ages(prs[..|prs| - 1], dateTo) + [Age(prs[|prs| - 1], dateTo)]
  }

  /** The ages of the records that closed inside the window. */
  function ClosedAges(prs: seq<PullRequest>, dateTo: int): seq<int> {
    if |prs| == 0 then []
    else
      var rest := ClosedAges(prs[..|prs| - 1], dateTo);
      if ClosesInWindow(prs[|prs| - 1], dateTo) then rest + [Age(prs[|prs| - 1], dateTo)] else rest
  }

  function Sum(xs: seq<int>): int {
    if |xs| == 0 then 0 else Sum(xs[..|xs| - 1]) + xs[|xs| - 1]
  }

  /** What a pass should end with: the number of records it counts, how many
      of those closed in the window, the sums of their ages, and the bucket
      table of their ages. */
  function Expected(sel: seq<PullRequest>, dateTo: int): Tally {
    Tally(|sel|, |ClosedAges(sel, dateTo)|, Sum(Ages(sel, dateTo)), Sum(ClosedAges(sel, dateTo)),
          BucketsOf(Ages(sel, dateTo)))
  }

  lemma ExpectedSnoc(sel: seq<PullRequest>, dateTo: int, pr: PullRequest)
    ensures var e := Expected(sel, dateTo);
            var closes := ClosesInWindow(pr, dateTo);
            var days := Age(pr, dateTo);
            Expected(sel + [pr], dateTo) ==
              Tally(e.count + 1,
                    if closes then e.closedCount + 1 else e.closedCount,
                    e.totalOpenDays + days,
                    if closes then e.totalDaysToClose + days else e.totalDaysToClose,
                    AddToBuckets(e.openByDays, days))
  {
    var s := sel + [pr];
    assert s[..|s| - 1] == sel;
    var ages := Ages(sel, dateTo);
    assert Ages(s, dateTo) == ages + [Age(pr, dateTo)];
    assert (ages + [Age(pr, dateTo)])[..|ages|] == ages;
    BucketsOfSnoc(ages, Age(pr, dateTo));
    if ClosesInWindow(pr, dateTo) {
      var c := ClosedAges(sel, dateTo);
      assert (c + [Age(pr, dateTo)])[..|c|] == c;
    }
  }

  /** The pass as written ends with exactly the reference numbers for the
      records it counts. */
  lemma {:induction false} PassMatchesReference(cfg: Config, external: bool, dateFrom: int, dateTo: int, prs: seq<PullRequest>)
    ensures Pass(cfg, external, dateFrom, dateTo, prs) == Expected(Selected(cfg, external, dateFrom, dateTo, prs), dateTo)
  {
    if |prs| > 0 {
      var init, pr := prs[..|prs| - 1], prs[|prs| - 1];
      PassMatchesReference(cfg, external, dateFrom, dateTo, init);
      var sel := Selected(cfg, external, dateFrom, dateTo, init);
      if Counted(cfg, external, dateFrom, dateTo, pr) {
        ExpectedSnoc(sel, dateTo, pr);
      }
    }
  }

  /** Every record that passes the inclusion filter is counted by exactly one
      of the two passes. */
  lemma PassesPartitionWindow(cfg: Config, dateFrom: int, dateTo: int, prs: seq<PullRequest>)
    ensures |Selected(cfg, true, dateFrom, dateTo, prs)| + |Selected(cfg, false, dateFrom, dateTo, prs)|
         == |Filter(prs, InWindowBy(cfg, dateFrom, dateTo))|
  {
    FilterPartition(prs, CountedBy(cfg, true, dateFrom, dateTo), CountedBy(cfg, false, dateFrom, dateTo),
                    InWindowBy(cfg, dateFrom, dateTo));
  }

  lemma {:induction false} ClosedAgesBound(prs: seq<PullRequest>, dateTo: int)
    ensures |ClosedAges(prs, dateTo)| <= |prs|
  {
    if |prs| > 0 {
      ClosedAgesBound(prs[..|prs| - 1], dateTo);
    }
  }

  // ---------------------------------------------------------------------
  // Results

  /** `total / n` as a real, or 0 when nothing was counted. */
  function Average(total: int, n: nat): (avg: real)
    ensures n == 0 ==> avg == 0.0
    ensures n > 0 ==> avg * (n as real) == total as real
  {
    if n == 0 then 0.0 else (total as real) / (n as real)
  }

  datatype WindowStats = WindowStats(
    count: nat,
    closedCount: nat,
    totalOpenDays: int,
    totalDaysToClose: int,
    avgOpenDays: real,
    avgDaysToClose: real,
    openByDays: Buckets)

  /** The reported statistics of a finished pass: the counters as they stand,
      and each average the total over its count, or 0 when the count is 0. */
  function Summarize(t: Tally): WindowStats {
    WindowStats(t.count, t.closedCount, t.totalOpenDays, t.totalDaysToClose,
                Average(t.totalOpenDays, t.count), Average(t.totalDaysToClose, t.closedCount),
                t.openByDays)
  }

  /** A tally whose closed count is at most its count and whose buckets are
      cumulative gives consistent statistics. */
  lemma SummarizeConsistent(t: Tally)
    requires t.closedCount <= t.count && Cumulative(t.openByDays, t.count)
    ensures Consistent(Summarize(t))
  {
  }

  /** The internal and external statistics of one window. */
  datatype PeriodStats = PeriodStats(internal: WindowStats, external: WindowStats)

  /** Everything one class of records in one window must satisfy. */
  predicate Consistent(w: WindowStats) {
    && w.closedCount <= w.count
    && Cumulative(w.openByDays, w.count)
    && (w.count == 0 ==> w.avgOpenDays == 0.0)
    && (w.count > 0 ==> w.avgOpenDays * (w.count as real) == w.totalOpenDays as real)
    && (w.closedCount == 0 ==> w.avgDaysToClose == 0.0)
    && (w.closedCount > 0 ==> w.avgDaysToClose * (w.closedCount as real) == w.totalDaysToClose as real)
  }

  /** The statistics one pass reports for one class of records. */
  function PassStats(cfg: Config, external: bool, dateFrom: int, dateTo: int, prs: seq<PullRequest>): (w: WindowStats)
    ensures w == Summarize(Expected(Selected(cfg, external, dateFrom, dateTo, prs), dateTo))
    ensures Consistent(w)
  {
    var sel := Selected(cfg, external, dateFrom, dateTo, prs);
    var t := Pass(cfg, external, dateFrom, dateTo, prs);
    PassMatchesReference(cfg, external, dateFrom, dateTo, prs);
    assert t == Expected(sel, dateTo);
    BucketsOfCumulative(Ages(sel, dateTo));
    ClosedAgesBound(sel, dateTo);
    SummarizeConsistent(t);
    Summarize(t)
  }

  /** The statistics of the window [dateFrom, dateTo], both ends inclusive,
      over the records in store order. */
  function CalcPrStats(cfg: Config, prs: seq<PullRequest>, dateFrom: int, dateTo: int): (s: PeriodStats)
    ensures s.internal == Summarize(Expected(Selected(cfg, false, dateFrom, dateTo, prs), dateTo))
    ensures s.external == Summarize(Expected(Selected(cfg, true, dateFrom, dateTo, prs), dateTo))
    ensures s.internal.count + s.external.count == |Filter(prs, InWindowBy(cfg, dateFrom, dateTo))|
    ensures Consistent(s.internal) && Consistent(s.external)
  {
    PassesPartitionWindow(cfg, dateFrom, dateTo, prs);
    PeriodStats(PassStats(cfg, false, dateFrom, dateTo, prs), PassStats(cfg, true, dateFrom, dateTo, prs))
  }

  /** The pass as `calc_pr_stats` runs it: a loop over the records that skips the
      ones it does not count and recomputes both averages after every record
      it does count. It ends with the statistics the pass reports. */
  method RunPass(cfg: Config, external: bool, dateFrom: int, dateTo: int, prs: seq<PullRequest>)
    returns (w: WindowStats)
    ensures w == PassStats(cfg, external, dateFrom, dateTo, prs)
  {
    var t := NoTally;
    var avgOpenDays := 0.0;
    var avgDaysToClose := 0.0;
    for i := 0 to |prs|
      invariant t == Pass(cfg, external, dateFrom, dateTo, prs[..i])
      invariant avgOpenDays == Average(t.totalOpenDays, t.count)
      invariant avgDaysToClose == Average(t.totalDaysToClose, t.closedCount)
    {
      assert prs[..i + 1][..i] == prs[..i];
      if Counted(cfg, external, dateFrom, dateTo, prs[i]) {
        t := Visit(cfg, external, dateFrom, dateTo, t, prs[i]);
        if t.count > 0 {
          avgOpenDays := (t.totalOpenDays as real) / (t.count as real);
        }
        if t.closedCount > 0 {
          avgDaysToClose := (t.totalDaysToClose as real) / (t.closedCount as real);
        }
      }
    }
    assert prs[..|prs|] == prs;
    w := WindowStats(t.count, t.closedCount, t.totalOpenDays, t.totalDaysToClose,
                     avgOpenDays, avgDaysToClose, t.openByDays);
  }
}
