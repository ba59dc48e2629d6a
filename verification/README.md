# Pull-request statistics engine, modelled in Dafny

This project models the statistics core of `lib.py`, a script that keeps a
table of pull requests (PRs) and reports on them. The model covers five parts:

- **Classification.** A PR is external unless its author is a team member. Its
  effective end time is `mergedAt` for a MERGED PR and `closedAt` for a CLOSED
  one. For any other state it is a reference time that the caller supplies.
- **Window aggregation (`calc_pr_stats`).** For a window `[date_from, date_to]`,
  the engine makes one pass for external PRs and one for internal PRs. Each
  pass keeps main-branch, non-draft PRs that overlap the window, with both ends
  inclusive. For those PRs it computes:
  - days open, rounded up to whole days and measured to the earlier of the PR's
    end and the window's end;
  - the cumulative age buckets `5-`, `5+`, `10-`, `10+`, `15-`, `15+`, `20+`, `30+`;
  - how many PRs closed inside the window;
  - the average days open and the average days to close.
- **Rolling windows (`calc_draw_stats`).** Eighteen trailing 7-day windows,
  newest first, each aggregated as above.
- **The record table (`read_csv` / `update_csv` without file I/O).**
  - Rows are keyed by the PR number, zero-padded to eight digits.
  - Reading keys every stored row.
  - Merging a snapshot overwrites or adds each incoming PR's row, with the
    assignee and label names comma-joined.
  - Both reading and merging leave the table sorted by key.
- **Listings.** Open PRs older than a given number of days, and open PRs with
  no assignee.

Timestamps are integer seconds (UTC), and a day is 86400 seconds. The
reference times ("now", and the time the age computation falls back on) are
parameters. `state`, `closed` and `isDraft` are kept as the text the store
holds. The code compares `state` and `isDraft` as strings, and it only copies
`closed` (lib.py:70). A record counts as a draft only when `isDraft` is
exactly `"TRUE"`.

Files, one module each:

- `records.dfy`: the PR row, the configuration, and the constants. It also
  holds a generic order-preserving `Filter` and its partition lemma.
- `strings.dfy`: Python's `str(int)` and `str.zfill`, the string order that
  `sorted` uses, and `",".join`.
- `classifier.dfy`: `is_external_pr` and `get_pr_end_date`.
- `aggregator.dfy`: `calc_pr_stats`. `Pass` is the loop as written, record by
  record, and the if/elif bucket chain is `AddToBuckets`. The reference
  definitions (`Counted`, `Ages`, `ClosedAges`, `BucketsOf`) describe the same
  numbers over the whole record sequence at once.
- `rollup.dfy`: `range(0, 120, 7)` and the weekly windows of `calc_draw_stats`.
- `store.dfy`: the keyed, sorted record table.
- `selection.dfy`: the filters of `print_slow_prs` and `prs_without_assignees`.

Two edge cases of the code are kept as written:

- A record created exactly at the window's end is counted. The code skips only
  `pr_begin > end_period` (lib.py:172). `BoundaryRecordsCounted` states this.
- Days open is not clamped at 0. When `mergedAt` or `closedAt` is earlier than
  `createdAt`, the age is at most 0. It is negative only once the end is a
  full day or more before creation, because `math.ceil` of a fraction above
  -1 is 0 (lib.py:179). Such an age is filed in the `5-`, `10-` and `15-`
  buckets.

## Model

| member | source | states |
|---|---|---|
| Classifier.IsExternal | lib.py:96-100 | A PR is internal exactly when its author is a team member, and external otherwise. |
| Classifier.EndDate | lib.py:104-109 | The end is `mergedAt` when the state is MERGED and `closedAt` when it is CLOSED. For every other state it is the supplied reference time. |
| Aggregator.CeilDiv | lib.py:179-181 | `math.ceil(a / b)`: the result q is the unique integer with `(q-1)*b < a <= q*b`. |
| Aggregator.DaysOpen | lib.py:177-181 | Days open is the ceiling of (min(pr_end, date_to) - createdAt) / 86400. |
| Aggregator.Age | lib.py:169-181 | A record's age is measured to min(end date, date_to). An OPEN record is always measured to `date_to`. |
| Aggregator.AddToBuckets | lib.py:195-222 | The if/elif chain raises each counter by exactly its own threshold test. `N+` rises iff days >= N, and `N-` rises iff days < N. |
| Aggregator.BucketsOfCumulative | lib.py:146-222 | Any list of ages gives `5+ >= 10+ >= 15+ >= 20+ >= 30+` and `5- <= 10- <= 15-`. Each of `5-`+`5+`, `10-`+`10+` and `15-`+`15+` equals the count. |
| Aggregator.Pass | lib.py:156-222 | The loop of one pass: starting from zero counters, each record in store order is visited in turn. |
| Aggregator.InWindow | lib.py:163-173 | The inclusion filter: on the main branch, `isDraft` not `"TRUE"`, pr_end >= date_from and createdAt <= date_to, with both window ends inclusive. |
| Aggregator.Counted | lib.py:159-173 | A record the pass counts: it has the pass's class and passes the inclusion filter. |
| Aggregator.ClosesInWindow | lib.py:185 | A counted record closes in the window when it is MERGED or CLOSED and its end is no later than date_to. |
| Aggregator.Visit | lib.py:156-187 | A record raises the count iff it has the pass's class, is on main, is not `"TRUE"` draft, and has pr_end >= date_from and createdAt <= date_to. It raises the closed count iff it is also MERGED or CLOSED with pr_end <= date_to. Otherwise nothing changes. |
| Aggregator.BoundaryRecordsCounted | lib.py:171-175 | A record with pr_end == date_from, or with createdAt == date_to, is counted: both window ends are inclusive. |
| Aggregator.PassMatchesReference | lib.py:138-222 | The pass ends with the reference numbers for the records it counts: their number, the number that closed in the window, both age sums, and the bucket table read off their ages. |
| Aggregator.PassesPartitionWindow | lib.py:137-173 | Every record in the window is seen by exactly one pass, so external count + internal count = number of records passing the inclusion filter. |
| Aggregator.Summarize | lib.py:189-236 | The reported statistics keep the pass's counters, totals and buckets, with each average the total over its count or 0. |
| Aggregator.SummarizeConsistent | lib.py:189-236 | A tally whose closed count is at most its count and whose buckets are cumulative gives consistent statistics. |
| Aggregator.Average | lib.py:189-193 | An average is 0 when its count is 0. Otherwise average × count = total. |
| Aggregator.PassStats | lib.py:138-236 | A pass reports the reference numbers with averages total/count, or 0 when the count is 0. The report is consistent: closed <= count, and the buckets are cumulative and complementary. |
| Aggregator.CalcPrStats | lib.py:121-238 | `internal` holds the statistics of the team members' PRs and `external` those of everyone else's. internal.count + external.count = number of records passing the inclusion filter. Both classes' statistics are consistent. |
| Aggregator.RunPass | lib.py:139-236 | The loop, which recomputes both averages after every counted record, ends with the statistics the pass reports. |
| Rollup.Range | lib.py:296 | `range(start, stop, step)` has ceil((stop-start)/step) elements, and element k is start + k*step. |
| Rollup.Windows | lib.py:292-302 | There are 18 windows, newest first. Window k is [now-(7k+7) days, now-7k days]. Each is exactly 7 days wide, and each starts where the next older one ends. |
| Rollup.WindowsCover | lib.py:296-298 | Every instant of the last 126 days lies in some window: the windows leave no gap. |
| Rollup.DrawStats | lib.py:292-303 | There are 18 points. Point k pairs window k with the window statistics computed for exactly that window. |
| Strings.Decimal | lib.py:31 | `str(n)` is a non-empty string of decimal digits. |
| Strings.DecimalRoundTrip | lib.py:31 | The digits of `str(n)` read back as n. |
| Strings.ZFill | lib.py:31 | `zfill(w)` has length max(w, len). For unsigned text it is the text preceded by zeros only. |
| Strings.JoinNames | lib.py:53-65 | Appending `name + ","` and dropping the last character builds exactly `",".join(names)`. An empty list gives `""`. |
| Strings.StrLess | lib.py:35 | Python's string order, under which `sorted` orders the keys: the first differing character decides, and a proper prefix comes first. No string is below itself. |
| Strings.StrLessTotal | lib.py:35 | Any two keys are equal or ordered one way or the other by Python's string order. |
| Strings.StrLessTransitive | lib.py:35 | Python's string order is transitive. |
| Strings.StrLessIrreflexive | lib.py:35 | No key is below itself. |
| Strings.DigitOrder | lib.py:31-35 | For digit strings of one length, string order is numeric order. |
| Store.Key | lib.py:31 | The key `zfill(8)` of a number is all digits and at least 8 characters. It reads back as the number, so distinct numbers never share a key. |
| Store.KeyOrderIsNumberOrder | lib.py:34-35 | For numbers below 10^8, sorting by key is sorting by PR number. |
| Store.ToRow | lib.py:53-82 | A row built from a snapshot entry copies all of its fields: number, state, closed, isDraft, title, the three timestamps, and url. The base branch goes into `branch` and the author login into `author`. Assignees and labels are the comma-joined names. |
| Store.Upsert | lib.py:67 | One assignment keeps the table sorted, adds the key, stores the row under it, and leaves every other key's row as it was. |
| Store.UpsertAll | lib.py:30-35 | After keying a sequence of rows into a sorted table, each key holds the last row carrying it. Every other key keeps its old row. The table stays sorted. |
| Store.ReadStore | lib.py:20-37 | Reading the store gives a sorted table, each row under its own key. Each key holds the last stored row with that key. |
| Store.Merge | lib.py:49-85 | The merged table is sorted, and each row stays under its own key. |
| Store.UpdateStore | lib.py:41-85 | Reading and then merging gives a sorted table of rows, each under its own key. Each key holds the row of the last snapshot entry with its number. A key with no such entry holds the last stored row with that key, or is absent. |
| Store.MergeOverwrites | lib.py:50-82 | Every incoming PR's key maps to the row built from the last snapshot entry with its number. |
| Store.MergeKeepsOthers | lib.py:49-85 | A key that no incoming PR maps to keeps its old row, or stays absent. |
| Store.SortedTablesEqual | lib.py:85 | A sorted table is determined by what it stores under each key. |
| Store.MergeIdempotent | lib.py:41-92 | Merging the same snapshot a second time changes nothing. |
| Store.WriteReadRoundTrip | lib.py:20-37 | Reading back the rows of a sorted, correctly keyed table, in order, gives the same table. |
| Store.Values | lib.py:91-92 | The rows written out are the table's rows, one per key, in key order. |
| Store.Rows | lib.py:50-82 | The snapshot gives one row per entry, in order. |
| Selection.Slow | lib.py:530-542 | A PR is listed as slow when it is open, on main, not a `"TRUE"` draft, of the requested class, and created no later than the cutoff. |
| Selection.SlowPrs | lib.py:516-551 | The listed PRs are exactly the open, main-branch, non-draft PRs of the requested class created no later than now - days, in store order. Each listed age is the ceiling of its open time in days. If the age reference is less than a day before now, every listed age is at least `days`. |
| Selection.Unassigned | lib.py:562-566 | A PR is listed as unassigned when it is open, on main, not a `"TRUE"` draft, and its assignee string is empty. |
| Selection.PrsWithoutAssignees | lib.py:555-573 | A PR is listed iff it is open, on main, not a `"TRUE"` draft, and has an empty assignee string. |
| Selection.UnassignedIffNoAssignees | lib.py:53-58 | When logins are non-empty, a row built from a snapshot entry has an empty assignee string iff the entry lists no assignee. |
| Records.FilterPartition | lib.py:137-160 | If two filters split a third between them, their results together are exactly as long as the third's. |

## Left out

- File I/O is not modelled. This covers `create_csv`, opening, reading and
  writing the CSV file, and `json.load`. The stored rows and the snapshot are
  sequences, and the table is a sorted association list.
- Timestamp parsing and date arithmetic (`dateutil.parse`, `relativedelta`,
  `strftime`) are foreign library calls. Timestamps are integer seconds.
  Parsing failures are not modelled: `parse` raises on an empty `mergedAt` for
  a MERGED row or an empty `closedAt` for a CLOSED row.
- The wall clock is not modelled. `datetime.now()` calls become parameters.
  This includes the default argument of `get_pr_end_date`, which is evaluated
  once when the module loads (lib.py:104). `calc_open_time` (lib.py:113-116)
  relies on that default, so `Selection.SlowPrs` takes it as the separate
  parameter `current`.
- Float arithmetic is not modelled. Ceilings are exact integer ceilings, and
  `math.ceil` of the float quotient agrees with them for timestamps below 2^53
  seconds. Averages are the exact `real` quotients. Python rounds these to the
  nearest double (lib.py:191, lib.py:193), so, for example, its 10/3 is not
  the exact 10/3.
- Printing and report layout are not modelled: `print_stats2`, the `draw_*`
  chart builders, URL quoting, and `gen_report`. This also covers the
  percentage helper `c2s`, which divides by zero when a count is 0.
- `print_stats2`'s use of the aggregator for trailing 2, 4 and 8 weeks is
  `CalcPrStats` over `[now - 7w days, now]`. It has no member of its own.
- How booleans are written to the store is not modelled. `isDraft` is taken
  as the text the store holds. Python's `csv` writer renders a JSON boolean
  `true` as `True`, which is not equal to the `"TRUE"` that lib.py:163
  compares with. The comparison is kept exactly as written.
- The dictionary keyed by window text in `calc_draw_stats` (lib.py:299-300) is
  not modelled as text. It is a sequence of windows in insertion order, which
  is newest first.
- Store.KeyOrderIsNumberOrder: stated only for PR numbers below 10^8. From
  nine digits on, `zfill(8)` no longer pads, and string order differs from
  numeric order. For example, 100000000 sorts before 20000000.
- The header row is not modelled. `read_csv` drops the first row it reads as
  the header without checking it (lib.py:25-26). The model's stored rows start
  after that header. `update_csv` rewrites the file in place (lib.py:88-92),
  which is file I/O and left out with it.
- Selection.UnassignedIffNoAssignees: assumes every assignee login is
  non-empty, as account logins are. Take a PR whose only assignee has an
  empty login: lib.py:56-58 builds `","` and then strips it to `""`, so the PR
  is listed as unassigned.
- The ordering promised by the comment at lib.py:515 ("sorted by oldest
  first") is not modelled, because the code does not sort: it lists the PRs in
  key order, and so does `Selection.SlowPrs`.
