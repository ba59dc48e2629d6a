/**
 The two listings of the report: open PRs older than a number of days (one
 listing for external, one for internal authors), and open PRs nobody is
 assigned to. Only the selection and the days-open figure are modelled; the
 printed lines are not.
 */
module Selection {
  import opened Records
  import opened Strings
  import opened Classifier
  import opened Aggregator
  import opened Store

  /** Open, targeting the main branch, and not a draft. */
  predicate OpenOnMain(cfg: Config, pr: PullRequest) {
    pr.branch == cfg.mainBranch && pr.isDraft != DraftFlag && pr.state == StateOpen
  }

  /** Listed as slow: open on main, of the requested class, and created no
      later than `cutoff`. */
  predicate Slow(cfg: Config, external: bool, cutoff: int, pr: PullRequest) {
    OpenOnMain(cfg, pr) && IsExternal(pr, cfg.teamMembers) == external && pr.createdAt <= cutoff
  }

  function SlowBy(cfg: Config, external: bool, cutoff: int): PullRequest -> bool {
    pr => Slow(cfg, external, cutoff, pr)
  }

  /** A listed PR with the whole days it has been open. */
  datatype SlowPr = SlowPr(daysOpen: int, pr: PullRequest)

  /** The PRs of a listing, in listing order. */
  function PrsOf(r: seq<SlowPr>): (prs: seq<PullRequest>)
    ensures |prs| == |r|
  {
    if |r| == 0 then [] else PrsOf(r[..|r| - 1]) + [r[|r| - 1].pr]
  }

  /** The PRs open for more than `days` days as of `now`, in store order.
      Their age is measured up to `current`, the reference time the age
      computation falls back on for an open PR. When that reference is less
      than a day before `now`, every listed PR is at least `days` days old. */
  function SlowPrs(cfg: Config, prs: seq<PullRequest>, external: bool, now: int, current: int, days: int)
    : (r: seq<SlowPr>)
    ensures forall e :: e in r ==> e.pr in prs && Slow(cfg, external, now - days * Day, e.pr)
    ensures forall pr :: pr in prs && Slow(cfg, external, now - days * Day, pr) ==>
              exists e :: e in r && e.pr == pr
    ensures forall e :: e in r ==> (e.daysOpen - 1) * Day < current - e.pr.createdAt <= e.daysOpen * Day
    ensures now - Day < current ==> forall e :: e in r ==> e.daysOpen >= days
    ensures PrsOf(r) == Filter(prs, SlowBy(cfg, external, now - days * Day))
  {
    if |prs| == 0 then []
    else
      var rest := SlowPrs(cfg, prs[..|prs| - 1], external, now, current, days);
      var pr := prs[|prs| - 1];
      assert forall x :: x in prs <==> x in prs[..|prs| - 1] || x == pr;
      if Slow(cfg, external, now - days * Day, pr) then
        var e := SlowPr(CeilDiv(EndDate(pr, current) - pr.createdAt, Day), pr);
        assert e in rest + [e];
        assert (rest + [e])[..|rest|] == rest;
        rest + [e]
      else rest
  }

  /** Listed as unassigned: open on main with an empty assignee string. */
  predicate Unassigned(cfg: Config, pr: PullRequest) {
    OpenOnMain(cfg, pr) && pr.assignees == ""
  }

  function UnassignedBy(cfg: Config): PullRequest -> bool {
    pr => Unassigned(cfg, pr)
  }

  /** The open PRs without assignees, in store order. */
  function PrsWithoutAssignees(cfg: Config, prs: seq<PullRequest>): (r: seq<PullRequest>)
    ensures forall pr :: pr in r <==> pr in prs && Unassigned(cfg, pr)
  {
    Filter(prs, UnassignedBy(cfg))
  }

  /** A row built from a snapshot entry counts as unassigned exactly when the
      entry lists no assignee (logins are never empty). */
  lemma UnassignedIffNoAssignees(pr: SnapshotPr)
    requires forall i :: 0 <= i < |pr.assigneeLogins| ==> pr.assigneeLogins[i] != ""
    ensures ToRow(pr).assignees == "" <==> |pr.assigneeLogins| == 0
  {
  }
}
