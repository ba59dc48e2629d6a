/**
 The two per-record decisions the statistics depend on: whether a PR comes
 from outside the team, and the moment it stopped being open.
 */
module Classifier {
  import opened Records

  /** A PR is external exactly when its author is not a team member. */
  predicate IsExternal(pr: PullRequest, teamMembers: set<string>) {
    pr.author !in teamMembers
  }

  /** The effective end of a PR: when it was merged, when it was closed, or,
      for any other state, the reference time the caller supplies. */
  function EndDate(pr: PullRequest, current: int): (end: int)
    ensures pr.state == StateMerged ==> end == pr.mergedAt
    ensures pr.state == StateClosed ==> end == pr.closedAt
    ensures pr.state != StateMerged && pr.state != StateClosed ==> end == current
  {
    if pr.state == StateMerged then pr.mergedAt
    else if pr.state == StateClosed then pr.closedAt
    else current
  }
}
