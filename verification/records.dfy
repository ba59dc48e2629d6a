/**
 The pull-request record as the statistics engine reads it from the record
 store, the configuration the engine is given, and the constants it uses.

 Timestamps are integer seconds (UTC); parsing of the stored ISO-8601 text is
 not modelled. `state`, `closed` and `isDraft` are kept as the text the store
 holds, because the engine compares them as strings.
 */
module Records {

  /** Seconds in a day (`one_day = 3600 * 24`). */
  const Day: int := 86400

  const StateOpen: string := "OPEN"
  const StateMerged: string := "MERGED"
  const StateClosed: string := "CLOSED"

  /** The draft flag is compared with this exact text. */
  const DraftFlag: string := "TRUE"

  /** One row of the record store. `assignees` and `labels` are comma-joined. */
  datatype PullRequest = PullRequest(
    number: nat,
    state: string,
    closed: string,
    isDraft: string,
    title: string,
    branch: string,
    createdAt: int,
    updatedAt: int,
    mergedAt: int,
    closedAt: int,
    author: string,
    assignees: string,
    labels: string,
    url: string)

  /** The branch all statistics are restricted to, and the internal team. */
  datatype Config = Config(mainBranch: string, teamMembers: set<string>)

  datatype Option<T> = None | Some(value: T)

  function Min(a: int, b: int): int {
    if a < b then a else b
  }

  /** The elements of `s` that `keep` accepts, in their original order. */
  function Filter<T(!new)>(s: seq<T>, keep: T -> bool): (r: seq<T>)
    ensures |r| <= |s|
    ensures forall x :: x in r <==> x in s && keep(x)
  {
    if |s| == 0 then []
    else
      var r := Filter(s[..|s| - 1], keep);
      assert forall x :: x in s <==> x in s[..|s| - 1] || x == s[|s| - 1];
      if keep(s[|s| - 1]) then r + [s[|s| - 1]] else r
  }

  /** Two filters that split a third one between them share out its
      elements: the two results together are exactly as long. */
  lemma {:induction false} FilterPartition<T(!new)>(s: seq<T>, a: T -> bool, b: T -> bool, both: T -> bool)
    requires forall x :: both(x) <==> a(x) || b(x)
    requires forall x :: !(a(x) && b(x))
    ensures |Filter(s, a)| + |Filter(s, b)| == |Filter(s, both)|
  {
    if |s| > 0 {
      FilterPartition(s[..|s| - 1], a, b, both);
    }
  }
}
