/**
  Flexible quorums: how many voters a commit and an election need, and the
  counting loops that decide whether a set of acknowledgements is enough.

  A policy of 0 (or below) means a simple majority. A node consults two
  policies, the applied one and the latest one its log holds, and takes the
  stricter answer.
 */
module Quorum {

  datatype Kind = ForCommit | ForElection

  function Max(a: int, b: int): (r: int)
    ensures r >= a && r >= b && (r == a || r == b)
  {
    if a >= b then a else b
  }

  function Min(a: int, b: int): (r: int)
    ensures r <= a && r <= b && (r == a || r == b)
  {
    if a <= b then a else b
  }

  function CommitQuorumFor(q: int, total: nat): (r: nat)
    ensures total > 0 ==> 1 <= r <= total
    // Without a policy the least majority; with one, that many voters if there are as many.
    ensures total > 0 && q <= 0 ==> 2 * r > total >= 2 * (r - 1)
    ensures 1 <= q <= total ==> r == q
    ensures 0 < total < q ==> r == total
  {
    if total == 0 then 0
    else if q <= 0 then total / 2 + 1
    else Min(q, total)
  }

  function ElectionQuorumFor(q: int, total: nat): (r: nat)
    ensures r <= total
    // Two election quorums meet, and an election quorum meets a commit quorum.
    ensures total > 0 ==> 2 * r > total && r + CommitQuorumFor(q, total) > total
    // One voter less would not do.
    ensures total > 0 ==> 2 * (r - 1) <= total || r - 1 + CommitQuorumFor(q, total) <= total
  {
    if total == 0 then 0
    else Max(total - CommitQuorumFor(q, total) + 1, total / 2 + 1)
  }

  /** The stricter of the policy in effect and the latest one in the log. */
  function QuorumNeeded(kind: Kind, applied: int, latest: int, total: nat): (r: nat)
    ensures r <= total
    ensures total > 0 && kind.ForElection? ==> 2 * r > total
    ensures kind.ForCommit? ==> r >= CommitQuorumFor(applied, total) && r >= CommitQuorumFor(latest, total)
    ensures kind.ForElection? ==> r >= ElectionQuorumFor(applied, total) && r >= ElectionQuorumFor(latest, total)
    ensures kind.ForCommit? ==> r == CommitQuorumFor(applied, total) || r == CommitQuorumFor(latest, total)
    ensures kind.ForElection? ==> r == ElectionQuorumFor(applied, total) || r == ElectionQuorumFor(latest, total)
  {
    match kind
    case ForCommit => Max(CommitQuorumFor(applied, total), CommitQuorumFor(latest, total))
    case ForElection => Max(ElectionQuorumFor(applied, total), ElectionQuorumFor(latest, total))
  }

  // ---- Sets of voters -----------------------------------------------------

  /** The voters of a group of `total`: 0, 1, ..., total - 1. */
  ghost function Voters(total: nat): (r: set<nat>)
    ensures forall x: nat :: x in r <==> x < total
    ensures |r| == total
  {
    if total == 0 then {} else Voters(total - 1) + {total - 1}
  }

  lemma {:induction false} SubsetSize(a: set<nat>, b: set<nat>)
    requires a <= b
    ensures |a| <= |b|
    decreases |a|
  {
    if a != {} {
      var x :| x in a;
      SubsetSize(a - {x}, b - {x});
    }
  }

  lemma {:induction false} DisjointSize(a: set<nat>, b: set<nat>, total: nat)
    requires a <= Voters(total) && b <= Voters(total) && a !! b
    ensures |a| + |b| <= total
  {
    SubsetSize(a + b, Voters(total));
    assert |a + b| == |a| + |b|;
  }

  /** Two sets of voters that together outnumber the group share a voter. */
  lemma Overlap(a: set<nat>, b: set<nat>, total: nat) returns (v: nat)
    requires a <= Voters(total) && b <= Voters(total) && |a| + |b| > total
    ensures v in a && v in b
  {
    if a * b == {} { DisjointSize(a, b, total); }
    assert a * b != {};
    v :| v in a * b;
  }
}
