/**
  Heartbeats on compacted logs. A heartbeat carries whatever term the leader's
  log gives for the entry before nextIndex, and 0 when it gives none; the
  follower reads its own log the same way and compares.
 */
module Heartbeats {

  import opened Quorum
  import opened Overlay
  import opened RaftLog

  /** The log, or the snapshot under it, gives a term for this index. */
  ghost predicate Described(v: View, i: nat) {
    i == v.snapIndex || i in LogOf(v)
  }

  ghost function TermOrZero(v: View, i: nat): nat {
    if i == 0 then 0 else if i == v.snapIndex then v.snapTerm else if i in LogOf(v) then LogOf(v)[i].term else 0
  }

  /** Terms start at 1, so that 0 can stand for a missing entry. */
  ghost predicate RealTerms(v: View) {
    (v.snapIndex > 0 ==> v.snapTerm > 0) && forall i :: i in LogOf(v) ==> LogOf(v)[i].term > 0
  }

  method TermOf(rl: RaftLog, i: nat) returns (t: nat)
    requires Core(rl.State())
    ensures t == TermOrZero(rl.State(), i)
  {
    hide Core, LogOf;
    var found := rl.TermAt(i);
    t := if found.Some? then found.value else 0;
    if found.Some? { assert Agrees(rl.State(), i, t); }
  }

  /** What a heartbeat says about the entry before nextIndex. */
  method HeartbeatPrev(rl: RaftLog, next: nat) returns (prev: nat, prevTerm: nat)
    requires Core(rl.State()) && next > 0
    ensures prev == next - 1 && prevTerm == TermOrZero(rl.State(), prev)
  {
    prev := next - 1;
    prevTerm := TermOf(rl, prev);
  }

  ghost predicate Passes(follower: View, prev: nat, prevTerm: nat) {
    prev > 0 ==> TermOrZero(follower, prev) == prevTerm
  }

  method PrevPasses(rl: RaftLog, prev: nat, prevTerm: nat) returns (yes: bool)
    requires Core(rl.State())
    ensures yes <==> Passes(rl.State(), prev, prevTerm)
  {
    yes := true;
    if prev > 0 {
      var t := TermOf(rl, prev);
      yes := t == prevTerm;
    }
  }

  /** Both logs have the entry at this index and agree on its term. */
  ghost predicate Share(a: View, b: View, i: nat) {
    i == 0 || (Described(a, i) && Described(b, i) && TermOrZero(a, i) == TermOrZero(b, i))
  }

  /**
    Passing the check means that the two logs share the entry, exactly when
    one of them describes it: the leader could tell by asking canDescribe, as
    it does before it sends entries.
   */
  lemma PassingIsSharingIff(leader: View, follower: View, prev: nat)
    requires RealTerms(leader) && RealTerms(follower)
    ensures (Passes(follower, prev, TermOrZero(leader, prev)) ==> Share(leader, follower, prev)) <==>
            prev == 0 || Described(leader, prev) || Described(follower, prev)
  {
    hide LogOf;
  }

  function CommitAfter(commit: nat, leaderCommit: nat, prev: nat, count: nat): nat {
    Max(commit, Min(leaderCommit, prev + count))
  }

  /** A leader that compacted up to 5 heartbeats a new follower from nextIndex 4: its commit index runs ahead of its log. */
  lemma HeartbeatOutrunsLog(t: nat)
    requires t > 0
    ensures
      var leader, follower := Installed(Fresh(), 5, t), Fresh();
      && Valid(leader) && Valid(follower) && RealTerms(leader) && RealTerms(follower)
      && Passes(follower, 3, TermOrZero(leader, 3)) && CommitAfter(0, 5, 3, 0) > LastLogIndex(follower)
  {
    FreshValid();
    InstalledOk(Fresh(), 5, t);
    assert forall i :: i !in LogOf(Installed(Fresh(), 5, t));
  }
}
