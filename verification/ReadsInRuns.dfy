/**
  What a sound read answer is worth: taken in a run of the protocol, its index
  is at least every commit index any node had when the round captured it.
 */
module ReadsInRuns {

  import Protocol
  import Quorum
  import Counting
  import ReadIndex
  import Safety
  import CommitSafety

  /** The leader opened the round in this state, having committed in its own term, and counts the run's voters under the shared policy. */
  ghost predicate OpenedAt(s: Protocol.State, n: nat, q: int, r: ReadIndex.Reason)
    requires r.Why?
  {
    && Safety.Leads(s, n, r.round.term) && s.nodes[n].commit == r.round.commit && 0 < s.nodes[n].termStart <= s.nodes[n].commit
    && r.cfg.self == n && r.cfg.joint.None? && (r.cfg.applied == q || r.cfg.latest == q)
    && var g := r.cfg.group; Counting.VoterSet(g.members, n, g.includeSelf && g.selfVoter) == Quorum.Voters(|s.nodes|)
  }

  /** A peer that answered the round's barriers was in the round's term when it did, which was after the capture. */
  ghost predicate AnsweredIn(states: seq<Protocol.State>, i: nat, r: ReadIndex.Reason, seen: nat -> nat)
    requires r.Why?
  {
    forall v :: v in r.answers ==>
      i <= seen(v) < |states| && v < |states[seen(v)].nodes| && states[seen(v)].nodes[v].mem.term == r.round.term
  }

  /** The peers that confirmed the round are a commit quorum of the run. */
  lemma ConfirmersAreQuorum(s: Protocol.State, n: nat, q: int, r: ReadIndex.Reason, history: seq<nat>) returns (quorum: set<nat>)
    requires r.Why? && ReadIndex.Sound(r, history) && OpenedAt(s, n, q, r)
    ensures quorum <= Quorum.Voters(|s.nodes|) && |quorum| >= Quorum.CommitQuorumFor(q, |s.nodes|)
    ensures forall v :: v in quorum ==> v == n || v in r.answers
  {
    var g := r.cfg.group;
    var counts := g.includeSelf && g.selfVoter;
    quorum := Counting.Behind(g.members, n, counts, r.answers.Keys);
    Counting.CountedAreVoters(g.members, n, counts, r.answers.Keys, false, map[], 0, false);
  }

  lemma ReadIsCurrent(states: seq<Protocol.State>, steps: seq<Protocol.Step>, q: int, i: nat, n: nat,
                      r: ReadIndex.Reason, history: seq<nat>, seen: nat -> nat, p: nat)
    requires CommitSafety.VouchedRun(states, steps, q) && i < |states| && Protocol.HasNode(states[i], p)
    requires r.Why? && ReadIndex.Sound(r, history) && OpenedAt(states[i], n, q, r) && AnsweredIn(states, i, r, seen)
    ensures states[i].nodes[p].commit <= r.index
  {
    hide CommitSafety.VouchedRun, ReadIndex.Confirmed, Quorum.CommitQuorumFor, Counting.VoterSet, Quorum.Voters;
    var quorum := ConfirmersAreQuorum(states[i], n, q, r, history);
    var seen' := (v: nat) => if v == n then i else seen(v);
    CommitSafety.ReadSafety(states, steps, q, i, n, r.round.term, quorum, seen', p);
  }
}
