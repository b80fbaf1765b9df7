/**
  Linearizable reads. A leader captures its commit index, sends a tagged
  heartbeat to its peers, and answers the reads of the round once a commit
  quorum has acknowledged it. Reads that arrive mid-round wait for the next.
 */
module ReadIndex {

  import opened Wrappers
  import opened Quorum
  import opened Counting

  type Read = nat

  /** The groups whose commit quorum must confirm a round: one, or two during joint consensus. */
  datatype Group = Group(members: seq<Peer>, includeSelf: bool, selfVoter: bool)
  datatype Config = Config(self: Id, applied: int, latest: int, group: Group, joint: Option<Group>)

  /** While joint, `group` is the old configuration, to which the leader belongs. */
  predicate ConfigOk(cfg: Config) {
    && Listed(cfg.group.members, cfg.self) && cfg.group.includeSelf
    && (cfg.joint.Some? ==> Listed(cfg.joint.value.members, cfg.self))
  }

  /** Two peer lists as one; a peer in both keeps its role of the first. */
  function Union(a: seq<Peer>, b: seq<Peer>): (u: seq<Peer>)
    ensures a <= u
  {
    if b == [] then a
    else
      var u, p := Union(a, b[..|b| - 1]), b[|b| - 1];
      if exists i :: 0 <= i < |u| && u[i].id == p.id then u else u + [p]
  }

  function PeersOf(cfg: Config): seq<Peer> {
    if cfg.joint.Some? then Union(cfg.group.members, cfg.joint.value.members) else cfg.group.members
  }

  predicate Single(cfg: Config) {
    cfg.group.selfVoter && forall i :: 0 <= i < |PeersOf(cfg)| ==> !PeersOf(cfg)[i].voter
  }

  /** The union adds the peers of the second list that the first does not name. */
  lemma {:induction false} UnionIs(a: seq<Peer>, b: seq<Peer>, p: Peer)
    requires forall i, j :: 0 <= i < j < |b| ==> b[i].id != b[j].id
    ensures p in Union(a, b) <==> p in a || (p in b && forall q :: q in a ==> q.id != p.id)
    decreases |b|
  {
    if b != [] {
      var n := |b| - 1;
      var rest, x, u := b[..n], b[n], Union(a, b[..n]);
      assert b == rest + [x];
      UnionIs(a, rest, p);
      if exists i :: 0 <= i < |u| && u[i].id == x.id {
        var i :| 0 <= i < |u| && u[i].id == x.id;
        UnionIs(a, rest, u[i]);
        assert u[i] in a;
      } else {
        assert forall q :: q in a ==> q.id != x.id by {
          forall q | q in a ensures q.id != x.id {
            var k :| 0 <= k < |a| && a[k] == q;
            assert u[k] == q;
          }
        }
      }
    }
  }

  /**
    A node is taken for the only voter exactly when it votes, nobody else votes
    in the configuration it belongs to, and every voter of the other one is
    listed in the first: a peer in both keeps its role there.
   */
  lemma SingleExactly(cfg: Config)
    requires ConfigOk(cfg)
    ensures Single(cfg) <==>
      && cfg.group.selfVoter && (forall p :: p in cfg.group.members ==> !p.voter)
      && forall g, p :: cfg.joint == Some(g) && p in g.members && p.voter ==> exists q :: q in cfg.group.members && q.id == p.id
  {
    var a, peers := cfg.group.members, PeersOf(cfg);
    assert (forall i :: 0 <= i < |peers| ==> !peers[i].voter) <==> forall p :: p in peers ==> !p.voter;
    if cfg.joint.Some? {
      var b := cfg.joint.value.members;
      forall p ensures p in peers <==> p in a || (p in b && forall q :: q in a ==> q.id != p.id) { UnionIs(a, b, p); }
    }
  }

  /** A voter of the new configuration that the old one lists without a vote goes unnoticed. */
  lemma HiddenVoter(self: Id, other: Id)
    requires self != other
    ensures var cfg := Config(self, 0, 0, Group([Peer(other, false, false)], true, true), Some(Group([Peer(other, true, false)], true, true)));
      ConfigOk(cfg) && Single(cfg)
  {
    var cfg := Config(self, 0, 0, Group([Peer(other, false, false)], true, true), Some(Group([Peer(other, true, false)], true, true)));
    assert Peer(other, false, false) in cfg.group.members && Peer(other, false, false).id == other;
    SingleExactly(cfg);
  }

  method IsSingleVoter(cfg: Config) returns (yes: bool)
    ensures yes <==> Single(cfg)
  {
    if !cfg.group.selfVoter { return false; }
    var peers := PeersOf(cfg);
    for i := 0 to |peers|
      invariant forall k :: 0 <= k < i ==> !peers[k].voter
    {
      if peers[i].voter { return false; }
    }
    return true;
  }

  /** No other node votes in the configuration the leader belongs to. */
  ghost predicate SoleVoter(cfg: Config) {
    VoterSet(cfg.group.members, cfg.self, cfg.group.includeSelf && cfg.group.selfVoter) == {cfg.self}
  }

  lemma SingleIsSole(cfg: Config)
    requires ConfigOk(cfg) && Single(cfg)
    ensures SoleVoter(cfg)
  {
    forall p | p in cfg.group.members ensures !p.voter {
      var i :| 0 <= i < |cfg.group.members| && cfg.group.members[i] == p;
      assert PeersOf(cfg)[i] == p;
    }
  }

  /**
    The only voter is a commit quorum by itself, and part of every election
    quorum, so nobody can have been elected behind its back.
   */
  lemma SoleVoterConfirms(cfg: Config, acks: set<Id>, applied: int, latest: int, votes: set<Id>)
    requires ConfigOk(cfg) && SoleVoter(cfg)
    ensures GroupConfirms(cfg, cfg.group, acks) && (cfg.joint.None? ==> Confirms(cfg, acks))
    ensures Enough(ForElection, applied, latest, votes, {cfg.self}) ==> cfg.self in votes
  {
    var b := Behind(cfg.group.members, cfg.self, cfg.group.includeSelf && cfg.group.selfVoter, acks);
    assert cfg.self in VoterSet(cfg.group.members, cfg.self, cfg.group.includeSelf && cfg.group.selfVoter);
    assert cfg.self !in Ids(cfg.group.members, (p: Peer) => p.voter);
    assert {cfg.self} <= b && |{cfg.self}| == 1;
    SubsetSize({cfg.self}, b);
    assert votes <= {cfg.self} && cfg.self !in votes ==> votes == {};
  }

  ghost predicate GroupConfirms(cfg: Config, g: Group, acks: set<Id>) {
    var counts := g.includeSelf && g.selfVoter;
    |Behind(g.members, cfg.self, counts, acks)| >= QuorumNeeded(ForCommit, cfg.applied, cfg.latest, |VoterSet(g.members, cfg.self, counts)|)
  }

  /** The peers that answered, with this node, are a commit quorum of every group in force. */
  ghost predicate Confirms(cfg: Config, acks: set<Id>) {
    GroupConfirms(cfg, cfg.group, acks) && (cfg.joint.Some? ==> GroupConfirms(cfg, cfg.joint.value, acks))
  }

  /** A barrier broadcast, and when it was sent. Times count the events the node has handled. */
  datatype Barrier = Barrier(term: nat, gen: nat, at: nat)

  /** What a round captured, and when. */
  datatype Round = Round(term: nat, at: nat, commit: nat)

  datatype Outcome = Resolved(index: nat) | Refused

  /**
    Why a read got its answer: its arrival, the capture, and the barriers the
    confirming peers answered; or that it was turned away.
   */
  datatype Reason = Why(read: Read, index: nat, arrived: nat, round: Round, cfg: Config, answers: map<Id, Barrier>) | Turned

  /** `history[k]` is the commit index after `k` events, so the round captured what it says. */
  ghost predicate Captured(round: Round, history: seq<nat>) {
    round.at < |history| && history[round.at] == round.commit
  }

  /**
    The read carries a commit index captured at or after its arrival, and
    with this node a commit quorum answered barriers sent after that capture in
    the term of the capture.
   */
  ghost predicate Sound(r: Reason, history: seq<nat>)
    requires r.Why?
  {
    && r.index == r.round.commit && Captured(r.round, history) && r.arrived <= r.round.at
    && Confirmed(r.cfg, r.round, r.answers)
  }

  /** The reason is one for this very answer, by the read's real arrival. */
  ghost predicate Explains(answer: (Read, Outcome), r: Reason, arrived: map<Read, nat>, history: seq<nat>) {
    answer.1.Resolved? ==>
      && r.Why? && r.read == answer.0 && r.index == answer.1.index
      && answer.0 in arrived && r.arrived == arrived[answer.0] && Sound(r, history)
  }

  ghost predicate AllSound(results: seq<(Read, Outcome)>, reasons: seq<Reason>, arrived: map<Read, nat>, history: seq<nat>) {
    |reasons| == |results| && forall k :: 0 <= k < |results| ==> Explains(results[k], reasons[k], arrived, history)
  }

  /**
    The acknowledgements in hand answer barriers sent in the round's term after
    its capture, and with this node they are a commit quorum: of every group in
    force, or of the old one alone when this node is the only voter there.
   */
  ghost predicate Confirmed(cfg: Config, round: Round, answers: map<Id, Barrier>) {
    && (forall p :: p in answers ==> answers[p].term == round.term && round.at <= answers[p].at)
    && (Confirms(cfg, answers.Keys) || (SoleVoter(cfg) && GroupConfirms(cfg, cfg.group, answers.Keys)))
  }

  /** The only voter needs no answer. */
  lemma SingleConfirms(cfg: Config, round: Round)
    requires ConfigOk(cfg) && Single(cfg)
    ensures Confirmed(cfg, round, map[])
  {
    hide GroupConfirms, Single, SoleVoter;
    var none: map<Id, Barrier> := map[];
    SingleIsSole(cfg);
    SoleVoterConfirms(cfg, none.Keys, 0, 0, {});
  }

  /** Barriers of the current generation were sent in the round's term after its capture. */
  ghost predicate BarriersOk(barriers: set<Barrier>, gen: nat, round: Round, led: nat, leader: bool, term: nat, nop: bool) {
    && (forall b :: b in barriers ==> b.gen <= gen && b.term <= led)
    && (forall b :: b in barriers && b.gen == gen ==> b.term == round.term && round.at <= b.at)
    && (leader ==> led == term)
    && (leader && !nop ==> forall b :: b in barriers ==> b.term < term)
  }

  /** Every acknowledgement counted answers a barrier of the current generation. */
  ghost predicate AcksOk(acks: Option<set<Id>>, answers: map<Id, Barrier>, barriers: set<Barrier>, gen: nat) {
    && (if acks.Some? then answers.Keys == acks.value else answers == map[])
    && forall p :: p in answers ==> answers[p] in barriers && answers[p].gen == gen
  }

  ghost predicate QueuesOk(pending: seq<Read>, waiting: seq<Read>, arrived: map<Read, nat>, now: nat) {
    forall r :: r in pending || r in waiting ==> r in arrived && arrived[r] <= now
  }

  /** Once the leader may serve, the reads of the round arrived before its capture. */
  ghost predicate RoundOk(pending: seq<Read>, arrived: map<Read, nat>, round: Round, leader: bool, nop: bool, term: nat, batchIndex: nat) {
    leader && nop && pending != [] ==>
      round.term == term && batchIndex == round.commit && forall r :: r in pending ==> r in arrived && arrived[r] <= round.at
  }

  ghost predicate Timed(now: nat, history: seq<nat>, commitIndex: nat, round: Round) {
    |history| == now + 1 && history[now] == commitIndex && Captured(round, history)
  }

  class Reads {
    var leader: bool
    var term: nat
    var commitIndex: nat
    var nopCommitted: bool
    var gen: nat
    var acks: Option<set<Id>>
    var batchIndex: nat
    var pending: seq<Read>
    var waiting: seq<Read>
    var results: seq<(Read, Outcome)>

    ghost var now: nat
    ghost var led: nat                   // the highest term this node has led
    ghost var arrived: map<Read, nat>
    ghost var barriers: set<Barrier>
    ghost var round: Round
    ghost var answers: map<Id, Barrier>
    ghost var history: seq<nat>          // the commit index after each event
    ghost var reasons: seq<Reason>       // one per answer

    ghost predicate Valid()
      reads this
    {
      && BarriersOk(barriers, gen, round, led, leader, term, nopCommitted)
      && AcksOk(acks, answers, barriers, gen)
      && QueuesOk(pending, waiting, arrived, now) && RoundOk(pending, arrived, round, leader, nopCommitted, term, batchIndex)
      && (!leader ==> pending == [] && waiting == [] && acks.None?)
      && Timed(now, history, commitIndex, round)
      && AllSound(results, reasons, arrived, history)
    }

    method AnswerAll(list: seq<Read>, o: Outcome)
      modifies this`results
      ensures results == old(results) + Answers(list, o)
    {
      for i := 0 to |list|
        invariant results == old(results) + Answers(list, o)[..i]
      {
        results := results + [(list[i], o)];
      }
    }

    /** Answers every read of the round with the captured index. */
    method ResolvePending(cfg: Config)
      requires Valid() && leader && nopCommitted && Confirmed(cfg, round, answers)
      modifies this`results, this`reasons, this`pending, this`acks, this`answers
      ensures Valid() && pending == [] && acks.None? && results == old(results) + Answers(old(pending), Resolved(batchIndex))
      ensures Everyone(results, pending, waiting) == Everyone(old(results), old(pending), old(waiting))
    {
      hide AllSound, Confirmed, ReasonsFor, Answers, Everyone, BarriersOk;
      assert RoundOk(pending, arrived, round, leader, nopCommitted, term, batchIndex);
      ResolvedSound(results, reasons, pending, batchIndex, arrived, history, round, cfg, answers);
      reasons := reasons + ReasonsFor(pending, batchIndex, arrived, round, cfg, answers);
      AnswerAll(pending, Resolved(batchIndex));
      AnsweredAccounted(old(results), pending, waiting, Resolved(batchIndex));
      pending, acks, answers := [], None, map[];
    }

    /** Reads that arrived while the round was in flight get a round of their own. */
    method ConfirmReadBatch(cfg: Config)
      requires Valid() && ConfigOk(cfg) && leader && nopCommitted && Confirmed(cfg, round, answers)
      modifies this`results, this`reasons, this`pending, this`acks, this`answers, this`waiting, this`gen, this`batchIndex, this`round, this`barriers
      ensures Valid() && Everyone(results, pending, waiting) == Everyone(old(results), old(pending), old(waiting))
      ensures old(results) + Answers(old(pending), Resolved(old(batchIndex))) <= results && waiting == []
      ensures !Single(cfg) ==> results == old(results) + Answers(old(pending), Resolved(old(batchIndex))) && pending == old(waiting)
      decreases |waiting|, 0
    {
      hide AllSound, Confirmed, Names, BarriersOk, AcksOk, Answers;
      ResolvePending(cfg);
      if |waiting| > 0 {
        pending, waiting := waiting, [];
        StartReadBatch(cfg);
      }
    }

    /** Begins a confirmation round for the reads in `pending`. */
    method StartReadBatch(cfg: Config)
      requires ConfigOk(cfg)
      requires BarriersOk(barriers, gen, round, led, leader, term, nopCommitted) && QueuesOk(pending, waiting, arrived, now)
      requires Timed(now, history, commitIndex, round) && AllSound(results, reasons, arrived, history) && leader && nopCommitted
      modifies this`results, this`reasons, this`pending, this`acks, this`answers, this`waiting, this`gen, this`batchIndex, this`round, this`barriers
      ensures Valid() && Everyone(results, pending, waiting) == Everyone(old(results), old(pending), old(waiting)) && old(results) <= results
      ensures old(waiting) == [] ==> waiting == []
      ensures !Single(cfg) ==> results == old(results) && pending == old(pending) && waiting == old(waiting)
      ensures !Single(cfg) ==> round == Round(term, now, commitIndex) && barriers == old(barriers) + {Barrier(term, gen, now)}
      ensures Single(cfg) ==> old(results) + Answers(old(pending), Resolved(commitIndex)) <= results
      decreases |waiting|, 1
    {
      hide AllSound, Everyone, BarriersOk, AcksOk, QueuesOk, RoundOk, Answers, Confirmed, Single, Timed;
      OpenRound();
      var single := IsSingleVoter(cfg);
      if single {
        assert Confirmed(cfg, round, answers) by { SingleConfirms(cfg, round); }
        ConfirmReadBatch(cfg);
      } else {
        BroadcastBarrier();
      }
    }

    /** A new generation, and the commit index as it is now. */
    method OpenRound()
      requires BarriersOk(barriers, gen, round, led, leader, term, nopCommitted) && QueuesOk(pending, waiting, arrived, now)
      requires Timed(now, history, commitIndex, round) && AllSound(results, reasons, arrived, history) && leader && nopCommitted
      modifies this`gen, this`acks, this`answers, this`batchIndex, this`round
      ensures Valid() && round == Round(term, now, commitIndex) && batchIndex == commitIndex && gen == old(gen) + 1 && answers == map[]
    {
      hide AllSound;
      gen, acks, answers := gen + 1, Some({}), map[];
      batchIndex, round := commitIndex, Round(term, now, commitIndex);
    }

    /** The tagged heartbeat that asks every peer whether this node still leads. */
    method BroadcastBarrier()
      requires Valid() && leader && nopCommitted && round.term == term && round.at <= now
      modifies this`barriers
      ensures Valid() && barriers == old(barriers) + {Barrier(term, gen, now)}
    {
      hide AllSound, QueuesOk, RoundOk;
      barriers := barriers + {Barrier(term, gen, now)};
    }

    // ---- Events ---------------------------------------------------------------

    constructor ()
      ensures Valid() && !leader && results == [] && pending == [] && waiting == []
    {
      leader, term, commitIndex, nopCommitted := false, 0, 0, false;
      gen, acks, batchIndex, pending, waiting, results := 0, None, 0, [], [], [];
      now, led, arrived, barriers, round, answers, history, reasons := 0, 0, map[], {}, Round(0, 0, 0), map[], [0], [];
    }

    /** One more event: the past stays as it was. */
    ghost method Pass()
      requires |history| == now + 1 && Captured(round, history) && AllSound(results, reasons, arrived, history)
      modifies this`now, this`history
      ensures now == old(now) + 1 && history == old(history) + [commitIndex]
      ensures Timed(now, history, commitIndex, round) && AllSound(results, reasons, arrived, history)
    {
      StillSound(results, reasons, arrived, arrived, history, history + [commitIndex]);
      now, history := now + 1, history + [commitIndex];
    }

    /** A read arrives. */
    method HandleReadIndex(read: Read, cfg: Config)
      requires Valid() && ConfigOk(cfg) && read !in arrived
      modifies this
      ensures Valid() && read in arrived && arrived[read] == now == old(now) + 1
      ensures Everyone(results, pending, waiting) == Everyone(old(results), old(pending), old(waiting)) + multiset{read}
      ensures leader == old(leader) && term == old(term) && commitIndex == old(commitIndex) && old(results) <= results
      ensures !leader ==> results == old(results) + [(read, Refused)]
      ensures leader && nopCommitted && Single(cfg) ==> results == old(results) + [(read, Resolved(commitIndex))]
      ensures leader && !(nopCommitted && Single(cfg)) ==> results == old(results)
    {
      hide AllSound, Everyone, BarriersOk, AcksOk, QueuesOk, RoundOk, Timed;
      Arrive(read);
      var single := IsSingleVoter(cfg);
      if !leader {
        Refuse(read);
      } else if !nopCommitted {
        Queue(read, false);
      } else if single {
        ServeAlone(read, cfg);
      } else if acks.Some? {
        Queue(read, true);
      } else {
        QueueForNext(read);
        StartReadBatch(cfg);
      }
    }

    method Queue(read: Read, wait: bool)
      requires Valid() && read in arrived && arrived[read] == now && leader && (!wait ==> !nopCommitted)
      modifies this`pending, this`waiting
      ensures Valid() && Everyone(results, pending, waiting) == Everyone(results, old(pending), old(waiting)) + multiset{read}
    {
      hide AllSound, BarriersOk, AcksOk;
      if wait { waiting := waiting + [read]; } else { pending := pending + [read]; }
    }

    method QueueForNext(read: Read)
      requires QueuesOk(pending, waiting, arrived, now) && read in arrived && arrived[read] == now
      modifies this`pending
      ensures QueuesOk(pending, waiting, arrived, now)
      ensures Everyone(results, pending, waiting) == Everyone(results, old(pending), waiting) + multiset{read}
    {
      pending := pending + [read];
    }

    /** The only voter's commit index accounts for everything. */
    method ServeAlone(read: Read, cfg: Config)
      requires Valid() && ConfigOk(cfg) && Single(cfg) && read in arrived && arrived[read] == now
      modifies this`results, this`reasons
      ensures Valid() && results == old(results) + [(read, Resolved(commitIndex))]
      ensures Everyone(results, pending, waiting) == Everyone(old(results), pending, waiting) + multiset{read}
    {
      hide AllSound, ReasonsFor, BarriersOk, AcksOk, Everyone, QueuesOk, RoundOk, Confirmed, Single;
      ghost var r := Round(term, now, commitIndex);
      SingleConfirms(cfg, r);
      ResolvedSound(results, reasons, [read], commitIndex, arrived, history, r, cfg, map[]);
      assert Answers([read], Resolved(commitIndex)) == [(read, Resolved(commitIndex))];
      reasons := reasons + ReasonsFor([read], commitIndex, arrived, r, cfg, map[]);
      AnswerOne(read, Resolved(commitIndex));
    }

    method Refuse(read: Read)
      requires Valid()
      modifies this`results, this`reasons
      ensures Valid() && results == old(results) + [(read, Refused)]
      ensures Everyone(results, pending, waiting) == Everyone(old(results), pending, waiting) + multiset{read}
    {
      hide AllSound, BarriersOk, AcksOk, Everyone, QueuesOk, RoundOk;
      RefusedSound(results, reasons, [read], arrived, history);
      assert Answers([read], Refused) == [(read, Refused)];
      reasons := reasons + TurnedAway([read]);
      AnswerOne(read, Refused);
    }

    ghost method Arrive(read: Read)
      requires Valid() && read !in arrived
      modifies this`now, this`history, this`arrived
      ensures Valid() && now == old(now) + 1 && arrived == old(arrived)[read := now]
    {
      hide AllSound, BarriersOk, AcksOk;
      Pass();
      StillSound(results, reasons, arrived, arrived[read := now], history, history);
      arrived := arrived[read := now];
    }

    method AnswerOne(read: Read, o: Outcome)
      modifies this`results
      ensures results == old(results) + [(read, o)]
      ensures Everyone(results, pending, waiting) == Everyone(old(results), pending, waiting) + multiset{read}
    {
      results := results + [(read, o)];
      assert Names(results) == Names(old(results)) + [read];
    }

    /**
      A peer answers an append tagged with a barrier. A success carries the term
      of the request it answers, so it answers a barrier this node sent in that
      term, at time `sentAt`.
     */
    method HandleBarrierAck(peer: Id, barrier: nat, success: bool, ackTerm: nat, cfg: Config, ghost sentAt: nat)
      requires Valid() && ConfigOk(cfg)
      requires barrier != 0 && success ==> Barrier(ackTerm, barrier, sentAt) in barriers
      modifies this
      ensures Valid() && Everyone(results, pending, waiting) == Everyone(old(results), old(pending), old(waiting))
      ensures leader == old(leader) && term == old(term) && commitIndex == old(commitIndex)
      ensures var counts := old(leader) && barrier != 0 && barrier == old(gen) && success && ackTerm == old(term);
        var seen := (if old(acks).Some? then old(acks).value else {}) + {peer};
        var now_ := old(results) + (if counts && Confirms(cfg, seen) then Answers(old(pending), Resolved(old(batchIndex))) else []);
        now_ <= results && (!Single(cfg) ==> results == now_)
    {
      hide AllSound, Everyone, BarriersOk, AcksOk, RoundOk, Confirms, Timed, Answers;
      Heard();
      if !leader || barrier == 0 || barrier != gen || !success || ackTerm != term { return; }
      CountAck(peer, sentAt);
      var confirmed := IsConfirmed(cfg, acks.value);
      if confirmed { ConfirmReadBatch(cfg); }
    }

    /** An event that touches no queue. */
    ghost method Heard()
      requires Valid()
      modifies this`now, this`history
      ensures Valid() && now == old(now) + 1
    {
      hide AllSound, BarriersOk, AcksOk, RoundOk;
      Pass();
    }

    method CountAck(peer: Id, ghost sentAt: nat)
      requires Valid() && leader && Barrier(term, gen, sentAt) in barriers
      modifies this`acks, this`answers
      ensures Valid() && nopCommitted && acks == Some((if old(acks).Some? then old(acks).value else {}) + {peer}) && answers.Keys == acks.value
      ensures forall p :: p in answers ==> answers[p].term == round.term && round.at <= answers[p].at
    {
      hide AllSound, QueuesOk, RoundOk;
      var seen := if acks.Some? then acks.value else {};
      acks := Some(seen + {peer});
      answers := answers[peer := Barrier(term, gen, sentAt)];
    }

    method IsConfirmed(cfg: Config, seen: set<Id>) returns (yes: bool)
      requires ConfigOk(cfg)
      ensures yes <==> Confirms(cfg, seen)
    {
      var g := cfg.group;
      yes := HasQuorumAck(ForCommit, cfg.applied, cfg.latest, seen, g.members, cfg.self, g.includeSelf, g.selfVoter);
      if yes && cfg.joint.Some? {
        g := cfg.joint.value;
        yes := HasQuorumAck(ForCommit, cfg.applied, cfg.latest, seen, g.members, cfg.self, g.includeSelf, g.selfVoter);
      }
    }

    /** The heartbeat timer: a dropped barrier does not stall reads for ever. */
    method Tick()
      requires Valid()
      modifies this`now, this`history, this`barriers
      ensures Valid() && now == old(now) + 1
      ensures barriers == old(barriers) + if leader && nopCommitted && pending != [] then {Barrier(term, gen, now)} else {}
    {
      hide AllSound;
      Heard();
      if leader && nopCommitted && |pending| > 0 { BroadcastBarrier(); }
    }

    /**
      The commit index moves, on a follower as on a leader. The first commit in a
      leader's own term releases the reads that waited for it.
     */
    method CommitAdvanced(index: nat, cfg: Config)
      requires Valid() && ConfigOk(cfg) && index > commitIndex
      modifies this
      ensures Valid() && commitIndex == index && leader == old(leader) && term == old(term) && nopCommitted == (old(nopCommitted) || leader)
      ensures Everyone(results, pending, waiting) == Everyone(old(results), old(pending), old(waiting))
      ensures !leader || old(nopCommitted) || !Single(cfg) ==> results == old(results)
      ensures leader && !old(nopCommitted) && Single(cfg) ==> old(results) + Answers(old(pending), Resolved(index)) <= results
    {
      hide AllSound, Everyone, Answers;
      commitIndex := index;
      Pass();
      if leader && !nopCommitted {
        nopCommitted := true;
        if |pending| > 0 { StartReadBatch(cfg); } else { assert Answers([], Resolved(index)) == [] by { NoAnswers(index); } }
      }
    }

    /** Stepping down refuses every read that is still open. */
    method StepDown(newTerm: nat)
      requires Valid() && newTerm >= term
      modifies this
      ensures Valid() && !leader && term == newTerm && pending == [] && waiting == []
      ensures results == old(results) + Answers(old(pending), Refused) + Answers(old(waiting), Refused)
      ensures Everyone(results, [], []) == Everyone(old(results), old(pending), old(waiting))
    {
      hide AllSound, Everyone, Answers;
      DrainReads();
      leader, term, nopCommitted := false, newTerm, false;
      Pass();
    }

    method DrainReads()
      requires AllSound(results, reasons, arrived, history)
      modifies this`results, this`reasons, this`pending, this`waiting, this`acks, this`answers
      ensures pending == [] && waiting == [] && acks.None? && answers == map[] && AllSound(results, reasons, arrived, history)
      ensures results == old(results) + Answers(old(pending), Refused) + Answers(old(waiting), Refused)
      ensures Everyone(results, [], []) == Everyone(old(results), old(pending), old(waiting))
    {
      hide AllSound, Everyone, Answers, TurnedAway;
      RefusedSound(results, reasons, pending, arrived, history);
      AnswerAll(pending, Refused);
      reasons := reasons + TurnedAway(pending);
      RefusedSound(results, reasons, waiting, arrived, history);
      AnswerAll(waiting, Refused);
      reasons := reasons + TurnedAway(waiting);
      AnsweredAccounted(old(results), pending, waiting, Refused);
      pending, waiting, acks, answers := [], [], None, map[];
    }

    /** Winning an election: a term this node has not led before, in which it has committed nothing yet. */
    method BecomeLeader(newTerm: nat)
      requires Valid() && !leader && newTerm > led
      modifies this
      ensures Valid() && leader && term == newTerm && !nopCommitted && pending == [] && waiting == []
      ensures results == old(results)
    {
      hide AllSound;
      leader, term, led, nopCommitted := true, newTerm, newTerm, false;
      Pass();
    }
  }

  ghost function ReasonsFor(list: seq<Read>, index: nat, arrived: map<Read, nat>, round: Round, cfg: Config, answers: map<Id, Barrier>): seq<Reason> {
    seq(|list|, i requires 0 <= i < |list| =>
      Why(list[i], index, if list[i] in arrived then arrived[list[i]] else 0, round, cfg, answers))
  }

  ghost function TurnedAway(list: seq<Read>): seq<Reason> {
    seq(|list|, i requires 0 <= i < |list| => Turned)
  }

  function Names(results: seq<(Read, Outcome)>): seq<Read> {
    seq(|results|, i requires 0 <= i < |results| => results[i].0)
  }

  function Answers(list: seq<Read>, o: Outcome): seq<(Read, Outcome)> {
    seq(|list|, i requires 0 <= i < |list| => (list[i], o))
  }

  /** Answering a confirmed batch with the index its round captured is sound for every read in it. */
  lemma ResolvedSound(results: seq<(Read, Outcome)>, reasons: seq<Reason>, list: seq<Read>, index: nat, arrived: map<Read, nat>, history: seq<nat>,
                      round: Round, cfg: Config, answers: map<Id, Barrier>)
    requires AllSound(results, reasons, arrived, history) && Confirmed(cfg, round, answers) && Captured(round, history)
    requires list != [] ==> index == round.commit
    requires forall r :: r in list ==> r in arrived && arrived[r] <= round.at
    ensures AllSound(results + Answers(list, Resolved(index)), reasons + ReasonsFor(list, index, arrived, round, cfg, answers), arrived, history)
  {
    hide Confirmed, Captured;
    var more := ReasonsFor(list, index, arrived, round, cfg, answers);
    forall k | 0 <= k < |list| ensures Explains(Answers(list, Resolved(index))[k], more[k], arrived, history) {
      assert list[k] in list;
    }
  }

  lemma RefusedSound(results: seq<(Read, Outcome)>, reasons: seq<Reason>, list: seq<Read>, arrived: map<Read, nat>, history: seq<nat>)
    requires AllSound(results, reasons, arrived, history)
    ensures AllSound(results + Answers(list, Refused), reasons + TurnedAway(list), arrived, history)
  {
    hide Sound;
  }

  /** Later events change neither when a read arrived nor what a round captured. */
  lemma StillSound(results: seq<(Read, Outcome)>, reasons: seq<Reason>, arrived: map<Read, nat>, arrived': map<Read, nat>, history: seq<nat>, history': seq<nat>)
    requires AllSound(results, reasons, arrived, history) && history <= history'
    requires forall r :: r in arrived ==> r in arrived' && arrived'[r] == arrived[r]
    ensures AllSound(results, reasons, arrived', history')
  {
    hide Confirmed;
    forall k | 0 <= k < |results| ensures Explains(results[k], reasons[k], arrived', history') {
      assert Explains(results[k], reasons[k], arrived, history);
    }
  }

  lemma NoAnswers(index: nat)
    ensures Answers([], Resolved(index)) == []
  {
  }

  /** Every read ever asked for: answered, or still queued. */
  ghost function Everyone(results: seq<(Read, Outcome)>, pending: seq<Read>, waiting: seq<Read>): multiset<Read> {
    multiset(Names(results)) + multiset(pending) + multiset(waiting)
  }

  lemma AnsweredAccounted(results: seq<(Read, Outcome)>, pending: seq<Read>, waiting: seq<Read>, o: Outcome)
    ensures Everyone(results + Answers(pending, o), [], waiting) == Everyone(results, pending, waiting)
    ensures Everyone(results + Answers(pending, o) + Answers(waiting, o), [], []) == Everyone(results, pending, waiting)
  {
    var r1 := results + Answers(pending, o);
    assert Names(r1) == Names(results) + pending;
    assert Names(r1 + Answers(waiting, o)) == Names(r1) + waiting;
  }
}
