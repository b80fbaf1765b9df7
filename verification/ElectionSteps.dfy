/**
  The election steps keep the invariant: standing, voting, winning. A candidate
  holds back its own vote and its campaign until both are on disk, a voter holds
  back its answer in the same way, and a candidate that counts a majority of
  ballots becomes the only leader its term will have, with a no-op of that term
  at the end of its log.
 */
module ElectionSteps {
  import opened Wrappers
  import opened Quorum
  import opened Protocol
  import opened Invariant
  import opened Facts
  import opened CoreSteps
  import opened Growth

  // ---- Roles --------------------------------------------------------------

  /** The other nodes keep their roles when the history and the other nodes stay and the network grows. */
  lemma RolesFrame(s: State, s': State, n: nat)
    requires Roles(s) && |s'.nodes| == |s.nodes| && s.net <= s'.net
    requires s'.hist.logs == s.hist.logs && s'.hist.wins == s.hist.wins
    requires forall v :: 0 <= v < |s.nodes| && v != n ==> s'.nodes[v] == s.nodes[v]
    requires HasNode(s, n) && RolesAt(s', n)
    ensures Roles(s')
  {
    forall v | 0 <= v < |s'.nodes| ensures RolesAt(s', v) {
      if v != n {
        assert RolesAt(s, v);
      }
    }
  }

  /** Same durable side, role and votes: nothing to show. */
  lemma RolesKept(s: State, s': State, n: nat)
    requires Roles(s) && HasNode(s, n) && |s'.nodes| == |s.nodes| && s.net <= s'.net
    requires s'.hist.logs == s.hist.logs && s'.hist.wins == s.hist.wins
    requires forall v :: 0 <= v < |s.nodes| && v != n ==> s'.nodes[v] == s.nodes[v]
    requires var nd := s.nodes[n]; var nd' := s'.nodes[n];
      && nd'.mem.term == nd.mem.term && nd'.mem.log == nd.mem.log && nd'.held == nd.held
      && (nd'.role == Follower
          || (nd'.role == nd.role && nd'.votes == nd.votes && nd'.termStart == nd.termStart))
    ensures Roles(s')
  {
    assert RolesAt(s, n);
    RolesFrame(s, s', n);
  }

  lemma RolesFollower(s: State, s': State, n: nat)
    requires Roles(s) && HasNode(s, n) && |s'.nodes| == |s.nodes| && s.net <= s'.net
    requires s'.hist.logs == s.hist.logs && s'.hist.wins == s.hist.wins
    requires forall v :: 0 <= v < |s.nodes| && v != n ==> s'.nodes[v] == s.nodes[v]
    requires s'.nodes[n].role == Follower && s'.nodes[n].held == s.nodes[n].held
    ensures Roles(s')
  {
    assert RolesAt(s, n);
    RolesFrame(s, s', n);
  }

  /** Holding one more reply back does not disturb anybody's role. */
  lemma RolesEmit(s: State, n: nat, gate: nat, m: Msg)
    requires Roles(s) && HasNode(s, n)
    ensures Roles(Emit(s, n, gate, m))
  {
    var s' := Emit(s, n, gate, m);
    assert RolesAt(s, n);
    RolesFrame(s, s', n);
  }

  // ---- Taking on a term ---------------------------------------------------

  lemma CoreSaved(s: State, n: nat, t: nat, v: Option<nat>, nd': Node)
    requires Core(s) && HasNode(s, n)
    requires var d := s.nodes[n].mem; t > d.term || (t == d.term && (d.vote == None || d.vote == v))
    requires SameDurable(Saved(s.nodes[n], t, v), nd')
    ensures Core(Put(s, n, nd'))
  {
    hide LogOk, Records, Sent, Pending;
    var nd := s.nodes[n];
    EvolvesSaved(s.hist.logs, nd.mem, t, v);
    MemImage(s, n);
    CoreEnqueue(s, n, nd', SaveHard(t, v));
  }

  lemma FollowInv(s: State, n: nat, t: nat)
    requires Inv(s) && HasNode(s, n)
    ensures Inv(Put(s, n, BecomeFollower(s.nodes[n], t)))
  {
    var nd := s.nodes[n];
    var nd' := BecomeFollower(nd, t);
    if t > nd.mem.term {
      CoreSaved(s, n, t, None, nd');
    } else {
      CoreVolatile(s, n, nd');
    }
    RolesFollower(s, Put(s, n, nd'), n);
  }

  // ---- Ballots ------------------------------------------------------------

  /** A ballot cast from `was`, which honours `c`, agrees with `c`. */
  lemma BallotAgrees(ll: map<nat, Log>, n: nat, was: Durable, b: Msg, c: Msg)
    requires IsBallot(b) && b.log == was.log && b.from == n && c.from == n && Honours(ll, was, c)
    requires was.term < b.term || (was.term == b.term && b.to != n
                                   && (was.vote == None || was.vote == Some(b.to)))
    ensures SameBallot(b, c) && SameBallot(c, b) && BallotAfterAck(ll, b, c) && BallotAfterAck(ll, c, b)
  {
    if IsAck(c) { AckKeptLater(ll, was.log, was.term, b.term, c); }
  }

  /**
    A ballot for `b.term`, cast from a memory state `was` that has not voted
    for anybody else in that term, fits in with whatever was said before.
   */
  lemma BallotFits(s: State, n: nat, was: Durable, b: Msg)
    requires HasNode(s, n) && IsBallot(b) && b.log == was.log && b.from == n
    requires BallotOk(s.hist.logs, s.net, b)
    requires was.term < b.term || (was.term == b.term && b.to != n
                                   && (was.vote == None || was.vote == Some(b.to)))
    requires forall c :: Said(s, n, c) ==> Honours(s.hist.logs, was, c)
    ensures FitsIn(s, n, b)
  {
    var ll := s.hist.logs;
    forall c | Said(s, n, c)
      ensures SameBallot(b, c) && SameBallot(c, b) && BallotAfterAck(ll, b, c) && BallotAfterAck(ll, c, b)
    {
      BallotAgrees(ll, n, was, b, c);
    }
  }

  lemma HardHonoured(s: State, n: nat, gate: nat, m: Msg)
    requires Disks(s) && HasNode(s, n) && GateOk(s.nodes[n], gate, 0) && !IsAck(m)
    requires m.term == s.nodes[n].mem.term && (IsBallot(m) ==> s.nodes[n].mem.vote == Some(m.to))
    ensures HeldHonoured(s.hist.logs, s.nodes[n], gate, m)
  {
    var nd := s.nodes[n];
    forall k | 0 <= k <= |nd.queue| && gate <= nd.landed + k ensures Honours(s.hist.logs, Image(nd, k), m) {
      ImageHard(nd, k);
    }
  }

  /** A reply that is neither a ballot nor an acknowledgement of entries always fits in. */
  lemma PlainFits(s: State, n: nat, m: Msg)
    requires HasNode(s, n) && IsReply(m) && !IsBallot(m) && !IsAck(m)
    ensures FitsIn(s, n, m)
  {
  }

  lemma PlainReply(s: State, n: nat, gate: nat, m: Msg)
    requires Inv(s) && HasNode(s, n) && m.from == n && IsReply(m) && !IsBallot(m) && !IsAck(m)
    requires m.term == s.nodes[n].mem.term && GateOk(s.nodes[n], gate, 0)
    ensures Inv(Emit(s, n, gate, m))
  {
    PlainFits(s, n, m);
    HardHonoured(s, n, gate, m);
    CoreSay(s, n, gate, m);
    RolesEmit(s, n, gate, m);
  }

  /** Casting a ballot: the vote is saved and the reply waits for it. */
  lemma BallotReply(s: State, n: nat, nd': Node, gate: nat, b: Msg)
    requires Inv(s) && HasNode(s, n) && IsBallot(b) && b.from == n && b.to != n
    requires b.log == s.nodes[n].mem.log && BallotOk(s.hist.logs, s.net, b)
    requires var d := s.nodes[n].mem;
      b.term > d.term || (b.term == d.term && (d.vote == None || d.vote == Some(b.to)))
    requires SameDurable(Saved(s.nodes[n], b.term, Some(b.to)), nd') && GateOk(nd', gate, 0)
    requires Inv(Put(s, n, nd'))
    ensures Inv(Emit(Put(s, n, nd'), n, gate, b))
  {
    hide Records, Sent, Pending, LogOk, NodeShape;
    var s1 := Put(s, n, nd');
    var was := s.nodes[n].mem;
    forall c | Said(s1, n, c) ensures Honours(s1.hist.logs, was, c) {
      assert Said(s, n, c);
      SaidInRange(s, n, c);
    }
    BallotFits(s1, n, was, b);
    HardHonoured(s1, n, gate, b);
    CoreSay(s1, n, gate, b);
    RolesEmit(s1, n, gate, b);
  }

  lemma AskedBallotOk(s: State, n: nat, m: Msg, b: Msg)
    requires Core(s) && HasNode(s, n) && m in s.net && m.AskVote? && m.from != n
    requires b == Vote(m.term, n, m.from, true, s.nodes[n].mem.log)
    requires UpToDate(m.lastTerm, m.lastIndex, s.nodes[n].mem.log) && s.nodes[n].mem.term <= m.term
    ensures BallotOk(s.hist.logs, s.net, b)
  {
    hide LogOk, Sorted;
    var nd := s.nodes[n];
    MemImage(s, n);
    assert AskBacked(s.net, m);
    assert Backed(s.net, b);
  }

  lemma AskVoteHigher(s: State, n: nat, m: Msg, gate: nat)
    requires Inv(s) && Enabled(s, RecvAskVote(n, m, gate)) && m.term > s.nodes[n].mem.term
    ensures Inv(Do(s, RecvAskVote(n, m, gate)))
  {
    hide Core, Roles;
    var nd := s.nodes[n];
    var (nd', reply) := OnAskVote(nd, n, m);
    var ok := UpToDate(m.lastTerm, m.lastIndex, nd.mem.log);
    CoreSaved(s, n, m.term, if ok then Some(m.from) else None, nd');
    RolesFollower(s, Put(s, n, nd'), n);
    if ok {
      AskedBallotOk(s, n, m, reply);
      BallotReply(s, n, nd', gate, reply);
    } else {
      PlainReply(Put(s, n, nd'), n, gate, reply);
    }
  }

  lemma AskVoteGranted(s: State, n: nat, m: Msg, gate: nat)
    requires Inv(s) && Enabled(s, RecvAskVote(n, m, gate)) && m.term == s.nodes[n].mem.term
    requires OnAskVote(s.nodes[n], n, m).1.granted
    ensures Inv(Do(s, RecvAskVote(n, m, gate)))
  {
    hide Core, Roles;
    var (nd', reply) := OnAskVote(s.nodes[n], n, m);
    CoreSaved(s, n, m.term, Some(m.from), nd');
    RolesKept(s, Put(s, n, nd'), n);
    AskedBallotOk(s, n, m, reply);
    BallotReply(s, n, nd', gate, reply);
  }

  lemma AskVoteInv(s: State, n: nat, m: Msg, gate: nat)
    requires Inv(s) && Enabled(s, RecvAskVote(n, m, gate))
    ensures Inv(Do(s, RecvAskVote(n, m, gate)))
  {
    hide Core, Roles;
    var nd := s.nodes[n];
    var (nd', reply) := OnAskVote(nd, n, m);
    if m.term > nd.mem.term {
      AskVoteHigher(s, n, m, gate);
    } else if reply.granted {
      AskVoteGranted(s, n, m, gate);
    } else {
      assert Put(s, n, nd') == s;
      PlainReply(s, n, gate, reply);
    }
  }

  // ---- Standing -----------------------------------------------------------

  lemma StandCore(s: State, n: nat)
    requires Core(s) && HasNode(s, n)
    ensures Core(Put(s, n, Stood(s.nodes[n], n)))
  {
    hide Core;
    var nd := s.nodes[n];
    var t := nd.mem.term + 1;
    var nd1 := Demoted(Saved(nd, t, Some(n)));
    var gate := nd1.landed + |nd1.queue|;
    var b := Vote(t, n, n, true, nd.mem.log);
    var s1 := Put(s, n, nd1);
    CoreSaved(s, n, t, Some(n), nd1);
    OwnBallotFits(s, n);
    CoreBelow(s, n);
    CoreSay(s1, n, gate, b);
    var s2 := Emit(s1, n, gate, b);
    CoreCampaign(s2, n, gate, t, Stood(nd, n));
    assert Put(s2, n, Stood(nd, n)) == Put(s, n, Stood(nd, n));
  }

  lemma CoreBelow(s: State, n: nat)
    requires Core(s) && HasNode(s, n)
    ensures s.nodes[n].completed <= s.nodes[n].landed
  {
  }

  lemma OwnBallotFits(s: State, n: nat)
    requires Core(s) && HasNode(s, n)
    ensures
      var t := s.nodes[n].mem.term + 1;
      var nd1 := Demoted(Saved(s.nodes[n], t, Some(n)));
      var s1 := Put(s, n, nd1);
      var b := Vote(t, n, n, true, s.nodes[n].mem.log);
      FitsIn(s1, n, b) && HeldHonoured(s.hist.logs, nd1, nd1.landed + |nd1.queue|, b)
  {
    hide Core, HeldHonoured, FitsIn;
    var nd := s.nodes[n];
    var t := nd.mem.term + 1;
    var nd1 := Demoted(Saved(nd, t, Some(n)));
    var b := Vote(t, n, n, true, nd.mem.log);
    OwnBallotSaid(s, n, nd1, b);
    OwnBallotHeld(s, n, nd1, b);
  }

  lemma OwnBallotSaid(s: State, n: nat, nd1: Node, b: Msg)
    requires Core(s) && HasNode(s, n) && nd1.held == s.nodes[n].held
    requires b == Vote(s.nodes[n].mem.term + 1, n, n, true, s.nodes[n].mem.log)
    ensures FitsIn(Put(s, n, nd1), n, b)
  {
    hide Records, Images, Sent, Pending, Shape, LogOk, Honours;
    var nd := s.nodes[n];
    var s1 := Put(s, n, nd1);
    forall c | Said(s1, n, c) ensures Honours(s1.hist.logs, nd.mem, c) {
      assert Said(s, n, c);
      SaidInRange(s, n, c);
    }
    MemImage(s, n);
    BallotFits(s1, n, nd.mem, b);
  }

  lemma OwnBallotHeld(s: State, n: nat, nd1: Node, b: Msg)
    requires Core(s) && HasNode(s, n)
    requires b == Vote(s.nodes[n].mem.term + 1, n, n, true, s.nodes[n].mem.log)
    requires nd1 == Demoted(Saved(s.nodes[n], b.term, Some(n)))
    ensures HeldHonoured(s.hist.logs, nd1, nd1.landed + |nd1.queue|, b)
  {
    hide Records, Images, Sent, Pending;
    assert NodeShape(s.nodes[n]);
    ImageEnqueued(s.nodes[n], nd1, SaveHard(b.term, Some(n)));
  }

  lemma StandInv(s: State, n: nat)
    requires Inv(s) && HasNode(s, n)
    ensures Inv(Put(s, n, Stood(s.nodes[n], n)))
  {
    StandCore(s, n);
    StandRoles(s, n);
  }

  lemma StandRoles(s: State, n: nat)
    requires Inv(s) && HasNode(s, n)
    ensures Roles(Put(s, n, Stood(s.nodes[n], n)))
  {
    MemImage(s, n);
    NotYetWon(s, n);
    StoodRoles(s, n);
  }

  lemma NotYetWon(s: State, n: nat)
    requires Disks(s) && Wins(s) && HasNode(s, n)
    ensures var t := s.nodes[n].mem.term + 1; t in s.hist.wins ==> s.hist.wins[t].leader != n
  {
    hide Disks, Wins;
    if s.nodes[n].mem.term + 1 in s.hist.wins { LeaderReached(s, s.nodes[n].mem.term + 1); }
  }

  lemma StoodRoles(s: State, n: nat)
    requires Roles(s) && HasNode(s, n) && TermsUpTo(s.nodes[n].mem.log, s.nodes[n].mem.term)
    requires var t := s.nodes[n].mem.term + 1; t in s.hist.wins ==> s.hist.wins[t].leader != n
    ensures Roles(Put(s, n, Stood(s.nodes[n], n)))
  {
    var nd := s.nodes[n];
    var nd' := Stood(nd, n);
    var s' := Put(s, n, nd');
    assert RolesAt(s, n);
    var gate := nd'.landed + |nd'.queue|;
    assert Held(gate, Send(Vote(nd'.mem.term, n, n, true, nd.mem.log))) in nd'.held;
    RolesFrame(s, s', n);
  }

  /** A term's leader has reached that term, on disk and for good. */
  lemma LeaderReached(s: State, t: nat)
    requires Disks(s) && Wins(s) && t in s.hist.wins
    ensures var l := s.hist.wins[t].leader;
      && HasNode(s, l) && Vote(t, l, l, true, s.hist.wins[t].start) in s.net
      && s.nodes[l].mem.term >= t
      && forall k :: 0 <= k <= |s.nodes[l].queue| ==> Image(s.nodes[l], k).term >= t
  {
    var w := s.hist.wins[t];
    assert WinOk(s, t, w);
    assert WinBallotOk(s, t, w, w.leader);
    var b := Vote(t, w.leader, w.leader, true, w.start);
    var nd := s.nodes[w.leader];
    assert SentHonoured(s.hist.logs, nd, b);
    forall k | 0 <= k <= |nd.queue| ensures Image(nd, k).term >= t {
      assert Honours(s.hist.logs, Image(nd, k), b);
    }
    assert NodeShape(nd);
    assert Image(nd, |nd.queue|) == nd.mem;
  }

  // ---- Winning ------------------------------------------------------------

  /** A candidate with a majority of ballots in the network, its own among them. */
  ghost predicate Winning(s: State, n: nat) {
    && HasNode(s, n) && s.nodes[n].role == Candidate
    && Vote(s.nodes[n].mem.term, n, n, true, s.nodes[n].mem.log) in s.net
    && 2 * |s.nodes[n].votes.Keys + {n}| > |s.nodes|
  }

  function VictoryOf(nd: Node, n: nat): Win {
    Win(n, nd.mem.log, nd.votes[n := nd.mem.log])
  }

  /** A vote for a candidate was granted against the log in the candidate's own ballot. */
  lemma BackedByOwn(s: State, n: nat, m: Msg, log: Log)
    requires Ballots(s) && OneBallot(s) && HasNode(s, n) && HasNode(s, m.from)
    requires m in s.net && IsBallot(m) && m.to == n && m.from != n
    requires Said(s, n, Vote(m.term, n, n, true, log))
    ensures Vote(m.term, n, n, true, log) in s.net && UpToDate(LastTerm(log), |log|, m.log)
  {
    assert Said(s, m.from, m);
    assert BallotOk(s.hist.logs, s.net, m);
    var own :| own in s.net && IsBallot(own) && own.term == m.term && own.from == n && own.to == n
      && UpToDate(LastTerm(own.log), |own.log|, m.log);
    assert Said(s, n, own);
    assert SameBallot(own, Vote(m.term, n, n, true, log));
  }

  lemma BallotOfWinner(s: State, n: nat, p: nat)
    requires Ballots(s) && OneBallot(s) && Winning(s, n) && RolesAt(s, n)
    requires p in VictoryOf(s.nodes[n], n).ballots
    ensures WinBallotOk(s, s.nodes[n].mem.term, VictoryOf(s.nodes[n], n), p)
  {
    var nd := s.nodes[n];
    if p != n {
      BackedByOwn(s, n, Vote(nd.mem.term, p, n, true, nd.votes[p]), nd.mem.log);
    }
  }

  /** Nobody has won the term a candidate is about to win. */
  lemma TermIsFree(s: State, n: nat)
    requires Wins(s) && Ballots(s) && OneBallot(s) && Winning(s, n) && RolesAt(s, n)
    ensures s.nodes[n].mem.term !in s.hist.logs
  {
    var nd := s.nodes[n];
    var t := nd.mem.term;
    if t in s.hist.wins {
      var w := s.hist.wins[t];
      assert WinOk(s, t, w);
      forall p | p in w.ballots ensures p < |s.nodes| { assert WinBallotOk(s, t, w, p); }
      assert |w.ballots.Keys| == |w.ballots|;
      var v := Overlap(w.ballots.Keys, nd.votes.Keys + {n}, |s.nodes|);
      assert WinBallotOk(s, t, w, v);
      BallotOfWinner(s, n, v);
      OneTo(s, v, Vote(t, v, w.leader, true, w.ballots[v]), Vote(t, v, n, true, VictoryOf(nd, n).ballots[v]));
    }
  }

  lemma OneTo(s: State, v: nat, a: Msg, b: Msg)
    requires OneBallot(s) && HasNode(s, v) && a in s.net && b in s.net
    requires IsBallot(a) && IsBallot(b) && a.from == v && b.from == v && a.term == b.term
    ensures a.to == b.to
  {
    assert Said(s, v, a) && Said(s, v, b);
    assert SameBallot(a, b);
  }

  lemma WinnerCrowned(s: State, n: nat)
    requires Inv(s) && Winning(s, n)
    ensures CanCrown(s, s.nodes[n].mem.term, VictoryOf(s.nodes[n], n))
  {
    hide LogOk, Sent, Pending;
    var nd := s.nodes[n];
    var w := VictoryOf(nd, n);
    assert RolesAt(s, n);
    TermIsFree(s, n);
    MemImage(s, n);
    assert w.ballots.Keys == nd.votes.Keys + {n};
    assert |w.ballots| == |w.ballots.Keys|;
    forall v | v in w.ballots ensures WinBallotOk(s, nd.mem.term, w, v) {
      BallotOfWinner(s, n, v);
    }
  }

  lemma ElectedCore(s: State, n: nat)
    requires Inv(s) && Winning(s, n)
    ensures Core(Elected(s, n))
  {
    hide Core, Roles, CanCrown;
    var nd := s.nodes[n];
    var t := nd.mem.term;
    var w := VictoryOf(nd, n);
    WinnerCrowned(s, n);
    CoreCrown(s, t, w);
    var s1 := Crowned(s, t, w);
    var s' := Elected(s, n);
    LeaderAppends(s1, n, [Entry(t, "")], s'.nodes[n]);
    assert Put(s1, n, s'.nodes[n]) == s';
  }

  /** The leader of a term queues entries its recorded log already has. */
  lemma LeaderAppends(s: State, n: nat, es: Log, nd': Node)
    requires Core(s) && HasNode(s, n) && SameDurable(AppendTo(s.nodes[n], es), nd')
    requires var d := s.nodes[n].mem; d.term in s.hist.logs && d.log + es == s.hist.logs[d.term]
    ensures Core(Put(s, n, nd'))
  {
    hide Core;
    LeaderImageOk(s, n);
    var nd := s.nodes[n];
    EvolvesAppended(s.hist.logs, nd.mem, es);
    CoreEnqueue(s, n, nd', AppendAt(|nd.mem.log|, es));
  }

  lemma LeaderImageOk(s: State, n: nat)
    requires Core(s) && HasNode(s, n) && s.nodes[n].mem.term in s.hist.logs
    ensures ImageOk(s.hist.logs, s.nodes[n].mem.(log := s.hist.logs[s.nodes[n].mem.term]))
  {
  }

  lemma ElectedRoles(s: State, n: nat)
    requires Roles(s) && Winning(s, n) && s.hist.wins.Keys == s.hist.logs.Keys
    requires s.nodes[n].mem.term !in s.hist.logs
    ensures Roles(Elected(s, n))
  {
    var s' := Elected(s, n);
    forall v | 0 <= v < |s'.nodes| ensures RolesAt(s', v) {
      assert RolesAt(s, v);
      if v != n { OtherRoles(s, n, v); }
    }
  }

  lemma OtherRoles(s: State, n: nat, v: nat)
    requires Winning(s, n) && s.hist.wins.Keys == s.hist.logs.Keys
    requires s.nodes[n].mem.term !in s.hist.logs && HasNode(s, v) && v != n && RolesAt(s, v)
    ensures RolesAt(Elected(s, n), v)
  {
    var s' := Elected(s, n);
    assert s'.nodes[v] == s.nodes[v];
    var own := Vote(s.nodes[v].mem.term, v, v, true, s.nodes[v].mem.log);
    assert Said(s', v, own) <==> Said(s, v, own);
  }

  lemma ElectedInv(s: State, n: nat)
    requires Inv(s) && Winning(s, n)
    ensures Inv(Elected(s, n))
  {
    hide Disks;
    ElectedCore(s, n);
    assert RolesAt(s, n);
    TermIsFree(s, n);
    ElectedRoles(s, n);
  }

  // ---- Votes arriving -----------------------------------------------------

  lemma BallotCounted(s: State, n: nat, m: Msg)
    requires Inv(s) && HasNode(s, n) && m in s.net && IsBallot(m) && m.to == n && m.from != n
    requires s.nodes[n].role == Candidate && m.term == s.nodes[n].mem.term
    ensures var s1 := Put(s, n, s.nodes[n].(votes := s.nodes[n].votes[m.from := m.log]));
      Inv(s1) && Vote(m.term, n, n, true, s.nodes[n].mem.log) in s1.net
  {
    hide Images, Pending, Shape, SentHonoured, BallotsAfterAcks, Wins, WinnersAfterAcks;
    var nd := s.nodes[n];
    var nd1 := nd.(votes := nd.votes[m.from := m.log]);
    CoreVolatile(s, n, nd1);
    assert RolesAt(s, n);
    BackedByOwn(s, n, m, nd.mem.log);
    VotesRoles(s, n, m);
  }

  lemma VotesRoles(s: State, n: nat, m: Msg)
    requires Roles(s) && HasNode(s, n) && m in s.net && IsBallot(m) && m.to == n && m.from != n
    requires s.nodes[n].role == Candidate && m.term == s.nodes[n].mem.term && HasNode(s, m.from)
    ensures Roles(Put(s, n, s.nodes[n].(votes := s.nodes[n].votes[m.from := m.log])))
  {
    var nd := s.nodes[n];
    var s1 := Put(s, n, nd.(votes := nd.votes[m.from := m.log]));
    assert RolesAt(s, n);
    assert m == Vote(nd.mem.term, m.from, n, true, m.log);
    assert Said(s1, n, Vote(nd.mem.term, n, n, true, nd.mem.log));
    RolesFrame(s, s1, n);
  }

  lemma VoteInv(s: State, n: nat, m: Msg)
    requires Inv(s) && Enabled(s, RecvVote(n, m))
    ensures Inv(VoteReceived(s, n, m))
  {
    hide Inv;
    var nd := s.nodes[n];
    if m.term > nd.mem.term {
      FollowInv(s, n, m.term);
    } else if !(nd.role != Candidate || m.term < nd.mem.term || !m.granted) {
      BallotCounted(s, n, m);
      var s1 := Put(s, n, nd.(votes := nd.votes[m.from := m.log]));
      if ElectionWon(s1.nodes[n], n, |s.nodes|) {
        ElectedInv(s1, n);
      }
    }
  }

  // ---- Completions --------------------------------------------------------

  lemma ProgressRoles(s: State, n: nat)
    requires Roles(s) && HasNode(s, n)
    ensures Roles(Progressed(s, n))
  {
    var s' := Progressed(s, n);
    assert RolesAt(s, n);
    var own := Vote(s.nodes[n].mem.term, n, n, true, s.nodes[n].mem.log);
    if s.nodes[n].role == Candidate { StillSaid(s, n, own); }
    CampaignsStay(s, n);
    RolesFrame(s, s', n);
  }

  /** What was held back is held back or sent. */
  lemma StillSaid(s: State, n: nat, m: Msg)
    requires HasNode(s, n) && Said(s, n, m)
    ensures Said(Progressed(s, n), n, m)
  {
    var s' := Progressed(s, n);
    var nd := s.nodes[n].(completed := s.nodes[n].completed + 1);
    if m !in s.net {
      var g: nat :| Held(g, Send(m)) in s.nodes[n].held;
      if g <= nd.completed {
        var h := Held(g, Send(m));
        assert h in nd.held && h.gate <= nd.completed && h.act.Send? && h.act.msg == m;
        assert m in Released(nd);
      } else {
        assert Held(g, Send(m)) in s'.nodes[n].held;
      }
    }
  }

  lemma CampaignsStay(s: State, n: nat)
    requires HasNode(s, n) && CampaignsOk(s, n)
    ensures CampaignsOk(Progressed(s, n), n)
  {
    var s' := Progressed(s, n);
    forall g, t | Held(g, Campaign(t)) in s'.nodes[n].held
      ensures exists log :: Held(g, Send(Vote(t, n, n, true, log))) in s'.nodes[n].held
    {
      var log :| Held(g, Send(Vote(t, n, n, true, log))) in s.nodes[n].held;
      assert Held(g, Send(Vote(t, n, n, true, log))) in s'.nodes[n].held;
    }
  }

  lemma ProgressInv(s: State, n: nat)
    requires Inv(s) && HasNode(s, n) && s.nodes[n].completed < s.nodes[n].landed
    ensures Inv(Progressed(s, n))
  {
    CoreProgress(s, n);
    ProgressRoles(s, n);
  }

  /** A campaign that is due finds the candidate's own ballot in the network. */
  lemma CampaignBacked(s: State, n: nat)
    requires Inv(s) && HasNode(s, n)
    requires CampaignDue(s.nodes[n].(completed := s.nodes[n].completed + 1))
    ensures Vote(s.nodes[n].mem.term, n, n, true, s.nodes[n].mem.log) in Progressed(s, n).net
  {
    var nd := s.nodes[n].(completed := s.nodes[n].completed + 1);
    var t := nd.mem.term;
    assert RolesAt(s, n);
    var h :| h in nd.held && h.gate <= nd.completed && h.act == Campaign(t);
    assert h == Held(h.gate, Campaign(t));
    var log :| Held(h.gate, Send(Vote(t, n, n, true, log))) in s.nodes[n].held;
    var own := Vote(t, n, n, true, log);
    SameOwn(s, n, own, Vote(t, n, n, true, nd.mem.log));
    var r := Held(h.gate, Send(own));
    assert r in nd.held && r.gate <= nd.completed && r.act.Send? && r.act.msg == own;
    assert own in Released(nd);
  }

  lemma SameOwn(s: State, n: nat, a: Msg, b: Msg)
    requires OneBallot(s) && HasNode(s, n) && Said(s, n, a) && Said(s, n, b)
    requires IsBallot(a) && IsBallot(b) && a.term == b.term && a.to == n && b.to == n
    ensures a.log == b.log
  {
    assert SameBallot(a, b);
  }

  /** A node that has its own ballot for its term in the network has reached the term on disk. */
  lemma OwnReached(s: State, n: nat, m: Msg)
    requires Disks(s) && HasNode(s, n) && m.term == s.nodes[n].mem.term && !IsAck(m) && !IsBallot(m)
    requires Vote(m.term, n, n, true, s.nodes[n].mem.log) in s.net
    ensures HeldHonoured(s.hist.logs, s.nodes[n], 0, m)
  {
    var nd := s.nodes[n];
    var own := Vote(m.term, n, n, true, nd.mem.log);
    assert SentHonoured(s.hist.logs, nd, own);
    forall k | 0 <= k <= |nd.queue| ensures Honours(s.hist.logs, Image(nd, k), m) {
      assert Honours(s.hist.logs, Image(nd, k), own);
    }
  }

  lemma AskInv(s: State, n: nat)
    requires Inv(s) && HasNode(s, n)
    requires Vote(s.nodes[n].mem.term, n, n, true, s.nodes[n].mem.log) in s.net
    ensures var nd := s.nodes[n];
      Inv(Emit(s, n, 0, AskVote(nd.mem.term, n, |nd.mem.log|, LastTerm(nd.mem.log))))
  {
    var nd := s.nodes[n];
    var m := AskVote(nd.mem.term, n, |nd.mem.log|, LastTerm(nd.mem.log));
    OwnReached(s, n, m);
    AskFits(s, n, m);
    CoreSay(s, n, 0, m);
    RolesEmit(s, n, 0, m);
  }

  lemma AskFits(s: State, n: nat, m: Msg)
    requires HasNode(s, n) && m.AskVote? && m.from == n
    requires m.lastIndex == |s.nodes[n].mem.log| && m.lastTerm == LastTerm(s.nodes[n].mem.log)
    requires Vote(m.term, n, n, true, s.nodes[n].mem.log) in s.net
    ensures FitsIn(s, n, m)
  {
    var own := Vote(m.term, n, n, true, s.nodes[n].mem.log);
    assert IsBallot(own) && own.from == n && own.to == n;
    assert AskBacked(s.net, m);
  }

  lemma CompleteInv(s: State, n: nat)
    requires Inv(s) && Enabled(s, Complete(n))
    ensures Inv(Completed(s, n))
  {
    hide Inv;
    var nd := s.nodes[n].(completed := s.nodes[n].completed + 1);
    var s1 := Progressed(s, n);
    ProgressInv(s, n);
    if CampaignDue(nd) {
      CampaignBacked(s, n);
      if |s.nodes| == 1 {
        ElectedInv(s1, n);
      } else {
        AskInv(s1, n);
      }
    }
  }
}
