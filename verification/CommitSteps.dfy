/**
  Every step with vouched-for results and a shared policy keeps the commit
  invariant: commits rest on acknowledgements in the network, wins on enough
  ballots, match indexes on results of the leader's own term, and what a node
  treats as committed is a prefix some leader counted. The hard cases are a
  follower that truncates and appends under a commit index, and a leader that
  counts a new one.
 */
module CommitSteps {
  import opened Quorum
  import opened Protocol
  import opened Invariant
  import opened CoreSteps
  import opened ElectionSteps
  import opened ReplicationSteps
  import opened Safety
  import opened Commitment

  // ---- What later states keep ---------------------------------------------

  lemma CommitKept(s: State, s': State, q: int, c: Protocol.Commit)
    requires Later(s, s') && CommitOk(s, q, c)
    ensures CommitOk(s', q, c)
  {
    assert s.hist.logs[c.term] <= s'.hist.logs[c.term];
    forall v | v in c.quorum ensures Acked(s'.net, v, c.term, c.index) {
      assert Acked(s.net, v, c.term, c.index);
    }
  }

  lemma CoveredKept(s: State, s': State, t: nat, t': nat, index: nat)
    requires s.hist.commits <= s'.hist.commits && t <= t' && Covered(s.hist, t, index)
    ensures Covered(s'.hist, t', index)
  {
  }

  lemma DecidedKept(s: State, s': State, t: nat, t': nat, index: nat, log: Log, log': Log)
    requires Later(s, s') && t <= t' && Decided(s.hist, t, index, log)
    requires index <= |log| ==> log[..index] <= log'
    ensures Decided(s'.hist, t', index, log')
  {
    if index > 0 {
      var c :| c in s.hist.commits && DecidedBy(s.hist, t, index, log, c);
      var p := s.hist.logs[c.term][..index];
      assert s.hist.logs[c.term] <= s'.hist.logs[c.term];
      assert s'.hist.logs[c.term][..index] == p;
      assert log[..index] == p;
      assert DecidedBy(s'.hist, t', index, log', c);
    }
  }

  /** The part of the commit invariant that is about one node. */
  ghost predicate NodeCommits(s: State, n: nat)
    requires HasNode(s, n)
  {
    MatchedAt(s, n) && Decided(s.hist, s.nodes[n].mem.term, s.nodes[n].commit, s.nodes[n].mem.log)
  }

  /** A step of node `n`: the records so far, and the other nodes, carry over. */
  lemma CommitFrame(s: State, s': State, q: int, n: nat)
    requires CommitInv(s, q) && Later(s, s') && HasNode(s, n)
    requires forall v :: 0 <= v < |s.nodes| && v != n ==> s'.nodes[v] == s.nodes[v]
    requires NodeCommits(s', n)
    requires forall c :: c in s'.hist.commits && c !in s.hist.commits ==> CommitOk(s', q, c)
    requires forall t :: t in s'.hist.wins && t !in s.hist.wins ==>
      |s'.hist.wins[t].ballots| >= ElectionQuorumFor(q, |s.nodes|)
    requires forall m :: m in s'.net && m !in s.net && m.Append? ==> Covered(s'.hist, m.term, m.commit)
    ensures CommitInv(s', q)
  {
    hide CommitOk, Later, Decided, Covered;
    LaterFacts(s, s');
    CommitsFrame(s, s', q);
    WinSizesFrame(s, s', q);
    AnnouncedFrame(s, s');
    forall v | 0 <= v < |s'.nodes|
      ensures MatchedAt(s', v) && Decided(s'.hist, s'.nodes[v].mem.term, s'.nodes[v].commit, s'.nodes[v].mem.log)
    {
      if v != n {
        OtherNode(s, s', v);
      }
    }
  }

  lemma LaterFacts(s: State, s': State)
    requires Later(s, s')
    ensures |s'.nodes| == |s.nodes| && s.net <= s'.net && s.hist.commits <= s'.hist.commits
  {
  }

  lemma OtherNode(s: State, s': State, v: nat)
    requires Later(s, s') && HasNode(s, v) && s'.nodes[v] == s.nodes[v]
    requires MatchedAt(s, v) && Decided(s.hist, s.nodes[v].mem.term, s.nodes[v].commit, s.nodes[v].mem.log)
    ensures NodeCommits(s', v)
  {
    var nd := s.nodes[v];
    DecidedKept(s, s', nd.mem.term, nd.mem.term, nd.commit, nd.mem.log, nd.mem.log);
  }

  lemma CommitsFrame(s: State, s': State, q: int)
    requires Commits(s, q) && Later(s, s')
    requires forall c :: c in s'.hist.commits && c !in s.hist.commits ==> CommitOk(s', q, c)
    ensures Commits(s', q)
  {
    hide CommitOk, Later;
    forall c | c in s'.hist.commits ensures CommitOk(s', q, c) {
      if c in s.hist.commits { CommitKept(s, s', q, c); }
    }
  }

  lemma WinSizesFrame(s: State, s': State, q: int)
    requires WinSizes(s, q) && Later(s, s')
    requires forall t :: t in s'.hist.wins && t !in s.hist.wins ==>
      |s'.hist.wins[t].ballots| >= ElectionQuorumFor(q, |s.nodes|)
    ensures WinSizes(s', q)
  {
    hide ElectionQuorumFor;
  }

  lemma AnnouncedFrame(s: State, s': State)
    requires Announced(s) && Later(s, s')
    requires forall m :: m in s'.net && m !in s.net && m.Append? ==> Covered(s'.hist, m.term, m.commit)
    ensures Announced(s')
  {
    forall m | m in s'.net && m.Append? ensures Covered(s'.hist, m.term, m.commit) {
      if m in s.net { CoveredKept(s, s', m.term, m.term, m.commit); }
    }
  }

  // ---- Steps that commit nothing new --------------------------------------

  /** Node `n` keeps its log and commit index, or loses its commit index. */
  predicate KeepsCommit(nd: Node, nd': Node) {
    && nd.mem.term <= nd'.mem.term
    && (nd'.commit == 0 || (nd'.commit == nd.commit && nd.mem.log <= nd'.mem.log))
    && (nd'.matched == map[] || (nd'.matched == nd.matched && nd'.role == nd.role && nd'.mem.term == nd.mem.term))
  }

  lemma KeptNode(s: State, s': State, n: nat)
    requires Later(s, s') && HasNode(s, n) && NodeCommits(s, n)
    requires KeepsCommit(s.nodes[n], s'.nodes[n]) || (s'.nodes[n].commit == 0 && s'.nodes[n].matched == map[])
    ensures NodeCommits(s', n)
  {
    var nd := s.nodes[n];
    var nd' := s'.nodes[n];
    if nd'.commit > 0 {
      DecidedKept(s, s', nd.mem.term, nd'.mem.term, nd.commit, nd.mem.log, nd'.mem.log);
    }
  }

  lemma KeptStep(s: State, s': State, q: int, n: nat)
    requires CommitInv(s, q) && Later(s, s') && HasNode(s, n)
    requires forall v :: 0 <= v < |s.nodes| && v != n ==> s'.nodes[v] == s.nodes[v]
    requires KeepsCommit(s.nodes[n], s'.nodes[n]) || (s'.nodes[n].commit == 0 && s'.nodes[n].matched == map[])
    requires s'.hist.commits == s.hist.commits
    requires forall t :: t in s'.hist.wins && t !in s.hist.wins ==>
      |s'.hist.wins[t].ballots| >= ElectionQuorumFor(q, |s.nodes|)
    requires forall m :: m in s'.net && m !in s.net && m.Append? ==> Covered(s'.hist, m.term, m.commit)
    ensures CommitInv(s', q)
  {
    hide CommitOk, Covered, Later, ElectionQuorumFor;
    LaterFacts(s, s');
    assert MatchedAt(s, n);
    KeptNode(s, s', n);
    CommitFrame(s, s', q, n);
  }

  lemma HeldReplies(s: State, n: nat, m: Msg)
    requires Inv(s) && HasNode(s, n) && s.nodes[n].completed < s.nodes[n].landed
    requires m in Progressed(s, n).net && m !in s.net
    ensures IsReply(m)
  {
    hide Core, Roles;
    ReleasedFacts(s, n, m);
  }

  lemma BallotCount(nd: Node, n: nat, total: nat, q: int)
    requires nd.applied == q || nd.latest == q
    ensures ElectionWon(nd, n, total) ==> |nd.votes[n := nd.mem.log]| >= ElectionQuorumFor(q, total)
  {
    assert nd.votes[n := nd.mem.log].Keys == nd.votes.Keys + {n};
    assert |nd.votes[n := nd.mem.log]| == |nd.votes[n := nd.mem.log].Keys|;
  }

  lemma VoteCommit(s: State, q: int, n: nat, m: Msg)
    requires Inv(s) && CommitInv(s, q) && Shares(s, q) && Enabled(s, RecvVote(n, m))
    ensures CommitInv(VoteReceived(s, n, m), q)
  {
    hide Inv, CommitInv, ElectionQuorumFor, Later;
    VoteLater(s, n, m);
    var nd := s.nodes[n];
    BallotCount(nd.(votes := nd.votes[m.from := m.log]), n, |s.nodes|, q);
    KeptStep(s, VoteReceived(s, n, m), q, n);
  }

  lemma CompleteCommit(s: State, q: int, n: nat)
    requires Inv(s) && CommitInv(s, q) && Shares(s, q) && Enabled(s, Complete(n))
    ensures CommitInv(Completed(s, n), q)
  {
    hide Inv, CommitInv, Later;
    CompleteLater(s, n);
    var s' := Completed(s, n);
    forall m | m in s'.net && m !in s.net ensures !m.Append? {
      if m in Progressed(s, n).net { HeldReplies(s, n, m); }
    }
    SoleBallot(s, n);
    KeptStep(s, s', q, n);
  }

  lemma SoleBallot(s: State, n: nat)
    requires HasNode(s, n)
    ensures |s.nodes| == 1 ==> |s.nodes[n].votes[n := s.nodes[n].mem.log]| >= 1
  {
    var b := s.nodes[n].votes[n := s.nodes[n].mem.log];
    assert n in b;
    assert b != map[];
  }

  lemma SendCommit(s: State, q: int, n: nat, to: nat, prev: nat, len: nat)
    requires Inv(s) && CommitInv(s, q) && Enabled(s, SendAppend(n, to, prev, len))
    ensures CommitInv(Do(s, SendAppend(n, to, prev, len)), q)
  {
    hide Inv, Commits, WinSizes, Matched, Announced;
    var s' := Do(s, SendAppend(n, to, prev, len));
    SameHistoryLater(s, s');
    var nd := s.nodes[n];
    assert Decided(s.hist, nd.mem.term, nd.commit, nd.mem.log);
    assert Covered(s'.hist, nd.mem.term, nd.commit) by {
      if nd.commit > 0 {
        var c :| c in s.hist.commits && DecidedBy(s.hist, nd.mem.term, nd.commit, nd.mem.log, c);
      }
    }
    KeptStep(s, s', q, n);
  }

  // ---- A result raises matchIndex -----------------------------------------

  lemma ResultCommit(s: State, q: int, n: nat, m: Msg)
    requires Inv(s) && CommitInv(s, q) && Enabled(s, RecvAppended(n, m)) && Vouched(s, RecvAppended(n, m))
    ensures CommitInv(Do(s, RecvAppended(n, m)), q)
  {
    hide Inv, Commits, WinSizes, Announced, Decided, Covered, CommitOk;
    var s' := Do(s, RecvAppended(n, m));
    SameHistoryLater(s, s');
    var nd := s.nodes[n];
    assert MatchedAt(s, n);
    if m.term > nd.mem.term || nd.role != Leader || !m.success || m.last == 0 {
      KeptStep(s, s', q, n);
    } else {
      assert MatchedAt(s', n) by { VouchedIff(s, n, m); }
      DecidedKept(s, s', nd.mem.term, nd.mem.term, nd.commit, nd.mem.log, nd.mem.log);
      CommitFrame(s, s', q, n);
    }
  }

  // ---- A leader commits ---------------------------------------------------

  lemma NodeCommitsOf(s: State, q: int, n: nat)
    requires CommitInv(s, q) && HasNode(s, n)
    ensures NodeCommits(s, n)
  {
    assert MatchedAt(s, n);
  }

  /** Whoever a leader counts has acknowledged the index in the leader's term. */
  lemma CountedAcked(s: State, n: nat, index: nat, v: nat)
    requires HasNode(s, n) && s.nodes[n].role == Leader && MatchedAt(s, n) && index > 0
    requires v in Counted(s.nodes[n], n, |s.nodes|, index)
    ensures Acked(Committed(s, n, index).net, v, s.nodes[n].mem.term, index)
  {
    hide StableUpTo;
    var nd := s.nodes[n];
    var s' := Committed(s, n, index);
    var m := if v == n then Appended(nd.mem.term, n, n, true, index) else Appended(nd.mem.term, v, n, true, nd.matched[v]);
    assert m in s'.net && IsAck(m) && m.from == v && m.term == nd.mem.term && m.last >= index;
  }

  lemma CountedEnough(s: State, q: int, n: nat, index: nat)
    requires Shares(s, q) && Enabled(s, AdvanceCommit(n, index))
    ensures var quorum := Counted(s.nodes[n], n, |s.nodes|, index);
      quorum <= Voters(|s.nodes|) && |quorum| >= CommitQuorumFor(q, |s.nodes|)
  {
    hide StableUpTo;
  }

  lemma CountedOk(s: State, q: int, n: nat, index: nat)
    requires Inv(s) && CommitInv(s, q) && Shares(s, q) && Enabled(s, AdvanceCommit(n, index))
    ensures var nd := s.nodes[n];
      CommitOk(Committed(s, n, index), q, Protocol.Commit(nd.mem.term, index, Counted(nd, n, |s.nodes|, index)))
  {
    hide Inv, CommitInv, Counted, Acked, Decided;
    var nd := s.nodes[n];
    var s' := Committed(s, n, index);
    OwnTermEntry(s, n, index);
    NodeCommitsOf(s, q, n);
    CountedEnough(s, q, n, index);
    forall v | v in Counted(nd, n, |s.nodes|, index) ensures Acked(s'.net, v, nd.mem.term, index) {
      CountedAcked(s, n, index, v);
    }
  }

  /** From the start of its term on, a leader's entries are of its term. */
  lemma OwnTermEntry(s: State, n: nat, index: nat)
    requires Inv(s) && HasNode(s, n) && s.nodes[n].role == Leader
    requires s.nodes[n].termStart <= index <= |s.nodes[n].mem.log| && 0 < index
    ensures var nd := s.nodes[n];
      && nd.mem.term in s.hist.logs && s.hist.logs[nd.mem.term] == nd.mem.log
      && nd.mem.log[index - 1].term == nd.mem.term
  {
    assert RolesAt(s, n);
    assert WinOk(s, s.nodes[n].mem.term, s.hist.wins[s.nodes[n].mem.term]);
  }

  lemma AdvanceCommits(s: State, q: int, n: nat, index: nat)
    requires Inv(s) && CommitInv(s, q) && Shares(s, q) && Enabled(s, AdvanceCommit(n, index))
    ensures CommitInv(Committed(s, n, index), q)
  {
    hide Inv, Commits, WinSizes, Announced, CommitOk, Decisions;
    var nd := s.nodes[n];
    var s' := Committed(s, n, index);
    SameHistoryLater(s, s');
    CountedOk(s, q, n, index);
    assert MatchedAt(s, n);
    assert MatchedAt(s', n);
    OwnTermEntry(s, n, index);
    var c := Protocol.Commit(nd.mem.term, index, Counted(nd, n, |s.nodes|, index));
    assert DecidedBy(s'.hist, nd.mem.term, index, nd.mem.log, c);
    CommitFrame(s, s', q, n);
  }

  // ---- A follower accepts and learns a commit index -----------------------

  /** What is known committed in a term is the start of that term's leader's log. */
  lemma CommittedIn(s: State, q: int, c: Protocol.Commit, t: nat)
    requires Core(s) && Commits(s, q) && WinSizes(s, q) && c in s.hist.commits && c.term <= t && t in s.hist.logs
    ensures c.term in s.hist.logs && c.index <= |s.hist.logs[c.term]|
    ensures s.hist.logs[c.term][..c.index] <= s.hist.logs[t]
  {
    assert CommitOk(s, q, c);
    hide Core, WinSizes;
    if c.term < t { LeaderCompleteness(s, q, c, t); }
  }

  /** A node's decided prefix is a prefix of the log of the leader of its term. */
  lemma DecidedInLeader(s: State, q: int, t: nat, index: nat, log: Log)
    requires Core(s) && Commits(s, q) && WinSizes(s, q) && t in s.hist.logs
    requires Decided(s.hist, t, index, log)
    ensures index <= |log| && log[..index] <= s.hist.logs[t]
  {
    hide Core, Commits, WinSizes;
    if index > 0 {
      var c :| c in s.hist.commits && DecidedBy(s.hist, t, index, log, c);
      CommittedIn(s, q, c, t);
      var p := s.hist.logs[c.term][..index];
      assert p == s.hist.logs[c.term][..c.index][..index];
      assert log[..index] == p;
    }
  }

  /** Accepting a slice keeps every prefix that is also the leader's. */
  lemma AcceptKeeps(ll: map<nat, Log>, nd: Node, m: Msg, index: nat)
    requires LeaderLogsOk(ll) && LogOk(ll, nd.mem.log) && m.Append? && SliceOk(ll, m)
    requires PrevMatches(nd.mem.log, m.prev, m.prevTerm)
    requires index <= |nd.mem.log| && nd.mem.log[..index] <= ll[m.term]
    ensures m.prev <= |nd.mem.log| && nd.mem.log[..index] <= Accept(nd, m.prev, m.entries).mem.log
  {
    hide LogOk, LeaderLogsOk, Divergence;
    SliceAgrees(ll, nd.mem.log, m);
    var log := nd.mem.log;
    var j := Divergence(log, m.prev, m.entries);
    var keep := m.prev + j;
    if j < |m.entries| && keep < |log| {
      assert log[..keep][..index] == log[..index];
    }
  }

  lemma PrefixChain(a: Log, ai: nat, top: Log, end: nat, index: nat, log: Log)
    requires ai <= |a| && a[..ai] <= top && index <= ai && index <= end <= |top| && top[..end] <= log
    ensures a[..index] <= log
  {
    assert a[..index] == a[..ai][..index];
    assert top[..index] == top[..end][..index];
  }

  lemma CoveredOf(s: State, q: int, m: Msg)
    requires CommitInv(s, q) && m in s.net && m.Append?
    ensures Covered(s.hist, m.term, m.commit) && Commits(s, q) && WinSizes(s, q)
  {
    hide Commits, WinSizes, Matched, Decisions;
  }

  lemma NewDecision(s: State, q: int, m: Msg, log: Log)
    requires Core(s) && CommitInv(s, q) && m in s.net && m.Append? && m.term in s.hist.logs
    requires m.prev + |m.entries| <= |s.hist.logs[m.term]|
    requires s.hist.logs[m.term][..m.prev + |m.entries|] <= log
    ensures Decided(s.hist, m.term, Min(m.commit, m.prev + |m.entries|), log)
  {
    hide Core, CommitInv, Commits, WinSizes;
    CoveredOf(s, q, m);
    var index := Min(m.commit, m.prev + |m.entries|);
    if index > 0 {
      var c :| c in s.hist.commits && c.term <= m.term && m.commit <= c.index;
      CommittedIn(s, q, c, m.term);
      PrefixChain(s.hist.logs[c.term], c.index, s.hist.logs[m.term], m.prev + |m.entries|, index, log);
      assert DecidedBy(s.hist, m.term, index, log, c);
    }
  }

  lemma AcceptDecides(s: State, q: int, n: nat, m: Msg)
    requires Core(s) && CommitInv(s, q) && HasNode(s, n) && m in s.net && m.Append?
    requires m.term == s.nodes[n].mem.term && PrevMatches(s.nodes[n].mem.log, m.prev, m.prevTerm)
    ensures var nd2 := Accept(s.nodes[n], m.prev, m.entries);
      Decided(s.hist, m.term, Max(nd2.commit, Min(m.commit, m.prev + |m.entries|)), nd2.mem.log)
  {
    hide Core, CommitInv, LogOk, LeaderLogsOk, Decided, Commits, WinSizes, MatchedAt, Divergence;
    var nd := s.nodes[n];
    NodeCommitsOf(s, q, n);
    NodeSlice(s, n, m);
    AcceptHolds(s.hist.logs, nd, m);
    var nd2 := Accept(nd, m.prev, m.entries);
    NewDecision(s, q, m, nd2.mem.log);
    CoveredOf(s, q, m);
    DecidedInLeader(s, q, m.term, nd.commit, nd.mem.log);
    AcceptKeeps(s.hist.logs, nd, m, nd.commit);
    SameHistoryLater(s, s);
    DecidedKept(s, s, m.term, m.term, nd.commit, nd.mem.log, nd2.mem.log);
  }

  lemma FollowCommit(s: State, q: int, n: nat, t: nat)
    requires CommitInv(s, q) && HasNode(s, n)
    ensures CommitInv(Put(s, n, BecomeFollower(s.nodes[n], t)), q)
  {
    hide CommitInv;
    var s' := Put(s, n, BecomeFollower(s.nodes[n], t));
    SameHistoryLater(s, s');
    KeptStep(s, s', q, n);
  }

  lemma AcceptCommit(s: State, q: int, n: nat, m: Msg)
    requires Core(s) && CommitInv(s, q) && HasNode(s, n) && m in s.net && m.Append?
    requires m.term == s.nodes[n].mem.term && PrevMatches(s.nodes[n].mem.log, m.prev, m.prevTerm)
    requires s.nodes[n].matched == map[]
    ensures var nd2 := Accept(s.nodes[n], m.prev, m.entries);
      CommitInv(Put(s, n, nd2.(commit := Max(nd2.commit, Min(m.commit, m.prev + |m.entries|)))), q)
  {
    hide Core, CommitInv, Decided, Divergence;
    AcceptDecides(s, q, n, m);
    var nd2 := Accept(s.nodes[n], m.prev, m.entries);
    var s' := Put(s, n, nd2.(commit := Max(nd2.commit, Min(m.commit, m.prev + |m.entries|))));
    SameHistoryLater(s, s');
    CommitFrame(s, s', q, n);
  }

  lemma EmitCommit(s: State, q: int, n: nat, gate: nat, m: Msg)
    requires CommitInv(s, q) && HasNode(s, n) && !m.Append?
    ensures CommitInv(Emit(s, n, gate, m), q)
  {
    hide CommitInv;
    SameHistoryLater(s, Emit(s, n, gate, m));
    KeptStep(s, Emit(s, n, gate, m), q, n);
  }

  lemma AppendCommits(s: State, q: int, n: nat, m: Msg, gate: nat)
    requires Inv(s) && CommitInv(s, q) && Enabled(s, RecvAppend(n, m, gate))
    ensures CommitInv(Do(s, RecvAppend(n, m, gate)), q)
  {
    hide Core, Roles, CommitInv;
    var nd := s.nodes[n];
    var (nd', reply) := OnAppend(nd, n, m);
    if m.term < nd.mem.term {
      assert Put(s, n, nd') == s;
    } else {
      var nd1 := BecomeFollower(nd, m.term);
      var s1 := Put(s, n, nd1);
      FollowInv(s, n, m.term);
      FollowCommit(s, q, n, m.term);
      assert Put(s1, n, nd') == Put(s, n, nd');
      if PrevMatches(nd1.mem.log, m.prev, m.prevTerm) {
        AcceptCommit(s1, q, n, m);
      }
    }
    EmitCommit(Put(s, n, nd'), q, n, gate, reply);
  }

  // ---- Every step ---------------------------------------------------------

  /** The steps that leave the node's log, commit index and match indexes alone, or clear them. */
  lemma QuietCommit(s: State, q: int, a: Step)
    requires Inv(s) && CommitInv(s, q) && Enabled(s, a)
    requires a.Stand? || a.RecvAskVote? || a.Propose? || a.RefuseAppend? || a.Land? || a.Crash? || a.StepDown?
      || a.SetPolicy? || a.RecordCommit?
    ensures CommitInv(Do(s, a), q)
  {
    hide Inv, CommitInv, Later;
    StepLater(s, a);
    KeptStep(s, Do(s, a), q, a.n);
  }

  lemma StepCommit(s: State, q: int, a: Step)
    requires Inv(s) && CommitInv(s, q) && Shares(s, q) && Enabled(s, a) && Vouched(s, a)
    ensures CommitInv(Do(s, a), q)
  {
    hide Inv, CommitInv;
    match a
    case RecvVote(n, m) => VoteCommit(s, q, n, m);
    case SendAppend(n, to, prev, len) => SendCommit(s, q, n, to, prev, len);
    case RecvAppend(n, m, gate) => AppendCommits(s, q, n, m, gate);
    case RecvAppended(n, m) => ResultCommit(s, q, n, m);
    case AdvanceCommit(n, index) => AdvanceCommits(s, q, n, index);
    case Complete(n) => CompleteCommit(s, q, n);
    case _ => QuietCommit(s, q, a);
  }
}
