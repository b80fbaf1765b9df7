/**
  Commit safety for whole runs: no two nodes ever treat different entries at
  one index as committed, every later leader holds what was committed, and a
  leader that has confirmed its leadership with a commit quorum knows every
  index anybody had committed when it asked.
 */
module CommitSafety {
  import opened Quorum
  import opened Protocol
  import opened Invariant
  import opened ElectionSteps
  import opened ReplicationSteps
  import opened Safety
  import opened Commitment
  import opened CommitSteps

  /** A run whose nodes always share policy `q` and whose leaders take only results that are vouched for. */
  ghost predicate VouchedRun(states: seq<State>, steps: seq<Step>, q: int) {
    && Run(states, steps)
    && (forall i :: 0 <= i < |states| ==> Shares(states[i], q))
    && (forall i :: 0 <= i < |steps| ==> Vouched(states[i], steps[i]))
  }

  lemma InitCommit(s: State, q: int)
    requires Init(s)
    ensures CommitInv(s, q)
  {
    forall n | 0 <= n < |s.nodes| ensures MatchedAt(s, n) && s.nodes[n].commit == 0 {
      assert s.nodes[n].(applied := 0, latest := 0) == Blank;
    }
  }

  lemma {:induction false} RunCommit(states: seq<State>, steps: seq<Step>, q: int, i: nat)
    requires VouchedRun(states, steps, q) && i < |states|
    ensures Inv(states[i]) && CommitInv(states[i], q)
  {
    hide Inv, CommitInv, Shares, Vouched;
    RunInv(states, steps, i);
    if i == 0 {
      InitCommit(states[0], q);
    } else {
      RunCommit(states, steps, q, i - 1);
      assert Shares(states[i - 1], q) && Vouched(states[i - 1], steps[i - 1]);
      assert Enabled(states[i - 1], steps[i - 1]) && states[i] == Do(states[i - 1], steps[i - 1]);
      StepCommit(states[i - 1], q, steps[i - 1]);
    }
  }

  /** A node's decision at one moment is still a decision at a later one. */
  lemma DecidedLater(states: seq<State>, steps: seq<Step>, q: int, i: nat, j: nat, a: nat, x: nat)
    requires VouchedRun(states, steps, q) && i <= j < |states| && HasNode(states[i], a)
    requires x <= states[i].nodes[a].commit
    ensures x <= |states[i].nodes[a].mem.log|
    ensures Decided(states[j].hist, states[i].nodes[a].mem.term, x, states[i].nodes[a].mem.log)
  {
    hide Inv, CommitInv, MatchedAt, Later;
    var s := states[i];
    var nd := s.nodes[a];
    RunCommit(states, steps, q, i);
    RunLater(states, steps, i, j);
    NodeCommitsOf(s, q, a);
    CommitInLog(s, q, a);
    DecidedKept(s, states[j], nd.mem.term, nd.mem.term, nd.commit, nd.mem.log, nd.mem.log);
    DecidedShorter(states[j].hist, nd.mem.term, nd.commit, nd.mem.log, x);
  }

  lemma DecidedShorter(h: History, t: nat, index: nat, log: Log, x: nat)
    requires Decided(h, t, index, log) && x <= index
    ensures Decided(h, t, x, log)
  {
    if x > 0 {
      var c :| c in h.commits && DecidedBy(h, t, index, log, c);
      assert h.logs[c.term][..x] == h.logs[c.term][..index][..x];
      assert DecidedBy(h, t, x, log, c);
    }
  }

  lemma CommitInLog(s: State, q: int, n: nat)
    requires CommitInv(s, q) && HasNode(s, n)
    ensures s.nodes[n].commit <= |s.nodes[n].mem.log|
  {
    hide MatchedAt, Commits, WinSizes, Announced;
    var nd := s.nodes[n];
    assert Decided(s.hist, nd.mem.term, nd.commit, nd.mem.log);
    if nd.commit > 0 {
      var c :| c in s.hist.commits && DecidedBy(s.hist, nd.mem.term, nd.commit, nd.mem.log, c);
    }
  }

  /** Two decisions of one state agree. */
  lemma DecisionsAgree(s: State, q: int, t: nat, t': nat, x: nat, log: Log, log': Log)
    requires Core(s) && Commits(s, q) && WinSizes(s, q)
    requires Decided(s.hist, t, x, log) && Decided(s.hist, t', x, log') && x <= |log| && x <= |log'|
    ensures log[..x] == log'[..x]
  {
    hide Core, Commits, WinSizes;
    if x > 0 {
      var c :| c in s.hist.commits && DecidedBy(s.hist, t, x, log, c);
      var d :| d in s.hist.commits && DecidedBy(s.hist, t', x, log', d);
      if c.term <= d.term {
        CommittedIn(s, q, c, d.term);
        PrefixesAgree(s.hist.logs[c.term], c.index, s.hist.logs[d.term], x);
      } else {
        CommittedIn(s, q, d, c.term);
        PrefixesAgree(s.hist.logs[d.term], d.index, s.hist.logs[c.term], x);
      }
    }
  }

  lemma PrefixesAgree(a: Log, ai: nat, b: Log, x: nat)
    requires ai <= |a| && a[..ai] <= b && x <= ai && x <= |b|
    ensures a[..x] == b[..x]
  {
    assert a[..x] == a[..ai][..x];
  }

  /**
    State machine safety: whatever two nodes treat as committed, at any two
    moments of a run, they hold the same entries up to the lower commit index.
   */
  lemma StateMachineSafety(states: seq<State>, steps: seq<Step>, q: int, i: nat, j: nat, a: nat, b: nat, x: nat)
    requires VouchedRun(states, steps, q) && i <= j < |states| && HasNode(states[i], a) && HasNode(states[j], b)
    requires x <= states[i].nodes[a].commit && x <= states[j].nodes[b].commit
    ensures x <= |states[i].nodes[a].mem.log| && x <= |states[j].nodes[b].mem.log|
    ensures states[i].nodes[a].mem.log[..x] == states[j].nodes[b].mem.log[..x]
  {
    hide Core, Roles, CommitInv, Decided;
    DecidedLater(states, steps, q, i, j, a, x);
    DecidedLater(states, steps, q, j, j, b, x);
    RunCommit(states, steps, q, j);
    CommitParts(states[j], q);
    DecisionsAgree(states[j], q, states[i].nodes[a].mem.term, states[j].nodes[b].mem.term, x,
                   states[i].nodes[a].mem.log, states[j].nodes[b].mem.log);
  }

  lemma CommitParts(s: State, q: int)
    requires CommitInv(s, q)
    ensures Commits(s, q) && WinSizes(s, q)
  {
    hide Commits, WinSizes, Matched, Decisions, Announced;
  }

  /** Leader completeness over a run: a leader of the same or a later term holds what a node committed before. */
  lemma LeadersHoldCommitted(states: seq<State>, steps: seq<Step>, q: int, i: nat, j: nat, a: nat, b: nat, t: nat)
    requires VouchedRun(states, steps, q) && i <= j < |states| && HasNode(states[i], a)
    requires Leads(states[j], b, t) && states[i].nodes[a].mem.term <= t
    ensures var nd := states[i].nodes[a];
      nd.commit <= |nd.mem.log| && nd.mem.log[..nd.commit] <= states[j].nodes[b].mem.log
  {
    hide Core, Roles, CommitInv, Decided;
    var nd := states[i].nodes[a];
    DecidedLater(states, steps, q, i, j, a, nd.commit);
    RunCommit(states, steps, q, j);
    CommitParts(states[j], q);
    LeaderLog(states[j], b);
    DecidedAtTerm(states[j].hist, nd.mem.term, t, nd.commit, nd.mem.log);
    DecidedInLeader(states[j], q, t, nd.commit, nd.mem.log);
  }

  lemma DecidedAtTerm(h: History, t: nat, t': nat, index: nat, log: Log)
    requires Decided(h, t, index, log) && t <= t'
    ensures Decided(h, t', index, log)
  {
    if index > 0 {
      var c :| c in h.commits && DecidedBy(h, t, index, log, c);
      assert DecidedBy(h, t', index, log, c);
    }
  }

  // ---- Reads --------------------------------------------------------------

  /** A leader's commit index covers every index it has counted in its term. */
  ghost predicate OwnCommitsAt(s: State, n: nat)
    requires HasNode(s, n)
  {
    s.nodes[n].role == Leader ==>
      forall c :: c in s.hist.commits && c.term == s.nodes[n].mem.term ==> c.index <= s.nodes[n].commit
  }

  ghost predicate OwnCommits(s: State) {
    forall n :: 0 <= n < |s.nodes| ==> OwnCommitsAt(s, n)
  }

  /** The node led the same term before and has not lost commits, or has just won its term. */
  predicate StillLeads(s: State, s': State, v: nat)
    requires HasNode(s, v) && HasNode(s', v)
  {
    && s.nodes[v].role == Leader && s.nodes[v].mem.term == s'.nodes[v].mem.term
    && s.nodes[v].commit <= s'.nodes[v].commit
  }

  lemma OwnCommitsKept(s: State, s': State)
    requires OwnCommits(s) && |s'.nodes| == |s.nodes| && s'.hist.commits == s.hist.commits
    requires forall v :: 0 <= v < |s.nodes| && s'.nodes[v].role == Leader ==>
      StillLeads(s, s', v) || (forall c :: c in s.hist.commits ==> c.term != s'.nodes[v].mem.term)
    ensures OwnCommits(s')
  {
    forall v | 0 <= v < |s'.nodes| ensures OwnCommitsAt(s', v) {
      assert OwnCommitsAt(s, v);
    }
  }

  lemma WinIsNew(s: State, q: int, n: nat)
    requires Inv(s) && Commits(s, q) && Winning(s, n)
    ensures forall c :: c in s.hist.commits ==> c.term != s.nodes[n].mem.term
  {
    assert RolesAt(s, n);
    TermIsFree(s, n);
    hide Inv;
    forall c | c in s.hist.commits ensures c.term != s.nodes[n].mem.term {
      assert CommitOk(s, q, c);
    }
  }

  lemma VoteOwn(s: State, q: int, n: nat, m: Msg)
    requires Inv(s) && Commits(s, q) && OwnCommits(s) && Enabled(s, RecvVote(n, m))
    ensures OwnCommits(VoteReceived(s, n, m))
  {
    hide Inv, Commits;
    var nd := s.nodes[n];
    if m.term == nd.mem.term && nd.role == Candidate && m.granted {
      BallotCounted(s, n, m);
      var s1 := Put(s, n, nd.(votes := nd.votes[m.from := m.log]));
      if ElectionWon(s1.nodes[n], n, |s.nodes|) {
        CommitsPut(s, q, n, s1.nodes[n]);
        WinIsNew(s1, q, n);
      }
    }
    OwnCommitsKept(s, VoteReceived(s, n, m));
  }

  lemma CommitsPut(s: State, q: int, n: nat, nd': Node)
    requires Commits(s, q) && HasNode(s, n)
    ensures Commits(Put(s, n, nd'), q)
  {
    SameHistoryLater(s, Put(s, n, nd'));
    CommitSteps.CommitsFrame(s, Put(s, n, nd'), q);
  }

  lemma CompleteOwn(s: State, q: int, n: nat)
    requires Inv(s) && Commits(s, q) && OwnCommits(s) && Enabled(s, Complete(n))
    ensures OwnCommits(Completed(s, n))
  {
    hide Inv, Commits;
    var nd := s.nodes[n].(completed := s.nodes[n].completed + 1);
    if CampaignDue(nd) && |s.nodes| == 1 {
      var s1 := CoreSteps.Progressed(s, n);
      ProgressInv(s, n);
      CampaignBacked(s, n);
      SameHistoryLater(s, s1);
      CommitSteps.CommitsFrame(s, s1, q);
      WinIsNew(s1, q, n);
    }
    OwnCommitsKept(s, Completed(s, n));
  }

  lemma AdvanceOwn(s: State, n: nat, index: nat)
    requires Inv(s) && OwnCommits(s) && Enabled(s, AdvanceCommit(n, index))
    ensures OwnCommits(Committed(s, n, index))
  {
    hide Core;
    var s' := Committed(s, n, index);
    assert RolesAt(s, n);
    forall v | 0 <= v < |s'.nodes| ensures OwnCommitsAt(s', v) {
      assert OwnCommitsAt(s, v) && RolesAt(s, v);
    }
  }

  lemma StepOwn(s: State, q: int, a: Step)
    requires Inv(s) && Commits(s, q) && OwnCommits(s) && Enabled(s, a)
    ensures OwnCommits(Do(s, a))
  {
    hide Inv, Commits, OwnCommits;
    if a.RecvVote? {
      VoteOwn(s, q, a.n, a.m);
    } else if a.Complete? {
      CompleteOwn(s, q, a.n);
    } else if a.AdvanceCommit? {
      AdvanceOwn(s, a.n, a.index);
    } else {
      OwnCommitsKept(s, Do(s, a));
    }
  }

  lemma {:induction false} RunOwn(states: seq<State>, steps: seq<Step>, q: int, i: nat)
    requires VouchedRun(states, steps, q) && i < |states|
    ensures OwnCommits(states[i])
  {
    hide Inv, CommitInv, OwnCommits, Shares, Vouched, Commits, WinSizes;
    if i == 0 {
      InitOwn(states[0]);
    } else {
      RunOwn(states, steps, q, i - 1);
      RunCommit(states, steps, q, i - 1);
      CommitParts(states[i - 1], q);
      assert Enabled(states[i - 1], steps[i - 1]) && states[i] == Do(states[i - 1], steps[i - 1]);
      StepOwn(states[i - 1], q, steps[i - 1]);
    }
  }

  lemma InitOwn(s: State)
    requires Init(s)
    ensures OwnCommits(s)
  {
  }

  /** An older term's commit lies below the leader's own first entry. */
  lemma OlderCommitBelow(s: State, q: int, n: nat, c: Protocol.Commit)
    requires Inv(s) && Commits(s, q) && WinSizes(s, q) && c in s.hist.commits
    requires HasNode(s, n) && s.nodes[n].role == Leader && c.term < s.nodes[n].mem.term
    ensures c.index < s.nodes[n].termStart
  {
    hide Inv, Commits, WinSizes;
    var t := s.nodes[n].mem.term;
    LeaderTerms(s, n);
    CommitTerm(s, q, c);
    CoreOf(s);
    CommittedIn(s, q, c, t);
    var p := s.hist.logs[c.term][..c.index];
    assert p[c.index - 1] == s.hist.logs[t][c.index - 1];
  }

  lemma CoreOf(s: State)
    requires Inv(s)
    ensures Core(s)
  {
  }

  lemma CommitTerm(s: State, q: int, c: Protocol.Commit)
    requires Commits(s, q) && c in s.hist.commits
    ensures c.term in s.hist.logs && 0 < c.index <= |s.hist.logs[c.term]| && s.hist.logs[c.term][c.index - 1].term == c.term
  {
    assert CommitOk(s, q, c);
  }

  /** A leader's log is the history's, and holds its own term from the term start on. */
  lemma LeaderTerms(s: State, n: nat)
    requires Inv(s) && HasNode(s, n) && s.nodes[n].role == Leader
    ensures var t := s.nodes[n].mem.term;
      && t in s.hist.logs && s.nodes[n].termStart > 0
      && forall i :: s.nodes[n].termStart <= i + 1 <= |s.hist.logs[t]| ==> s.hist.logs[t][i].term == t
  {
    hide Disks;
    var t := s.nodes[n].mem.term;
    assert RolesAt(s, n);
    assert WinOk(s, t, s.hist.wins[t]);
  }

  /**
    A later term's commit cannot exist while a commit quorum is still at this
    term: every election quorum of that term contains one of those voters.
   */
  lemma NoLaterCommit(s: State, q: int, t: nat, quorum: set<nat>, c: Protocol.Commit) returns (v: nat)
    requires Wins(s) && WinSizes(s, q) && c.term in s.hist.logs && |s.nodes| > 0
    requires quorum <= Voters(|s.nodes|) && |quorum| >= CommitQuorumFor(q, |s.nodes|)
    ensures v in quorum && c.term in s.hist.wins && v in s.hist.wins[c.term].ballots
  {
    var w := s.hist.wins[c.term];
    forall p | p in w.ballots ensures p in Voters(|s.nodes|) { assert WinBallotOk(s, c.term, w, p); }
    assert |w.ballots.Keys| == |w.ballots|;
    v := Overlap(w.ballots.Keys, quorum, |s.nodes|);
  }

  /** A voter that elected the leader of a term is at that term or past it at every later moment. */
  lemma VoterStays(states: seq<State>, steps: seq<Step>, i: nat, k: nat, v: nat, t: nat)
    requires Run(states, steps) && i <= k < |states|
    requires t in states[i].hist.wins && v in states[i].hist.wins[t].ballots
    ensures HasNode(states[k], v) && states[k].nodes[v].mem.term >= t
  {
    hide Core, Roles;
    RunInv(states, steps, k);
    RunLater(states, steps, i, k);
    VoterReached(states[k], t, v);
  }

  /**
    Read safety: a leader that has committed an entry of its own term, and
    whose term a commit quorum is still at, at moments after it captured its
    commit index, has captured an index no node's commit index was above.
   */
  lemma ReadSafety(states: seq<State>, steps: seq<Step>, q: int, i: nat, n: nat, t: nat,
                   quorum: set<nat>, seen: nat -> nat, p: nat)
    requires VouchedRun(states, steps, q) && i < |states| && Leads(states[i], n, t)
    requires 0 < states[i].nodes[n].termStart <= states[i].nodes[n].commit
    requires quorum <= Voters(|states[i].nodes|) && |quorum| >= CommitQuorumFor(q, |states[i].nodes|)
    requires forall v :: v in quorum ==>
      i <= seen(v) < |states| && v < |states[seen(v)].nodes| && states[seen(v)].nodes[v].mem.term == t
    requires HasNode(states[i], p)
    ensures states[i].nodes[p].commit <= states[i].nodes[n].commit
  {
    hide Core, Roles, CommitInv, OwnCommits;
    var s := states[i];
    RunCommit(states, steps, q, i);
    CommitParts(s, q);
    RunOwn(states, steps, q, i);
    if s.nodes[p].commit > 0 {
      var c := DecisionOf(s, q, p);
      if c.term < t {
        OlderCommitBelow(s, q, n, c);
      } else if c.term == t {
        OwnCommitOf(s, n, c);
      } else {
        WinsOf(s);
        var v := NoLaterCommit(s, q, t, quorum, c);
        VoterStays(states, steps, i, seen(v), v, c.term);
      }
    }
  }

  lemma WinsOf(s: State)
    requires Core(s)
    ensures Wins(s) && |s.nodes| > 0
  {
    hide Images, Sent, Pending, NodeShape, Wins;
  }

  lemma OwnCommitOf(s: State, n: nat, c: Protocol.Commit)
    requires OwnCommits(s) && HasNode(s, n) && s.nodes[n].role == Leader
    requires c in s.hist.commits && c.term == s.nodes[n].mem.term
    ensures c.index <= s.nodes[n].commit
  {
    assert OwnCommitsAt(s, n);
  }

  lemma DecisionOf(s: State, q: int, p: nat) returns (c: Protocol.Commit)
    requires CommitInv(s, q) && HasNode(s, p) && s.nodes[p].commit > 0
    ensures c in s.hist.commits && s.nodes[p].commit <= c.index && c.term in s.hist.logs
  {
    hide MatchedAt, Commits, WinSizes, Announced;
    var nd := s.nodes[p];
    assert Decided(s.hist, nd.mem.term, nd.commit, nd.mem.log);
    c :| c in s.hist.commits && DecidedBy(s.hist, nd.mem.term, nd.commit, nd.mem.log, c);
  }
}
