/**
  Theorems about every run of the protocol, under arbitrary and changing
  quorum policies: one leader per term, log matching for everything a node has
  in memory or a crash could leave on disk, and promises that survive crashes.
 */
module Safety {
  import opened Wrappers
  import opened Quorum
  import opened Protocol
  import opened Invariant
  import opened Facts
  import opened Growth
  import opened ReplicationSteps

  // ---- Runs ---------------------------------------------------------------

  lemma {:induction false} RunInv(states: seq<State>, steps: seq<Step>, i: nat)
    requires Run(states, steps) && i < |states|
    ensures Inv(states[i])
  {
    hide Inv, Enabled, Do, Init;
    if i == 0 {
      InitInv(states[0]);
    } else {
      RunInv(states, steps, i - 1);
      assert Enabled(states[i - 1], steps[i - 1]);
      StepInv(states[i - 1], steps[i - 1]);
    }
  }

  /** History is only ever added to. */
  ghost predicate Later(s: State, s': State) {
    && |s'.nodes| == |s.nodes|
    && s.net <= s'.net
    && Grows(s.hist.logs, s'.hist.logs)
    && (forall t :: t in s.hist.wins ==> t in s'.hist.wins && s'.hist.wins[t] == s.hist.wins[t])
    && s.hist.commits <= s'.hist.commits
  }

  lemma GrowsTransitive(a: map<nat, Log>, b: map<nat, Log>, c: map<nat, Log>)
    requires Grows(a, b) && Grows(b, c)
    ensures Grows(a, c)
  {
    forall t | t in a
      ensures t in c && a[t] <= c[t] && forall i :: |a[t]| <= i < |c[t]| ==> c[t][i].term == t
    {
      assert a[t] <= b[t] && b[t] <= c[t];
      forall i | |a[t]| <= i < |c[t]| ensures c[t][i].term == t {
        if i < |b[t]| { assert c[t][i] == b[t][i]; }
      }
    }
  }

  lemma ElectedLater(s: State, n: nat)
    requires HasNode(s, n) && s.nodes[n].mem.term !in s.hist.logs && s.nodes[n].mem.term !in s.hist.wins
    ensures Later(s, Elected(s, n))
  {
  }

  lemma SameHistoryLater(s: State, s': State)
    requires |s'.nodes| == |s.nodes| && s.net <= s'.net
    requires s'.hist.logs == s.hist.logs && s'.hist.wins == s.hist.wins && s.hist.commits <= s'.hist.commits
    ensures Later(s, s')
  {
  }

  lemma StepLater(s: State, a: Step)
    requires Inv(s) && Enabled(s, a)
    ensures Later(s, Do(s, a))
  {
    hide Inv, Later, OnAppend, OnAskVote, VoteReceived, Completed, Counted, GateOk, Stood, QuorumNeeded;
    if a.RecvVote? {
      VoteLater(s, a.n, a.m);
    } else if a.Complete? {
      CompleteLater(s, a.n);
    } else if a.Propose? {
      ProposeLater(s, a.n, a.cmds);
    } else {
      SameHistoryLater(s, Do(s, a));
    }
  }

  lemma ProposeLater(s: State, n: nat, cmds: seq<Command>)
    requires Inv(s) && Enabled(s, Propose(n, cmds))
    ensures Later(s, Do(s, Propose(n, cmds)))
  {
    hide Inv;
    LeaderLog(s, n);
    var es := Proposed(s.nodes[n], cmds);
    assert Grows(s.hist.logs, s.hist.logs[s.nodes[n].mem.term := s.nodes[n].mem.log + es]);
  }

  lemma VoteLater(s: State, n: nat, m: Msg)
    requires Inv(s) && Enabled(s, RecvVote(n, m))
    ensures Later(s, VoteReceived(s, n, m))
  {
    hide Core, Roles, Later, UpToDate, QuorumNeeded;
    var nd := s.nodes[n];
    if m.term <= nd.mem.term && !(nd.role != Candidate || m.term < nd.mem.term || !m.granted) {
      var s1 := Put(s, n, nd.(votes := nd.votes[m.from := m.log]));
      if ElectionWon(s1.nodes[n], n, |s.nodes|) {
        ElectionSteps.BallotCounted(s, n, m);
        WinLater(s1, n);
        assert Later(s, VoteReceived(s, n, m)) by { SameBefore(s, s1, VoteReceived(s, n, m)); }
        return;
      }
    }
    SameHistoryLater(s, VoteReceived(s, n, m));
  }

  lemma SameBefore(s: State, s1: State, s': State)
    requires |s1.nodes| == |s.nodes| && s1.net == s.net && s1.hist == s.hist && Later(s1, s')
    ensures Later(s, s')
  {
  }

  lemma WinLater(s: State, n: nat)
    requires Inv(s) && ElectionSteps.Winning(s, n)
    ensures Later(s, Elected(s, n))
  {
    assert RolesAt(s, n);
    ElectionSteps.TermIsFree(s, n);
    assert s.hist.wins.Keys == s.hist.logs.Keys;
    hide Core, Roles;
    ElectedLater(s, n);
  }

  lemma CompleteLater(s: State, n: nat)
    requires Inv(s) && Enabled(s, Complete(n))
    ensures Later(s, Completed(s, n))
  {
    hide Core, Roles;
    var nd := s.nodes[n].(completed := s.nodes[n].completed + 1);
    if CampaignDue(nd) && |s.nodes| == 1 {
      ElectionSteps.ProgressInv(s, n);
      ElectionSteps.CampaignBacked(s, n);
      WinLater(CoreSteps.Progressed(s, n), n);
    }
  }

  lemma {:induction false} RunLater(states: seq<State>, steps: seq<Step>, i: nat, j: nat)
    requires Run(states, steps) && i <= j < |states|
    ensures Later(states[i], states[j])
    decreases j - i
  {
    hide Inv, Grows, Enabled, Do, Init;
    if i == j {
      SameHistoryLater(states[i], states[j]);
    } else {
      RunLater(states, steps, i, j - 1);
      RunInv(states, steps, j - 1);
      assert Enabled(states[j - 1], steps[j - 1]);
      StepLater(states[j - 1], steps[j - 1]);
      GrowsTransitive(states[i].hist.logs, states[j - 1].hist.logs, states[j].hist.logs);
    }
  }

  // ---- Theorems -----------------------------------------------------------

  predicate Leads(s: State, n: nat, t: nat) {
    HasNode(s, n) && s.nodes[n].role == Leader && s.nodes[n].mem.term == t
  }

  /** At most one node ever leads in a term, at any two moments of a run, whatever the quorum policies. */
  lemma ElectionSafety(states: seq<State>, steps: seq<Step>, i: nat, j: nat, a: nat, b: nat, t: nat)
    requires Run(states, steps) && i <= j < |states|
    requires Leads(states[i], a, t) && Leads(states[j], b, t)
    ensures a == b
  {
    RunInv(states, steps, i);
    RunInv(states, steps, j);
    RunLater(states, steps, i, j);
    hide Core;
    assert RolesAt(states[i], a) && RolesAt(states[j], b);
  }

  /** A log a node has in memory, or would find on its disk if it crashed after `k` more writes landed. */
  ghost predicate LogOf(s: State, n: nat, log: Log) {
    HasNode(s, n) && exists k :: 0 <= k <= |s.nodes[n].queue| && log == Image(s.nodes[n], k).log
  }

  /**
    Log matching, across nodes, across time and across memory and disk: the
    same term at two indices makes two logs equal up to the lower index.
   */
  lemma LogMatching(states: seq<State>, steps: seq<Step>, i: nat, j: nat,
                    a: nat, b: nat, log: Log, log': Log, x: nat, y: nat)
    requires Run(states, steps) && i <= j < |states|
    requires LogOf(states[i], a, log) && LogOf(states[j], b, log')
    requires x < |log| && y < |log'| && log[x].term == log'[y].term
    ensures var z := if x < y then x else y; log[..z + 1] == log'[..z + 1]
  {
    hide Inv, LogOf, LogOk;
    RunInv(states, steps, i);
    RunInv(states, steps, j);
    RunLater(states, steps, i, j);
    var ll := states[j].hist.logs;
    LogOfOk(states[i], a, log);
    LogOfOk(states[j], b, log');
    LogOkGrows(states[i].hist.logs, ll, log);
    if x <= y { LogsMatch(ll, log, log', x, y); } else { LogsMatch(ll, log', log, y, x); }
  }

  lemma LogOfOk(s: State, n: nat, log: Log)
    requires Inv(s) && LogOf(s, n, log)
    ensures LogOk(s.hist.logs, log)
  {
    hide Records, Roles, Sent, Pending, LogOk;
    var k :| 0 <= k <= |s.nodes[n].queue| && log == Image(s.nodes[n], k).log;
    assert NodeImages(s.hist.logs, s.nodes[n]);
    assert ImageOk(s.hist.logs, Image(s.nodes[n], k));
  }

  /**
    A granted vote that has been sent is on disk: whatever a crash leaves, now
    or after any of the queued writes, is past the vote's term or records it.
   */
  lemma VoteDurable(states: seq<State>, steps: seq<Step>, i: nat, b: Msg, k: nat)
    requires Run(states, steps) && i < |states| && b in states[i].net && IsBallot(b)
    requires HasNode(states[i], b.from) ==> k <= |states[i].nodes[b.from].queue|
    ensures HasNode(states[i], b.from)
    ensures var d := Image(states[i].nodes[b.from], k);
      d.term > b.term || (d.term == b.term && d.vote == Some(b.to))
  {
    RunInv(states, steps, i);
    assert SentHonoured(states[i].hist.logs, states[i].nodes[b.from], b);
  }

  /** No node ever sends votes for two candidates in one term, crashes included. */
  lemma OneVotePerTerm(states: seq<State>, steps: seq<Step>, i: nat, b: Msg, c: Msg)
    requires Run(states, steps) && i < |states| && b in states[i].net && c in states[i].net
    requires IsBallot(b) && IsBallot(c) && b.from == c.from && b.term == c.term
    ensures b.to == c.to
  {
    RunInv(states, steps, i);
    var s := states[i];
    assert HasNode(s, b.from);
    assert Said(s, b.from, b) && Said(s, b.from, c);
    assert SameBallot(b, c);
  }

  /** Nothing a node has sent carries a term a crash could take back. */
  lemma TermDurable(states: seq<State>, steps: seq<Step>, i: nat, m: Msg, k: nat)
    requires Run(states, steps) && i < |states| && m in states[i].net
    requires HasNode(states[i], m.from) ==> k <= |states[i].nodes[m.from].queue|
    ensures HasNode(states[i], m.from) && Image(states[i].nodes[m.from], k).term >= m.term
  {
    RunInv(states, steps, i);
    assert SentHonoured(states[i].hist.logs, states[i].nodes[m.from], m);
  }

  /**
    An acknowledgement that has been sent is on disk: whatever a crash leaves
    holds every entry it covers, unless the leader of a later term this node
    reached has no such entry.
   */
  lemma AckDurable(states: seq<State>, steps: seq<Step>, i: nat, m: Msg, k: nat, j: nat)
    requires Run(states, steps) && i < |states| && m in states[i].net && IsAck(m) && 0 < j <= m.last
    requires HasNode(states[i], m.from) ==> k <= |states[i].nodes[m.from].queue|
    ensures HasNode(states[i], m.from)
    ensures var ll := states[i].hist.logs; var d := Image(states[i].nodes[m.from], k);
      && m.term in ll && j <= |ll[m.term]|
      && Keeps(ll, d.log, d.term, m.term, j)
  {
    RunInv(states, steps, i);
    var nd := states[i].nodes[m.from];
    assert SentHonoured(states[i].hist.logs, nd, m);
    assert Honours(states[i].hist.logs, Image(nd, k), m);
  }
}
