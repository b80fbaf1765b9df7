/**
  Any two logs of a run are ones fast backup is right for: real terms that
  never decrease, and matching in the strong form.
 */
module BackupInRuns {

  import opened Quorum
  import opened Protocol
  import opened Invariant
  import opened Facts
  import Safety
  import FastBackup

  function TermsOf(log: Log): FastBackup.Terms {
    seq(|log|, i requires 0 <= i < |log| => log[i].term)
  }

  predicate RealTerm(nd: Node) {
    nd.role == Follower || nd.mem.term > 0
  }

  /** Only candidates and leaders of real terms ever add to the leaders' logs. */
  predicate RealTerms(s: State) {
    0 !in s.hist.logs && forall n :: 0 <= n < |s.nodes| ==> RealTerm(s.nodes[n])
  }

  lemma RealPut(s: State, s': State, n: nat, nd: Node)
    requires RealTerms(s) && HasNode(s, n) && RealTerm(nd) && s'.nodes == s.nodes[n := nd] && 0 !in s'.hist.logs
    ensures RealTerms(s')
  {
  }

  lemma RealElected(s: State, n: nat)
    requires RealTerms(s) && HasNode(s, n) && s.nodes[n].role == Candidate
    ensures RealTerms(Elected(s, n))
  {
    assert RealTerm(s.nodes[n]);
    var s' := Elected(s, n);
    RealPut(s, s', n, s'.nodes[n]);
  }

  lemma RealVote(s: State, n: nat, m: Msg)
    requires RealTerms(s) && Enabled(s, RecvVote(n, m))
    ensures RealTerms(VoteReceived(s, n, m))
  {
    hide RealTerms, Elected, ElectionWon;
    var nd := s.nodes[n];
    assert RealTerm(nd) by { RealNode(s, n); }
    if m.term > nd.mem.term {
      RealPut(s, VoteReceived(s, n, m), n, BecomeFollower(nd, m.term)) by { RealNode(s, n); }
    } else if nd.role == Candidate && m.term == nd.mem.term && m.granted {
      var nd1 := nd.(votes := nd.votes[m.from := m.log]);
      RealPut(s, Put(s, n, nd1), n, nd1) by { RealNode(s, n); }
      if ElectionWon(nd1, n, |s.nodes|) { RealElected(Put(s, n, nd1), n); }
    }
  }

  lemma RealNode(s: State, n: nat)
    requires RealTerms(s) && HasNode(s, n)
    ensures RealTerm(s.nodes[n]) && 0 !in s.hist.logs
  {
  }

  lemma RealComplete(s: State, n: nat)
    requires RealTerms(s) && Enabled(s, Complete(n))
    ensures RealTerms(Completed(s, n))
  {
    hide RealTerms, Elected, CampaignDue, Released, Kept;
    RealNode(s, n);
    var nd := s.nodes[n].(completed := s.nodes[n].completed + 1);
    var nd1 := nd.(held := Kept(nd));
    var s1 := Put(s, n, nd1).(net := s.net + Released(nd));
    RealPut(s, s1, n, nd1);
    if CampaignDue(nd) {
      assert nd.role == Candidate by { Due(nd); }
      if |s.nodes| == 1 { RealElected(s1, n); } else { RealPut(s1, Completed(s, n), n, nd1); }
    }
  }

  lemma Due(nd: Node)
    requires CampaignDue(nd)
    ensures nd.role == Candidate
  {
  }

  lemma RealTermsStep(s: State, a: Step)
    requires RealTerms(s) && Enabled(s, a)
    ensures RealTerms(Do(s, a))
  {
    hide RealTerms, GateOk, Counted, QuorumNeeded;
    RealNode(s, a.n);
    match a
    case RecvVote(n, m) => RealVote(s, n, m);
    case Complete(n) => RealComplete(s, n);
    case _ => RealPut(s, Do(s, a), a.n, Do(s, a).nodes[a.n]);
  }

  lemma {:induction false} RunRealTerms(states: seq<State>, steps: seq<Step>, i: nat)
    requires Run(states, steps) && i < |states|
    ensures RealTerms(states[i])
  {
    hide RealTerms;
    if i == 0 {
      assert RealTerms(states[0]) by { InitRealTerms(states[0]); }
    } else {
      RunRealTerms(states, steps, i - 1);
      assert Enabled(states[i - 1], steps[i - 1]);
      RealTermsStep(states[i - 1], steps[i - 1]);
    }
  }

  lemma InitRealTerms(s: State)
    requires Init(s)
    ensures RealTerms(s)
  {
    forall n | 0 <= n < |s.nodes| ensures RealTerm(s.nodes[n]) {
      assert s.nodes[n].(applied := 0, latest := 0) == Blank;
    }
  }

  lemma ProperLog(ll: map<nat, Log>, log: Log)
    requires LogOk(ll, log) && LeaderLogsOk(ll) && 0 !in ll
    ensures FastBackup.Proper(TermsOf(log))
  {
    LogOkSorted(ll, log);
  }

  lemma MatchingLogs(ll: map<nat, Log>, a: Log, b: Log)
    requires LogOk(ll, a) && LogOk(ll, b)
    ensures FastBackup.Matching(TermsOf(a), TermsOf(b))
  {
    hide LogOk;
    var ta, tb := TermsOf(a), TermsOf(b);
    forall i, j | 1 <= i <= |ta| && 1 <= j <= |tb| && FastBackup.TermAt(ta, i) == FastBackup.TermAt(tb, j)
      ensures FastBackup.AgreeUpTo(ta, tb, if i < j then i else j)
    {
      if i <= j {
        LogsMatch(ll, a, b, i - 1, j - 1);
        SameTerms(a, b, i);
      } else {
        LogsMatch(ll, b, a, j - 1, i - 1);
        SameTerms(a, b, j);
      }
    }
  }

  lemma SameTerms(a: Log, b: Log, n: nat)
    requires n <= |a| && n <= |b| && a[..n] == b[..n]
    ensures FastBackup.AgreeUpTo(TermsOf(a), TermsOf(b), n)
  {
    forall i | 1 <= i <= n ensures FastBackup.TermAt(TermsOf(a), i) == FastBackup.TermAt(TermsOf(b), i) {
      assert a[i - 1] == a[..n][i - 1] == b[..n][i - 1] == b[i - 1];
    }
  }

  /** In every state of every run, a leader probing a follower meets at most one rejection per diverging stretch, plus one. */
  lemma {:induction false} BackupBound(states: seq<State>, steps: seq<Step>, i: nat, a: nat, b: nat, next: nat, match_: nat, c: nat)
    requires Run(states, steps) && i < |states| && HasNode(states[i], a) && HasNode(states[i], b)
    requires var leader, follower := TermsOf(states[i].nodes[a].mem.log), TermsOf(states[i].nodes[b].mem.log);
      FastBackup.Common(leader, follower, c) && 1 <= next <= |leader| + 1 && match_ <= c
    ensures var leader, follower := TermsOf(states[i].nodes[a].mem.log), TermsOf(states[i].nodes[b].mem.log);
      && FastBackup.Proper(leader) && FastBackup.Proper(follower) && FastBackup.Matching(leader, follower)
      && FastBackup.Rejections(leader, follower, next, match_, c) <= FastBackup.Runs(follower, c, |follower|) + 1
  {
    hide Inv, RealTerms, LogOk, FastBackup.Proper, FastBackup.Matching, FastBackup.Common, TermsOf;
    Safety.RunInv(states, steps, i);
    RunRealTerms(states, steps, i);
    LogsOk(states[i], a);
    LogsOk(states[i], b);
    var la, lb := states[i].nodes[a].mem.log, states[i].nodes[b].mem.log;
    MatchingLogs(states[i].hist.logs, la, lb);
    FastBackup.RejectionBound(TermsOf(la), TermsOf(lb), next, match_, c);
  }

  lemma LogsOk(s: State, n: nat)
    requires Inv(s) && RealTerms(s) && HasNode(s, n)
    ensures LogOk(s.hist.logs, s.nodes[n].mem.log) && FastBackup.Proper(TermsOf(s.nodes[n].mem.log))
  {
    hide Records, Roles, Sent, Pending, LogOk, FastBackup.Proper;
    MemImage(s, n);
    ProperLog(s.hist.logs, s.nodes[n].mem.log);
  }
}
