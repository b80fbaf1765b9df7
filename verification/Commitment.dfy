/**
  What counting acknowledgements establishes, in runs whose nodes share a
  commit-quorum policy and whose leaders take only results of their own term:
  a later leader's log holds every committed entry.
 */
module Commitment {
  import opened Quorum
  import opened Protocol
  import opened Invariant
  import opened Facts
  import opened Growth

  /** Every node counts by policy `q`, as the applied policy or as the latest one in its log. */
  predicate Shares(s: State, q: int) {
    forall n :: 0 <= n < |s.nodes| ==> s.nodes[n].applied == q || s.nodes[n].latest == q
  }

  /** A successful result is taken by the leadership that asked for it, or by none. */
  predicate Fresh(s: State, a: Step) {
    a.RecvAppended? && a.m.Appended? && a.m.success && HasNode(s, a.n) ==> a.m.term >= s.nodes[a.n].mem.term
  }

  /**
    What a leader can take a result for: it is of the leader's own term or a
    later one, or it raises no match index, or the peer has acknowledged the
    same index in the leader's own term as well.
   */
  predicate Vouched(s: State, a: Step) {
    a.RecvAppended? && a.m.Appended? && HasNode(s, a.n) && s.nodes[a.n].role == Leader ==>
      var nd, m := s.nodes[a.n], a.m;
      || m.term >= nd.mem.term || !m.success || m.last == 0
      || (m.from in nd.matched && m.last <= nd.matched[m.from])
      || Appended(nd.mem.term, m.from, a.n, true, m.last) in s.net
  }

  ghost predicate Acked(net: set<Msg>, v: nat, t: nat, index: nat) {
    exists m :: m in net && IsAck(m) && m.from == v && m.term == t && m.last >= index
  }

  ghost predicate CommitOk(s: State, q: int, c: Protocol.Commit) {
    && c.term in s.hist.logs && 0 < c.index <= |s.hist.logs[c.term]|
    && s.hist.logs[c.term][c.index - 1].term == c.term
    && c.quorum <= Voters(|s.nodes|) && |c.quorum| >= CommitQuorumFor(q, |s.nodes|)
    && forall v :: v in c.quorum ==> Acked(s.net, v, c.term, c.index)
  }

  ghost predicate Commits(s: State, q: int) {
    forall c :: c in s.hist.commits ==> CommitOk(s, q, c)
  }

  ghost predicate WinSizes(s: State, q: int) {
    forall t :: t in s.hist.wins ==> |s.hist.wins[t].ballots| >= ElectionQuorumFor(q, |s.nodes|)
  }

  ghost predicate MatchedAt(s: State, n: nat)
    requires HasNode(s, n)
  {
    var nd := s.nodes[n];
    nd.role == Leader ==>
      forall p :: p in nd.matched ==>
        nd.matched[p] > 0 && Appended(nd.mem.term, p, n, true, nd.matched[p]) in s.net
  }

  ghost predicate Matched(s: State) {
    forall n :: 0 <= n < |s.nodes| ==> MatchedAt(s, n)
  }

  /** A result leaves a leader's match indexes acknowledged in its term exactly when it is vouched for. */
  lemma VouchedIff(s: State, n: nat, m: Msg)
    requires Enabled(s, RecvAppended(n, m)) && MatchedAt(s, n)
    ensures MatchedAt(Do(s, RecvAppended(n, m)), n) <==> Vouched(s, RecvAppended(n, m))
  {
    var nd, nd' := s.nodes[n], Do(s, RecvAppended(n, m)).nodes[n];
    if nd.role == Leader && m.term <= nd.mem.term && m.success && m.last > 0 {
      assert m.from in nd'.matched;
    }
  }

  lemma FreshIsVouched(s: State, a: Step)
    requires Fresh(s, a)
    ensures Vouched(s, a)
  {
  }

  /** Some leader of a term up to `t` counted `index` or a later index of its log as committed. */
  ghost predicate Covered(h: History, t: nat, index: nat) {
    index == 0 || exists c :: c in h.commits && c.term <= t && index <= c.index
  }

  /** `log` starts with the first `index` entries of a log some leader counted as committed that far. */
  ghost predicate Decided(h: History, t: nat, index: nat, log: Log) {
    index == 0 || exists c :: c in h.commits && DecidedBy(h, t, index, log, c)
  }

  ghost predicate DecidedBy(h: History, t: nat, index: nat, log: Log, c: Protocol.Commit) {
    && c.term in h.logs && c.term <= t && index <= c.index <= |h.logs[c.term]|
    && h.logs[c.term][..index] <= log
  }

  ghost predicate Decisions(s: State) {
    forall n :: 0 <= n < |s.nodes| ==>
      Decided(s.hist, s.nodes[n].mem.term, s.nodes[n].commit, s.nodes[n].mem.log)
  }

  ghost predicate Announced(s: State) {
    forall m :: m in s.net && m.Append? ==> Covered(s.hist, m.term, m.commit)
  }

  ghost predicate CommitInv(s: State, q: int) {
    Commits(s, q) && WinSizes(s, q) && Matched(s) && Decisions(s) && Announced(s)
  }

  // ---- Leader completeness ------------------------------------------------

  /** A voter of both quorums: it acknowledged the entry and elected the later leader. */
  lemma SharedVoter(s: State, q: int, c: Protocol.Commit, t: nat) returns (v: nat, a: Msg)
    requires Wins(s) && WinSizes(s, q) && CommitOk(s, q, c) && t in s.hist.wins && |s.nodes| > 0
    ensures v in s.hist.wins[t].ballots && HasNode(s, v)
    ensures a in s.net && IsAck(a) && a.from == v && a.term == c.term && a.last >= c.index
  {
    var w := s.hist.wins[t];
    forall p | p in w.ballots ensures p in Voters(|s.nodes|) { assert WinBallotOk(s, t, w, p); }
    assert |w.ballots.Keys| == |w.ballots|;
    v := Overlap(w.ballots.Keys, c.quorum, |s.nodes|);
    assert Acked(s.net, v, c.term, c.index);
    a :| a in s.net && IsAck(a) && a.from == v && a.term == c.term && a.last >= c.index;
  }

  /** A log that lets a vote through for `start` hands its committed prefix on to `start`'s leader. */
  lemma UpToDateSame(ll: map<nat, Log>, start: Log, log: Log, p: Log)
    requires LogOk(ll, start) && LogOk(ll, log) && p <= log && p != []
    requires UpToDate(LastTerm(start), |start|, log) && LastTerm(start) == LastTerm(log)
    ensures p <= start
  {
    LogsMatch(ll, log, start, |log| - 1, |start| - 1);
    assert log[..|log|] == log;
    assert log <= start;
  }

  lemma LongerLeader(ll: map<nat, Log>, start: Log, t: nat, p: Log)
    requires LeaderLogsOk(ll) && LogOk(ll, start) && start != [] && TermsUpTo(p, t) && t < LastTerm(start)
    requires LastTerm(start) in ll && p <= ll[LastTerm(start)]
    ensures p <= start
  {
    var top := ll[LastTerm(start)];
    assert start[..|start|] == start;
    assert start <= top;
    assert top[|start| - 1] == start[|start| - 1];
    assert top[..|p|] == p && top[..|start|] == start;
  }

  lemma LastAtLeast(log: Log, i: nat)
    requires Sorted(log) && 0 < i <= |log|
    ensures LastTerm(log) >= log[i - 1].term
  {
  }

  /** The facts about a win that leader completeness needs. */
  lemma WinFacts(s: State, t: nat, v: nat)
    requires Core(s) && t in s.hist.wins && v in s.hist.wins[t].ballots
    ensures t in s.hist.logs
    ensures var w := s.hist.wins[t];
      && LogOk(s.hist.logs, w.start) && LogOk(s.hist.logs, w.ballots[v])
      && w.start <= s.hist.logs[t] && TermsBelow(w.start, t)
      && UpToDate(LastTerm(w.start), |w.start|, w.ballots[v])
  {
    var w := s.hist.wins[t];
    assert WinOk(s, t, w) && WinBallotOk(s, t, w, v);
    var b := Vote(t, v, w.leader, true, w.ballots[v]);
    assert Said(s, v, b);
    assert BallotOk(s.hist.logs, s.net, b);
    LogOkPrefix(s.hist.logs, s.hist.logs[t], |w.start|);
    assert s.hist.logs[t][..|w.start|] == w.start;
  }

  lemma KeptByWinner(s: State, t: nat, v: nat, a: Msg, i: nat)
    requires Core(s) && t in s.hist.wins && v in s.hist.wins[t].ballots && HasNode(s, v)
    requires a in s.net && IsAck(a) && a.from == v && a.term < t && 0 < i <= a.last
    ensures a.term in s.hist.logs && a.last <= |s.hist.logs[a.term]|
    ensures var u: int := t - 1; Keeps(s.hist.logs, s.hist.wins[t].ballots[v], u, a.term, i)
  {
    hide Images, Shape, Pending, Ballots, OneBallot, BallotsAfterAcks, Wins, Asks, Slices;
    assert Said(s, v, a);
    SaidInRange(s, v, a);
    assert WinnerAfterAck(s.hist.logs, t, s.hist.wins[t].ballots[v], a);
  }

  /** Leader completeness: every later leader's log starts with what was committed. */
  lemma {:induction false} LeaderCompleteness(s: State, q: int, c: Protocol.Commit, t: nat)
    requires Core(s) && WinSizes(s, q) && CommitOk(s, q, c)
    requires t in s.hist.logs && c.term < t
    ensures s.hist.logs[c.term][..c.index] <= s.hist.logs[t]
    decreases t
  {
    var ll := s.hist.logs;
    var p := ll[c.term][..c.index];
    var v, a := CommonVoter(s, q, c, t);
    KeptByWinner(s, t, v, a, c.index);
    WinFacts(s, t, v);
    var w := s.hist.wins[t];
    if !(p <= w.ballots[v]) {
      var u :| u in ll && c.term < u <= t - 1 && Lacks(ll, u, c.term, c.index);
      LeaderCompleteness(s, q, c, u);
    } else {
      CommittedTerms(s, q, c);
      BallotTerm(ll, w.ballots[v], c.term, p);
      if LastTerm(w.start) == LastTerm(w.ballots[v]) {
        UpToDateSame(ll, w.start, w.ballots[v], p);
      } else {
        StartTerm(ll, w.start, t);
        LeaderCompleteness(s, q, c, LastTerm(w.start));
        LongerLeader(ll, w.start, c.term, p);
      }
    }
  }

  lemma CommonVoter(s: State, q: int, c: Protocol.Commit, t: nat) returns (v: nat, a: Msg)
    requires Core(s) && WinSizes(s, q) && CommitOk(s, q, c) && t in s.hist.logs
    ensures t in s.hist.wins && v in s.hist.wins[t].ballots && HasNode(s, v)
    ensures a in s.net && IsAck(a) && a.from == v && a.term == c.term && a.last >= c.index
  {
    hide Images, Sent, Pending, CommitOk, WinSizes;
    v, a := SharedVoter(s, q, c, t);
  }

  lemma CommittedTerms(s: State, q: int, c: Protocol.Commit)
    requires Core(s) && CommitOk(s, q, c)
    ensures LeaderLogsOk(s.hist.logs) && TermsUpTo(s.hist.logs[c.term][..c.index], c.term)
  {
  }

  lemma BallotTerm(ll: map<nat, Log>, log: Log, t: nat, p: Log)
    requires LeaderLogsOk(ll) && LogOk(ll, log) && p <= log && p != [] && p[|p| - 1].term == t
    ensures LastTerm(log) >= t
  {
    LogOkSorted(ll, log);
    LastAtLeast(log, |p|);
  }

  lemma StartTerm(ll: map<nat, Log>, start: Log, t: nat)
    requires LogOk(ll, start) && TermsBelow(start, t) && start != []
    ensures LastTerm(start) in ll && LastTerm(start) < t
  {
  }
}
