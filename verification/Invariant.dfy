/**
  What every reachable state of the protocol satisfies, without any assumption
  on quorum policies: one leader per term, logs that are prefixes of leaders'
  logs, and promises that no crash can take back.
 */
module Invariant {
  import opened Wrappers
  import opened Protocol

  // ---- Logs ---------------------------------------------------------------

  /** Every prefix of `log` ending in an entry of term `t` is a prefix of the term-`t` leader's log. */
  ghost predicate LogOk(ll: map<nat, Log>, log: Log) {
    forall i :: 0 <= i < |log| ==> log[i].term in ll && log[..i + 1] <= ll[log[i].term]
  }

  ghost predicate TermsUpTo(log: Log, t: nat) {
    forall i :: 0 <= i < |log| ==> log[i].term <= t
  }

  ghost predicate Sorted(log: Log) {
    forall i, j :: 0 <= i <= j < |log| ==> log[i].term <= log[j].term
  }

  ghost predicate LeaderLogsOk(ll: map<nat, Log>) {
    forall t :: t in ll ==> LogOk(ll, ll[t]) && TermsUpTo(ll[t], t) && Sorted(ll[t])
  }

  // ---- Promises -----------------------------------------------------------

  /** The term-`u` leader's log does not hold the first `j` entries of the term-`t` leader's log. */
  ghost predicate Lacks(ll: map<nat, Log>, u: nat, t: nat, j: nat)
    requires t in ll && u in ll && j <= |ll[t]|
  {
    !(ll[t][..j] <= ll[u])
  }

  /**
    `log`, held by a node that has reached term `upto`, still has the first `j`
    entries of the term-`t` leader's log, unless a later leader lacks them.
   */
  ghost predicate Keeps(ll: map<nat, Log>, log: Log, upto: int, t: nat, j: nat)
    requires t in ll && j <= |ll[t]|
  {
    || ll[t][..j] <= log
    || exists u :: u in ll && t < u <= upto && Lacks(ll, u, t, j)
  }

  predicate IsReply(m: Msg) { m.Vote? || m.Appended? }

  predicate IsBallot(m: Msg) { m.Vote? && m.granted }

  predicate IsAck(m: Msg) { m.Appended? && m.success && m.last > 0 }

  /** An acknowledgement names a range the leader of its term has in its log. */
  ghost predicate AckInRange(ll: map<nat, Log>, m: Msg) {
    IsAck(m) ==> m.term in ll && m.last <= |ll[m.term]|
  }

  ghost predicate AckKept(ll: map<nat, Log>, log: Log, upto: int, m: Msg)
    requires IsAck(m) && AckInRange(ll, m)
  {
    forall j :: 0 < j <= m.last ==> Keeps(ll, log, upto, m.term, j)
  }

  /** A durable state from which everything `m` states can still be honoured. */
  ghost predicate Honours(ll: map<nat, Log>, d: Durable, m: Msg) {
    && m.term <= d.term
    && (IsBallot(m) && m.term == d.term ==> d.vote == Some(m.to))
    && AckInRange(ll, m)
    && (IsAck(m) ==> AckKept(ll, d.log, d.term, m))
  }

  /** `m` has been sent by node `n`, or node `n` holds it back until a write completes. */
  ghost predicate Said(s: State, n: nat, m: Msg)
    requires HasNode(s, n)
  {
    m.from == n && (m in s.net || exists g :: Held(g, Send(m)) in s.nodes[n].held)
  }

  // ---- Per-node invariants ------------------------------------------------

  ghost predicate OpFits(d: Durable, op: WriteOp) {
    && (op.AppendAt? ==> op.at == |d.log|)
    && (op.TruncateTo? ==> op.keep <= |d.log|)
  }

  ghost predicate NodeShape(nd: Node) {
    && nd.completed <= nd.landed
    && Image(nd, |nd.queue|) == nd.mem
    && (forall k :: 0 <= k < |nd.queue| ==> OpFits(Image(nd, k), nd.queue[k]))
    && (forall h :: h in nd.held ==> nd.completed < h.gate <= nd.landed + |nd.queue|)
  }

  ghost predicate Shape(s: State) {
    && |s.nodes| > 0
    && forall n :: 0 <= n < |s.nodes| ==> NodeShape(s.nodes[n])
  }

  ghost predicate ImageOk(ll: map<nat, Log>, d: Durable) {
    LogOk(ll, d.log) && TermsUpTo(d.log, d.term)
  }

  /** What the disk holds now, and what it will hold after each queued write, is a log of the run. */
  ghost predicate NodeImages(ll: map<nat, Log>, nd: Node) {
    forall k :: 0 <= k <= |nd.queue| ==> ImageOk(ll, Image(nd, k))
  }

  ghost predicate Images(s: State) {
    forall n :: 0 <= n < |s.nodes| ==> NodeImages(s.hist.logs, s.nodes[n])
  }

  ghost predicate SentHonoured(ll: map<nat, Log>, nd: Node, m: Msg) {
    forall k :: 0 <= k <= |nd.queue| ==> Honours(ll, Image(nd, k), m)
  }

  ghost predicate HeldHonoured(ll: map<nat, Log>, nd: Node, gate: nat, m: Msg) {
    forall k :: 0 <= k <= |nd.queue| && gate <= nd.landed + k ==> Honours(ll, Image(nd, k), m)
  }

  /** Whatever a node has sent, it can honour from its disk, now and after every queued write. */
  ghost predicate Sent(s: State) {
    forall m :: m in s.net ==> HasNode(s, m.from) && SentHonoured(s.hist.logs, s.nodes[m.from], m)
  }

  /** Whatever a node holds back, it can honour from its disk once the awaited write has landed. */
  ghost predicate Pending(s: State) {
    forall n, g, m :: 0 <= n < |s.nodes| && Held(g, Send(m)) in s.nodes[n].held ==>
      m.from == n && IsReply(m) && HeldHonoured(s.hist.logs, s.nodes[n], g, m)
  }

  /** A voter's log at the time of a vote kept what the voter had acknowledged before. */
  ghost predicate BallotAfterAck(ll: map<nat, Log>, b: Msg, a: Msg) {
    IsBallot(b) && IsAck(a) && a.term < b.term && AckInRange(ll, a) ==> AckKept(ll, b.log, b.term, a)
  }

  ghost predicate BallotsAfterAcks(s: State) {
    forall n, b, a :: 0 <= n < |s.nodes| && Said(s, n, b) && Said(s, n, a) ==>
      BallotAfterAck(s.hist.logs, b, a)
  }

  /** One candidate per voter and term, and one log per candidacy. */
  ghost predicate SameBallot(b: Msg, c: Msg) {
    IsBallot(b) && IsBallot(c) && b.term == c.term ==>
      b.to == c.to && (b.to == b.from ==> b.log == c.log)
  }

  ghost predicate OneBallot(s: State) {
    forall n, b, c :: 0 <= n < |s.nodes| && Said(s, n, b) && Said(s, n, c) ==> SameBallot(b, c)
  }

  /** The candidate's own ballot, against which a vote was granted. */
  ghost predicate Backed(net: set<Msg>, b: Msg)
    requires IsBallot(b)
  {
    exists own :: own in net && IsBallot(own) && own.term == b.term && own.from == b.to && own.to == b.to
      && UpToDate(LastTerm(own.log), |own.log|, b.log)
  }

  ghost predicate BallotOk(ll: map<nat, Log>, net: set<Msg>, b: Msg) {
    IsBallot(b) ==> LogOk(ll, b.log) && TermsUpTo(b.log, b.term) && (b.to != b.from ==> Backed(net, b))
  }

  ghost predicate Ballots(s: State) {
    forall n, b :: 0 <= n < |s.nodes| && Said(s, n, b) ==> BallotOk(s.hist.logs, s.net, b)
  }

  /** A request for votes describes the log in the candidate's own ballot. */
  ghost predicate AskBacked(net: set<Msg>, m: Msg) {
    m.AskVote? ==>
      exists own :: own in net && IsBallot(own) && own.term == m.term && own.from == m.from && own.to == m.from
        && |own.log| == m.lastIndex && LastTerm(own.log) == m.lastTerm
  }

  ghost predicate Asks(s: State) {
    forall m :: m in s.net ==> AskBacked(s.net, m)
  }

  // ---- Elections ----------------------------------------------------------

  ghost predicate WinOk(s: State, t: nat, w: Win) {
    && HasNode(s, w.leader) && w.leader in w.ballots && w.ballots[w.leader] == w.start
    && t in s.hist.logs
    && |w.start| < |s.hist.logs[t]| && w.start <= s.hist.logs[t]
    && (forall i :: 0 <= i < |w.start| ==> w.start[i].term < t)
    && (forall i :: |w.start| <= i < |s.hist.logs[t]| ==> s.hist.logs[t][i].term == t)
    && 2 * |w.ballots| > |s.nodes|
  }

  ghost predicate WinBallotOk(s: State, t: nat, w: Win, v: nat)
    requires v in w.ballots
  {
    && HasNode(s, v)
    && Vote(t, v, w.leader, true, w.ballots[v]) in s.net
    && UpToDate(LastTerm(w.start), |w.start|, w.ballots[v])
  }

  ghost predicate Wins(s: State) {
    && (forall t :: t in s.hist.wins <==> t in s.hist.logs)
    && (forall t :: t in s.hist.wins ==> WinOk(s, t, s.hist.wins[t]))
    && (forall t, v {:trigger WinBallotOk(s, t, s.hist.wins[t], v)} ::
          t in s.hist.wins && v in s.hist.wins[t].ballots ==> WinBallotOk(s, t, s.hist.wins[t], v))
  }

  /** As `BallotAfterAck`, for the votes that elected a leader: only an earlier leader can have overwritten. */
  ghost predicate WinnerAfterAck(ll: map<nat, Log>, t: nat, log: Log, a: Msg) {
    IsAck(a) && a.term < t && AckInRange(ll, a) ==> AckKept(ll, log, t - 1, a)
  }

  ghost predicate WinnersAfterAcks(s: State) {
    forall t, v, a :: t in s.hist.wins && v in s.hist.wins[t].ballots && HasNode(s, v) && Said(s, v, a) ==>
      WinnerAfterAck(s.hist.logs, t, s.hist.wins[t].ballots[v], a)
  }

  // ---- Roles --------------------------------------------------------------

  ghost predicate LeaderOk(s: State, n: nat)
    requires HasNode(s, n)
  {
    var nd := s.nodes[n];
    nd.role == Leader ==>
      && nd.mem.term in s.hist.wins && nd.mem.term in s.hist.logs
      && s.hist.wins[nd.mem.term].leader == n
      && nd.mem.log == s.hist.logs[nd.mem.term]
      && nd.termStart == |s.hist.wins[nd.mem.term].start| + 1
  }

  ghost predicate CandidateOk(s: State, n: nat)
    requires HasNode(s, n)
  {
    var nd := s.nodes[n];
    nd.role == Candidate ==>
      && (nd.mem.term in s.hist.wins ==> s.hist.wins[nd.mem.term].leader != n)
      && Said(s, n, Vote(nd.mem.term, n, n, true, nd.mem.log))
      && TermsBelow(nd.mem.log, nd.mem.term)
      && forall p :: p in nd.votes ==>
           p != n && HasNode(s, p) && Vote(nd.mem.term, p, n, true, nd.votes[p]) in s.net
  }

  ghost predicate TermsBelow(log: Log, t: nat) {
    forall i :: 0 <= i < |log| ==> log[i].term < t
  }

  /** A campaign waits for the same write as the candidate's own ballot. */
  ghost predicate CampaignsOk(s: State, n: nat)
    requires HasNode(s, n)
  {
    forall g, t :: Held(g, Campaign(t)) in s.nodes[n].held ==>
      exists log :: Held(g, Send(Vote(t, n, n, true, log))) in s.nodes[n].held
  }

  ghost predicate RolesAt(s: State, n: nat)
    requires HasNode(s, n)
  {
    LeaderOk(s, n) && CandidateOk(s, n) && CampaignsOk(s, n)
  }

  ghost predicate Roles(s: State) {
    forall n :: 0 <= n < |s.nodes| ==> RolesAt(s, n)
  }

  /** An append request is a slice of the log of the leader of its term. */
  ghost predicate SliceOk(ll: map<nat, Log>, m: Msg) {
    m.Append? ==>
      && m.term in ll && m.prev + |m.entries| <= |ll[m.term]|
      && m.entries == ll[m.term][m.prev..m.prev + |m.entries|]
      && (m.prev > 0 ==> m.prevTerm == ll[m.term][m.prev - 1].term)
  }

  ghost predicate Slices(s: State) {
    forall m :: m in s.net ==> SliceOk(s.hist.logs, m)
  }

  /** What the disks hold, and that it honours whatever has been or will be said. */
  ghost predicate Disks(s: State) {
    && Shape(s)
    && LeaderLogsOk(s.hist.logs)
    && Images(s)
    && Sent(s)
    && Pending(s)
  }

  /** How what has been said fits together. */
  ghost predicate Records(s: State) {
    && BallotsAfterAcks(s)
    && OneBallot(s)
    && Ballots(s)
    && Asks(s)
    && Wins(s)
    && WinnersAfterAcks(s)
    && Slices(s)
  }

  /** Everything but the roles: this part mentions no field that a crash clears. */
  ghost predicate Core(s: State) {
    Disks(s) && Records(s)
  }

  ghost predicate Inv(s: State) {
    Core(s) && Roles(s)
  }
}
