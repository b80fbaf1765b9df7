/**
  The replication steps keep the invariant, and so does every step: a leader
  proposes and sends slices of its log, a follower takes them over a conflicting
  suffix and acknowledges them once they are on disk, a leader takes results and
  counts what it may commit, writes land, and nodes crash. The step lemma at the
  end puts these together with the election steps.
 */
module ReplicationSteps {
  import opened Quorum
  import opened Protocol
  import opened Invariant
  import opened Facts
  import opened CoreSteps
  import opened Growth
  import opened ElectionSteps

  // ---- The leader ---------------------------------------------------------

  lemma LeaderLog(s: State, n: nat)
    requires Inv(s) && HasNode(s, n) && s.nodes[n].role == Leader
    ensures s.nodes[n].mem.term in s.hist.logs && s.nodes[n].mem.log == s.hist.logs[s.nodes[n].mem.term]
  {
    assert RolesAt(s, n);
  }

  lemma ProposeCore(s: State, n: nat, cmds: seq<Command>)
    requires Inv(s) && Enabled(s, Propose(n, cmds))
    ensures Core(Do(s, Propose(n, cmds)))
  {
    hide Core, Roles;
    var nd := s.nodes[n];
    var es := Proposed(nd, cmds);
    LeaderLog(s, n);
    CoreExtend(s, nd.mem.term, es);
    var s1 := Extended(s, nd.mem.term, es);
    LeaderAppends(s1, n, es, AppendTo(nd, es));
    assert Put(s1, n, AppendTo(nd, es)) == Do(s, Propose(n, cmds));
  }

  lemma ProposeRoles(s: State, n: nat, cmds: seq<Command>)
    requires Roles(s) && Enabled(s, Propose(n, cmds))
    ensures Roles(Do(s, Propose(n, cmds)))
  {
    var s' := Do(s, Propose(n, cmds));
    assert RolesAt(s, n);
    forall v | 0 <= v < |s'.nodes| ensures RolesAt(s', v) {
      assert RolesAt(s, v);
      var own := Vote(s.nodes[v].mem.term, v, v, true, s.nodes[v].mem.log);
      assert Said(s', v, own) <==> Said(s, v, own);
    }
  }

  /** A leader's own ballot for its term is in the network. */
  lemma LeaderOwnBallot(s: State, n: nat)
    requires Inv(s) && HasNode(s, n) && s.nodes[n].role == Leader
    ensures forall k :: 0 <= k <= |s.nodes[n].queue| ==> Image(s.nodes[n], k).term >= s.nodes[n].mem.term
  {
    assert RolesAt(s, n);
    LeaderReached(s, s.nodes[n].mem.term);
  }

  lemma SendAppendInv(s: State, n: nat, to: nat, prev: nat, len: nat)
    requires Inv(s) && Enabled(s, SendAppend(n, to, prev, len))
    ensures Inv(Do(s, SendAppend(n, to, prev, len)))
  {
    hide Core, Roles;
    var nd := s.nodes[n];
    var m := Append(nd.mem.term, n, to, prev, TermAt(nd.mem.log, prev), nd.mem.log[prev..prev + len], nd.commit);
    LeaderOwnBallot(s, n);
    SliceFits(s, n, m);
    CoreSay(s, n, 0, m);
    RolesEmit(s, n, 0, m);
  }

  lemma SliceFits(s: State, n: nat, m: Msg)
    requires Roles(s) && HasNode(s, n) && s.nodes[n].role == Leader && m.Append? && m.from == n
    requires var d := s.nodes[n].mem;
      && m.term == d.term && m.prev + |m.entries| <= |d.log|
      && m.entries == d.log[m.prev..m.prev + |m.entries|] && m.prevTerm == TermAt(d.log, m.prev)
    ensures FitsIn(s, n, m)
  {
    assert RolesAt(s, n);
  }

  // ---- The follower -------------------------------------------------------

  /** What the leader's slice proves about a log whose entry before it has the right term. */
  lemma PrevAgrees(ll: map<nat, Log>, log: Log, m: Msg)
    requires LeaderLogsOk(ll) && LogOk(ll, log) && m.Append? && SliceOk(ll, m)
    requires PrevMatches(log, m.prev, m.prevTerm)
    ensures m.prev <= |log| && log[..m.prev] == ll[m.term][..m.prev]
  {
    hide LogOk, Sorted, TermsUpTo;
    if m.prev > 0 {
      LogsMatch(ll, log, ll[m.term], m.prev - 1, m.prev - 1);
    }
  }

  /** Up to the divergence the log and the leader's log are the same. */
  lemma HeldAgrees(ll: map<nat, Log>, log: Log, m: Msg)
    requires LeaderLogsOk(ll) && LogOk(ll, log) && m.Append? && SliceOk(ll, m)
    requires PrevMatches(log, m.prev, m.prevTerm)
    ensures var keep := m.prev + Divergence(log, m.prev, m.entries);
      keep <= |log| && keep <= |ll[m.term]| && log[..keep] == ll[m.term][..keep]
  {
    hide LogOk, Sorted, TermsUpTo;
    var top := ll[m.term];
    PrevAgrees(ll, log, m);
    var j := Divergence(log, m.prev, m.entries);
    if j > 0 {
      assert HasEntry(log, m.prev, m.entries, j - 1);
      var i := m.prev + j - 1;
      assert m.entries[j - 1] == top[i];
      LogsMatch(ll, log, top, i, i);
    }
  }

  lemma CutCore(s: State, n: nat, keep: nat)
    requires Core(s) && HasNode(s, n)
    requires var d := s.nodes[n].mem; var ll := s.hist.logs;
      d.term in ll && keep < |d.log| && keep < |ll[d.term]| && ll[d.term][keep] != d.log[keep]
    ensures Core(Put(s, n, CutTo(s.nodes[n], keep)))
  {
    hide Core;
    var nd := s.nodes[n];
    EvolvesCut(s.hist.logs, nd.mem, keep);
    CutImageOk(s, n, keep);
    CoreEnqueue(s, n, CutTo(nd, keep), TruncateTo(keep));
  }

  lemma CutImageOk(s: State, n: nat, keep: nat)
    requires Core(s) && HasNode(s, n) && keep <= |s.nodes[n].mem.log|
    ensures ImageOk(s.hist.logs, CutTo(s.nodes[n], keep).mem)
  {
    var nd := s.nodes[n];
    MemImage(s, n);
    LogOkPrefix(s.hist.logs, nd.mem.log, keep);
  }

  /** Appending the rest of the leader's slice where the logs part. */
  lemma GrowCore(s: State, n: nat, es: Log)
    requires Core(s) && HasNode(s, n)
    requires var d := s.nodes[n].mem; d.term in s.hist.logs && d.log + es <= s.hist.logs[d.term]
    ensures Core(Put(s, n, AppendTo(s.nodes[n], es)))
  {
    hide Core;
    var nd := s.nodes[n];
    GrowImageOk(s, n, es);
    EvolvesAppended(s.hist.logs, nd.mem, es);
    CoreEnqueue(s, n, AppendTo(nd, es), AppendAt(|nd.mem.log|, es));
  }

  lemma GrowImageOk(s: State, n: nat, es: Log)
    requires Core(s) && HasNode(s, n)
    requires var d := s.nodes[n].mem; d.term in s.hist.logs && d.log + es <= s.hist.logs[d.term]
    ensures ImageOk(s.hist.logs, AppendTo(s.nodes[n], es).mem)
  {
    PrefixOk(s.hist.logs, s.nodes[n].mem.term, s.nodes[n].mem.log + es);
  }

  lemma PrefixOk(ll: map<nat, Log>, t: nat, log: Log)
    requires LeaderLogsOk(ll) && t in ll && log <= ll[t]
    ensures LogOk(ll, log) && TermsUpTo(log, t)
  {
    LogOkPrefix(ll, ll[t], |log|);
    assert ll[t][..|log|] == log;
  }

  /** Accepting a slice: the log then holds the leader's log up to the slice's end. */
  lemma AcceptCore(s: State, n: nat, m: Msg)
    requires Core(s) && HasNode(s, n) && m in s.net && m.Append? && m.term == s.nodes[n].mem.term
    requires PrevMatches(s.nodes[n].mem.log, m.prev, m.prevTerm)
    ensures Core(Put(s, n, Accept(s.nodes[n], m.prev, m.entries)))
  {
    hide Core, LogOk, LeaderLogsOk;
    var nd := s.nodes[n];
    var j := Divergence(nd.mem.log, m.prev, m.entries);
    NodeSlice(s, n, m);
    SliceAgrees(s.hist.logs, nd.mem.log, m);
    if j < |m.entries| {
      var keep := m.prev + j;
      var es := m.entries[j..];
      if keep >= |nd.mem.log| {
        assert nd.mem.log[..keep] == nd.mem.log;
        GrowCore(s, n, es);
      } else {
        ReplaceCore(s, n, keep, es);
      }
    } else {
      assert Put(s, n, nd) == s;
    }
  }

  lemma ReplaceCore(s: State, n: nat, keep: nat, es: Log)
    requires Core(s) && HasNode(s, n)
    requires var d := s.nodes[n].mem; var ll := s.hist.logs;
      && d.term in ll && keep < |d.log| && keep < |ll[d.term]| && ll[d.term][keep] != d.log[keep]
      && d.log[..keep] + es <= ll[d.term]
    ensures Core(Put(s, n, AppendTo(CutTo(s.nodes[n], keep), es)))
  {
    hide Core;
    var nd := s.nodes[n];
    CutCore(s, n, keep);
    var s1 := Put(s, n, CutTo(nd, keep));
    GrowCore(s1, n, es);
    assert Put(s1, n, AppendTo(CutTo(nd, keep), es)) == Put(s, n, AppendTo(CutTo(nd, keep), es));
  }

  /** The node's log and the slice, as logs of the run. */
  lemma NodeSlice(s: State, n: nat, m: Msg)
    requires Core(s) && HasNode(s, n) && m in s.net && m.Append?
    ensures LeaderLogsOk(s.hist.logs) && LogOk(s.hist.logs, s.nodes[n].mem.log) && SliceOk(s.hist.logs, m)
  {
    MemImage(s, n);
  }

  lemma SliceAgrees(ll: map<nat, Log>, log: Log, m: Msg)
    requires LeaderLogsOk(ll) && LogOk(ll, log) && m.Append? && SliceOk(ll, m)
    requires PrevMatches(log, m.prev, m.prevTerm)
    ensures m.prev <= |log|
    ensures var top := ll[m.term]; var j := Divergence(log, m.prev, m.entries); var keep := m.prev + j;
      && m.prev + |m.entries| <= |top| && keep <= |log| && log[..keep] == top[..keep]
      && log[..keep] + m.entries[j..] == top[..m.prev + |m.entries|]
      && (j < |m.entries| && keep < |log| ==> top[keep] != log[keep])
  {
    hide LogOk, LeaderLogsOk;
    HeldAgrees(ll, log, m);
    var top := ll[m.term];
    var j := Divergence(log, m.prev, m.entries);
    assert top[..m.prev + |m.entries|] == top[..m.prev + j] + m.entries[j..];
    if j < |m.entries| && m.prev + j < |log| {
      assert !HasEntry(log, m.prev, m.entries, j);
      assert m.entries[j] == top[m.prev + j];
    }
  }

  /** After accepting a slice the log holds the leader's log up to the slice's end. */
  lemma AcceptHolds(ll: map<nat, Log>, nd: Node, m: Msg)
    requires LeaderLogsOk(ll) && LogOk(ll, nd.mem.log) && m.Append? && SliceOk(ll, m)
    requires PrevMatches(nd.mem.log, m.prev, m.prevTerm)
    ensures m.prev <= |nd.mem.log|
    ensures ll[m.term][..m.prev + |m.entries|] <= Accept(nd, m.prev, m.entries).mem.log
  {
    hide LogOk, LeaderLogsOk, SliceOk, Divergence;
    SliceAgrees(ll, nd.mem.log, m);
    AcceptedLog(nd, m.prev, m.entries);
  }

  /** The accepted log starts with what was kept and continues with the rest of the entries. */
  lemma AcceptedLog(nd: Node, prev: nat, entries: Log)
    requires prev <= |nd.mem.log| && prev + Divergence(nd.mem.log, prev, entries) <= |nd.mem.log|
    ensures var j := Divergence(nd.mem.log, prev, entries);
      nd.mem.log[..prev + j] + entries[j..] <= Accept(nd, prev, entries).mem.log
  {
    hide Divergence;
    var log := nd.mem.log;
    var j := Divergence(log, prev, entries);
    if j == |entries| {
      assert log[..prev + j] + entries[j..] == log[..prev + j];
    } else if prev + j >= |log| {
      assert log[..prev + j] == log;
    }
  }

  /** An acknowledgement in the node's own term fits in with what it said before. */
  lemma AckFits(s: State, n: nat, a: Msg)
    requires Core(s) && HasNode(s, n) && a.Appended? && a.from == n && a.term == s.nodes[n].mem.term
    ensures FitsIn(s, n, a)
  {
    var ll := s.hist.logs;
    forall c | Said(s, n, c)
      ensures SameBallot(a, c) && SameBallot(c, a) && BallotAfterAck(ll, a, c) && BallotAfterAck(ll, c, a)
    {
      SaidInRange(s, n, c);
    }
    forall t | t in s.hist.wins && n in s.hist.wins[t].ballots
      ensures WinnerAfterAck(ll, t, s.hist.wins[t].ballots[n], a)
    {
      VoterReached(s, t, n);
    }
  }

  /** A voter that elected the leader of a term has reached the term. */
  lemma VoterReached(s: State, t: nat, v: nat)
    requires Core(s) && t in s.hist.wins && v in s.hist.wins[t].ballots
    ensures HasNode(s, v) && s.nodes[v].mem.term >= t
  {
    var w := s.hist.wins[t];
    assert WinBallotOk(s, t, w, v);
    SaidInRange(s, v, Vote(t, v, w.leader, true, w.ballots[v]));
  }

  /** An acknowledgement is honoured by every image whose log still has the acknowledged prefix. */
  lemma AckImage(ll: map<nat, Log>, d: Durable, a: Msg)
    requires IsAck(a) && a.term <= d.term && AckInRange(ll, a) && ll[a.term][..a.last] <= d.log
    ensures Honours(ll, d, a)
  {
    forall j | 0 < j <= a.last ensures Keeps(ll, d.log, d.term, a.term, j) {
      assert ll[a.term][..a.last][..j] == ll[a.term][..j];
    }
  }

  lemma AckHonoured(s: State, n: nat, gate: nat, a: Msg)
    requires Disks(s) && HasNode(s, n) && IsAck(a) && a.term == s.nodes[n].mem.term
    requires AckInRange(s.hist.logs, a) && s.hist.logs[a.term][..a.last] <= s.nodes[n].mem.log
    requires GateOk(s.nodes[n], gate, a.last)
    ensures HeldHonoured(s.hist.logs, s.nodes[n], gate, a)
  {
    var nd := s.nodes[n];
    var ll := s.hist.logs;
    forall k | 0 <= k <= |nd.queue| && gate <= nd.landed + k ensures Honours(ll, Image(nd, k), a) {
      ImageHard(nd, k);
      ImagePrefix(nd, k, a.last);
      AckImage(ll, Image(nd, k), a);
    }
  }

  lemma AckReply(s: State, n: nat, gate: nat, a: Msg)
    requires Inv(s) && HasNode(s, n) && a.Appended? && a.from == n && a.term == s.nodes[n].mem.term
    requires GateOk(s.nodes[n], gate, UptoOf(a))
    requires IsAck(a) ==> AckInRange(s.hist.logs, a) && s.hist.logs[a.term][..a.last] <= s.nodes[n].mem.log
    ensures Inv(Emit(s, n, gate, a))
  {
    if IsAck(a) {
      AckFits(s, n, a);
      AckHonoured(s, n, gate, a);
      hide Core, Roles;
      CoreSay(s, n, gate, a);
      RolesEmit(s, n, gate, a);
    } else {
      GateAnyway(s.nodes[n], gate, UptoOf(a));
      PlainReply(s, n, gate, a);
    }
  }

  lemma GateAnyway(nd: Node, gate: nat, upto: nat)
    requires GateOk(nd, gate, upto)
    ensures GateOk(nd, gate, 0)
  {
  }

  lemma AppendAccepted(s: State, n: nat, m: Msg, gate: nat)
    requires Inv(s) && HasNode(s, n) && m in s.net && m.Append? && m.term == s.nodes[n].mem.term
    requires s.nodes[n].role == Follower && PrevMatches(s.nodes[n].mem.log, m.prev, m.prevTerm)
    ensures var nd2 := Accept(s.nodes[n], m.prev, m.entries);
      var nd' := nd2.(commit := Max(nd2.commit, Min(m.commit, m.prev + |m.entries|)));
      var a := Appended(m.term, n, m.from, true, LastOf(m));
      GateOk(nd', gate, UptoOf(a)) ==> Inv(Emit(Put(s, n, nd'), n, gate, a))
  {
    hide Core, Roles;
    var nd2 := Accept(s.nodes[n], m.prev, m.entries);
    var nd' := nd2.(commit := Max(nd2.commit, Min(m.commit, m.prev + |m.entries|)));
    var a := Appended(m.term, n, m.from, true, LastOf(m));
    AcceptCore(s, n, m);
    NodeSlice(s, n, m);
    AcceptHolds(s.hist.logs, s.nodes[n], m);
    CoreVolatile(Put(s, n, nd2), n, nd');
    var s1 := Put(s, n, nd');
    assert Put(Put(s, n, nd2), n, nd') == s1;
    RolesFollower(s, s1, n);
    if GateOk(nd', gate, UptoOf(a)) { AckReply(s1, n, gate, a); }
  }

  lemma AppendInv(s: State, n: nat, m: Msg, gate: nat)
    requires Inv(s) && Enabled(s, RecvAppend(n, m, gate))
    ensures Inv(Do(s, RecvAppend(n, m, gate)))
  {
    hide Core, Roles;
    var nd := s.nodes[n];
    var (nd', reply) := OnAppend(nd, n, m);
    if m.term < nd.mem.term {
      assert Put(s, n, nd') == s;
      AckReply(s, n, gate, reply);
    } else {
      var nd1 := BecomeFollower(nd, m.term);
      var s1 := Put(s, n, nd1);
      FollowInv(s, n, m.term);
      assert Put(s1, n, nd') == Put(s, n, nd');
      if !PrevMatches(nd1.mem.log, m.prev, m.prevTerm) {
        AckReply(s1, n, gate, reply);
      } else {
        AppendAccepted(s1, n, m, gate);
      }
    }
  }

  // ---- Everything else ----------------------------------------------------

  lemma ResultInv(s: State, n: nat, m: Msg)
    requires Inv(s) && Enabled(s, RecvAppended(n, m))
    ensures Inv(Do(s, RecvAppended(n, m)))
  {
    hide Core, Roles;
    if m.term > s.nodes[n].mem.term {
      FollowInv(s, n, m.term);
    } else {
      CoreVolatile(s, n, ResultReceived(s.nodes[n], m));
      RolesKept(s, Put(s, n, ResultReceived(s.nodes[n], m)), n);
    }
  }

  /** Counting its own durable entries is an acknowledgement a leader can make at once. */
  lemma OwnAckHonoured(s: State, n: nat, index: nat)
    requires Inv(s) && HasNode(s, n) && s.nodes[n].role == Leader
    requires 0 < index <= |s.nodes[n].mem.log| && StableUpTo(s.nodes[n], index)
    ensures HeldHonoured(s.hist.logs, s.nodes[n], 0, Appended(s.nodes[n].mem.term, n, n, true, index))
  {
    hide Records, Honours, LogOk, Sent, Pending;
    var nd := s.nodes[n];
    var ll := s.hist.logs;
    var a := Appended(nd.mem.term, n, n, true, index);
    LeaderOwnBallot(s, n);
    assert RolesAt(s, n);
    forall k | 0 <= k <= |nd.queue| && 0 <= nd.landed + k ensures Honours(ll, Image(nd, k), a) {
      ImagePrefix(nd, k, index);
      AckImage(ll, Image(nd, k), a);
    }
  }

  lemma CommitsFrame(s: State, c: set<Protocol.Commit>)
    requires Inv(s)
    ensures Inv(s.(hist := s.hist.(commits := c)))
  {
    hide Records, Honours, ImageOk, NodeShape, LeaderOk, CandidateOk, CampaignsOk;
    var s' := s.(hist := s.hist.(commits := c));
    RecordsFrame(s, s');
    forall v | 0 <= v < |s'.nodes| ensures RolesAt(s', v) {
      CommitsRoles(s, c, v);
    }
  }

  lemma CommitsRoles(s: State, c: set<Protocol.Commit>, v: nat)
    requires HasNode(s, v) && RolesAt(s, v)
    ensures RolesAt(s.(hist := s.hist.(commits := c)), v)
  {
    var s' := s.(hist := s.hist.(commits := c));
    var own := Vote(s.nodes[v].mem.term, v, v, true, s.nodes[v].mem.log);
    assert Said(s', v, own) <==> Said(s, v, own);
  }

  lemma CommittedInv(s: State, n: nat, index: nat)
    requires Inv(s) && Enabled(s, AdvanceCommit(n, index))
    ensures Inv(Committed(s, n, index))
  {
    hide Core, Roles;
    var nd := s.nodes[n];
    CoreVolatile(s, n, nd.(commit := index));
    RolesKept(s, Put(s, n, nd.(commit := index)), n);
    CommitOwn(s, n, index);
  }

  /** The two halves of a commit: the leader's own acknowledgement, and the record of it. */
  lemma CommitOwn(s: State, n: nat, index: nat)
    requires Inv(s) && Enabled(s, AdvanceCommit(n, index))
    requires Inv(Put(s, n, s.nodes[n].(commit := index)))
    ensures Inv(Committed(s, n, index))
  {
    hide Core, Roles, QuorumNeeded, HeldHonoured, Counted, StableUpTo;
    var nd := s.nodes[n];
    var s1 := Put(s, n, nd.(commit := index));
    var a := Appended(nd.mem.term, n, n, true, index);
    var c := s.hist.commits + {Protocol.Commit(nd.mem.term, index, Counted(nd, n, |s.nodes|, index))};
    CountsItself(nd, n, |s.nodes|, index);
    if StableUpTo(nd, index) {
      OwnAckHonoured(s1, n, index);
      AckFits(s1, n, a);
      CoreSay(s1, n, 0, a);
      RolesEmit(s1, n, 0, a);
      CommitsFrame(Emit(s1, n, 0, a), c);
    } else {
      CommitsFrame(s1, c);
      assert s.net + {} == s.net;
    }
  }

  lemma CountsItself(nd: Node, n: nat, total: nat, index: nat)
    ensures n in Counted(nd, n, total, index) <==> StableUpTo(nd, index)
    ensures StableUpTo(nd.(commit := index), index) == StableUpTo(nd, index)
  {
  }

  lemma LandInv(s: State, n: nat)
    requires Inv(s) && Enabled(s, Land(n))
    ensures Inv(Do(s, Land(n)))
  {
    hide Core, Roles;
    CoreLand(s, n);
    RolesKept(s, Do(s, Land(n)), n);
  }

  lemma CrashInv(s: State, n: nat)
    requires Inv(s) && HasNode(s, n)
    ensures Inv(Put(s, n, Restarted(s.nodes[n])))
  {
    CoreCrash(s, n);
    var s' := Put(s, n, Restarted(s.nodes[n]));
    RolesFrame(s, s', n);
  }

  lemma PlainStepInv(s: State, a: Step)
    requires Inv(s) && Enabled(s, a) && (a.StepDown? || a.SetPolicy?)
    ensures Inv(Do(s, a))
  {
    hide Core, Roles;
    CoreVolatile(s, a.n, Do(s, a).nodes[a.n]);
    RolesKept(s, Do(s, a), a.n);
  }

  /** Recording the commit index takes its turn in the queue and changes nothing a promise depends on. */
  lemma RecordInv(s: State, n: nat, index: nat)
    requires Inv(s) && HasNode(s, n)
    ensures var nd := s.nodes[n]; Inv(Put(s, n, nd.(queue := nd.queue + [SaveCommit(index)])))
  {
    hide Core, Roles, ImageOk;
    var nd := s.nodes[n];
    var nd' := nd.(queue := nd.queue + [SaveCommit(index)]);
    assert ImageOk(s.hist.logs, nd.mem) by { MemOk(s, n); }
    CoreEnqueue(s, n, nd', SaveCommit(index));
    RolesKept(s, Put(s, n, nd'), n);
  }

  lemma MemOk(s: State, n: nat)
    requires Core(s) && HasNode(s, n)
    ensures ImageOk(s.hist.logs, s.nodes[n].mem)
  {
    hide Records;
    MemImage(s, n);
  }

  /** Every step keeps the invariant. */
  lemma StepInv(s: State, a: Step)
    requires Inv(s) && Enabled(s, a)
    ensures Inv(Do(s, a))
  {
    hide Inv;
    match a
    case Stand(n) => StandInv(s, n);
    case RecvAskVote(n, m, gate) => AskVoteInv(s, n, m, gate);
    case RecvVote(n, m) => VoteInv(s, n, m);
    case Propose(n, cmds) => ProposeInv(s, n, cmds);
    case SendAppend(n, to, prev, len) => SendAppendInv(s, n, to, prev, len);
    case RecvAppend(n, m, gate) => AppendInv(s, n, m, gate);
    case RefuseAppend(n, m) => FollowInv(s, n, m.term);
    case RecvAppended(n, m) => ResultInv(s, n, m);
    case AdvanceCommit(n, index) => CommittedInv(s, n, index);
    case Land(n) => LandInv(s, n);
    case Complete(n) => CompleteInv(s, n);
    case Crash(n) => CrashInv(s, n);
    case StepDown(_) => PlainStepInv(s, a);
    case RecordCommit(n, index) => RecordInv(s, n, index);
    case SetPolicy(_, _, _) => PlainStepInv(s, a);
  }

  lemma ProposeInv(s: State, n: nat, cmds: seq<Command>)
    requires Inv(s) && Enabled(s, Propose(n, cmds))
    ensures Inv(Do(s, Propose(n, cmds)))
  {
    ProposeCore(s, n, cmds);
    ProposeRoles(s, n, cmds);
  }

  lemma InitInv(s: State)
    requires Init(s)
    ensures Inv(s)
  {
    forall n | 0 <= n < |s.nodes| ensures NodeShape(s.nodes[n]) && NodeImages(s.hist.logs, s.nodes[n]) && RolesAt(s, n) {
      assert s.nodes[n].(applied := 0, latest := 0) == Blank;
    }
    assert forall n, m :: 0 <= n < |s.nodes| ==> !Said(s, n, m);
  }
}
