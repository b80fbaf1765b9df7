/**
  Why commit safety wants results to be vouched for: a run of five voters in which one
  leader takes an acknowledgement from its own earlier leadership, and two
  nodes end up with different entries committed at one index. Nobody crashes.
 */
module StaleResults {

  import opened Wrappers
  import opened Quorum
  import opened Protocol
  import C = Commitment
  import CommitSafety
  import Facts

  // ---- Paths ----------------------------------------------------------------------

  /** Steps that follow each other, with no crash and no change of policy among them. */
  ghost predicate Path(states: seq<State>, steps: seq<Step>) {
    && |states| == |steps| + 1
    && forall i :: 0 <= i < |steps| ==>
         !steps[i].Crash? && !steps[i].SetPolicy? && Enabled(states[i], steps[i]) && states[i + 1] == Do(states[i], steps[i])
  }

  ghost predicate Joins(states: seq<State>, steps: seq<Step>, s: State, t: State) {
    Path(states, steps) && states[0] == s && states[|steps|] == t
  }

  ghost predicate Reaches(s: State, t: State) {
    exists states, steps :: Joins(states, steps, s, t)
  }

  lemma ReachHere(s: State)
    ensures Reaches(s, s)
  {
    assert Joins([s], [], s, s);
  }

  lemma ReachStep(s: State, a: Step)
    requires Enabled(s, a) && !a.Crash? && !a.SetPolicy?
    ensures Reaches(s, Do(s, a))
  {
    hide Enabled, Do;
    assert Joins([s, Do(s, a)], [a], s, Do(s, a));
  }

  lemma ReachOn(s: State, t: State, u: State)
    requires Reaches(s, t) && Reaches(t, u)
    ensures Reaches(s, u)
  {
    hide Enabled, Do;
    var a: seq<State>, x: seq<Step> :| Joins(a, x, s, t);
    var b: seq<State>, y: seq<Step> :| Joins(b, y, t, u);
    var c, z := a + b[1..], x + y;
    forall i | 0 <= i < |z| ensures !z[i].Crash? && !z[i].SetPolicy? && Enabled(c[i], z[i]) && c[i + 1] == Do(c[i], z[i]) {
      if i < |x| {
        assert c[i] == a[i] && c[i + 1] == a[i + 1] && z[i] == x[i];
      } else {
        var j := i - |x|;
        assert c[i] == b[j] && c[i + 1] == b[j + 1] && z[i] == y[j];
      }
    }
    assert Joins(c, z, s, u);
  }

  // ---- Draining a node's writes ------------------------------------------------------

  function WithNode(s: State, n: nat, nd: Node): State
    requires HasNode(s, n)
  {
    s.(nodes := s.nodes[n := nd])
  }

  function LandedAll(nd: Node): Node {
    nd.(disk := Image(nd, |nd.queue|), queue := [], landed := nd.landed + |nd.queue|)
  }

  lemma {:induction false} LandAll(s: State, n: nat)
    requires HasNode(s, n)
    ensures Reaches(s, WithNode(s, n, LandedAll(s.nodes[n])))
    decreases |s.nodes[n].queue|
  {
    hide Reaches;
    var nd := s.nodes[n];
    if nd.queue == [] {
      assert nd.queue[..0] == [] && LandedAll(nd) == nd;
      assert s.nodes[n := nd] == s.nodes && WithNode(s, n, nd) == s;
      ReachHere(s);
    } else {
      ReachStep(s, Land(n));
      var s1 := Do(s, Land(n));
      LandAll(s1, n);
      Facts.ImageLanded(nd, s1.nodes[n]);
      assert Image(s1.nodes[n], |s1.nodes[n].queue|) == Image(nd, |nd.queue|);
      assert LandedAll(s1.nodes[n]) == LandedAll(nd);
      var x := LandedAll(nd);
      assert s1.nodes[n := x] == s.nodes[n := x] && WithNode(s1, n, x) == WithNode(s, n, x);
      ReachOn(s, s1, WithNode(s1, n, x));
    }
  }

  /** Nothing on its way, nothing held back. */
  function Idle(d: Durable, role: Role, votes: map<nat, Log>, matched: map<nat, nat>, commit: nat, start: nat, count: nat): Node {
    Node(d, role, votes, matched, commit, start, {}, count, count, [], d, 0, 0)
  }

  predicate OnlySends(nd: Node) {
    forall h :: h in nd.held ==> h.act.Send? && nd.completed < h.gate <= nd.landed
  }

  lemma {:induction false} CompleteAll(s: State, n: nat) returns (s': State)
    requires HasNode(s, n) && s.nodes[n].queue == [] && s.nodes[n].completed <= s.nodes[n].landed && OnlySends(s.nodes[n])
    ensures Reaches(s, s') && s.net <= s'.net
    ensures s'.nodes == s.nodes[n := s.nodes[n].(completed := s.nodes[n].landed, held := {})]
    ensures forall h :: h in s.nodes[n].held ==> h.act.msg in s'.net
    decreases s.nodes[n].landed - s.nodes[n].completed
  {
    hide Reaches;
    var nd := s.nodes[n];
    if nd.completed == nd.landed {
      assert nd.held == {};
      ReachHere(s);
      s' := s;
    } else {
      var s1 := Do(s, Complete(n));
      ReachStep(s, Complete(n));
      var nd1 := nd.(completed := nd.completed + 1);
      assert !CampaignDue(nd1);
      assert s1.nodes == s.nodes[n := nd1.(held := Kept(nd1))] && s1.net == s.net + Released(nd1);
      s' := CompleteAll(s1, n);
      ReachOn(s, s1, s');
      forall h | h in nd.held ensures h.act.msg in s'.net {
        if h.gate <= nd1.completed { assert h.act.msg in Released(nd1); } else { assert h in s1.nodes[n].held; }
      }
    }
  }

  /** A node whose writes all land and complete says what it held back, and is idle. */
  lemma Settle(s: State, n: nat) returns (s': State)
    requires HasNode(s, n) && s.nodes[n].completed <= s.nodes[n].landed
    requires Image(s.nodes[n], |s.nodes[n].queue|) == s.nodes[n].mem
    requires forall h :: h in s.nodes[n].held ==> h.act.Send? && s.nodes[n].completed < h.gate <= s.nodes[n].landed + |s.nodes[n].queue|
    ensures Reaches(s, s') && s.net <= s'.net
    ensures var nd := s.nodes[n]; var c := nd.landed + |nd.queue|;
      s'.nodes == s.nodes[n := nd.(disk := nd.mem, queue := [], landed := c, completed := c, held := {})]
    ensures forall h :: h in s.nodes[n].held ==> h.act.msg in s'.net
  {
    hide Reaches, Image;
    LandAll(s, n);
    var s1 := WithNode(s, n, LandedAll(s.nodes[n]));
    s' := CompleteAll(s1, n);
    ReachOn(s, s1, s');
    var nd := s.nodes[n];
    var c := nd.landed + |nd.queue|;
    var x := nd.(disk := nd.mem, queue := [], landed := c, completed := c, held := {});
    assert s1.nodes[n].held == nd.held;
    assert s1.nodes[n].(completed := c, held := {}) == x;
    assert s'.nodes == s1.nodes[n := x];
    assert s1.nodes[n := x] == s.nodes[n := x];
  }

  // ---- What the nodes do in the story ------------------------------------------------

  lemma Campaigns(s: State, n: nat, nd: Node, count: nat) returns (s': State)
    requires HasNode(s, n) && |s.nodes| == 5 && s.nodes[n] == nd
    requires nd == Idle(nd.mem, nd.role, nd.votes, nd.matched, nd.commit, nd.termStart, count)
    ensures var t := nd.mem.term + 1;
      && Reaches(s, s') && s.net <= s'.net
      && s'.nodes == s.nodes[n := Idle(Durable(t, Some(n), nd.mem.log), Candidate, map[], map[], nd.commit, 0, count + 1)]
      && AskVote(t, n, |nd.mem.log|, LastTerm(nd.mem.log)) in s'.net
  {
    hide Reaches;
    var s1 := StandsAndLands(s, n, nd, count);
    var nd2 := s1.nodes[n];
    Starts(s1, n, nd2.(completed := count + 1));
    s' := Do(s1, Complete(n));
    ReachStep(s1, Complete(n));
    ReachOn(s, s1, s');
  }

  lemma StandsAndLands(s: State, n: nat, nd: Node, count: nat) returns (s': State)
    requires HasNode(s, n) && s.nodes[n] == nd
    requires nd == Idle(nd.mem, nd.role, nd.votes, nd.matched, nd.commit, nd.termStart, count)
    ensures Reaches(s, s') && s'.net == s.net
    ensures var nd1 := Stood(nd, n); s'.nodes == s.nodes[n := nd1.(disk := nd1.mem, queue := [], landed := count + 1)]
  {
    hide Reaches;
    var s1 := Do(s, Stand(n));
    ReachStep(s, Stand(n));
    var nd1 := s1.nodes[n];
    assert nd1.queue == [SaveHard(nd.mem.term + 1, Some(n))] && nd1.queue[1..] == [];
    s' := Do(s1, Land(n));
    ReachStep(s1, Land(n));
    ReachOn(s, s1, s');
  }

  /** The completed write starts the campaign. */
  lemma Starts(s: State, n: nat, nd: Node)
    requires HasNode(s, n) && |s.nodes| == 5 && nd == s.nodes[n].(completed := s.nodes[n].completed + 1) && nd.role == Candidate
    requires nd.held == {Held(nd.completed, Send(Vote(nd.mem.term, n, n, true, nd.mem.log))), Held(nd.completed, Campaign(nd.mem.term))}
    ensures Completed(s, n).nodes == s.nodes[n := nd.(held := {})] && s.net <= Completed(s, n).net
    ensures AskVote(nd.mem.term, n, |nd.mem.log|, LastTerm(nd.mem.log)) in Completed(s, n).net
  {
    assert Held(nd.completed, Campaign(nd.mem.term)) in nd.held;
    assert CampaignDue(nd) && Kept(nd) == {};
  }

  lemma Grants(s: State, v: nat, nd: Node, count: nat, m: Msg) returns (s': State)
    requires HasNode(s, v) && s.nodes[v] == nd && nd == Idle(nd.mem, Follower, map[], map[], nd.commit, 0, count)
    requires m in s.net && m.AskVote? && m.from != v && m.term > nd.mem.term && UpToDate(m.lastTerm, m.lastIndex, nd.mem.log)
    ensures Reaches(s, s') && s.net <= s'.net
    ensures s'.nodes == s.nodes[v := Idle(Durable(m.term, Some(m.from), nd.mem.log), Follower, map[], map[], nd.commit, 0, count + 1)]
    ensures Vote(m.term, v, m.from, true, nd.mem.log) in s'.net
  {
    hide Reaches;
    var a := RecvAskVote(v, m, count + 1);
    assert Enabled(s, a);
    ReachStep(s, a);
    var s1 := Do(s, a);
    var nd1 := s1.nodes[v];
    assert nd1.held == {Held(count + 1, Send(Vote(m.term, v, m.from, true, nd.mem.log)))};
    assert nd1.queue == [SaveHard(m.term, Some(m.from))] && nd1.queue[..1][..0] == [] && nd1.queue[..1] == nd1.queue;
    assert Replay(nd1.disk, []) == nd1.disk;
    s' := Settle(s1, v);
    ReachOn(s, s1, s');
  }

  /** The second of two votes elects: with one's own, three of five. */
  lemma Wins(s: State, n: nat, nd: Node, count: nat, p: nat, lp: Log, q: nat, lq: Log) returns (s': State)
    requires HasNode(s, n) && |s.nodes| == 5 && s.nodes[n] == nd && p != q && p != n && q != n
    requires nd == Idle(nd.mem, Candidate, map[], map[], nd.commit, 0, count)
    requires Vote(nd.mem.term, p, n, true, lp) in s.net && Vote(nd.mem.term, q, n, true, lq) in s.net
    ensures var log := nd.mem.log + [Entry(nd.mem.term, "")];
      && Reaches(s, s') && s.net <= s'.net
      && s'.nodes == s.nodes[n := Idle(Durable(nd.mem.term, nd.mem.vote, log), Leader, map[p := lp, q := lq], map[], nd.commit, |log|, count + 1)]
  {
    hide Reaches, Image, Enabled, Do;
    var s1 := FirstVote(s, n, nd, count, p, lp);
    var s2 := SecondVote(s1, n, s1.nodes[n], p, q, lp, lq);
    ReachOn(s, s1, s2);
    OneWrite(s2.nodes[n]);
    s' := Settle(s2, n);
    ReachOn(s, s2, s');
    var x := Idle(Durable(nd.mem.term, nd.mem.vote, nd.mem.log + [Entry(nd.mem.term, "")]), Leader, map[p := lp, q := lq], map[], nd.commit, |nd.mem.log| + 1, count + 1);
    assert s'.nodes[n] == x && s'.nodes == s.nodes[n := x];
  }

  lemma SecondVote(s: State, n: nat, nd: Node, p: nat, q: nat, lp: Log, lq: Log) returns (s': State)
    requires HasNode(s, n) && |s.nodes| == 5 && s.nodes[n] == nd && nd.role == Candidate && nd.applied == 0 && nd.latest == 0
    requires p != q && p != n && q != n && nd.votes == map[p := lp] && Vote(nd.mem.term, q, n, true, lq) in s.net
    ensures Reaches(s, s') && s'.net == s.net
    ensures s'.nodes == s.nodes[n := AppendTo(nd.(votes := map[p := lp, q := lq]), [Entry(nd.mem.term, "")]).(role := Leader, matched := map[], termStart := |nd.mem.log| + 1)]
  {
    hide Reaches, ElectionWon, Enabled, Do;
    var m := Vote(nd.mem.term, q, n, true, lq);
    assert Enabled(s, RecvVote(n, m)) && Do(s, RecvVote(n, m)) == VoteReceived(s, n, m) by { VoteStep(s, n, m); }
    VotesSuffice(nd.(votes := map[p := lp, q := lq]), n, p, q, lp, lq);
    assert nd.votes[q := lq] == map[p := lp, q := lq];
    ReachStep(s, RecvVote(n, m));
    s' := Do(s, RecvVote(n, m));
  }

  lemma VoteStep(s: State, n: nat, m: Msg)
    requires HasNode(s, n) && m in s.net && m.Vote? && m.to == n && m.from != n
    ensures Enabled(s, RecvVote(n, m)) && Do(s, RecvVote(n, m)) == VoteReceived(s, n, m)
  {
    hide VoteReceived;
  }

  lemma VotesSuffice(nd: Node, n: nat, p: nat, q: nat, lp: Log, lq: Log)
    requires p != q && p != n && q != n && nd.votes == map[p := lp, q := lq] && nd.applied == 0 && nd.latest == 0
    ensures ElectionWon(nd, n, 5)
  {
    assert nd.votes.Keys + {n} == {p, q, n} && |{p, q, n}| == 3;
  }

  /** A single queued write is all that separates the disk from memory. */
  lemma {:induction false} OneWrite(nd: Node)
    requires |nd.queue| == 1
    ensures Image(nd, 1) == ApplyOp(nd.disk, nd.queue[0])
  {
    assert nd.queue[..1][..0] == [] && nd.queue[..1] == nd.queue && Replay(nd.disk, []) == nd.disk;
  }

  lemma ThreeOfFive()
    ensures QuorumNeeded(ForElection, 0, 0, 5) == 3 && QuorumNeeded(ForCommit, 0, 0, 5) == 3
  {
  }

  lemma FirstVote(s: State, n: nat, nd: Node, count: nat, p: nat, lp: Log) returns (s': State)
    requires HasNode(s, n) && |s.nodes| == 5 && s.nodes[n] == nd && p != n
    requires nd == Idle(nd.mem, Candidate, map[], map[], nd.commit, 0, count)
    requires Vote(nd.mem.term, p, n, true, lp) in s.net
    ensures Reaches(s, s') && s'.net == s.net && s'.nodes == s.nodes[n := nd.(votes := map[p := lp])]
  {
    hide Reaches, QuorumNeeded;
    assert QuorumNeeded(ForElection, 0, 0, 5) == 3 by { ThreeOfFive(); }
    var m := Vote(nd.mem.term, p, n, true, lp);
    ReachStep(s, RecvVote(n, m));
    s' := Do(s, RecvVote(n, m));
    var votes: map<nat, Log> := map[p := lp];
    assert votes.Keys + {n} == {p, n} && |{p, n}| == 2 && map[][p := lp] == votes;
    assert !ElectionWon(nd.(votes := votes), n, 5);
  }

  /** Disk and queue together still make up memory. */
  predicate InStep(nd: Node) {
    Replay(nd.disk, nd.queue) == nd.mem
  }

  lemma {:induction false} InStepMore(nd: Node, op: WriteOp)
    requires InStep(nd)
    ensures Replay(nd.disk, nd.queue + [op]) == ApplyOp(nd.mem, op)
  {
    assert (nd.queue + [op])[..|nd.queue|] == nd.queue;
  }

  lemma InStepImage(nd: Node)
    requires InStep(nd)
    ensures Image(nd, |nd.queue|) == nd.mem
  {
    assert nd.queue[..|nd.queue|] == nd.queue;
  }

  lemma AcceptInStep(nd: Node, t: nat, entries: Log)
    requires InStep(nd) && entries != [] && (nd.mem.log == [] || nd.mem.log[0].term != entries[0].term)
    ensures var nd1 := BecomeFollower(nd, t); var nd2 := Accept(nd1, 0, entries);
      && InStep(nd2) && nd2.mem.log == entries && nd2.mem.term == nd1.mem.term && nd2.mem.vote == nd1.mem.vote
      && nd2.landed == nd.landed && nd2.disk == nd.disk
      && |nd2.queue| == |nd.queue| + (if t > nd.mem.term then 1 else 0) + (if nd.mem.log == [] then 1 else 2)
      && nd2 == nd1.(mem := nd2.mem, queue := nd2.queue)
  {
    hide Replay, Divergence;
    InStepMore(nd, SaveHard(t, None));
    var nd1 := BecomeFollower(nd, t);
    assert InStep(nd1);
    var j := Divergence(nd1.mem.log, 0, entries);
    assert !HasEntry(nd1.mem.log, 0, entries, 0);
    assert j == 0;
    assert entries[0..] == entries;
    if nd1.mem.log == [] {
      InStepMore(nd1, AppendAt(0, entries));
      assert [] + entries == entries;
    } else {
      InStepMore(nd1, TruncateTo(0));
      var nd2 := CutTo(nd1, 0);
      assert InStep(nd2);
      InStepMore(nd2, AppendAt(0, entries));
      assert nd1.mem.log[..0] == [] && [] + entries == entries;
    }
  }

  /** A leader that has committed nothing yet sends its whole log to a peer that shares none of it, and the peer acknowledges it. */
  lemma Replicates(s: State, n: nat, ld: Node, p: nat, nd: Node, count: nat) returns (s': State)
    requires HasNode(s, n) && HasNode(s, p) && n != p && s.nodes[n] == ld && s.nodes[p] == nd
    requires ld.role == Leader && ld.commit == 0 && ld.mem.log != [] && ld.mem.term >= nd.mem.term
    requires nd == Idle(nd.mem, nd.role, nd.votes, nd.matched, 0, nd.termStart, count)
    requires nd.mem.log == [] || nd.mem.log[0].term != ld.mem.log[0].term
    ensures var up := ld.mem.term > nd.mem.term;
      var d := Durable(ld.mem.term, if up then None else nd.mem.vote, ld.mem.log);
      && Reaches(s, s') && s.net <= s'.net && Appended(ld.mem.term, p, n, true, |ld.mem.log|) in s'.net
      && s'.nodes == s.nodes[p := Idle(d, Follower, map[], map[], 0, 0,
                                       count + (if up then 1 else 0) + (if nd.mem.log == [] then 1 else 2))]
  {
    hide Reaches, Image, Replay, Accept;
    var log := ld.mem.log;
    assert log[0..|log|] == log;
    var m := Append(ld.mem.term, n, p, 0, 0, log, 0);
    var a := SendAppend(n, p, 0, |log|);
    ReachStep(s, a);
    var s1 := Do(s, a);
    assert m in s1.net;
    assert InStep(nd) by { NothingQueued(nd); }
    AcceptInStep(nd, ld.mem.term, log);
    var r := OnAppend(nd, p, m);
    var gate := r.0.landed + |r.0.queue|;
    ReachStep(s1, RecvAppend(p, m, gate));
    var s2 := Do(s1, RecvAppend(p, m, gate));
    ReachOn(s, s1, s2);
    assert s2.nodes[p] == r.0.(held := {Held(gate, Send(r.1))}) && s2.net == s1.net;
    InStepImage(s2.nodes[p]);
    s' := Settle(s2, p);
    ReachOn(s, s2, s');
    assert Held(gate, Send(r.1)) in s2.nodes[p].held;
  }

  lemma {:induction false} NothingQueued(nd: Node)
    requires nd.queue == [] && nd.disk == nd.mem
    ensures InStep(nd)
  {
  }

  /** A leader takes an acknowledgement of any term up to its own. */
  lemma Takes(s: State, n: nat, nd: Node, m: Msg) returns (s': State)
    requires HasNode(s, n) && s.nodes[n] == nd && nd.role == Leader && m in s.net
    requires m.Appended? && m.success && m.to == n && m.from != n && m.term <= nd.mem.term && m.last > 0 && m.from !in nd.matched
    ensures Reaches(s, s') && s'.net == s.net && s'.nodes == s.nodes[n := nd.(matched := nd.matched[m.from := m.last])]
  {
    hide Reaches;
    ReachStep(s, RecvAppended(n, m));
    s' := Do(s, RecvAppended(n, m));
  }

  /** Two peers and its own disk are a commit quorum of five. */
  lemma Commits(s: State, n: nat, nd: Node, p: nat, q: nat) returns (s': State)
    requires HasNode(s, n) && |s.nodes| == 5 && s.nodes[n] == nd && p != q && p != n && q != n && p < 5 && q < 5
    requires nd.role == Leader && nd.queue == [] && nd.commit == 0 && nd.termStart == 2 && |nd.mem.log| == 2 && nd.applied == 0 && nd.latest == 0
    requires nd.matched == map[p := 2, q := 2]
    ensures Reaches(s, s') && s.net <= s'.net && s'.nodes == s.nodes[n := nd.(commit := 2)]
  {
    hide Reaches, QuorumNeeded, Counted;
    ThreeOfFive();
    CountsThree(nd, n, p, q);
    assert |{p, q, n}| == 3;
    ReachStep(s, AdvanceCommit(n, 2));
    s' := Do(s, AdvanceCommit(n, 2));
  }

  lemma CountsThree(nd: Node, n: nat, p: nat, q: nat)
    requires p != q && p != n && q != n && p < 5 && q < 5 && nd.queue == [] && nd.matched == map[p := 2, q := 2]
    ensures Counted(nd, n, 5, 2) == {p, q, n}
  {
    forall x ensures x in Counted(nd, n, 5, 2) <==> x in {p, q, n} { }
  }

  /** A leader's own command, written at once. */
  lemma Proposes(s: State, n: nat, nd: Node, count: nat, cmd: Command) returns (s': State)
    requires HasNode(s, n) && s.nodes[n] == nd && nd.role == Leader
    requires nd == Idle(nd.mem, Leader, nd.votes, nd.matched, nd.commit, nd.termStart, count)
    ensures Reaches(s, s') && s.net <= s'.net
    ensures s'.nodes == s.nodes[n := Idle(nd.mem.(log := nd.mem.log + [Entry(nd.mem.term, cmd)]), Leader, nd.votes, nd.matched, nd.commit, nd.termStart, count + 1)]
  {
    hide Reaches, Image;
    var a := Propose(n, [cmd]);
    ReachStep(s, a);
    var s1 := Do(s, a);
    assert Proposed(nd, [cmd]) == [Entry(nd.mem.term, cmd)];
    OneWrite(s1.nodes[n]);
    s' := Settle(s1, n);
    ReachOn(s, s1, s');
  }

  // ---- The story -------------------------------------------------------------------

  function Noop(t: nat): Entry { Entry(t, "") }

  const First: Log := [Noop(1), Entry(1, "x")]

  function Follows(t: nat, vote: Option<nat>, log: Log, count: nat): Node {
    Idle(Durable(t, vote, log), Follower, map[], map[], 0, 0, count)
  }

  function Leads(t: nat, n: nat, log: Log, votes: map<nat, Log>, matched: map<nat, nat>, commit: nat, start: nat, count: nat): Node {
    Idle(Durable(t, Some(n), log), Leader, votes, matched, commit, start, count)
  }

  /** Term 1: node 0 leads on the votes of 1 and 4, and only node 1 has its entries. The acknowledgement stays in the network. */
  lemma TermOne(s: State) returns (s': State)
    requires s.nodes == [Follows(0, None, [], 0), Follows(0, None, [], 0), Follows(0, None, [], 0), Follows(0, None, [], 0), Follows(0, None, [], 0)]
    ensures Reaches(s, s') && Appended(1, 1, 0, true, 2) in s'.net
    ensures s'.nodes == [Leads(1, 0, First, map[1 := [], 4 := []], map[], 0, 1, 3), Follows(1, Some(0), First, 2),
                         Follows(0, None, [], 0), Follows(0, None, [], 0), Follows(1, Some(0), [], 1)]
  {
    hide Reaches, Enabled, Do;
    var s1 := Campaigns(s, 0, s.nodes[0], 0);
    var m := AskVote(1, 0, 0, 0);
    var s2 := Grants(s1, 1, s1.nodes[1], 0, m);
    var s3 := Grants(s2, 4, s2.nodes[4], 0, m);
    ReachOn(s, s1, s2);
    ReachOn(s, s2, s3);
    var s4 := Wins(s3, 0, s3.nodes[0], 1, 1, [], 4, []);
    ReachOn(s, s3, s4);
    assert [] + [Noop(1)] == [Noop(1)];
    var s5 := Proposes(s4, 0, s4.nodes[0], 2, "x");
    ReachOn(s, s4, s5);
    assert [Noop(1)] + [Entry(1, "x")] == First;
    s' := Replicates(s5, 0, s5.nodes[0], 1, s5.nodes[1], 1);
    ReachOn(s, s5, s');
  }

  /** Term 2: node 2 leads on the votes of 3 and 4, with an empty log, and overwrites node 0. */
  lemma TermTwo(s: State) returns (s': State)
    requires s.nodes == [Leads(1, 0, First, map[1 := [], 4 := []], map[], 0, 1, 3), Follows(1, Some(0), First, 2),
                         Follows(0, None, [], 0), Follows(0, None, [], 0), Follows(1, Some(0), [], 1)]
    ensures Reaches(s, s') && s.net <= s'.net
    ensures s'.nodes == [Follows(2, None, [Noop(2)], 6), Follows(1, Some(0), First, 2),
                         Leads(2, 2, [Noop(2)], map[3 := [], 4 := []], map[], 0, 1, 3), Follows(2, Some(2), [], 1), Follows(2, Some(2), [], 2)]
  {
    hide Reaches, Enabled, Do;
    var s0 := Campaigns(s, 2, s.nodes[2], 0);
    var s1 := Campaigns(s0, 2, s0.nodes[2], 1);
    ReachOn(s, s0, s1);
    var m := AskVote(2, 2, 0, 0);
    var s2 := Grants(s1, 3, s1.nodes[3], 0, m);
    var s3 := Grants(s2, 4, s2.nodes[4], 1, m);
    ReachOn(s, s1, s2);
    ReachOn(s, s2, s3);
    var s4 := Wins(s3, 2, s3.nodes[2], 2, 3, [], 4, []);
    ReachOn(s, s3, s4);
    assert [] + [Noop(2)] == [Noop(2)];
    s' := Replicates(s4, 2, s4.nodes[2], 0, s4.nodes[0], 3);
    ReachOn(s, s4, s');
  }

  /** Term 3: node 0 leads again, counts node 1's old acknowledgement with node 3's, and commits. */
  lemma TermThree(s: State) returns (s': State)
    requires s.nodes == [Follows(2, None, [Noop(2)], 6), Follows(1, Some(0), First, 2),
                         Leads(2, 2, [Noop(2)], map[3 := [], 4 := []], map[], 0, 1, 3), Follows(2, Some(2), [], 1), Follows(2, Some(2), [], 2)]
    requires Appended(1, 1, 0, true, 2) in s.net
    ensures Reaches(s, s')
    ensures s'.nodes == [Leads(3, 0, [Noop(2), Noop(3)], map[3 := [], 4 := []], map[1 := 2, 3 := 2], 2, 2, 8), Follows(1, Some(0), First, 2),
                         Leads(2, 2, [Noop(2)], map[3 := [], 4 := []], map[], 0, 1, 3),
                         Follows(3, Some(0), [Noop(2), Noop(3)], 3), Follows(3, Some(0), [], 3)]
  {
    hide Reaches, Enabled, Do;
    var s1 := Campaigns(s, 0, s.nodes[0], 6);
    var m := AskVote(3, 0, 1, 2);
    var s2 := Grants(s1, 3, s1.nodes[3], 1, m);
    var s3 := Grants(s2, 4, s2.nodes[4], 2, m);
    ReachOn(s, s1, s2);
    ReachOn(s, s2, s3);
    var s4 := Wins(s3, 0, s3.nodes[0], 7, 3, [], 4, []);
    ReachOn(s, s3, s4);
    assert [Noop(2)] + [Noop(3)] == [Noop(2), Noop(3)];
    var s5 := Replicates(s4, 0, s4.nodes[0], 3, s4.nodes[3], 2);
    ReachOn(s, s4, s5);
    var s6 := Takes(s5, 0, s5.nodes[0], Appended(1, 1, 0, true, 2));
    ReachOn(s, s5, s6);
    var s7 := Takes(s6, 0, s6.nodes[0], Appended(3, 3, 0, true, 2));
    ReachOn(s, s6, s7);
    assert s7.nodes[0].matched == map[1 := 2, 3 := 2];
    s' := Commits(s7, 0, s7.nodes[0], 1, 3);
    ReachOn(s, s7, s');
  }

  /** Term 4: node 2 leads on the votes of 1 and 4, who never had the committed entry, and commits its own. */
  lemma TermFour(s: State) returns (s': State)
    requires s.nodes == [Leads(3, 0, [Noop(2), Noop(3)], map[3 := [], 4 := []], map[1 := 2, 3 := 2], 2, 2, 8), Follows(1, Some(0), First, 2),
                         Leads(2, 2, [Noop(2)], map[3 := [], 4 := []], map[], 0, 1, 3),
                         Follows(3, Some(0), [Noop(2), Noop(3)], 3), Follows(3, Some(0), [], 3)]
    ensures Reaches(s, s') && |s'.nodes| == 5 && s'.nodes[0] == s.nodes[0]
    ensures s'.nodes[2] == Leads(4, 2, [Noop(2), Noop(4)], map[1 := First, 4 := []], map[1 := 2, 4 := 2], 2, 2, 6)
  {
    hide Reaches, Enabled, Do;
    var s0 := Campaigns(s, 2, s.nodes[2], 3);
    var s1 := Campaigns(s0, 2, s0.nodes[2], 4);
    ReachOn(s, s0, s1);
    var m := AskVote(4, 2, 1, 2);
    var s2 := Grants(s1, 1, s1.nodes[1], 2, m);
    var s3 := Grants(s2, 4, s2.nodes[4], 3, m);
    ReachOn(s, s1, s2);
    ReachOn(s, s2, s3);
    var s4 := Wins(s3, 2, s3.nodes[2], 5, 1, First, 4, []);
    ReachOn(s, s3, s4);
    assert [Noop(2)] + [Noop(4)] == [Noop(2), Noop(4)];
    var s5 := Replicates(s4, 2, s4.nodes[2], 1, s4.nodes[1], 3);
    var s6 := Replicates(s5, 2, s5.nodes[2], 4, s5.nodes[4], 4);
    ReachOn(s, s4, s5);
    ReachOn(s, s5, s6);
    var s7 := Takes(s6, 2, s6.nodes[2], Appended(4, 1, 2, true, 2));
    var s8 := Takes(s7, 2, s7.nodes[2], Appended(4, 4, 2, true, 2));
    ReachOn(s, s6, s7);
    ReachOn(s, s7, s8);
    assert s8.nodes[2].matched == map[1 := 2, 4 := 2];
    s' := Commits(s8, 2, s8.nodes[2], 1, 4);
    ReachOn(s, s8, s');
  }

  // ---- The result ------------------------------------------------------------------

  predicate SamePolicy(nd: Node, nd': Node) {
    nd'.applied == nd.applied && nd'.latest == nd.latest
  }

  lemma AppendPolicy(nd: Node, n: nat, m: Msg)
    requires m.Append?
    ensures SamePolicy(nd, OnAppend(nd, n, m).0)
  {
  }

  lemma VotePolicy(s: State, n: nat, m: Msg)
    requires HasNode(s, n) && m.Vote?
    ensures |VoteReceived(s, n, m).nodes| == |s.nodes| && forall k :: 0 <= k < |s.nodes| ==> SamePolicy(s.nodes[k], VoteReceived(s, n, m).nodes[k])
  {
    hide ElectionWon;
  }

  lemma CompletePolicy(s: State, n: nat)
    requires HasNode(s, n)
    ensures |Completed(s, n).nodes| == |s.nodes| && forall k :: 0 <= k < |s.nodes| ==> SamePolicy(s.nodes[k], Completed(s, n).nodes[k])
  {
    hide CampaignDue, Kept, Released;
  }

  /** Only a policy step changes a node's policy. */
  lemma PolicyKept(s: State, a: Step, q: int)
    requires Enabled(s, a) && !a.SetPolicy? && C.Shares(s, q)
    ensures C.Shares(Do(s, a), q)
  {
    hide OnAppend, VoteReceived, Completed, Counted, GateOk, UpToDate, QuorumNeeded, StableUpTo;
    match a {
      case RecvVote(n, m) => VotePolicy(s, n, m);
      case RecvAppend(n, m, _) => AppendPolicy(s.nodes[n], n, m);
      case Complete(n) => CompletePolicy(s, n);
      case _ =>
    }
  }

  lemma {:induction false} PathShares(states: seq<State>, steps: seq<Step>, q: int, i: nat)
    requires Path(states, steps) && C.Shares(states[0], q) && i <= |steps|
    ensures C.Shares(states[i], q)
  {
    hide Enabled, Do, C.Shares;
    if i > 0 {
      var j := i - 1;
      PathShares(states, steps, q, j);
      PolicyKept(states[j], steps[j], q);
    }
  }

  /** Both nodes count the index as committed and hold different entries there. */
  predicate Disagree(s: State, a: nat, b: nat, x: nat) {
    && HasNode(s, a) && HasNode(s, b) && 0 < x <= s.nodes[a].commit && x <= s.nodes[b].commit
    && x <= |s.nodes[a].mem.log| && x <= |s.nodes[b].mem.log| && s.nodes[a].mem.log[x - 1] != s.nodes[b].mem.log[x - 1]
  }

  lemma VouchedAgrees(states: seq<State>, steps: seq<Step>, q: int, a: nat, b: nat, x: nat)
    requires CommitSafety.VouchedRun(states, steps, q)
    ensures !Disagree(states[|steps|], a, b, x)
  {
    hide C.Shares, C.Vouched, Enabled, Do;
    var k := |steps|;
    if HasNode(states[k], a) && HasNode(states[k], b) && 0 < x <= states[k].nodes[a].commit && x <= states[k].nodes[b].commit {
      CommitSafety.StateMachineSafety(states, steps, q, k, k, a, b, x);
      var l, l' := states[k].nodes[a].mem.log, states[k].nodes[b].mem.log;
      assert l[x - 1] == l[..x][x - 1] == l'[..x][x - 1];
    }
  }

  /** Wherever two nodes disagree under a shared policy, some leader took a result nobody vouched for. */
  lemma DisagreementIsUnvouched(states: seq<State>, steps: seq<Step>, q: int, a: nat, b: nat, x: nat)
    requires Run(states, steps) && (forall i :: 0 <= i < |states| ==> C.Shares(states[i], q)) && Disagree(states[|steps|], a, b, x)
    ensures exists i :: 0 <= i < |steps| && !C.Vouched(states[i], steps[i])
  {
    hide C.Shares, C.Vouched, Enabled, Do;
    if forall i :: 0 <= i < |steps| ==> C.Vouched(states[i], steps[i]) {
      VouchedAgrees(states, steps, q, a, b, x);
    }
  }

  /**
    Commit safety fails when results are not vouched for: under one policy that
    nobody changes and without a crash, some run of the handlers ends with two
    nodes that have committed different entries at index 2.
   */
  lemma StaleResultBreaksSafety() returns (states: seq<State>, steps: seq<Step>)
    ensures Run(states, steps)
    ensures forall i :: 0 <= i < |states| ==> C.Shares(states[i], 0)
    ensures forall i :: 0 <= i < |steps| ==> !steps[i].Crash?
    ensures Disagree(states[|steps|], 0, 2, 2)
    ensures exists i :: 0 <= i < |steps| && !C.Vouched(states[i], steps[i])
  {
    hide Enabled, Do;
    var o := Follows(0, None, [], 0);
    var s := State([o, o, o, o, o], {}, History(map[], map[], {}));
    assert Init(s) && C.Shares(s, 0);
    var t := Story(s);
    states, steps :| Joins(states, steps, s, t);
    forall i | 0 <= i < |states| ensures C.Shares(states[i], 0) { PathShares(states, steps, 0, i); }
    DisagreementIsUnvouched(states, steps, 0, 0, 2, 2);
  }

  lemma Story(s: State) returns (t: State)
    requires s.nodes == [Follows(0, None, [], 0), Follows(0, None, [], 0), Follows(0, None, [], 0), Follows(0, None, [], 0), Follows(0, None, [], 0)]
    ensures Reaches(s, t) && Disagree(t, 0, 2, 2)
  {
    hide Reaches;
    var s1 := TermOne(s);
    var s2 := TermTwo(s1);
    ReachOn(s, s1, s2);
    var s3 := TermThree(s2);
    ReachOn(s, s2, s3);
    t := TermFour(s3);
    ReachOn(s, s3, t);
  }
}
