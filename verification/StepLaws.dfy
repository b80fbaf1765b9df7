/**
  What the protocol's steps do to a node and to what it says, stated on the
  fields alone: who gets a vote, what an append leaves in the log and in the
  commit index, what an acknowledgement counts for, what a completed write
  releases. The safety results say what never happens; these say what does.
 */
module StepLaws {
  import opened Wrappers
  import opened Quorum
  import opened Protocol

  // ---- Votes ------------------------------------------------------------------

  /** The election restriction and the one vote of a term, as one condition on the request and the node before it. */
  predicate Deserves(term: nat, vote: Option<nat>, log: Log, mterm: nat, from: nat, lastIndex: nat, lastTerm: nat) {
    && (mterm > term || (mterm == term && (vote == None || vote == Some(from))))
    && (log == [] || lastTerm > log[|log| - 1].term || (lastTerm == log[|log| - 1].term && lastIndex >= |log|))
  }

  /** A vote is granted exactly when the candidate deserves it, and what is granted is remembered and on its way to disk. */
  lemma VoteGrantedExactly(nd: Node, n: nat, m: Msg)
    requires m.AskVote?
    ensures var (nd', r) := OnAskVote(nd, n, m);
      var granted := Deserves(nd.mem.term, nd.mem.vote, nd.mem.log, m.term, m.from, m.lastIndex, m.lastTerm);
      var later := m.term > nd.mem.term;
      && r == Vote(if later then m.term else nd.mem.term, n, m.from, granted, nd.mem.log)
      && nd'.mem.term == r.term && nd'.mem.log == nd.mem.log
      && nd'.mem.vote == (if granted then Some(m.from) else if later then None else nd.mem.vote)
      && nd'.queue == nd.queue + (if granted || later then [SaveHard(nd'.mem.term, nd'.mem.vote)] else [])
      && nd'.role == (if later then Follower else nd.role) && (later ==> nd'.votes == map[] && nd'.matched == map[])
      && nd'.commit == nd.commit && nd'.held == nd.held && nd'.completed == nd.completed && nd'.landed == nd.landed && nd'.disk == nd.disk
  {
  }

  /** Standing: a new term, the own vote, and a campaign that waits for the write that holds both. */
  lemma StandingAsks(nd: Node, n: nat)
    ensures var nd' := Stood(nd, n);
      var t, own := nd.mem.term + 1, nd.landed + |nd.queue| + 1;
      && nd'.mem == Durable(t, Some(n), nd.mem.log) && nd'.queue == nd.queue + [SaveHard(t, Some(n))]
      && nd'.role == Candidate && nd'.votes == map[] && nd'.commit == nd.commit && nd'.termStart == 0
      && nd'.held == nd.held + {Held(own, Campaign(t)), Held(own, Send(Vote(t, n, n, true, nd.mem.log)))}
      && nd'.disk == nd.disk && nd'.landed == nd.landed && nd'.completed == nd.completed
  {
  }

  /** A vote counts once for its sender in the candidate's own term, and the quorum it completes makes a leader at once. */
  lemma VoteCounted(s: State, n: nat, m: Msg)
    requires HasNode(s, n) && m.Vote?
    ensures var nd, s' := s.nodes[n], VoteReceived(s, n, m);
      var counts := m.term == nd.mem.term && nd.role == Candidate && m.granted;
      var wins := counts && |nd.votes.Keys + {m.from, n}| >= QuorumNeeded(ForElection, nd.applied, nd.latest, |s.nodes|);
      && s'.net == s.net && |s'.nodes| == |s.nodes| && (forall o :: 0 <= o < |s.nodes| && o != n ==> s'.nodes[o] == s.nodes[o])
      && (counts ==> s'.nodes[n].votes.Keys == nd.votes.Keys + {m.from} && s'.nodes[n].votes[m.from] == m.log && s'.nodes[n].mem.term == nd.mem.term)
      && (counts ==> (s'.nodes[n].role == Leader <==> wins))
      && (counts && !wins ==> s'.hist == s.hist && s'.nodes[n].mem == nd.mem && s'.nodes[n].queue == nd.queue)
      && (!counts && m.term <= nd.mem.term ==> s' == s)
      && (m.term > nd.mem.term ==> s'.nodes[n].role == Follower && s'.nodes[n].mem == Durable(m.term, None, nd.mem.log)
                                   && s'.nodes[n].queue == nd.queue + [SaveHard(m.term, None)])
  {
    var nd := s.nodes[n];
    assert nd.votes[m.from := m.log].Keys + {n} == nd.votes.Keys + {m.from, n};
  }

  /** A new leader: the no-op of its term at the end of its log, and nothing acknowledged yet. */
  lemma LeadersStart(s: State, n: nat)
    requires HasNode(s, n)
    ensures var nd, s' := s.nodes[n], Elected(s, n);
      var nd' := s'.nodes[n];
      && nd'.role == Leader && nd'.mem == nd.mem.(log := nd.mem.log + [Entry(nd.mem.term, "")])
      && nd'.queue == nd.queue + [AppendAt(|nd.mem.log|, [Entry(nd.mem.term, "")])]
      && nd'.termStart == |nd'.mem.log| && nd'.matched == map[] && nd'.commit == nd.commit && nd'.held == nd.held
      && s'.net == s.net && (forall o :: 0 <= o < |s.nodes| && o != n ==> s'.nodes[o] == s.nodes[o])
      && nd.mem.term in s'.hist.logs && s'.hist.logs[nd.mem.term] == nd'.mem.log
      && nd.mem.term in s'.hist.wins && s'.hist.wins[nd.mem.term].leader == n && s'.hist.wins[nd.mem.term].ballots.Keys == nd.votes.Keys + {n}
  {
    assert s.nodes[n].votes[n := s.nodes[n].mem.log].Keys == s.nodes[n].votes.Keys + {n};
  }

  // ---- Appends ----------------------------------------------------------------

  /** The request follows on from what the log holds. */
  predicate FollowsOn(log: Log, prev: nat, prevTerm: nat) {
    prev == 0 || (prev <= |log| && log[prev - 1].term == prevTerm)
  }

  /** The log holds the entries, by their terms, after its first `prev`. */
  predicate Has(log: Log, prev: nat, entries: Log) {
    prev + |entries| <= |log| && forall k :: 0 <= k < |entries| ==> log[prev + k].term == entries[k].term
  }

  /** An append is acknowledged exactly when it follows on, and then takes the commit index along as far as it reaches. */
  lemma AppendAnsweredExactly(nd: Node, n: nat, m: Msg)
    requires m.Append?
    ensures var (nd', r) := OnAppend(nd, n, m);
      var later := m.term > nd.mem.term;
      var accepted := m.term >= nd.mem.term && FollowsOn(nd.mem.log, m.prev, m.prevTerm);
      var covered := m.prev + |m.entries|;
      var follows := if m.commit < covered then m.commit else covered;
      && r == Appended(if later then m.term else nd.mem.term, n, m.from, accepted, if accepted && m.entries != [] then covered else 0)
      && nd'.mem.term == r.term && nd'.mem.vote == (if later then None else nd.mem.vote)
      && nd'.commit == (if accepted && follows > nd.commit then follows else nd.commit)
      && (accepted ==> Has(nd'.mem.log, m.prev, m.entries))
      && (!accepted ==> nd'.mem.log == nd.mem.log)
      && (m.term < nd.mem.term ==> nd' == nd)
      && (m.term >= nd.mem.term ==> nd'.role == Follower && nd'.votes == map[] && nd'.matched == map[] && nd'.termStart == 0)
      && nd'.held == nd.held && nd'.completed == nd.completed && nd'.landed == nd.landed && nd'.disk == nd.disk
  {
    hide Has, Divergence;
    if m.term >= nd.mem.term && FollowsOn(nd.mem.log, m.prev, m.prevTerm) {
      AcceptHas(Protocol.BecomeFollower(nd, m.term), m.prev, m.entries);
    }
  }

  /**
    What an append makes of a log: nothing is cut from one that has the entries
    already; otherwise it becomes the part both have and, after it, what was sent.
   */
  ghost predicate Merged(log: Log, log': Log, prev: nat, entries: Log) {
    if Has(log, prev, entries) then log' == log
    else exists j :: 0 <= j < |entries| && Parting(log, prev, entries, j) && log' == log[..prev + j] + entries[j..]
  }

  /** The log has the first `j` of the entries and not the next one. */
  predicate Parting(log: Log, prev: nat, entries: Log, j: nat)
    requires j < |entries|
  {
    Has(log, prev, entries[..j]) && !(prev + j < |log| && log[prev + j].term == entries[j].term)
  }

  lemma DivergenceParts(log: Log, prev: nat, entries: Log)
    requires prev <= |log|
    ensures var j := Divergence(log, prev, entries);
      (j == |entries| <==> Has(log, prev, entries)) && (j < |entries| ==> Parting(log, prev, entries, j))
  {
    hide DivergenceFrom, Divergence;
    var j := Divergence(log, prev, entries);
    if j > 0 { assert HasEntry(log, prev, entries, j - 1); }
    assert Has(log, prev, entries[..j]) by {
      forall k | 0 <= k < j ensures log[prev + k].term == entries[..j][k].term { assert HasEntry(log, prev, entries, k); }
    }
    if j == |entries| { assert entries[..j] == entries; }
  }

  lemma AcceptMerges(nd: Node, prev: nat, entries: Log)
    requires prev <= |nd.mem.log|
    ensures Merged(nd.mem.log, Accept(nd, prev, entries).mem.log, prev, entries)
    ensures Has(Accept(nd, prev, entries).mem.log, prev, entries)
  {
    hide Divergence;
    DivergenceParts(nd.mem.log, prev, entries);
    AcceptHas(nd, prev, entries);
    var log, j := nd.mem.log, Divergence(nd.mem.log, prev, entries);
    if j < |entries| { assert Accept(nd, prev, entries).mem.log == log[..prev + j] + entries[j..]; }
  }

  lemma AcceptHas(nd: Node, prev: nat, entries: Log)
    requires prev <= |nd.mem.log|
    ensures Has(Accept(nd, prev, entries).mem.log, prev, entries)
  {
    hide DivergenceFrom, Divergence;
    var log, j, log' := nd.mem.log, Divergence(nd.mem.log, prev, entries), Accept(nd, prev, entries).mem.log;
    if j > 0 { assert HasEntry(log, prev, entries, j - 1); }
    forall k | 0 <= k < |entries| ensures prev + k < |log'| && log'[prev + k].term == entries[k].term {
      if k < j { assert HasEntry(log, prev, entries, k); }
    }
  }

  lemma AppendMerges(nd: Node, n: nat, m: Msg)
    requires m.Append? && m.term >= nd.mem.term && FollowsOn(nd.mem.log, m.prev, m.prevTerm)
    ensures Merged(nd.mem.log, OnAppend(nd, n, m).0.mem.log, m.prev, m.entries)
  {
    hide Has, Parting, Divergence, Merged, Accept;
    AcceptMerges(Protocol.BecomeFollower(nd, m.term), m.prev, m.entries);
  }

  /** What a leader sends is a piece of its log, the term before it, and its commit index. */
  lemma AppendCarriesTheLog(s: State, n: nat, to: nat, prev: nat, len: nat)
    requires Enabled(s, SendAppend(n, to, prev, len))
    ensures var nd, s' := s.nodes[n], Do(s, SendAppend(n, to, prev, len));
      && s'.nodes == s.nodes && s'.hist == s.hist
      && exists m: Msg :: m.Append? && s'.net == s.net + {m} && m.term == nd.mem.term && m.from == n && m.to == to && m.commit == nd.commit
           && m.prev == prev && (prev > 0 ==> m.prevTerm == nd.mem.log[prev - 1].term)
           && |m.entries| == len && forall k :: 0 <= k < len ==> m.entries[k] == nd.mem.log[prev + k]
  {
    var nd := s.nodes[n];
    var m := Append(nd.mem.term, n, to, prev, TermAt(nd.mem.log, prev), nd.mem.log[prev..prev + len], nd.commit);
    assert Do(s, SendAppend(n, to, prev, len)).net == s.net + {m};
  }

  /** A batch of commands becomes entries of the leader's term, one each and in order, at the end of its log. */
  lemma ProposalsKeepOrder(s: State, n: nat, cmds: seq<Command>)
    requires Enabled(s, Propose(n, cmds))
    ensures var nd, nd' := s.nodes[n], Do(s, Propose(n, cmds)).nodes[n];
      var old_ := |nd.mem.log|;
      && |nd'.mem.log| == old_ + |cmds| && nd'.mem.log[..old_] == nd.mem.log
      && (forall i :: 0 <= i < |cmds| ==> nd'.mem.log[old_ + i] == Entry(nd.mem.term, cmds[i]))
      && nd'.queue == nd.queue + [AppendAt(old_, nd'.mem.log[old_..])]
  {
    var nd, nd' := s.nodes[n], Do(s, Propose(n, cmds)).nodes[n];
    assert nd'.mem.log[|nd.mem.log|..] == Proposed(nd, cmds);
  }

  // ---- Acknowledgements and commitment ------------------------------------------

  /** A success raises what its sender is known to hold and never lowers it; nobody else's figure moves. */
  lemma ResultCounted(nd: Node, m: Msg)
    requires m.Appended?
    ensures var nd' := ResultReceived(nd, m);
      var counts := m.term <= nd.mem.term && nd.role == Leader && m.success && m.last > 0;
      && (counts ==>
            && nd' == nd.(matched := nd'.matched) && nd'.matched.Keys == nd.matched.Keys + {m.from}
            && nd'.matched[m.from] >= m.last && (m.from in nd.matched ==> nd'.matched[m.from] >= nd.matched[m.from])
            && (nd'.matched[m.from] == m.last || (m.from in nd.matched && nd'.matched[m.from] == nd.matched[m.from]))
            && forall p :: p in nd.matched && p != m.from ==> nd'.matched[p] == nd.matched[p])
      && (!counts && m.term <= nd.mem.term ==> nd' == nd)
      && (m.term > nd.mem.term ==> nd'.role == Follower && nd'.mem == Durable(m.term, None, nd.mem.log) && nd'.queue == nd.queue + [SaveHard(m.term, None)]
                                   && nd'.commit == nd.commit && nd'.held == nd.held)
  {
  }

  /** Who counts for an index: peers that acknowledged it, and the leader itself once its own disk has the log that far. */
  lemma CountedExactly(nd: Node, n: nat, total: nat, index: nat, p: nat)
    ensures p in Counted(nd, n, total, index) <==>
      if p == n then
        forall k :: 0 <= k < |nd.queue| ==>
          (nd.queue[k].AppendAt? ==> nd.queue[k].at >= index) && (nd.queue[k].TruncateTo? ==> nd.queue[k].keep >= index)
      else p < total && p in nd.matched && nd.matched[p] >= index
  {
    if p == n && StableUpTo(nd, index) {
      forall k | 0 <= k < |nd.queue|
        ensures (nd.queue[k].AppendAt? ==> nd.queue[k].at >= index) && (nd.queue[k].TruncateTo? ==> nd.queue[k].keep >= index)
      {
        assert !Touches(nd.queue[k], index);
      }
    }
  }

  /** Committing moves the one index and puts the quorum on record. */
  lemma CommitMoves(s: State, n: nat, index: nat)
    requires Enabled(s, AdvanceCommit(n, index))
    ensures var nd, s' := s.nodes[n], Do(s, AdvanceCommit(n, index));
      && s'.nodes == s.nodes[n := nd.(commit := index)] && index > nd.commit
      && s'.hist.commits == s.hist.commits + {Commit(nd.mem.term, index, Counted(nd, n, |s.nodes|, index))}
  {
  }

  // ---- The gate -----------------------------------------------------------------

  /** A reply leaves at once when its write has completed; otherwise it waits, and nothing has been said. */
  lemma EmitsOrHolds(s: State, n: nat, gate: nat, m: Msg)
    requires HasNode(s, n)
    ensures var nd, s' := s.nodes[n], Emit(s, n, gate, m);
      && s'.hist == s.hist
      && (gate <= nd.completed ==> s'.nodes == s.nodes && s'.net == s.net + {m})
      && (gate > nd.completed ==> s'.net == s.net && s'.nodes == s.nodes[n := nd.(held := nd.held + {Held(gate, Send(m))})])
  {
  }

  /** A completed write releases what waited for it and nothing else; what waits for later writes stays. */
  lemma CompletionReleases(s: State, n: nat)
    requires HasNode(s, n)
    ensures var nd, s' := s.nodes[n], Completed(s, n);
      var c, nd' := nd.completed + 1, s'.nodes[n];
      var due := nd.role == Candidate && exists h :: h in nd.held && h.gate <= c && h.act == Campaign(nd.mem.term);
      var ask := AskVote(nd.mem.term, n, |nd.mem.log|, if nd.mem.log == [] then 0 else nd.mem.log[|nd.mem.log| - 1].term);
      && nd'.completed == c && s.net <= s'.net
      && (forall h :: h in nd'.held <==> h in nd.held && h.gate > c)
      && (forall h :: h in nd.held && h.gate <= c && h.act.Send? ==> h.act.msg in s'.net)
      && (forall m :: m in s'.net - s.net ==> (due && m == ask) || exists h :: h in nd.held && h.gate <= c && h.act == Send(m))
      && (due && |s.nodes| > 1 ==> ask in s'.net)
      && (due && |s.nodes| == 1 ==> nd'.role == Leader)
      && (!due || |s.nodes| > 1 ==> nd' == nd.(completed := c, held := nd'.held))
  {
    var nd := s.nodes[n].(completed := s.nodes[n].completed + 1);
    forall h | h in nd.held && h.gate <= nd.completed && h.act.Send? ensures h.act.msg in Released(nd) {}
    forall m | m in Released(nd) ensures exists h :: h in nd.held && h.gate <= nd.completed && h.act == Send(m) {
      var h :| h in nd.held && h.gate <= nd.completed && h.act.Send? && h.act.msg == m;
      assert h.act == Send(m);
    }
  }

  /** A crash keeps the disk and the configuration and nothing else. */
  lemma CrashKeepsTheDisk(s: State, n: nat)
    requires HasNode(s, n)
    ensures var nd, s' := s.nodes[n], Do(s, Crash(n));
      var nd' := s'.nodes[n];
      && nd'.mem == nd.disk == nd'.disk && nd'.queue == [] && nd'.held == {} && nd'.role == Follower && nd'.commit == 0
      && s'.net == s.net && s'.hist == s.hist && nd'.applied == nd.applied && nd'.latest == nd.latest
  {
  }
}
