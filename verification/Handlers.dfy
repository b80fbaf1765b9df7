/**
  One node's event loop: the handlers that answer requests, count votes and
  acknowledgements and move the commit index, and the gate that holds back
  whatever depends on a write. Each is proved to do what the protocol's steps
  say a node does.
 */
module Handlers {

  import opened Wrappers
  import opened Quorum
  import opened Protocol
  import opened StepLaws
  import opened Selection
  import FastBackup
  import BackupInRuns

  /** Work that waits for a write: a reply, or the start of a campaign. */
  datatype Reply =
    | VoteReply(term: nat, to: nat, granted: bool)
    | AppendReply(term: nat, to: nat, success: bool, last: nat)
    | Solicit(term: nat)

  datatype Waiting = Waiting(seq_: nat, reply: Reply)

  /** The reply as the protocol sees it; `then_` is the log when it was decided. */
  function MsgOf(id: nat, r: Reply, then_: Log): Msg
    requires !r.Solicit?
  {
    match r
    case VoteReply(t, to, granted) => Vote(t, id, to, granted, then_)
    case AppendReply(t, to, success, last) => Appended(t, id, to, success, last)
  }

  /** A candidate's campaign carries its vote for itself. */
  function ActsOf(id: nat, r: Reply, then_: Log): set<Action> {
    if r.Solicit? then {Send(Vote(r.term, id, id, true, then_)), Campaign(r.term)}
    else {Send(MsgOf(id, r, then_))}
  }

  ghost function HeldOf(id: nat, ws: seq<Waiting>, logs: seq<Log>): set<Held>
    requires |ws| == |logs|
  {
    set i, a | 0 <= i < |ws| && a in ActsOf(id, ws[i].reply, logs[i]) :: Held(ws[i].seq_, a)
  }

  lemma HeldMore(id: nat, ws: seq<Waiting>, logs: seq<Log>, w: Waiting, log: Log)
    requires |ws| == |logs|
    ensures HeldOf(id, ws + [w], logs + [log]) == HeldOf(id, ws, logs) + (set a | a in ActsOf(id, w.reply, log) :: Held(w.seq_, a))
  {
    var ws', logs' := ws + [w], logs + [log];
    forall h | h in HeldOf(id, ws, logs) ensures h in HeldOf(id, ws', logs') {
      var i, a :| 0 <= i < |ws| && a in ActsOf(id, ws[i].reply, logs[i]) && h == Held(ws[i].seq_, a);
      assert ws'[i] == ws[i] && logs'[i] == logs[i];
    }
    forall a | a in ActsOf(id, w.reply, log) ensures Held(w.seq_, a) in HeldOf(id, ws', logs') {
      assert ws'[|ws|] == w && logs'[|ws|] == log;
    }
  }

  function Campaigning(id: nat, w: Waiting, log: Log): set<Held>
    requires w.reply.Solicit?
  {
    {Held(w.seq_, Send(Vote(w.reply.term, id, id, true, log))), Held(w.seq_, Campaign(w.reply.term))}
  }

  lemma HeldReply(id: nat, ws: seq<Waiting>, logs: seq<Log>, w: Waiting, log: Log)
    requires |ws| == |logs|
    ensures !w.reply.Solicit? ==> HeldOf(id, ws + [w], logs + [log]) == HeldOf(id, ws, logs) + {Held(w.seq_, Send(MsgOf(id, w.reply, log)))}
    ensures w.reply.Solicit? ==> HeldOf(id, ws + [w], logs + [log]) == HeldOf(id, ws, logs) + Campaigning(id, w, log)
  {
    hide HeldOf;
    HeldMore(id, ws, logs, w, log);
    if w.reply.Solicit? {
      assert (set a | a in ActsOf(id, w.reply, log) :: Held(w.seq_, a)) ==
        {Held(w.seq_, Send(Vote(w.reply.term, id, id, true, log))), Held(w.seq_, Campaign(w.reply.term))};
    } else {
      assert (set a | a in ActsOf(id, w.reply, log) :: Held(w.seq_, a)) == {Held(w.seq_, Send(MsgOf(id, w.reply, log)))};
    }
  }

  /** `afterWrite`: a message leaves at once when its write has completed and is held otherwise. */
  ghost predicate Emitted(before: Node, after: Node, sent: set<Msg>, sent': set<Msg>, gate: nat, m: Msg) {
    if gate <= before.completed then after == before && sent' == sent + {m}
    else after == before.(held := before.held + {Held(gate, Send(m))}) && sent' == sent
  }

  /** The same on the list a node keeps: one more reply at its end, or one more message out. */
  ghost predicate Answered(gate: nat, r: Reply, completed: nat, ws: seq<Waiting>, ws': seq<Waiting>, m: Msg, sent: set<Msg>, sent': set<Msg>) {
    if gate <= completed then ws' == ws && sent' == sent + {m} else ws' == ws + [Waiting(gate, r)] && sent' == sent
  }

  /** Every hard-state write still on its way is numbered no later than `unsafe`. */
  predicate TermsCovered(queue: seq<WriteOp>, landed: nat, unsafe: nat) {
    forall k :: 0 <= k < |queue| && queue[k].SaveHard? ==> landed + k < unsafe
  }

  /** No write numbered after `g` changes the log up to `upto`. */
  predicate Covers(queue: seq<WriteOp>, landed: nat, g: nat, upto: nat) {
    forall k :: 0 <= k < |queue| && g <= landed + k ==> !Touches(queue[k], upto)
  }

  lemma CoversNothing(queue: seq<WriteOp>, landed: nat, g: nat)
    ensures Covers(queue, landed, g, 0)
  {
  }

  lemma CoversMore(queue: seq<WriteOp>, landed: nat, g: nat, g': nat, upto: nat)
    requires Covers(queue, landed, g, upto) && g <= g'
    ensures Covers(queue, landed, g', upto)
  {
  }

  /** Voters other than this node. */
  predicate Others(s: set<nat>, id: nat, total: nat) {
    forall p :: p in s ==> p < total && p != id
  }

  /** The peers whose acknowledgements reach `index`. */
  ghost function Reached(matchIndex: map<nat, nat>, id: nat, total: nat, index: nat): set<nat> {
    set p | p in matchIndex && p < total && p != id && matchIndex[p] >= index
  }

  /** None of the writes changes what the log holds up to `upto`. */
  predicate Untouched(ops: seq<WriteOp>, upto: nat) {
    forall k :: 0 <= k < |ops| ==> !Touches(ops[k], upto)
  }

  /** How many voters a leader counts for an index: itself only if no write it has not seen completed touches that far. */
  ghost function Tally(matchIndex: map<nat, nat>, id: nat, total: nat, index: nat, unseen: seq<WriteOp>): nat {
    |Reached(matchIndex, id, total, index)| + if Untouched(unseen, index) then 1 else 0
  }

  lemma UntouchedMore(ops: seq<WriteOp>, op: WriteOp, upto: nat)
    ensures Untouched(ops + [op], upto) <==> Untouched(ops, upto) && !Touches(op, upto)
  {
    if Untouched(ops + [op], upto) {
      assert (ops + [op])[|ops|] == op;
      forall k | 0 <= k < |ops| ensures !Touches(ops[k], upto) { assert (ops + [op])[k] == ops[k]; }
    }
  }

  /** What winning makes of a node: the no-op of its term is in its log, its write on the way. */
  function Crowned(nd: Node): Node {
    AppendTo(nd, [Entry(nd.mem.term, "")]).(role := Leader, matched := map[], termStart := |nd.mem.log| + 1)
  }

  lemma CrownedIsElected(s: State, n: nat)
    requires HasNode(s, n)
    ensures Elected(s, n).nodes[n] == Crowned(s.nodes[n])
  {
  }

  /** What a handler holds back or sends is what the protocol's step does with its reply. */
  lemma EmittedIsEmit(s: State, n: nat, nd: Node, nd': Node, sent: set<Msg>, sent': set<Msg>, gate: nat, m: Msg)
    requires HasNode(s, n) && Emitted(nd, nd', sent, sent', gate, m) && sent <= s.net
    ensures Emit(Put(s, n, nd), n, gate, m) == State(s.nodes[n := nd'], s.net + sent', s.hist)
  {
  }

  /** What a completion releases is what the protocol's step releases, the start of a campaign included. */
  lemma CompletionIsStep(s: State, n: nat)
    requires HasNode(s, n)
    ensures var (nd, out) := OneCompleted(s.nodes[n], s.net, n, |s.nodes|);
      Completed(s, n).nodes == s.nodes[n := nd] && Completed(s, n).net == out
  {
    hide Kept, Released, CampaignDue;
    var nd := s.nodes[n].(completed := s.nodes[n].completed + 1);
    if CampaignDue(nd) && |s.nodes| == 1 {
      CrownedIsElected(Put(s, n, nd.(held := Kept(nd))).(net := s.net + Released(nd)), n);
    }
  }

  /** Counting set members one candidate at a time. */
  method CountIn(s: set<nat>, id: nat, total: nat) returns (count: nat)
    requires Others(s, id, total)
    ensures count == |s|
  {
    count := 0;
    ghost var seen: set<nat> := {};
    for p := 0 to total
      invariant seen == set x | x in s && x < p
      invariant count == |seen|
    {
      if p != id && p in s {
        count := count + 1;
        seen := seen + {p};
      }
    }
    assert seen == s;
  }

  const RECORD_INTERVAL := 256

  class NodeLoop {
    const id: nat
    const total: nat          // the voters are 0, 1, ..., total - 1

    var term: nat
    var vote: Option<nat>
    var role: Role
    var votes: set<nat>
    var nextIndex: map<nat, nat>
    var matchIndex: map<nat, nat>   // a peer that is not in it counts as 0
    var commit: nat
    var termStart: nat
    var log: Log
    var applied: int
    var latest: int
    var recorded: nat               // the commit index last handed to storage

    // Writes are numbered from 1; `nextSeq` is the last number handed out.
    var nextSeq: nat
    var unsafeTermSeq: nat
    var completedSeq: nat
    var waiting: seq<Waiting>

    // The writer's side, and what has been said. `flying` has landed and not been seen to complete.
    var flying: seq<WriteOp>
    var queue: seq<WriteOp>
    var landed: nat
    ghost var disk: Durable
    ghost var ballots: map<nat, Log>
    ghost var logsThen: seq<Log>
    ghost var sent: set<Msg>

    ghost predicate Valid()
      reads this
    {
      && nextSeq == landed + |queue| && completedSeq + |flying| == landed && unsafeTermSeq <= nextSeq
      && TermsCovered(queue, landed, unsafeTermSeq)
      && |logsThen| == |waiting| && ballots.Keys == votes && id < total && Others(votes, id, total)
      && (forall i :: 0 <= i < |waiting| ==> completedSeq < waiting[i].seq_ <= nextSeq)
    }

    /** This node as the protocol sees it. */
    ghost function Abs(): Node
      reads this
      requires |logsThen| == |waiting|
    {
      Node(Durable(term, vote, log), role, if role == Follower then map[] else ballots, matchIndex,
           commit, termStart, HeldOf(id, waiting, logsThen), completedSeq, landed, queue, disk, applied, latest)
    }

    /** Coming up on what the disk holds: a follower, with nothing in flight. */
    constructor (id: nat, total: nat, stored: Durable, applied: int, latest: int)
      requires id < total
      ensures Valid() && sent == {}
      ensures Abs() == Node(stored, Follower, map[], map[], 0, 0, {}, 0, 0, [], stored, applied, latest)
    {
      this.id, this.total, this.applied, this.latest := id, total, applied, latest;
      term, vote, log, disk := stored.term, stored.vote, stored.log, stored;
      role, votes, nextIndex, matchIndex, commit, termStart := Follower, {}, map[], map[], 0, 0;
      recorded := 0;
      nextSeq, unsafeTermSeq, completedSeq, waiting, flying, queue, landed := 0, 0, 0, [], [], [], 0;
      ballots, logsThen, sent := map[], [], {};
    }

    // ---- The gate -----------------------------------------------------------------

    method NextWrite(op: WriteOp) returns (s: nat)
      modifies this`nextSeq, this`queue
      ensures s == nextSeq == old(nextSeq) + 1 && queue == old(queue) + [op]
    {
      nextSeq := nextSeq + 1;
      queue := queue + [op];
      return nextSeq;
    }

    /** The term and the vote take effect at once; nothing may leave in them until the write has completed. */
    method SaveTerm(t: nat, v: Option<nat>) returns (s: nat)
      requires Valid()
      modifies this`nextSeq, this`queue, this`unsafeTermSeq, this`term, this`vote
      ensures Valid() && s == nextSeq == unsafeTermSeq && Abs() == Saved(old(Abs()), t, v)
    {
      hide HeldOf;
      s := NextWrite(SaveHard(t, v));
      unsafeTermSeq := s;
      term, vote := t, v;
    }

    /** What a message produced now has to wait for: its own write, and the term it states. */
    method SendGate(writeSeq: nat) returns (gate: nat)
      requires Valid() && writeSeq <= nextSeq
      ensures gate <= nextSeq && writeSeq <= gate
      ensures forall upto :: Covers(queue, landed, writeSeq, upto) ==> GateOk(Abs(), gate, upto)
    {
      gate := if unsafeTermSeq > writeSeq then unsafeTermSeq else writeSeq;
    }

    method AfterWrite(gate: nat, r: Reply, ghost then_: Log)
      requires Valid() && gate <= nextSeq && !r.Solicit?
      modifies this`waiting, this`logsThen, this`sent
      ensures Valid() && Emitted(old(Abs()), Abs(), old(sent), sent, gate, MsgOf(id, r, then_))
      ensures Answered(gate, r, completedSeq, old(waiting), waiting, MsgOf(id, r, then_), old(sent), sent)
    {
      hide HeldOf;
      if gate == 0 || gate <= completedSeq {
        sent := sent + {MsgOf(id, r, then_)};
      } else {
        HeldReply(id, waiting, logsThen, Waiting(gate, r), then_);
        waiting := waiting + [Waiting(gate, r)];
        logsThen := logsThen + [then_];
      }
    }

    // ---- Transitions ----------------------------------------------------------------

    method StepDown()
      requires Valid()
      modifies this`role, this`nextIndex, this`matchIndex, this`termStart
      ensures Valid() && Abs() == Demoted(old(Abs()))
    {
      hide HeldOf, TermsCovered;
      role, nextIndex, matchIndex, termStart := Follower, map[], map[], 0;
    }

    method BecomeFollower(t: nat)
      requires Valid()
      modifies this
      ensures Valid() && Abs() == Protocol.BecomeFollower(old(Abs()), t) && sent == old(sent) && waiting == old(waiting)
    {
      if t > term { var _ := SaveTerm(t, None); }
      StepDown();
    }

    method StartCandidacy()
      requires Valid()
      modifies this`role, this`votes, this`ballots, this`nextIndex, this`matchIndex, this`termStart
      ensures Valid() && Abs() == Demoted(old(Abs())).(role := Candidate)
    {
      hide HeldOf, TermsCovered;
      StepDown();
      role, votes, ballots := Candidate, {}, map[];
    }

    method HoldCampaign(s: nat)
      requires Valid() && completedSeq < s <= nextSeq
      modifies this`waiting, this`logsThen
      ensures Valid() && Abs() == old(Abs()).(held := old(Abs()).held + Campaigning(id, Waiting(s, Solicit(term)), log))
    {
      hide HeldOf, TermsCovered;
      HeldReply(id, waiting, logsThen, Waiting(s, Solicit(term)), log);
      waiting, logsThen := waiting + [Waiting(s, Solicit(term))], logsThen + [log];
    }

    /** Standing: the campaign waits for the write that holds the new term and the vote for oneself. */
    method BecomeCandidate()
      requires Valid()
      modifies this
      ensures Valid() && Abs() == Stood(old(Abs()), id) && sent == old(sent)
    {
      hide HeldOf, TermsCovered;
      var s := SaveTerm(term + 1, Some(id));
      StartCandidacy();
      HoldCampaign(s);
    }

    /** The election restriction, against the log in memory. */
    predicate IsUpToDate(lastIndex: nat, lastTerm: nat)
      reads this
    {
      if lastTerm != LastTerm(log) then lastTerm > LastTerm(log) else lastIndex >= |log|
    }

    // ---- Votes ------------------------------------------------------------------------

    /**
      A vote is granted exactly to a candidate that deserves it; it is then in
      memory and on its way to disk, and the reply waits for that write.
     */
    method HandleRequestVote(mterm: nat, from: nat, lastIndex: nat, lastTerm: nat) returns (gate: nat)
      requires Valid()
      modifies this
      ensures Valid()
      ensures var r := OnAskVote(old(Abs()), id, AskVote(mterm, from, lastIndex, lastTerm));
        GateOk(r.0, gate, 0) && Emitted(r.0, Abs(), old(sent), sent, gate, r.1)
      ensures var granted := Deserves(old(term), old(vote), old(log), mterm, from, lastIndex, lastTerm);
        && term == (if mterm > old(term) then mterm else old(term)) && log == old(log) && commit == old(commit)
        && vote == (if granted then Some(from) else if mterm > old(term) then None else old(vote))
        && queue == old(queue) + (if granted || mterm > old(term) then [SaveHard(term, vote)] else [])
        && Answered(gate, VoteReply(term, from, granted), completedSeq, old(waiting), waiting, Vote(term, id, from, granted, log), old(sent), sent)
    {
      hide HeldOf, GateOk, TermsCovered, OnAskVote, Emitted, Answered, Deserves;
      ghost var nd, m := Abs(), AskVote(mterm, from, lastIndex, lastTerm);
      VoteGrantedExactly(nd, id, m);
      var granted := DecideVote(mterm, from, lastIndex, lastTerm);
      gate := SendGate(0);
      CoversNothing(queue, landed, 0);
      AfterWrite(gate, VoteReply(term, from, granted), log);
    }

    method DecideVote(mterm: nat, from: nat, lastIndex: nat, lastTerm: nat) returns (granted: bool)
      requires Valid()
      modifies this
      ensures Valid() && sent == old(sent) && waiting == old(waiting) && completedSeq == old(completedSeq)
      ensures OnAskVote(old(Abs()), id, AskVote(mterm, from, lastIndex, lastTerm)) == (Abs(), Vote(term, id, from, granted, log))
    {
      hide HeldOf, TermsCovered;
      granted := false;
      if mterm > term {
        granted := IsUpToDate(lastIndex, lastTerm);
        var _ := SaveTerm(mterm, if granted then Some(from) else None);
        StepDown();
      } else if mterm == term && !(vote != None && vote != Some(from)) && IsUpToDate(lastIndex, lastTerm) {
        var _ := SaveTerm(mterm, Some(from));
        granted := true;
      }
    }

    /** The votes in hand, with one's own, against what an election needs. */
    method VotesSuffice() returns (won: bool)
      requires Valid() && role != Follower
      ensures won <==> ElectionWon(Abs(), id, total)
    {
      hide HeldOf, TermsCovered;
      var count := CountIn(votes, id, total);
      assert |votes + {id}| == |votes| + 1;
      assert ballots.Keys + {id} == votes + {id};
      return count + 1 >= QuorumNeeded(ForElection, applied, latest, total);
    }

    method AppendEntries(es: Log) returns (s: nat)
      requires Valid()
      modifies this`nextSeq, this`queue, this`log
      ensures Valid() && s == nextSeq && Abs() == AppendTo(old(Abs()), es)
    {
      hide HeldOf;
      s := NextWrite(AppendAt(|log|, es));
      log := log + es;
    }

    method TruncateTo(keep: nat)
      requires Valid() && keep <= |log|
      modifies this`nextSeq, this`queue, this`log
      ensures Valid() && Abs() == CutTo(old(Abs()), keep)
    {
      hide HeldOf;
      var _ := NextWrite(WriteOp.TruncateTo(keep));
      log := log[..keep];
    }

    method BecomeLeader()
      requires Valid() && role == Candidate
      modifies this
      ensures Valid() && Abs() == Crowned(old(Abs())) && sent == old(sent) && waiting == old(waiting)
      ensures forall p :: p in nextIndex <==> 0 <= p < total && p != id
      ensures forall p :: p in nextIndex ==> nextIndex[p] == |old(log)| + 1
    {
      hide HeldOf, TermsCovered;
      var start := |log| + 1;
      InitNext(start);
      var _ := AppendEntries([Entry(term, "")]);
      SetLeader(start);
      assert Touches((flying + queue)[|flying + queue| - 1], start);
      MaybeAdvanceCommit();
    }

    method InitNext(start: nat)
      modifies this`nextIndex
      ensures forall p :: p in nextIndex <==> 0 <= p < total && p != id
      ensures forall p :: p in nextIndex ==> nextIndex[p] == start
    {
      nextIndex := map[];
      for p := 0 to total
        invariant forall x :: x in nextIndex <==> 0 <= x < p && x != id
        invariant forall x :: x in nextIndex ==> nextIndex[x] == start
      {
        if p != id { nextIndex := nextIndex[p := start]; }
      }
    }

    method SetLeader(start: nat)
      requires Valid() && role == Candidate
      modifies this`role, this`matchIndex, this`termStart
      ensures Valid() && Abs() == old(Abs()).(role := Leader, matched := map[], termStart := start)
    {
      hide HeldOf, TermsCovered;
      role, matchIndex, termStart := Leader, map[], start;
    }

    /** A vote comes back. `vlog` is the voter's log when it decided. */
    method HandleVoteResult(from: nat, vterm: nat, granted: bool, ghost vlog: Log)
      requires Valid() && from < total && from != id
      modifies this
      ensures Valid() && sent == old(sent)
      ensures var nd := old(Abs());
        if vterm > nd.mem.term then Abs() == Protocol.BecomeFollower(nd, vterm)
        else if nd.role != Candidate || vterm < nd.mem.term || !granted then Abs() == nd
        else
          var nd1 := nd.(votes := nd.votes[from := vlog]);
          Abs() == if ElectionWon(nd1, id, total) then Crowned(nd1) else nd1
    {
      hide HeldOf, TermsCovered, ElectionWon;
      if vterm > term {
        BecomeFollower(vterm);
      } else if role == Candidate && vterm >= term && granted {
        AddVote(from, vlog);
        var won := VotesSuffice();
        if won { BecomeLeader(); }
      }
    }

    method AddVote(from: nat, ghost vlog: Log)
      requires Valid() && from < total && from != id && role == Candidate
      modifies this`votes, this`ballots
      ensures Valid() && Abs() == old(Abs()).(votes := old(Abs()).votes[from := vlog])
    {
      hide HeldOf, TermsCovered;
      votes, ballots := votes + {from}, ballots[from := vlog];
    }

    // ---- Appends ------------------------------------------------------------------------

    /**
      The write to wait for before vouching for the log up to `index`: the last
      one not seen to complete that touches it. The log keeps its own account.
     */
    method WriteSeqCovering(index: nat) returns (g: nat)
      requires Valid()
      ensures g <= nextSeq && Covers(flying + queue, completedSeq, g, index) && Covers(queue, landed, g, index)
      ensures g > 0 ==> completedSeq < g && Touches((flying + queue)[g - completedSeq - 1], index)
    {
      var ops := flying + queue;
      var k := |ops|;
      while k > 0 && !Touches(ops[k - 1], index)
        invariant 0 <= k <= |ops|
        invariant forall j :: k <= j < |ops| ==> !Touches(ops[j], index)
      {
        k := k - 1;
      }
      g := if k == 0 then 0 else completedSeq + k;
      assert forall j :: 0 <= j < |queue| ==> ops[|flying| + j] == queue[j];
    }

    /** Append what is missing after `prev`, truncating a conflicting suffix first; 0 when nothing was written. */
    method TakeEntries(prev: nat, entries: Log) returns (writeSeq: nat)
      requires Valid() && prev <= |log|
      modifies this`nextSeq, this`queue, this`log
      ensures Valid() && Abs() == Accept(old(Abs()), prev, entries) && writeSeq <= nextSeq
    {
      hide HeldOf, TermsCovered;
      for i := 0 to |entries|
        invariant Valid() && Abs() == old(Abs()) && queue == old(queue) && log == old(log) && nextSeq == old(nextSeq)
        invariant DivergenceFrom(log, prev, entries, i) == Divergence(log, prev, entries)
      {
        var index := prev + 1 + i;
        if index > |log| {
          writeSeq := AppendEntries(entries[i..]);
          return;
        }
        if Protocol.TermAt(log, index) != entries[i].term {
          TruncateTo(index - 1);
          writeSeq := AppendEntries(entries[i..]);
          return;
        }
      }
      return 0;
    }

    /** The part of the request that was taken: the commit index follows, no further than the request reaches. */
    method FollowCommit(leaderCommit: nat, covered: nat)
      requires Valid()
      modifies this`commit
      ensures Valid() && Abs() == old(Abs()).(commit := Max(old(Abs()).commit, Min(leaderCommit, covered)))
    {
      hide HeldOf, TermsCovered;
      var c := if leaderCommit < covered then leaderCommit else covered;
      if c > commit { commit := c; }
    }

    /**
      An append from a leader that names a real term for the entry before it.
      `full` says whether the entries waiting for the disk exceed the limit; the
      request is then refused without an answer. One that follows on is merged
      into the log and takes the commit index along as far as it reaches.
     */
    method HandleAppendEntries(mterm: nat, from: nat, prev: nat, prevTerm: nat, entries: Log, leaderCommit: nat, full: bool)
      returns (gate: nat, refused: bool)
      requires Valid() && (prev > 0 ==> prevTerm > 0)
      modifies this
      ensures Valid()
      ensures refused ==> mterm >= old(term) && Abs() == Protocol.BecomeFollower(old(Abs()), mterm) && sent == old(sent)
      ensures !refused ==> var r := OnAppend(old(Abs()), id, Append(mterm, from, id, prev, prevTerm, entries, leaderCommit));
        GateOk(r.0, gate, UptoOf(r.1)) && Emitted(r.0, Abs(), old(sent), sent, gate, r.1)
      ensures var follows := mterm >= old(term) && FollowsOn(old(log), prev, prevTerm);
        var reach := if leaderCommit < prev + |entries| then leaderCommit else prev + |entries|;
        && (refused <==> follows && full && entries != [])
        && term == (if mterm > old(term) then mterm else old(term))
        && commit == (if follows && !refused && reach > old(commit) then reach else old(commit))
        && (if follows && !refused then Merged(old(log), log, prev, entries) else log == old(log))
        && (!refused ==>
              var last := if follows && entries != [] then prev + |entries| else 0;
              Answered(gate, AppendReply(term, from, follows, last), completedSeq, old(waiting), waiting, Appended(term, id, from, follows, last), old(sent), sent))
    {
      hide HeldOf, TermsCovered, GateOk, OnAppend, Covers, Answered, Merged, Has;
      ghost var nd, m := Abs(), Append(mterm, from, id, prev, prevTerm, entries, leaderCommit);
      AppendAnsweredExactly(nd, id, m);
      if mterm >= term && FollowsOn(log, prev, prevTerm) { AppendMerges(nd, id, m); }
      gate, refused := AnswerOrTake(mterm, from, prev, prevTerm, entries, leaderCommit, full);
    }

    method AnswerOrTake(mterm: nat, from: nat, prev: nat, prevTerm: nat, entries: Log, leaderCommit: nat, full: bool)
      returns (gate: nat, refused: bool)
      requires Valid() && (prev > 0 ==> prevTerm > 0)
      modifies this
      ensures Valid() && (refused <==> mterm >= old(term) && FollowsOn(old(log), prev, prevTerm) && full && entries != [])
      ensures refused ==> Abs() == Protocol.BecomeFollower(old(Abs()), mterm) && sent == old(sent)
      ensures !refused ==>
        var (nd, r) := OnAppend(old(Abs()), id, Append(mterm, from, id, prev, prevTerm, entries, leaderCommit));
        && GateOk(nd, gate, UptoOf(r)) && Emitted(nd, Abs(), old(sent), sent, gate, r)
        && Answered(gate, AppendReply(r.term, r.to, r.success, r.last), completedSeq, old(waiting), waiting, r, old(sent), sent)
    {
      hide HeldOf, TermsCovered, GateOk, Accept, Covers, Emitted, Answered;
      refused := false;
      CoversNothing(queue, landed, 0);
      if mterm < term {
        gate := AnswerAppend(0, AppendReply(term, from, false, 0), 0);
        return;
      }
      BecomeFollower(mterm);
      CoversNothing(queue, landed, 0);
      if prev > 0 && Protocol.TermAt(log, prev) != prevTerm {
        gate := AnswerAppend(0, AppendReply(term, from, false, 0), 0);
        return;
      }
      if full && |entries| > 0 {
        return 0, true;
      }
      gate := TakeAppend(from, prev, entries, leaderCommit);
    }

    /** A request that matches: its entries are taken and the acknowledgement waits for them. */
    method TakeAppend(from: nat, prev: nat, entries: Log, leaderCommit: nat) returns (gate: nat)
      requires Valid() && prev <= |log|
      modifies this`nextSeq, this`queue, this`log, this`commit, this`waiting, this`logsThen, this`sent
      ensures Valid()
      ensures var nd := Accept(old(Abs()), prev, entries);
        var nd' := nd.(commit := Max(nd.commit, Min(leaderCommit, prev + |entries|)));
        var last := if entries == [] then 0 else prev + |entries|;
        && GateOk(nd', gate, last) && Emitted(nd', Abs(), old(sent), sent, gate, Appended(term, id, from, true, last))
        && Answered(gate, AppendReply(term, from, true, last), completedSeq, old(waiting), waiting, Appended(term, id, from, true, last), old(sent), sent)
    {
      hide HeldOf, TermsCovered, GateOk, Accept, Covers, Emitted, Answered;
      var writeSeq := TakeEntries(prev, entries);
      FollowCommit(leaderCommit, prev + |entries|);
      var last := 0;
      if |entries| > 0 {
        last := prev + |entries|;
        var covering := WriteSeqCovering(last);
        if covering > writeSeq { writeSeq := covering; } else { CoversMore(queue, landed, covering, writeSeq, last); }
      } else {
        CoversNothing(queue, landed, writeSeq);
      }
      gate := AnswerAppend(writeSeq, AppendReply(term, from, true, last), last);
    }

    /** Every answer goes through the gate: it states this node's term whatever else it says. */
    method AnswerAppend(writeSeq: nat, r: Reply, ghost upto: nat) returns (gate: nat)
      requires Valid() && writeSeq <= nextSeq && r.AppendReply? && Covers(queue, landed, writeSeq, upto)
      modifies this`waiting, this`logsThen, this`sent
      ensures Valid() && GateOk(old(Abs()), gate, upto) && Emitted(old(Abs()), Abs(), old(sent), sent, gate, MsgOf(id, r, []))
      ensures Answered(gate, r, completedSeq, old(waiting), waiting, MsgOf(id, r, []), old(sent), sent)
    {
      hide HeldOf, TermsCovered, GateOk, Covers, Answered;
      gate := SendGate(writeSeq);
      AfterWrite(gate, r, []);
    }

    // ---- Acknowledgements and commitment --------------------------------------------------

    /** The part of its own log a leader may count: as far as no write it has not seen completed changes it. */
    method StableIndex() returns (d: nat)
      requires Valid()
      ensures d <= |log| && forall e: nat :: e <= |log| ==> (e <= d <==> Untouched(flying + queue, e))
    {
      var ops := flying + queue;
      d := |log|;
      for k := 0 to |ops|
        invariant d <= |log| && forall e: nat :: e <= |log| ==> (e <= d <==> Untouched(ops[..k], e))
      {
        var at := match ops[k] case SaveHard(_, _) => d case AppendAt(a, _) => a case TruncateTo(x) => x case SaveCommit(_) => d;
        ghost var before := d;
        if at < d { d := at; }
        ghost var seen, now := ops[..k], ops[..k + 1];
        assert now == seen + [ops[k]];
        forall e: nat | e <= |log| ensures e <= d <==> Untouched(now, e) {
          UntouchedMore(seen, ops[k], e);
          assert e <= before <==> Untouched(seen, e);
        }
      }
      assert ops[..|ops|] == ops;
    }

    method Propose(cmds: seq<Command>)
      requires Valid() && role == Leader
      modifies this`nextSeq, this`queue, this`log
      ensures Valid() && Abs() == AppendTo(old(Abs()), Proposed(old(Abs()), cmds))
    {
      hide HeldOf, TermsCovered;
      var es: Log := [];
      for i := 0 to |cmds|
        invariant es == Proposed(Abs(), cmds)[..i]
      {
        es := es + [Entry(term, cmds[i])];
      }
      assert es == Proposed(Abs(), cmds);
      var _ := AppendEntries(es);
    }

    method CountReached(index: nat) returns (count: nat)
      ensures count == |Reached(matchIndex, id, total, index)|
    {
      count := 0;
      ghost var seen: set<nat> := {};
      for p := 0 to total
        invariant seen == set x | x in Reached(matchIndex, id, total, index) && x < p
        invariant count == |seen|
      {
        if p != id && p in matchIndex && matchIndex[p] >= index {
          count := count + 1;
          seen := seen + {p};
        }
      }
      assert seen == Reached(matchIndex, id, total, index);
    }

    lemma TallyIsCounted(index: nat)
      requires |logsThen| == |waiting| && id < total
      ensures Tally(matchIndex, id, total, index, flying + queue) <= |Counted(Abs(), id, total, index)|
    {
      var q, r := Counted(Abs(), id, total, index), Reached(matchIndex, id, total, index);
      assert r <= q;
      if Untouched(flying + queue, index) {
        assert StableUpTo(Abs(), index) by {
          forall k | 0 <= k < |queue| ensures !Touches(queue[k], index) { assert (flying + queue)[|flying| + k] == queue[k]; }
        }
        assert r + {id} <= q && |r + {id}| == |r| + 1;
        SubsetSize(r + {id}, q);
      } else {
        SubsetSize(r, q);
      }
    }

    /**
      Commits the highest index of the leader's own term that a commit quorum
      holds, counting the leader only as far as its disk.
     */
    method MaybeAdvanceCommit()
      requires Valid()
      modifies this`commit
      ensures Valid() && Abs() == old(Abs()).(commit := commit)
      ensures commit != old(commit) ==>
        && role == Leader && old(commit) < commit && 0 < termStart <= commit <= |log|
        && Tally(matchIndex, id, total, commit, flying + queue) >= QuorumNeeded(ForCommit, applied, latest, total)
        && |Counted(old(Abs()), id, total, commit)| >= QuorumNeeded(ForCommit, applied, latest, total)
      ensures role == Leader && termStart > 0 ==>
        forall index: nat :: commit < index <= |log| && termStart <= index ==>
          Tally(matchIndex, id, total, index, flying + queue) < QuorumNeeded(ForCommit, applied, latest, total)
    {
      hide HeldOf, TermsCovered, Counted, Untouched;
      var stable := StableIndex();
      if role != Leader || termStart == 0 { return; }
      var lo := if termStart > commit + 1 then termStart else commit + 1;
      var index := |log|;
      while index >= lo
        invariant index <= |log| && commit == old(commit)
        invariant forall i: nat :: index < i <= |log| ==> Tally(matchIndex, id, total, i, flying + queue) < QuorumNeeded(ForCommit, applied, latest, total)
      {
        var count := CountReached(index);
        if index <= stable { count := count + 1; }
        if count >= QuorumNeeded(ForCommit, applied, latest, total) {
          TallyIsCounted(index);
          commit := index;
          return;
        }
        index := index - 1;
      }
    }

    /**
      Hands the commit index to storage when it has moved far enough: never past
      what is committed, and never past what this node has seen reach its disk.
     */
    method MaybeRecordCommit()
      requires Valid()
      modifies this`recorded, this`nextSeq, this`queue
      ensures Valid() && recorded >= old(recorded)
      ensures recorded == old(recorded) ==> Abs() == old(Abs())
      ensures recorded != old(recorded) ==>
        && Abs() == old(Abs()).(queue := old(queue) + [SaveCommit(recorded)])
        && recorded >= old(recorded) + 256 && recorded <= commit && recorded <= |log| && Untouched(flying + old(queue), recorded)
      ensures recorded == old(recorded) ==> forall i: nat :: i <= commit && i <= |log| && Untouched(flying + queue, i) ==> i < recorded + 256
    {
      hide HeldOf, Untouched;
      var stable := StableIndex();
      var index := if commit < stable then commit else stable;
      if index < recorded + RECORD_INTERVAL { return; }
      recorded := index;
      var _ := NextWrite(SaveCommit(index));
    }

    function NextOf(p: nat): nat
      reads this
    {
      if p in nextIndex then nextIndex[p] else 0
    }

    function MatchOf(p: nat): nat
      reads this
    {
      if p in matchIndex then matchIndex[p] else 0
    }

    /**
      An append comes back. A success raises what the peer is known to hold,
      whatever term it answers; a rejection with a hint moves the next index,
      unless the peer has since acknowledged more. `last` is the last index
      of the entries sent, 0 if there were none.
     */
    method HandleAppendResult(from: nat, rterm: nat, success: bool, last: nat, prev: nat, conflictTerm: nat, conflictIndex: nat)
      requires Valid() && from < total && from != id
      modifies this
      ensures Valid() && sent == old(sent)
      ensures var nd := ResultReceived(old(Abs()), Appended(rterm, from, id, success, last));
        && Abs() == nd.(commit := commit)
        && (commit != nd.commit ==>
              && nd.role == Leader && nd.commit < commit && 0 < nd.termStart <= commit <= |nd.mem.log|
              && |Counted(nd, id, total, commit)| >= QuorumNeeded(ForCommit, applied, latest, total))
      ensures old(role) == Leader && rterm <= old(term) && !success ==>
        nextIndex == if (conflictIndex == 0 && conflictTerm == 0) || prev < old(MatchOf(from)) then old(nextIndex)
          else old(nextIndex)[from := FastBackup.Resume(BackupInRuns.TermsOf(log), conflictTerm, conflictIndex, MatchOf(from))]
      ensures old(role) == Leader && rterm <= old(term) && success ==>
        nextIndex == if last > 0 then old(nextIndex)[from := Max(old(NextOf(from)), last + 1)] else old(nextIndex)
    {
      hide HeldOf, TermsCovered, Counted;
      if rterm > term {
        BecomeFollower(rterm);
        return;
      }
      if role != Leader { return; }
      if !success {
        if (conflictIndex == 0 && conflictTerm == 0) || prev < MatchOf(from) { return; }
        var terms := BackupInRuns.TermsOf(log);
        nextIndex := nextIndex[from := FastBackup.Resume(terms, conflictTerm, conflictIndex, MatchOf(from))];
        return;
      }
      if last > 0 { RaiseMatch(from, last); }
      MaybeAdvanceCommit();
    }

    method RaiseMatch(from: nat, last: nat)
      requires Valid() && last > 0
      modifies this`matchIndex, this`nextIndex
      ensures Valid() && Abs() == old(Abs()).(matched := old(matchIndex)[from := Max(old(MatchOf(from)), last)])
      ensures nextIndex == old(nextIndex)[from := Max(old(NextOf(from)), last + 1)]
    {
      hide HeldOf, TermsCovered;
      matchIndex := matchIndex[from := if last > MatchOf(from) then last else MatchOf(from)];
      if last + 1 > NextOf(from) { nextIndex := nextIndex[from := last + 1]; }
    }

    // ---- Completions --------------------------------------------------------------------

    /** The writer puts the oldest queued write on disk. */
    method Land()
      requires Valid() && queue != []
      modifies this`flying, this`queue, this`landed, this`disk
      ensures Valid()
      ensures var nd := old(Abs());
        Abs() == nd.(disk := ApplyOp(nd.disk, nd.queue[0]), queue := nd.queue[1..], landed := nd.landed + 1)
    {
      hide HeldOf;
      disk := ApplyOp(disk, queue[0]);
      flying, queue, landed := flying + [queue[0]], queue[1..], landed + 1;
    }

    /** The oldest write not yet reported has completed: what waited for it is released. */
    method HandleWriteCompletion()
      requires Valid() && completedSeq < landed
      modifies this
      ensures Valid() && landed == old(landed) && completedSeq == old(completedSeq) + 1
      ensures (Abs(), sent) == OneCompleted(old(Abs()), old(sent), id, total)
      ensures KeptInOrder(old(waiting), waiting, completedSeq)
    {
      hide HeldOf, TermsCovered, Kept, Released, CampaignDue, KeptInOrder;
      Complete();
      ghost var nd := Abs();
      var due := RunDeferred();
      if due {
        DueMeansCandidate(nd);
        if total == 1 {
          BecomeLeader();
        } else {
          sent := sent + {AskVote(term, id, |log|, LastTerm(log))};
        }
      }
      assert sent == old(sent) + Released(nd) + AskIfDue(nd, id, total);
    }

    /** The completions collected in one turn, in order, and then the commit attempt a moved disk allows. */
    method HandleWriteCompletions(count: nat)
      requires Valid() && completedSeq + count <= landed
      modifies this
      ensures Valid()
      ensures var (nd, out) := AllCompleted(old(Abs()), old(sent), id, total, count);
        && Abs() == nd.(commit := commit) && sent == out
        && (commit != nd.commit ==>
              && nd.role == Leader && nd.commit < commit && 0 < nd.termStart <= commit <= |nd.mem.log|
              && |Counted(nd, id, total, commit)| >= QuorumNeeded(ForCommit, applied, latest, total))
      ensures count > 0 && role == Leader && termStart > 0 ==>
        forall index: nat :: commit < index <= |log| && termStart <= index ==>
          Tally(matchIndex, id, total, index, flying + queue) < QuorumNeeded(ForCommit, applied, latest, total)
    {
      hide HeldOf, TermsCovered, OneCompleted, Counted, Untouched;
      for i := 0 to count
        invariant Valid() && completedSeq + (count - i) <= landed
        invariant (Abs(), sent) == AllCompleted(old(Abs()), old(sent), id, total, i)
      {
        HandleWriteCompletion();
      }
      if count > 0 { MaybeAdvanceCommit(); }
    }

    /** The completed point moves; a term that is on disk no longer holds anything back. */
    method Complete()
      requires Valid() && completedSeq < landed
      modifies this`completedSeq, this`unsafeTermSeq, this`flying
      ensures completedSeq == old(completedSeq) + 1 && Abs() == old(Abs()).(completed := completedSeq)
      ensures nextSeq == landed + |queue| && completedSeq + |flying| == landed && unsafeTermSeq <= nextSeq && TermsCovered(queue, landed, unsafeTermSeq)
      ensures |logsThen| == |waiting| && ballots.Keys == votes && id < total && Others(votes, id, total)
      ensures forall i :: 0 <= i < |waiting| ==> completedSeq <= waiting[i].seq_ <= nextSeq
    {
      hide HeldOf;
      completedSeq, flying := completedSeq + 1, flying[1..];
      if unsafeTermSeq != 0 && completedSeq >= unsafeTermSeq { unsafeTermSeq := 0; }
    }

    /** Runs everything whose write has completed, wherever it stands in the list, and keeps the rest in order. */
    method RunDeferred() returns (due: bool)
      requires |logsThen| == |waiting| && forall i :: 0 <= i < |waiting| ==> waiting[i].seq_ <= nextSeq
      modifies this`waiting, this`logsThen, this`sent
      ensures |logsThen| == |waiting| && forall i :: 0 <= i < |waiting| ==> completedSeq < waiting[i].seq_ <= nextSeq
      ensures Abs() == old(Abs()).(held := Kept(old(Abs()))) && sent == old(sent) + Released(old(Abs()))
      ensures due <==> CampaignDue(old(Abs()))
      ensures KeptInOrder(old(waiting), waiting, completedSeq)
    {
      hide HeldOf, KeptInOrder;
      var kept;
      ghost var keptLogs, out;
      kept, keptLogs, out, due := Partition(id, waiting, logsThen, completedSeq, role == Candidate, term, nextSeq);
      assert Kept(Abs()) == Later(HeldOf(id, waiting, logsThen), completedSeq);
      assert Released(Abs()) == Messages(HeldOf(id, waiting, logsThen), completedSeq);
      waiting, logsThen, sent := kept, keptLogs, sent + out;
    }
  }

  /** What waits for a later write stays, in the order it was registered. */
  ghost predicate KeptInOrder(ws: seq<Waiting>, kept: seq<Waiting>, c: nat) {
    Selects(ws, kept, (w: Waiting) => w.seq_ > c)
  }

  lemma KeptNone(ws: seq<Waiting>, c: nat)
    ensures KeptInOrder(ws[..0], [], c)
  {
    hide Selects;
    SelectsNone((w: Waiting) => w.seq_ > c);
  }

  lemma KeptMore(ws: seq<Waiting>, kept: seq<Waiting>, c: nat, i: nat)
    requires i < |ws| && KeptInOrder(ws[..i], kept, c)
    ensures KeptInOrder(ws[..i + 1], if ws[i].seq_ > c then kept + [ws[i]] else kept, c)
  {
    hide Selects;
    assert ws[..i + 1] == ws[..i] + [ws[i]];
    SelectsMore(ws[..i], kept, (w: Waiting) => w.seq_ > c, ws[i]);
  }

  /** The list is not sorted: all of it is scanned, what is due is run and the rest kept in order. */
  method Partition(id: nat, ws: seq<Waiting>, ghost logs: seq<Log>, c: nat, candidate: bool, term: nat, ghost top: nat)
    returns (kept: seq<Waiting>, ghost keptLogs: seq<Log>, ghost out: set<Msg>, due: bool)
    requires |ws| == |logs| && forall i :: 0 <= i < |ws| ==> ws[i].seq_ <= top
    ensures |kept| == |keptLogs| && forall i :: 0 <= i < |kept| ==> c < kept[i].seq_ <= top
    ensures HeldOf(id, kept, keptLogs) == Later(HeldOf(id, ws, logs), c) && out == Messages(HeldOf(id, ws, logs), c)
    ensures due <==> candidate && AsksIn(HeldOf(id, ws, logs), c, term)
    ensures KeptInOrder(ws, kept, c)
  {
    hide KeptInOrder;
    KeptNone(ws, c);
    kept, keptLogs, out, due := [], [], {}, false;
    for i := 0 to |ws|
      invariant |keptLogs| == |kept| && forall j :: 0 <= j < |kept| ==> c < kept[j].seq_ <= top
      invariant HeldOf(id, kept, keptLogs) == Later(HeldOf(id, ws[..i], logs[..i]), c)
      invariant out == Messages(HeldOf(id, ws[..i], logs[..i]), c)
      invariant due <==> candidate && AsksIn(HeldOf(id, ws[..i], logs[..i]), c, term)
      invariant KeptInOrder(ws[..i], kept, c)
    {
      hide HeldOf, ActsOf, Later, Messages, AsksIn;
      KeptMore(ws, kept, c, i);
      var w := ws[i];
      assert ws[..i + 1] == ws[..i] + [w] && logs[..i + 1] == logs[..i] + [logs[i]];
      HeldReply(id, ws[..i], logs[..i], w, logs[i]);
      HeldStep(HeldOf(id, ws[..i], logs[..i]), id, w, logs[i], c, term);
      if w.seq_ > c {
        HeldReply(id, kept, keptLogs, w, logs[i]);
        kept := kept + [w];
        keptLogs := keptLogs + [logs[i]];
      } else if w.reply.Solicit? {
        if candidate && term == w.reply.term { due := true; }
        out := out + {Vote(w.reply.term, id, id, true, logs[i])};
      } else {
        out := out + {MsgOf(id, w.reply, logs[i])};
      }
    }
    assert ws[..|ws|] == ws && logs[..|ws|] == logs;
  }

  /** One more reply held back, or one more campaign: what that adds to what is kept and what is due. */
  lemma HeldStep(held: set<Held>, id: nat, w: Waiting, log: Log, c: nat, t: nat)
    ensures var more := if w.reply.Solicit? then Campaigning(id, w, log) else {Held(w.seq_, Send(MsgOf(id, w.reply, log)))};
      var m := if w.reply.Solicit? then Vote(w.reply.term, id, id, true, log) else MsgOf(id, w.reply, log);
      && (w.seq_ > c ==> Later(held + more, c) == Later(held, c) + more && Messages(held + more, c) == Messages(held, c))
      && (w.seq_ <= c ==> Later(held + more, c) == Later(held, c) && Messages(held + more, c) == Messages(held, c) + {m})
      && (AsksIn(held + more, c, t) <==> AsksIn(held, c, t) || (w.seq_ <= c && w.reply.Solicit? && w.reply.term == t))
  {
    hide MsgOf;
    var more := if w.reply.Solicit? then Campaigning(id, w, log) else {Held(w.seq_, Send(MsgOf(id, w.reply, log)))};
    var m := if w.reply.Solicit? then Vote(w.reply.term, id, id, true, log) else MsgOf(id, w.reply, log);
    assert Held(w.seq_, Send(m)) in more;
    if w.seq_ <= c && w.reply.Solicit? { assert Held(w.seq_, Campaign(w.reply.term)) in more; }
  }

  ghost function Later(held: set<Held>, c: nat): set<Held> {
    set h | h in held && h.gate > c
  }

  ghost function Messages(held: set<Held>, c: nat): set<Msg> {
    set h | h in held && h.gate <= c && h.act.Send? :: h.act.msg
  }

  ghost predicate AsksIn(held: set<Held>, c: nat, t: nat) {
    exists h :: h in held && h.gate <= c && h.act == Campaign(t)
  }

  /** A campaign whose write has completed asks for votes. */
  ghost function AskIfDue(nd: Node, id: nat, total: nat): set<Msg> {
    if CampaignDue(nd) && total != 1 then {AskVote(nd.mem.term, id, |nd.mem.log|, LastTerm(nd.mem.log))} else {}
  }

  /** One completion, as the protocol's step makes it: the node afterwards and what has been said. */
  ghost function OneCompleted(nd: Node, sent: set<Msg>, id: nat, total: nat): (Node, set<Msg>) {
    var nd1 := nd.(completed := nd.completed + 1);
    var kept := nd1.(held := Kept(nd1));
    (if CampaignDue(nd1) && total == 1 then Crowned(kept) else kept, sent + Released(nd1) + AskIfDue(nd1, id, total))
  }

  ghost function AllCompleted(nd: Node, sent: set<Msg>, id: nat, total: nat, count: nat): (Node, set<Msg>) {
    if count == 0 then (nd, sent)
    else
      var (nd1, sent1) := AllCompleted(nd, sent, id, total, count - 1);
      OneCompleted(nd1, sent1, id, total)
  }

  lemma DueMeansCandidate(nd: Node)
    requires CampaignDue(nd)
    ensures nd.role == Candidate
  {
  }
}
