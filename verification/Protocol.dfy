/**
  The replication protocol as a state machine over a fixed set of voters.

  Every node has a memory state, a disk state and a FIFO of writes that have
  taken effect in memory and not yet on disk. A reply is computed at once and
  held until the write it depends on has completed. Messages are never removed
  from the network, so they can be lost, reordered and duplicated; a crash at
  any step keeps the disk and nothing else.

  Log positions: the entry with 1-based index `i` is `log[i - 1]`, so an index
  is also the length of the prefix that ends with it.
 */
module Protocol {
  import opened Wrappers
  import opened Quorum

  type Command = string

  datatype Entry = Entry(term: nat, cmd: Command)

  type Log = seq<Entry>

  /** What has to survive a crash: the hard state and the log. */
  datatype Durable = Durable(term: nat, vote: Option<nat>, log: Log)

  /** One queued storage write. `AppendAt` remembers how many entries precede it. */
  datatype WriteOp =
    | SaveHard(term: nat, vote: Option<nat>)
    | AppendAt(at: nat, entries: Log)
    | TruncateTo(keep: nat)
    | SaveCommit(index: nat)      // read by disaster recovery only

  datatype Role = Follower | Candidate | Leader

  /**
    `Vote.log` is a history value: the voter's log when it decided. No handler
    reads it. `Appended.last` is the last index of the entries the acknowledged
    request carried, 0 when it carried none.
   */
  datatype Msg =
    | AskVote(term: nat, from: nat, lastIndex: nat, lastTerm: nat)
    | Vote(term: nat, from: nat, to: nat, granted: bool, log: Log)
    | Append(term: nat, from: nat, to: nat, prev: nat, prevTerm: nat, entries: Log, commit: nat)
    | Appended(term: nat, from: nat, to: nat, success: bool, last: nat)

  /** What waits for a write: a message, or the start of a campaign. */
  datatype Action = Send(msg: Msg) | Campaign(term: nat)

  datatype Held = Held(gate: nat, act: Action)

  /**
    One node. Writes are numbered from 1 in the order they were queued:
    `landed` of them are on disk, `completed` of those are known to the event
    loop, and `queue[k]` is write number `landed + k + 1`.
   */
  datatype Node = Node(
    mem: Durable,
    role: Role,
    votes: map<nat, Log>,     // peers that granted their vote, with the history value of it
    matched: map<nat, nat>,   // matchIndex, leader only
    commit: nat,
    termStart: nat,           // first index of the leader's own term
    held: set<Held>,
    completed: nat,
    landed: nat,
    queue: seq<WriteOp>,
    disk: Durable,
    applied: int,             // commit-quorum policy in effect
    latest: int)              // latest commit-quorum policy in the log

  /** History only: who won a term, with which log, and on whose votes. */
  datatype Win = Win(leader: nat, start: Log, ballots: map<nat, Log>)

  /** History only: an index some leader counted as committed, and on whose acknowledgements. */
  datatype Commit = Commit(term: nat, index: nat, quorum: set<nat>)

  /** `logs[t]` is the log of the leader of term `t`; a leader only ever extends it. */
  datatype History = History(logs: map<nat, Log>, wins: map<nat, Win>, commits: set<Commit>)

  datatype State = State(nodes: seq<Node>, net: set<Msg>, hist: History)

  // ---- Storage ------------------------------------------------------------

  function ApplyOp(d: Durable, op: WriteOp): Durable {
    match op
    case SaveHard(t, v) => d.(term := t, vote := v)
    case AppendAt(_, es) => d.(log := d.log + es)
    case TruncateTo(keep) => if keep <= |d.log| then d.(log := d.log[..keep]) else d
    case SaveCommit(_) => d
  }

  function Replay(d: Durable, q: seq<WriteOp>): Durable {
    if q == [] then d else ApplyOp(Replay(d, q[..|q| - 1]), q[|q| - 1])
  }

  /** What the disk holds once `k` more of the queued writes have landed. */
  function Image(nd: Node, k: nat): Durable
    requires k <= |nd.queue|
  {
    Replay(nd.disk, nd.queue[..k])
  }

  /** The write changes what the log holds at some index up to `upto`. */
  predicate Touches(op: WriteOp, upto: nat) {
    match op
    case SaveHard(_, _) => false
    case AppendAt(at, _) => at < upto
    case TruncateTo(keep) => keep < upto
    case SaveCommit(_) => false
  }

  /** No write still on its way to the disk changes the log up to `upto`. */
  predicate StableUpTo(nd: Node, upto: nat) {
    forall k :: 0 <= k < |nd.queue| ==> !Touches(nd.queue[k], upto)
  }

  /**
    The demand on the write number a reply waits for: every later write that
    has not landed leaves the hard state and the log up to `upto` alone.
   */
  predicate GateOk(nd: Node, gate: nat, upto: nat) {
    && gate <= nd.landed + |nd.queue|
    && forall k :: 0 <= k < |nd.queue| && gate <= nd.landed + k ==>
         !nd.queue[k].SaveHard? && !Touches(nd.queue[k], upto)
  }

  // ---- Log ----------------------------------------------------------------

  function LastTerm(log: Log): nat {
    if log == [] then 0 else log[|log| - 1].term
  }

  /** The term at a 1-based index, 0 when the log has no entry there. */
  function TermAt(log: Log, index: nat): nat {
    if 1 <= index <= |log| then log[index - 1].term else 0
  }

  /** A log ending in `(lastTerm, lastIndex)` is at least as up to date as `log`. */
  predicate UpToDate(lastTerm: nat, lastIndex: nat, log: Log) {
    if lastTerm != LastTerm(log) then lastTerm > LastTerm(log) else lastIndex >= |log|
  }

  predicate HasEntry(log: Log, prev: nat, entries: Log, k: nat)
    requires k < |entries|
  {
    prev + k < |log| && log[prev + k].term == entries[k].term
  }

  /** The first position from `i` on at which the log lacks `entries` or disagrees with them. */
  function DivergenceFrom(log: Log, prev: nat, entries: Log, i: nat): (j: nat)
    requires i <= |entries|
    ensures i <= j <= |entries|
    ensures forall k :: i <= k < j ==> HasEntry(log, prev, entries, k)
    ensures j < |entries| ==> !HasEntry(log, prev, entries, j)
    decreases |entries| - i
  {
    if i == |entries| || !HasEntry(log, prev, entries, i) then i
    else DivergenceFrom(log, prev, entries, i + 1)
  }

  /** How many of `entries` the log already holds after its first `prev` entries. */
  function Divergence(log: Log, prev: nat, entries: Log): (j: nat)
    ensures j <= |entries|
    ensures forall k :: 0 <= k < j ==> HasEntry(log, prev, entries, k)
    ensures j < |entries| ==> !HasEntry(log, prev, entries, j)
  {
    DivergenceFrom(log, prev, entries, 0)
  }

  // ---- Node operations ----------------------------------------------------

  function Demoted(nd: Node): Node {
    nd.(role := Follower, votes := map[], matched := map[], termStart := 0)
  }

  /** saveTerm: the term and vote take effect and their write is queued. */
  function Saved(nd: Node, t: nat, v: Option<nat>): Node {
    nd.(mem := Durable(t, v, nd.mem.log), queue := nd.queue + [SaveHard(t, v)])
  }

  function BecomeFollower(nd: Node, t: nat): Node {
    Demoted(if t > nd.mem.term then Saved(nd, t, None) else nd)
  }

  function AppendTo(nd: Node, es: Log): Node {
    nd.(mem := nd.mem.(log := nd.mem.log + es), queue := nd.queue + [AppendAt(|nd.mem.log|, es)])
  }

  function CutTo(nd: Node, keep: nat): Node
    requires keep <= |nd.mem.log|
  {
    nd.(mem := nd.mem.(log := nd.mem.log[..keep]), queue := nd.queue + [TruncateTo(keep)])
  }

  /** Append what is missing, truncating a conflicting suffix first. */
  function Accept(nd: Node, prev: nat, entries: Log): Node
    requires prev <= |nd.mem.log|
  {
    var j := Divergence(nd.mem.log, prev, entries);
    if j == |entries| then nd
    else if prev + j >= |nd.mem.log| then AppendTo(nd, entries[j..])
    else AppendTo(CutTo(nd, prev + j), entries[j..])
  }

  /** handleRequestVote for a real vote: the node afterwards and the reply. */
  function OnAskVote(nd: Node, n: nat, m: Msg): (Node, Msg)
    requires m.AskVote?
  {
    var ok := UpToDate(m.lastTerm, m.lastIndex, nd.mem.log);
    if m.term > nd.mem.term then
      (Demoted(Saved(nd, m.term, if ok then Some(m.from) else None)),
       Vote(m.term, n, m.from, ok, nd.mem.log))
    else if m.term < nd.mem.term then
      (nd, Vote(nd.mem.term, n, m.from, false, nd.mem.log))
    else if (nd.mem.vote == None || nd.mem.vote == Some(m.from)) && ok then
      (Saved(nd, m.term, Some(m.from)), Vote(m.term, n, m.from, true, nd.mem.log))
    else
      (nd, Vote(nd.mem.term, n, m.from, false, nd.mem.log))
  }

  predicate PrevMatches(log: Log, prev: nat, prevTerm: nat) {
    prev == 0 || (prev <= |log| && TermAt(log, prev) == prevTerm)
  }

  function LastOf(m: Msg): nat
    requires m.Append?
  {
    if m.entries == [] then 0 else m.prev + |m.entries|
  }

  /** handleAppendEntries up to the reply, for a request that is not refused. */
  function OnAppend(nd: Node, n: nat, m: Msg): (Node, Msg)
    requires m.Append?
  {
    if m.term < nd.mem.term then
      (nd, Appended(nd.mem.term, n, m.from, false, 0))
    else
      var nd1 := BecomeFollower(nd, m.term);
      if !PrevMatches(nd1.mem.log, m.prev, m.prevTerm) then
        (nd1, Appended(m.term, n, m.from, false, 0))
      else
        var nd2 := Accept(nd1, m.prev, m.entries);
        (nd2.(commit := Max(nd2.commit, Min(m.commit, m.prev + |m.entries|))),
         Appended(m.term, n, m.from, true, LastOf(m)))
  }

  function UptoOf(m: Msg): nat {
    if m.Appended? && m.success then m.last else 0
  }

  // ---- Global steps -------------------------------------------------------

  predicate HasNode(s: State, n: nat) { n < |s.nodes| }

  function Put(s: State, n: nat, nd: Node): State
    requires HasNode(s, n)
  {
    s.(nodes := s.nodes[n := nd])
  }

  /** afterWrite: send at once when the write has completed, hold it otherwise. */
  function Emit(s: State, n: nat, gate: nat, m: Msg): State
    requires HasNode(s, n)
  {
    var nd := s.nodes[n];
    if gate <= nd.completed then s.(net := s.net + {m})
    else Put(s, n, nd.(held := nd.held + {Held(gate, Send(m))}))
  }

  function Elected(s: State, n: nat): State
    requires HasNode(s, n)
  {
    var nd := s.nodes[n];
    var t := nd.mem.term;
    var noop := [Entry(t, "")];
    Put(s, n, AppendTo(nd, noop).(role := Leader, matched := map[], termStart := |nd.mem.log| + 1)).(
      hist := s.hist.(
        logs := s.hist.logs[t := nd.mem.log + noop],
        wins := s.hist.wins[t := Win(n, nd.mem.log, nd.votes[n := nd.mem.log])]))
  }

  predicate ElectionWon(nd: Node, n: nat, total: nat) {
    |nd.votes.Keys + {n}| >= QuorumNeeded(ForElection, nd.applied, nd.latest, total)
  }

  /** The voters the leader counts for an index: itself only as far as its disk has got. */
  function Counted(nd: Node, n: nat, total: nat, index: nat): (q: set<nat>)
    ensures forall p :: p in q ==> p < total || p == n
  {
    (set p | p in nd.matched && p < total && p != n && nd.matched[p] >= index) +
    (if StableUpTo(nd, index) then {n} else {})
  }

  datatype Step =
    | Stand(n: nat)
    | RecvAskVote(n: nat, m: Msg, gate: nat)
    | RecvVote(n: nat, m: Msg)
    | Propose(n: nat, cmds: seq<Command>)
    | SendAppend(n: nat, to: nat, prev: nat, len: nat)
    | RecvAppend(n: nat, m: Msg, gate: nat)
    | RefuseAppend(n: nat, m: Msg)
    | RecvAppended(n: nat, m: Msg)
    | AdvanceCommit(n: nat, index: nat)
    | Land(n: nat)
    | Complete(n: nat)
    | Crash(n: nat)
    | StepDown(n: nat)
    | RecordCommit(n: nat, index: nat)
    | SetPolicy(n: nat, applied: int, latest: int)

  predicate Enabled(s: State, a: Step) {
    && HasNode(s, a.n)
    && var nd := s.nodes[a.n];
       match a
       case Stand(_) => true
       case RecvAskVote(n, m, gate) =>
         m in s.net && m.AskVote? && m.from != n && GateOk(OnAskVote(nd, n, m).0, gate, 0)
       case RecvVote(n, m) => m in s.net && m.Vote? && m.to == n && m.from != n
       case Propose(_, cmds) => nd.role == Leader && cmds != []
       case SendAppend(n, to, prev, len) =>
         nd.role == Leader && HasNode(s, to) && to != n && prev + len <= |nd.mem.log|
       case RecvAppend(n, m, gate) =>
         && m in s.net && m.Append? && m.to == n && m.from != n
         && var r := OnAppend(nd, n, m); GateOk(r.0, gate, UptoOf(r.1))
       case RefuseAppend(n, m) =>
         m in s.net && m.Append? && m.to == n && m.from != n && m.term >= nd.mem.term
       case RecvAppended(n, m) => m in s.net && m.Appended? && m.to == n && m.from != n
       case AdvanceCommit(n, index) =>
         && nd.role == Leader && nd.commit < index && 0 < nd.termStart <= index <= |nd.mem.log|
         && |Counted(nd, n, |s.nodes|, index)|
              >= QuorumNeeded(ForCommit, nd.applied, nd.latest, |s.nodes|)
       case Land(_) => nd.queue != []
       case Complete(_) => nd.completed < nd.landed
       case Crash(_) => true
       case StepDown(_) => true
       case RecordCommit(_, index) => index <= nd.commit
       case SetPolicy(_, _, _) => true
  }

  function Stood(nd: Node, n: nat): Node {
    var t := nd.mem.term + 1;
    var nd1 := Demoted(Saved(nd, t, Some(n)));
    var gate := nd1.landed + |nd1.queue|;
    nd1.(role := Candidate,
         held := nd1.held + {Held(gate, Send(Vote(t, n, n, true, nd.mem.log))), Held(gate, Campaign(t))})
  }

  function Proposed(nd: Node, cmds: seq<Command>): Log {
    seq(|cmds|, i requires 0 <= i < |cmds| => Entry(nd.mem.term, cmds[i]))
  }

  function Restarted(nd: Node): Node {
    Node(nd.disk, Follower, map[], map[], 0, 0, {}, 0, 0, [], nd.disk, nd.applied, nd.latest)
  }

  /** The messages released once `completed` writes have completed. */
  function Released(nd: Node): set<Msg> {
    set h | h in nd.held && h.gate <= nd.completed && h.act.Send? :: h.act.msg
  }

  function Kept(nd: Node): set<Held> {
    set h | h in nd.held && h.gate > nd.completed
  }

  predicate CampaignDue(nd: Node) {
    && nd.role == Candidate
    && exists h :: h in nd.held && h.gate <= nd.completed && h.act == Campaign(nd.mem.term)
  }

  function Completed(s: State, n: nat): State
    requires HasNode(s, n)
  {
    var nd := s.nodes[n].(completed := s.nodes[n].completed + 1);
    var s1 := Put(s, n, nd.(held := Kept(nd))).(net := s.net + Released(nd));
    if !CampaignDue(nd) then s1
    else if |s.nodes| == 1 then Elected(s1, n)
    else s1.(net := s1.net + {AskVote(nd.mem.term, n, |nd.mem.log|, LastTerm(nd.mem.log))})
  }

  function VoteReceived(s: State, n: nat, m: Msg): State
    requires HasNode(s, n) && m.Vote?
  {
    var nd := s.nodes[n];
    if m.term > nd.mem.term then Put(s, n, BecomeFollower(nd, m.term))
    else if nd.role != Candidate || m.term < nd.mem.term || !m.granted then s
    else
      var nd1 := nd.(votes := nd.votes[m.from := m.log]);
      var s1 := Put(s, n, nd1);
      if ElectionWon(nd1, n, |s.nodes|) then Elected(s1, n) else s1
  }

  /** handleAppendResult: a success raises matchIndex, whatever term it answers. */
  function ResultReceived(nd: Node, m: Msg): Node
    requires m.Appended?
  {
    if m.term > nd.mem.term then BecomeFollower(nd, m.term)
    else if nd.role != Leader || !m.success || m.last == 0 then nd
    else nd.(matched := nd.matched[m.from :=
      Max(if m.from in nd.matched then nd.matched[m.from] else 0, m.last)])
  }

  function Committed(s: State, n: nat, index: nat): State
    requires HasNode(s, n)
  {
    var nd := s.nodes[n];
    var q := Counted(nd, n, |s.nodes|, index);
    var own := if n in q then {Appended(nd.mem.term, n, n, true, index)} else {};
    Put(s, n, nd.(commit := index)).(
      net := s.net + own,
      hist := s.hist.(commits := s.hist.commits + {Commit(nd.mem.term, index, q)}))
  }

  function Do(s: State, a: Step): State
    requires Enabled(s, a)
  {
    var nd := s.nodes[a.n];
    match a
    case Stand(n) => Put(s, n, Stood(nd, n))
    case RecvAskVote(n, m, gate) =>
      var (nd1, reply) := OnAskVote(nd, n, m);
      Emit(Put(s, n, nd1), n, gate, reply)
    case RecvVote(n, m) => VoteReceived(s, n, m)
    case Propose(n, cmds) =>
      var es := Proposed(nd, cmds);
      Put(s, n, AppendTo(nd, es)).(
        hist := s.hist.(logs := s.hist.logs[nd.mem.term := nd.mem.log + es]))
    case SendAppend(n, to, prev, len) =>
      s.(net := s.net + {Append(nd.mem.term, n, to, prev, TermAt(nd.mem.log, prev),
                                nd.mem.log[prev..prev + len], nd.commit)})
    case RecvAppend(n, m, gate) =>
      var (nd1, reply) := OnAppend(nd, n, m);
      Emit(Put(s, n, nd1), n, gate, reply)
    case RefuseAppend(n, m) => Put(s, n, BecomeFollower(nd, m.term))
    case RecvAppended(n, m) => Put(s, n, ResultReceived(nd, m))
    case AdvanceCommit(n, index) => Committed(s, n, index)
    case Land(n) =>
      Put(s, n, nd.(disk := ApplyOp(nd.disk, nd.queue[0]), queue := nd.queue[1..], landed := nd.landed + 1))
    case Complete(n) => Completed(s, n)
    case Crash(n) => Put(s, n, Restarted(nd))
    case StepDown(n) => Put(s, n, Demoted(nd))
    case RecordCommit(n, index) => Put(s, n, nd.(queue := nd.queue + [SaveCommit(index)]))
    case SetPolicy(n, applied, latest) => Put(s, n, nd.(applied := applied, latest := latest))
  }

  const Blank: Node :=
    var d := Durable(0, None, []);
    Node(d, Follower, map[], map[], 0, 0, {}, 0, 0, [], d, 0, 0)

  predicate Init(s: State) {
    && |s.nodes| > 0
    && (forall n :: 0 <= n < |s.nodes| ==> s.nodes[n].(applied := 0, latest := 0) == Blank)
    && s.net == {}
    && s.hist == History(map[], map[], {})
  }

  /** A run: states joined by enabled steps, from an initial state. */
  ghost predicate Run(states: seq<State>, steps: seq<Step>) {
    && |states| == |steps| + 1
    && Init(states[0])
    && forall i :: 0 <= i < |steps| ==> Enabled(states[i], steps[i]) && states[i + 1] == Do(states[i], steps[i])
  }
}
