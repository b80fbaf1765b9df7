/**
  Feeding committed entries to the state machine: in runs, interrupted by the
  entries the Raft layer answers itself, with retries of a request answered
  from the exactly-once table.
 */
module ApplyLoop {

  import opened Wrappers
  import opened ClientTable

  type Payload = nat

  datatype Outcome = Ok(value: Value) | Failed(error: nat)

  /** A committed command: a configuration entry (perhaps a new table bound), a once-only request, or anything else. */
  datatype Command = Config(newCap: Option<nat>) | Once(client: Client, seqNum: nat, payload: Payload) | Plain(payload: Payload)

  datatype Entry = Entry(index: nat, cmd: Command)

  datatype Result = Result(index: nat, out: Outcome, cmd: Command)

  /** The state machine and the apply loop's own copy of the table. */
  datatype Machine<S> = Machine(state: S, table: Table, cap: nat)

  /** The user's state machine: deterministic, one command at a time. */
  type Apply<!S> = (S, Payload) -> (S, Outcome)

  function Retry(t: Table, cmd: Command): Option<Value> {
    if cmd.Once? && Lookup(t, cmd.client).Some? && Lookup(t, cmd.client).value.seqNum == cmd.seqNum
    then Some(Lookup(t, cmd.client).value.result) else None
  }

  /** Hand one command to the state machine and remember a once-only success. */
  function Applied<S>(sm: Apply<S>, m: Machine<S>, e: Entry): (Machine<S>, Result)
    requires !e.cmd.Config?
  {
    var (s, out) := sm(m.state, e.cmd.payload);
    var t := if out.Ok? && e.cmd.Once? then Written(m.table, m.cap, e.cmd.client, Cached(e.cmd.seqNum, out.value)) else m.table;
    (Machine(s, t, m.cap), Result(e.index, out, e.cmd))
  }

  function Configured<S>(m: Machine<S>, e: Entry): (Machine<S>, Result)
    requires e.cmd.Config?
  {
    (if e.cmd.newCap.Some? then m.(table := SetCap(m.table, e.cmd.newCap.value), cap := e.cmd.newCap.value) else m,
     Result(e.index, Ok(0), e.cmd))
  }

  /** What an entry does on its own. */
  function One<S>(sm: Apply<S>, m: Machine<S>, e: Entry): (Machine<S>, Result) {
    if e.cmd.Config? then Configured(m, e)
    else
      var known := Retry(m.table, e.cmd);
      if known.Some? then (m, Result(e.index, Ok(known.value), e.cmd)) else Applied(sm, m, e)
  }

  /** The entries one at a time: the reference. */
  function OneByOne<S>(sm: Apply<S>, m: Machine<S>, entries: seq<Entry>): (Machine<S>, seq<Result>) {
    if entries == [] then (m, [])
    else
      var n := |entries| - 1;
      var (m1, rs) := OneByOne(sm, m, entries[..n]);
      var (m2, r) := One(sm, m1, entries[n]);
      (m2, rs + [r])
  }

  /** A run of entries, with no look at the table in between. */
  function Flushed<S>(sm: Apply<S>, m: Machine<S>, run: seq<Entry>): (Machine<S>, seq<Result>)
    requires forall i :: 0 <= i < |run| ==> !run[i].cmd.Config?
  {
    if run == [] then (m, [])
    else
      var n := |run| - 1;
      var (m1, rs) := Flushed(sm, m, run[..n]);
      var (m2, r) := Applied(sm, m1, run[n]);
      (m2, rs + [r])
  }

  predicate NoConfig(run: seq<Entry>) {
    forall i :: 0 <= i < |run| ==> !run[i].cmd.Config?
  }

  /** An entry the Raft layer answers itself: the run goes first, then the answer. */
  function Interrupted<S>(sm: Apply<S>, m: Machine<S>, run: seq<Entry>, e: Entry): (Machine<S>, seq<Result>)
    requires NoConfig(run) && (e.cmd.Config? || Retry(m.table, e.cmd).Some?)
  {
    var (m1, rs) := Flushed(sm, m, run);
    var (m2, r) := if e.cmd.Config? then Configured(m1, e) else (m1, Result(e.index, Ok(Retry(m.table, e.cmd).value), e.cmd));
    (m2, rs + [r])
  }

  /** One commit notification, with `run` already collected for the state machine. */
  function Noticed<S>(sm: Apply<S>, m: Machine<S>, run: seq<Entry>, entries: seq<Entry>): (Machine<S>, seq<Result>)
    requires NoConfig(run)
    decreases |entries|
  {
    if entries == [] then Flushed(sm, m, run)
    else if !entries[0].cmd.Config? && Retry(m.table, entries[0].cmd).None? then
      Noticed(sm, m, run + [entries[0]], entries[1..])
    else
      var (m1, rs) := Interrupted(sm, m, run, entries[0]);
      var (m2, rs') := Noticed(sm, m1, [], entries[1..]);
      (m2, rs + rs')
  }

  // ---- One result per index, in order ---------------------------------------------

  ghost predicate Answers(entries: seq<Entry>, rs: seq<Result>) {
    |rs| == |entries| && forall i :: 0 <= i < |rs| ==> rs[i].index == entries[i].index && rs[i].cmd == entries[i].cmd
  }

  lemma {:induction false} FlushedAnswers<S>(sm: Apply<S>, m: Machine<S>, run: seq<Entry>)
    requires NoConfig(run)
    ensures Answers(run, Flushed(sm, m, run).1)
    decreases |run|
  {
    if run != [] { FlushedAnswers(sm, m, run[..|run| - 1]); }
  }

  lemma AnswersJoin(a: seq<Entry>, ra: seq<Result>, b: seq<Entry>, rb: seq<Result>)
    requires Answers(a, ra) && Answers(b, rb)
    ensures Answers(a + b, ra + rb)
  {
  }

  lemma InterruptedAnswers<S>(sm: Apply<S>, m: Machine<S>, run: seq<Entry>, e: Entry)
    requires NoConfig(run) && (e.cmd.Config? || Retry(m.table, e.cmd).Some?)
    ensures Answers(run + [e], Interrupted(sm, m, run, e).1)
  {
    hide Flushed;
    FlushedAnswers(sm, m, run);
  }

  /** However the table answers, a notification yields one result per entry, in index order. */
  lemma {:induction false} NoticedAnswers<S>(sm: Apply<S>, m: Machine<S>, run: seq<Entry>, entries: seq<Entry>)
    requires NoConfig(run)
    ensures Answers(run + entries, Noticed(sm, m, run, entries).1)
    decreases |entries|
  {
    hide Interrupted, Answers, Flushed;
    if entries == [] {
      FlushedAnswers(sm, m, run);
      assert run + entries == run;
    } else if !entries[0].cmd.Config? && Retry(m.table, entries[0].cmd).None? {
      NoticedAnswers(sm, m, run + [entries[0]], entries[1..]);
      assert run + entries == run + [entries[0]] + entries[1..];
    } else {
      InterruptedAnswers(sm, m, run, entries[0]);
      var (m1, rs) := Interrupted(sm, m, run, entries[0]);
      NoticedAnswers(sm, m1, [], entries[1..]);
      assert [] + entries[1..] == entries[1..];
      AnswersJoin(run + [entries[0]], rs, entries[1..], Noticed(sm, m1, [], entries[1..]).1);
      assert run + entries == run + [entries[0]] + entries[1..];
    }
  }

  // ---- Logs without repeated requests ---------------------------------------------

  /** The requests a table remembers. */
  ghost function Known(t: Table): set<(Client, nat)> {
    set i | 0 <= i < |t| :: (t[i].id, t[i].ce.seqNum)
  }

  function RequestOf(cmd: Command): (Client, nat)
    requires cmd.Once?
  {
    (cmd.client, cmd.seqNum)
  }

  /** No once-only request occurs twice among the entries, or is one the table may remember. */
  ghost predicate Fresh(seen: set<(Client, nat)>, entries: seq<Entry>) {
    && (forall i :: 0 <= i < |entries| && entries[i].cmd.Once? ==> RequestOf(entries[i].cmd) !in seen)
    && (forall i, j :: 0 <= i < j < |entries| && entries[i].cmd.Once? && entries[j].cmd.Once? ==>
          RequestOf(entries[i].cmd) != RequestOf(entries[j].cmd))
  }

  ghost function Requests(entries: seq<Entry>): set<(Client, nat)> {
    set i | 0 <= i < |entries| && entries[i].cmd.Once? :: RequestOf(entries[i].cmd)
  }

  lemma {:induction false} OneByOneSplit<S>(sm: Apply<S>, m: Machine<S>, a: seq<Entry>, b: seq<Entry>)
    ensures var (m1, ra) := OneByOne(sm, m, a);
      var (m2, rb) := OneByOne(sm, m1, b);
      OneByOne(sm, m, a + b) == (m2, ra + rb)
    decreases |b|
  {
    if b == [] {
      assert a + b == a && OneByOne(sm, m, a).1 + [] == OneByOne(sm, m, a).1;
    } else {
      var n := |b| - 1;
      OneByOneSplit(sm, m, a, b[..n]);
      assert (a + b)[..|a + b| - 1] == a + b[..n] && (a + b)[|a + b| - 1] == b[n];
      var (m1, ra) := OneByOne(sm, m, a);
      var (m2, rb) := OneByOne(sm, m1, b[..n]);
      var (m3, r) := One(sm, m2, b[n]);
      assert OneByOne(sm, m1, b) == (m3, rb + [r]);
      assert (ra + rb) + [r] == ra + (rb + [r]);
    }
  }

  /** A counter that adds what it is given: enough to see a command twice. */
  function Adder(s: nat, p: Payload): (nat, Outcome) {
    (s + p, Ok(s + p))
  }

  // ---- The event loop's copy of the table ---------------------------------------------

  /** What the event loop does with a result: it keeps its table from results alone. */
  function Recorded(t: Table, cap: nat, r: Result): Table {
    if r.cmd.Config? then (if r.cmd.newCap.Some? then SetCap(t, r.cmd.newCap.value) else t)
    else if r.cmd.Once? && r.out.Ok? then
      var known := Lookup(t, r.cmd.client);
      if known.None? || r.cmd.seqNum >= known.value.seqNum
      then Written(t, cap, r.cmd.client, Cached(r.cmd.seqNum, r.out.value)) else t
    else t
  }

  /** When the two copies stay equal, in terms of the entry and the table before it. */
  predicate InStep(t: Table, cmd: Command, out: Outcome) {
    cmd.Once? && out.Ok? && Lookup(t, cmd.client).Some? ==>
      || cmd.seqNum > Lookup(t, cmd.client).value.seqNum
      || (cmd.seqNum == Lookup(t, cmd.client).value.seqNum && Find(t, cmd.client) == 0)
  }

  lemma {:induction false} RewriteFront(t: Table, cap: nat, id: Client, ce: Cached)
    requires Has(t, id) && Distinct(t)
    ensures Written(t, cap, id, ce)[0] == Record(id, ce)
    ensures Find(t, id) == 0 && t[0].ce == ce ==> Written(t, cap, id, ce) == t
    ensures Find(t, id) > 0 ==> Written(t, cap, id, ce) != t
  {
    hide Distinct, Find, Bounded;
    var i := Find(t, id);
    if i == 0 {
      assert t == [t[0]] + t[1..];
    } else {
      assert Written(t, cap, id, ce)[0].id == id && t[0].id != id;
    }
  }

  /**
    The apply loop's table and the event loop's agree after an entry exactly
    when the entry is not a once-only success by a known client, or carries a
    higher number, or repeats the number of the client written last.
   */
  lemma TablesInStep<S>(sm: Apply<S>, m: Machine<S>, e: Entry)
    requires Distinct(m.table)
    ensures var (m1, r) := One(sm, m, e);
      Recorded(m.table, m.cap, r) == m1.table <==> InStep(m.table, e.cmd, r.out)
  {
    if e.cmd.Once? && Lookup(m.table, e.cmd.client).Some? {
      var (m1, r) := One(sm, m, e);
      var known := Lookup(m.table, e.cmd.client).value;
      if r.out.Ok? {
        var ce := Cached(e.cmd.seqNum, r.out.value);
        RewriteFront(m.table, m.cap, e.cmd.client, ce);
        if e.cmd.seqNum < known.seqNum {
          LowerDiffers(m.table, m.cap, e.cmd.client, ce);
        }
      }
    }
  }

  lemma {:induction false} LowerDiffers(t: Table, cap: nat, id: Client, ce: Cached)
    requires Has(t, id) && Distinct(t) && ce.seqNum < t[Find(t, id)].ce.seqNum
    ensures Written(t, cap, id, ce) != t
  {
    RewriteFront(t, cap, id, ce);
    if Find(t, id) == 0 { assert t[0] != Record(id, ce); }
  }

  /** Requests that are never repeated are not enough: a client whose numbers go down parts the tables. */
  lemma LowerNumberPartsTables(c: Client, p: Payload, q: Payload)
    ensures
      var m := Machine(0, [Record(c, Cached(2, p))], 0);
      var (m1, r) := One(Adder, m, Entry(1, Once(c, 1, q)));
      Fresh(Known(m.table), [Entry(1, Once(c, 1, q))]) && Recorded(m.table, m.cap, r) != m1.table
  {
    var m := Machine(0, [Record(c, Cached(2, p))], 0);
    TablesInStep(Adder, m, Entry(1, Once(c, 1, q)));
  }

  // ---- Logs on which every client counts up ---------------------------------------------

  /** The highest number each client has used. */
  function Highest(hi: map<Client, nat>, entries: seq<Entry>): map<Client, nat> {
    if entries == [] then hi
    else
      var n := |entries| - 1;
      var h := Highest(hi, entries[..n]);
      if entries[n].cmd.Once? then h[entries[n].cmd.client := entries[n].cmd.seqNum] else h
  }

  ghost predicate CountsUp(h: map<Client, nat>, cmd: Command) {
    cmd.Once? && cmd.client in h ==> cmd.seqNum > h[cmd.client]
  }

  ghost predicate Rising(hi: map<Client, nat>, entries: seq<Entry>) {
    forall i :: 0 <= i < |entries| ==> CountsUp(Highest(hi, entries[..i]), entries[i].cmd)
  }

  ghost predicate Below(t: Table, h: map<Client, nat>) {
    forall i :: 0 <= i < |t| ==> t[i].id in h && t[i].ce.seqNum <= h[t[i].id]
  }

  function RecordedAll(t: Table, cap: nat, rs: seq<Result>): (Table, nat) {
    if rs == [] then (t, cap)
    else
      var n := |rs| - 1;
      var (t1, c) := RecordedAll(t, cap, rs[..n]);
      (Recorded(t1, c, rs[n]), if rs[n].cmd.Config? && rs[n].cmd.newCap.Some? then rs[n].cmd.newCap.value else c)
  }

  lemma StepBelow<S>(sm: Apply<S>, m: Machine<S>, e: Entry, h: map<Client, nat>)
    requires Distinct(m.table) && Below(m.table, h) && CountsUp(h, e.cmd)
    ensures var h' := if e.cmd.Once? then h[e.cmd.client := e.cmd.seqNum] else h;
      var (m1, r) := One(sm, m, e);
      Distinct(m1.table) && Below(m1.table, h') && InStep(m.table, e.cmd, r.out)
  {
    var (m1, r) := One(sm, m, e);
    if e.cmd.Once? {
      var i := Find(m.table, e.cmd.client);
      assert i < |m.table| ==> m.table[i].id in h;
      if r.out.Ok? {
        var ce := Cached(e.cmd.seqNum, r.out.value);
        PutDistinct(m.table, m.cap, e.cmd.client, ce);
        WrittenBelow(m.table, m.cap, e.cmd.client, ce, h);
      }
    }
  }

  lemma WrittenBelow(t: Table, cap: nat, id: Client, ce: Cached, h: map<Client, nat>)
    requires Below(t, h) && (id in h ==> h[id] <= ce.seqNum)
    ensures Below(Written(t, cap, id, ce), h[id := ce.seqNum]) && Below(t, h[id := ce.seqNum])
  {
    var w, t' := Without(t, id), Written(t, cap, id, ce);
    forall i | 0 <= i < |t'| ensures t'[i].id in h[id := ce.seqNum] && t'[i].ce.seqNum <= h[id := ce.seqNum][t'[i].id] {
      if i > 0 {
        assert t'[i] == w[i - 1] == t[if Has(t, id) && i - 1 >= Find(t, id) then i else i - 1];
      }
    }
  }

  /** If every client counts up, the event loop's table equals the apply loop's after every entry, bound changes included. */
  lemma {:induction false} Lockstep<S>(sm: Apply<S>, m: Machine<S>, entries: seq<Entry>, hi: map<Client, nat>)
    requires Distinct(m.table) && Below(m.table, hi) && Rising(hi, entries)
    ensures var (m1, rs) := OneByOne(sm, m, entries);
      RecordedAll(m.table, m.cap, rs) == (m1.table, m1.cap) && Distinct(m1.table) && Below(m1.table, Highest(hi, entries))
    decreases |entries|
  {
    hide Below, Recorded, InStep, Distinct, One;
    if entries != [] {
      var n := |entries| - 1;
      assert Rising(hi, entries[..n]) by {
        forall i | 0 <= i < n ensures CountsUp(Highest(hi, entries[..n][..i]), entries[..n][i].cmd) {
          assert entries[..n][..i] == entries[..i] && CountsUp(Highest(hi, entries[..i]), entries[i].cmd);
        }
      }
      Lockstep(sm, m, entries[..n], hi);
      assert CountsUp(Highest(hi, entries[..n]), entries[n].cmd);
      var (m1, rs) := OneByOne(sm, m, entries[..n]);
      var (m2, r) := One(sm, m1, entries[n]);
      assert (rs + [r])[..|rs|] == rs;
      StepBelow(sm, m1, entries[n], Highest(hi, entries[..n]));
      TablesInStep(sm, m1, entries[n]);
      OneCap(sm, m1, entries[n]);
    }
  }

  lemma OneCap<S>(sm: Apply<S>, m: Machine<S>, e: Entry)
    ensures var (m1, r) := One(sm, m, e);
      r.cmd == e.cmd && m1.cap == if r.cmd.Config? && r.cmd.newCap.Some? then r.cmd.newCap.value else m.cap
  {
  }
}
