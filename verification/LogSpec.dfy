/**
  What a log is, independently of how it is kept: a contiguous range of
  indexed entries, the storage operations on it, and the runs of equal terms
  it is made of.
 */
module LogSpec {

  import opened Wrappers
  import opened Bytes

  datatype LogEntry = LogEntry(index: nat, term: nat, command: Buf)

  type Store = map<nat, LogEntry>

  datatype Change =
    | AppendEntries(base: nat, entries: seq<LogEntry>)
    | DropFrom(index: nat)
    | DropBelow(index: nat)
    | SaveHard(term: nat, vote: Option<nat>)
    | SaveCommit(index: nat)

  /** A write beside the log: it takes its turn in the queue and leaves the log alone. */
  predicate Aside(c: Change) {
    c.SaveHard? || c.SaveCommit?
  }

  /** A queued write: its number, what it does to the log, and what is durable once it has completed. */
  datatype WriteOp = WriteOp(seq_: nat, change: Change, durableAfter: nat)

  /** Entries numbered from `base` on. */
  predicate Numbered(base: nat, entries: seq<LogEntry>) {
    forall i :: 0 <= i < |entries| ==> entries[i].index == base + i
  }

  function EntryAt(base: nat, entries: seq<LogEntry>, i: nat): LogEntry
    requires base <= i < base + |entries|
  {
    entries[i - base]
  }

  function EntriesMap(base: nat, entries: seq<LogEntry>): Store {
    map i: nat | base <= i < base + |entries| :: EntryAt(base, entries, i)
  }

  function Apply(m: Store, c: Change): Store {
    match c
    case AppendEntries(base, entries) => m + EntriesMap(base, entries)
    case DropFrom(x) => map i | i in m && i < x :: m[i]
    case DropBelow(x) => map i | i in m && i >= x :: m[i]
    case SaveHard(_, _) => m
    case SaveCommit(_) => m
  }

  lemma ApplyAt(m: Store, c: Change, i: nat)
    ensures c.DropFrom? ==> (i in Apply(m, c) <==> i in m && i < c.index)
    ensures c.DropBelow? ==> (i in Apply(m, c) <==> i in m && i >= c.index)
    ensures !c.AppendEntries? && i in Apply(m, c) ==> Apply(m, c)[i] == m[i]
  {
  }

  function Replay(m: Store, ops: seq<WriteOp>): Store {
    if ops == [] then m else Apply(Replay(m, ops[..|ops| - 1]), ops[|ops| - 1].change)
  }

  lemma {:induction false} ReplayFirst(m: Store, ops: seq<WriteOp>)
    requires ops != []
    ensures Replay(m, ops) == Replay(Apply(m, ops[0].change), ops[1..])
    decreases |ops|
  {
    var p := ops[..|ops| - 1];
    if p == [] {
      assert ops[1..] == [];
      assert Replay(m, p) == m;
    } else {
      ReplayFirst(m, p);
      assert ops[1..][..|ops| - 2] == p[1..];
    }
  }

  lemma {:induction false} ReplayMore(m: Store, ops: seq<WriteOp>, op: WriteOp)
    ensures Replay(m, ops + [op]) == Apply(Replay(m, ops), op.change)
  {
    assert (ops + [op])[..|ops|] == ops;
  }

  lemma {:induction false} ReplaySplit(m: Store, a: seq<WriteOp>, b: seq<WriteOp>)
    ensures Replay(m, a + b) == Replay(Replay(m, a), b)
    decreases |b|
  {
    if b == [] {
      assert a + b == a;
    } else {
      ReplaySplit(m, a, b[..|b| - 1]);
      assert (a + b)[..|a + b| - 1] == a + b[..|b| - 1];
    }
  }

  /** The write may change what is stored at index `i`. */
  predicate Disturbs(c: Change, i: nat) {
    match c
    case AppendEntries(base, _) => base <= i
    case DropFrom(x) => x <= i
    case DropBelow(x) => i < x
    case SaveHard(_, _) => false
    case SaveCommit(_) => false
  }

  /** Writes that leave an index alone leave it as it was. */
  lemma {:induction false} ReplayUndisturbed(m: Store, ops: seq<WriteOp>, i: nat)
    requires forall k :: 0 <= k < |ops| ==> !Disturbs(ops[k].change, i)
    ensures (i in Replay(m, ops) <==> i in m) && (i in m ==> Replay(m, ops)[i] == m[i])
    decreases |ops|
  {
    if ops != [] {
      ReplayUndisturbed(m, ops[..|ops| - 1], i);
    }
  }

  /** The keys are `first..last`, or none when `first` is 0, and every entry sits at its own index. */
  ghost predicate Contiguous(log: Store, first: nat, last: nat) {
    && (first == 0 ==> last == 0 && log == map[])
    && (first > 0 ==> first <= last)
    && (forall i :: i in log <==> 0 < first <= i <= last)
    && (forall i :: i in log ==> log[i].index == i)
  }

  lemma AppendMore(log: Store, base: nat, entries: seq<LogEntry>, i: nat)
    requires i < |entries| && Numbered(base, entries)
    ensures Apply(log, AppendEntries(base, entries[..i + 1]))
         == (if i == 0 then log else Apply(log, AppendEntries(base, entries[..i])))[entries[i].index := entries[i]]
  {
    var a, b := entries[..i + 1], entries[..i];
    assert forall k: nat :: base <= k < base + i ==> EntryAt(base, a, k) == EntryAt(base, b, k);
    assert Apply(log, AppendEntries(base, a)) == Apply(log, AppendEntries(base, b))[entries[i].index := entries[i]];
    if i == 0 { assert Apply(log, AppendEntries(base, b)) == log; }
  }

  lemma ContiguousDropFrom(log: Store, first: nat, last: nat, x: nat)
    requires Contiguous(log, first, last) && x <= last + 1
    ensures if x <= first then Contiguous(Apply(log, DropFrom(x)), 0, 0)
            else Contiguous(Apply(log, DropFrom(x)), first, if first == 0 then 0 else x - 1)
  {
  }

  lemma ContiguousDropBelow(log: Store, first: nat, last: nat, x: nat)
    requires Contiguous(log, first, last) && (first == 0 || first < x)
    ensures if x > last then Contiguous(Apply(log, DropBelow(x)), 0, 0)
            else Contiguous(Apply(log, DropBelow(x)), x, last)
  {
  }

  // ---- Runs of equal terms ------------------------------------------------

  datatype TermRun = TermRun(start: nat, term: nat)

  function RunEnd(runs: seq<TermRun>, k: nat, last: nat): int
    requires k < |runs|
  {
    if k + 1 < |runs| then runs[k + 1].start - 1 else last
  }

  predicate Ascending(runs: seq<TermRun>) {
    forall j, k :: 0 <= j < k < |runs| ==> runs[j].start < runs[k].start
  }

  /** Run `k` covers every entry up to the next run, all of its term, and the next run's term differs. */
  ghost predicate RunHolds(runs: seq<TermRun>, log: Store, k: nat, last: nat)
    requires k < |runs|
  {
    && Uniform(log, runs[k].start, RunEnd(runs, k, last), runs[k].term)
    && (k + 1 < |runs| ==> runs[k + 1].term != runs[k].term)
  }

  ghost predicate Uniform(log: Store, a: nat, b: int, t: nat) {
    forall i :: a <= i <= b ==> i in log && log[i].term == t
  }

  /** The runs describe exactly the terms of the log: maximal, in order, and covering it. */
  ghost predicate RunsOk(runs: seq<TermRun>, log: Store, first: nat, last: nat) {
    if first == 0 then runs == []
    else
      && runs != [] && runs[0].start == first && runs[|runs| - 1].start <= last
      && Ascending(runs)
      && forall k :: 0 <= k < |runs| ==> RunHolds(runs, log, k, last)
  }

  /** The runs once entry `e` has followed. */
  function RunsWith(runs: seq<TermRun>, e: LogEntry): seq<TermRun> {
    if runs != [] && runs[|runs| - 1].term == e.term then runs else runs + [TermRun(e.index, e.term)]
  }

  lemma RunsAppendOne(runs: seq<TermRun>, log: Store, first: nat, last: nat, e: LogEntry)
    requires Contiguous(log, first, last) && RunsOk(runs, log, first, last) && e.index > 0
    requires first > 0 ==> e.index == last + 1
    ensures RunsOk(RunsWith(runs, e), log[e.index := e], if first == 0 then e.index else first, e.index)
    ensures Contiguous(log[e.index := e], if first == 0 then e.index else first, e.index)
  {
    var runs', log' := RunsWith(runs, e), log[e.index := e];
    forall k | 0 <= k < |runs'| ensures RunHolds(runs', log', k, e.index) {
      if k < |runs| { assert RunHolds(runs, log, k, last); }
    }
  }

  /** Dropping the runs that begin at or after `x` follows a suffix truncation. */
  lemma RunsCut(runs: seq<TermRun>, log: Store, first: nat, last: nat, x: nat, n: nat)
    requires Contiguous(log, first, last) && RunsOk(runs, log, first, last) && 0 < first < x <= last + 1
    requires 0 < n <= |runs| && runs[n - 1].start < x && (n < |runs| ==> runs[n].start >= x)
    ensures RunsOk(runs[..n], Apply(log, DropFrom(x)), first, x - 1)
  {
    var r, y := runs[..n], x - 1;
    forall k | 0 <= k < n ensures RunHolds(r, Apply(log, DropFrom(x)), k, y) {
      assert RunHolds(runs, log, k, last);
      assert RunEnd(r, k, y) <= RunEnd(runs, k, last);
    }
  }

  /** Restarting the run that spans `x` there follows a prefix truncation. */
  lemma RunsTrim(runs: seq<TermRun>, log: Store, first: nat, last: nat, x: nat, n: nat)
    requires Contiguous(log, first, last) && RunsOk(runs, log, first, last) && 0 < first < x <= last
    requires n < |runs| && runs[n].start <= x && (n + 1 < |runs| ==> x < runs[n + 1].start)
    ensures RunsOk([TermRun(x, runs[n].term)] + runs[n + 1..], Apply(log, DropBelow(x)), x, last)
  {
    var r := [TermRun(x, runs[n].term)] + runs[n + 1..];
    forall k | 0 <= k < |r| ensures RunHolds(r, Apply(log, DropBelow(x)), k, last) {
      assert RunHolds(runs, log, n + k, last);
      assert RunEnd(r, k, last) == RunEnd(runs, n + k, last) && x <= r[k].start;
    }
  }

  function RunsWithAll(runs: seq<TermRun>, entries: seq<LogEntry>): seq<TermRun> {
    if entries == [] then runs
    else RunsWith(RunsWithAll(runs, entries[..|entries| - 1]), entries[|entries| - 1])
  }

  lemma {:induction false} RunsAppended(runs: seq<TermRun>, log: Store, first: nat, last: nat, base: nat, entries: seq<LogEntry>)
    requires Contiguous(log, first, last) && RunsOk(runs, log, first, last)
    requires base > 0 && Numbered(base, entries) && (first > 0 ==> base == last + 1)
    ensures entries != [] ==>
      && Contiguous(Apply(log, AppendEntries(base, entries)), if first == 0 then base else first, base + |entries| - 1)
      && RunsOk(RunsWithAll(runs, entries), Apply(log, AppendEntries(base, entries)), if first == 0 then base else first, base + |entries| - 1)
    decreases |entries|
  {
    hide Apply, RunsOk, Contiguous, RunsWith;
    if entries != [] {
      var n := |entries| - 1;
      RunsAppended(runs, log, first, last, base, entries[..n]);
      assert entries[..n + 1] == entries;
      AppendMore(log, base, entries, n);
      if n == 0 {
        RunsAppendOne(runs, log, first, last, entries[0]);
      } else {
        var first', last' := if first == 0 then base else first, base + n - 1;
        RunsAppendOne(RunsWithAll(runs, entries[..n]), Apply(log, AppendEntries(base, entries[..n])), first', last', entries[n]);
      }
    }
  }

  /** The runs that begin before `x`. */
  function RunsBefore(runs: seq<TermRun>, x: nat): seq<TermRun> {
    if runs == [] || runs[|runs| - 1].start < x then runs else RunsBefore(runs[..|runs| - 1], x)
  }

  lemma {:induction false} RunsBeforeCount(runs: seq<TermRun>, x: nat)
    ensures var n := |RunsBefore(runs, x)|;
            n <= |runs| && RunsBefore(runs, x) == runs[..n]
            && (n > 0 ==> runs[n - 1].start < x) && (n < |runs| ==> runs[n].start >= x)
    decreases |runs|
  {
    if runs != [] && runs[|runs| - 1].start >= x {
      RunsBeforeCount(runs[..|runs| - 1], x);
    }
  }

  lemma {:induction false} RunsCutOk(runs: seq<TermRun>, log: Store, first: nat, last: nat, x: nat)
    requires Contiguous(log, first, last) && RunsOk(runs, log, first, last) && 0 < first < x <= last + 1
    ensures RunsOk(RunsBefore(runs, x), Apply(log, DropFrom(x)), first, x - 1)
  {
    RunsBeforeCount(runs, x);
    RunsCut(runs, log, first, last, x, |RunsBefore(runs, x)|);
  }

  /** The position of the last run that starts at or before `x`, -1 when none does. */
  function RunAt(runs: seq<TermRun>, x: nat): int {
    if runs == [] then -1
    else if runs[|runs| - 1].start <= x then |runs| - 1
    else RunAt(runs[..|runs| - 1], x)
  }

  lemma {:induction false} RunAtIs(runs: seq<TermRun>, x: nat)
    ensures var i := RunAt(runs, x);
            -1 <= i < |runs| && (i >= 0 ==> runs[i].start <= x)
            && forall k :: i < k < |runs| ==> x < runs[k].start
    decreases |runs|
  {
    if runs != [] && runs[|runs| - 1].start > x {
      RunAtIs(runs[..|runs| - 1], x);
    }
  }

  /** The runs from `x` on, the one that spans it restarted there. */
  function RunsFrom(runs: seq<TermRun>, x: nat): seq<TermRun> {
    var i := RunAt(runs, x);
    if 0 <= i < |runs| then [TermRun(x, runs[i].term)] + runs[i + 1..] else []
  }

  lemma RunsTrimOk(runs: seq<TermRun>, log: Store, first: nat, last: nat, x: nat)
    requires Contiguous(log, first, last) && RunsOk(runs, log, first, last) && 0 < first < x <= last
    ensures RunsOk(RunsFrom(runs, x), Apply(log, DropBelow(x)), x, last)
  {
    RunAtIs(runs, x);
    assert runs[0].start <= x;
    RunsTrim(runs, log, first, last, x, RunAt(runs, x));
  }
}
