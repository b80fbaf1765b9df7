/**
  The one goroutine that owns every storage write. It takes queued operations
  in runs, turns a run of appends into one storage call, and reports every
  operation back in the order it was queued.
 */
module StorageWriter {

  import opened Wrappers
  import opened LogSpec

  /** What storage holds. Each of its calls succeeds or fails as a whole. */
  datatype Disk = Disk(term: nat, vote: Option<nat>, log: Store, commit: nat)

  type Error = nat

  datatype Done = Done(seq_: nat, durableAfter: nat, err: Option<Error>)

  function PutAll(m: Store, es: seq<LogEntry>): Store {
    if es == [] then m
    else PutAll(m, es[..|es| - 1])[es[|es| - 1].index := es[|es| - 1]]
  }

  /** One operation on its own. A store that keeps no commit index ignores one. */
  function Executed(d: Disk, c: Change, keepsCommit: bool): Disk {
    match c
    case AppendEntries(_, es) => d.(log := PutAll(d.log, es))
    case DropFrom(_) => d.(log := Apply(d.log, c))
    case DropBelow(_) => d.(log := Apply(d.log, c))
    case SaveHard(t, v) => d.(term := t, vote := v)
    case SaveCommit(i) => if keepsCommit then d.(commit := i) else d
  }

  /** The operations executed one by one. */
  function Serial(d: Disk, ops: seq<WriteOp>, keepsCommit: bool): Disk {
    if ops == [] then d
    else Executed(Serial(d, ops[..|ops| - 1], keepsCommit), ops[|ops| - 1].change, keepsCommit)
  }

  lemma {:induction false} SerialSplit(d: Disk, a: seq<WriteOp>, b: seq<WriteOp>, kc: bool)
    ensures Serial(d, a + b, kc) == Serial(Serial(d, a, kc), b, kc)
    decreases |b|
  {
    if b == [] {
      assert a + b == a;
    } else {
      SerialSplit(d, a, b[..|b| - 1], kc);
      assert (a + b)[..|a + b| - 1] == a + b[..|b| - 1];
    }
  }

  lemma {:induction false} PutAllSplit(m: Store, a: seq<LogEntry>, b: seq<LogEntry>)
    ensures PutAll(m, a + b) == PutAll(PutAll(m, a), b)
    decreases |b|
  {
    if b == [] {
      assert a + b == a;
    } else {
      PutAllSplit(m, a, b[..|b| - 1]);
      assert (a + b)[..|a + b| - 1] == a + b[..|b| - 1];
    }
  }

  /** On entries numbered as the log numbers them, storing one by one is what the log means by an append. */
  lemma {:induction false} PutAllIsAppend(m: Store, base: nat, es: seq<LogEntry>)
    requires Numbered(base, es)
    ensures PutAll(m, es) == Apply(m, AppendEntries(base, es))
    decreases |es|
  {
    if es != [] {
      var n := |es| - 1;
      PutAllIsAppend(m, base, es[..n]);
      assert es[..n + 1] == es;
      AppendMore(m, base, es, n);
      if n == 0 { assert PutAll(m, es[..0]) == m; }
    }
  }

  /** The appends carry entries numbered as the log numbers them. */
  ghost predicate NumberedAppends(ops: seq<WriteOp>) {
    forall k :: 0 <= k < |ops| && ops[k].change.AppendEntries? ==> Numbered(ops[k].change.base, ops[k].change.entries)
  }

  /** What the writer stores of the log is what the log class takes its writes to mean. */
  lemma {:induction false} SerialIsReplay(d: Disk, ops: seq<WriteOp>, kc: bool)
    requires NumberedAppends(ops)
    ensures Serial(d, ops, kc).log == Replay(d.log, ops)
    decreases |ops|
  {
    hide Apply, PutAll;
    if ops != [] {
      var n := |ops| - 1;
      SerialIsReplay(d, ops[..n], kc);
      var c := ops[n].change;
      if c.AppendEntries? { PutAllIsAppend(Serial(d, ops[..n], kc).log, c.base, c.entries); }
      if Aside(c) { AsideIsSame(d.log, c); AsideIsSame(Serial(d, ops[..n], kc).log, c); }
    }
  }

  lemma AsideIsSame(m: Store, c: Change)
    requires Aside(c)
    ensures Apply(m, c) == m
  {
  }

  /** The hard state stored is the last one written, and without one it stays. */
  lemma {:induction false} SerialHard(d: Disk, ops: seq<WriteOp>, kc: bool, k: int)
    requires -1 <= k < |ops| && (k >= 0 ==> ops[k].change.SaveHard?) && forall j :: k < j < |ops| ==> !ops[j].change.SaveHard?
    ensures var d' := Serial(d, ops, kc);
      if k >= 0 then d'.term == ops[k].change.term && d'.vote == ops[k].change.vote else d'.term == d.term && d'.vote == d.vote
    decreases |ops|
  {
    if k < |ops| - 1 { SerialHard(d, ops[..|ops| - 1], kc, k); }
  }

  /** So is the commit index, on storage that keeps one; other storage never changes it. */
  lemma {:induction false} SerialCommit(d: Disk, ops: seq<WriteOp>, kc: bool, k: int)
    requires -1 <= k < |ops| && (k >= 0 ==> ops[k].change.SaveCommit?) && forall j :: k < j < |ops| ==> !ops[j].change.SaveCommit?
    ensures Serial(d, ops, kc).commit == if kc && k >= 0 then ops[k].change.index else d.commit
    decreases |ops|
  {
    if k < |ops| - 1 {
      SerialCommit(d, ops[..|ops| - 1], kc, k);
    } else if !kc && k >= 0 {
      SerialUncommitted(d, ops);
    }
  }

  lemma {:induction false} SerialUncommitted(d: Disk, ops: seq<WriteOp>)
    ensures Serial(d, ops, false).commit == d.commit
    decreases |ops|
  {
    if ops != [] { SerialUncommitted(d, ops[..|ops| - 1]); }
  }

  predicate AllAppends(ops: seq<WriteOp>) {
    forall k :: 0 <= k < |ops| ==> ops[k].change.AppendEntries?
  }

  function Concat(ops: seq<WriteOp>): seq<LogEntry>
    requires AllAppends(ops)
  {
    if ops == [] then [] else Concat(ops[..|ops| - 1]) + ops[|ops| - 1].change.entries
  }

  /** A run of appends stores what one append of all its entries does. */
  lemma {:induction false} CoalescedAppends(d: Disk, ops: seq<WriteOp>, kc: bool)
    requires AllAppends(ops)
    ensures Serial(d, ops, kc) == d.(log := PutAll(d.log, Concat(ops)))
    decreases |ops|
  {
    if ops != [] {
      var n := |ops| - 1;
      CoalescedAppends(d, ops[..n], kc);
      PutAllSplit(d.log, Concat(ops[..n]), ops[n].change.entries);
    }
  }

  /** A hard state followed by appends, written as one record, stores what they do one by one. */
  lemma {:induction false} PairedWithAppends(d: Disk, ops: seq<WriteOp>, kc: bool)
    requires |ops| > 1 && ops[0].change.SaveHard? && AllAppends(ops[1..])
    ensures var c := ops[0].change;
      Serial(d, ops, kc) == d.(term := c.term, vote := c.vote, log := PutAll(d.log, Concat(ops[1..])))
  {
    assert ops == [ops[0]] + ops[1..];
    SerialSplit(d, [ops[0]], ops[1..], kc);
    assert [ops[0]][..0] == [] && Serial(d, [], kc) == d;
    CoalescedAppends(Serial(d, [ops[0]], kc), ops[1..], kc);
  }

  /** What the writer may execute as one storage call. */
  predicate Runnable(batch: seq<WriteOp>, canBatch: bool) {
    && batch != []
    && (|batch| == 1 || AllAppends(batch) || (canBatch && batch[0].change.SaveHard? && AllAppends(batch[1..])))
  }

  /** Nothing to hand to storage: a commit index it does not keep, or appends without entries. */
  predicate Skips(batch: seq<WriteOp>, keepsCommit: bool)
    requires batch != []
  {
    || (batch[0].change.SaveCommit? && !keepsCommit)
    || forall k :: 0 <= k < |batch| ==> batch[k].change.AppendEntries? && batch[k].change.entries == []
  }

  lemma {:induction false} ConcatEmpty(ops: seq<WriteOp>)
    requires AllAppends(ops)
    ensures Concat(ops) == [] <==> forall k :: 0 <= k < |ops| ==> ops[k].change.entries == []
    decreases |ops|
  {
    if ops != [] { ConcatEmpty(ops[..|ops| - 1]); }
  }

  /** The run could not have been longer: what follows is no append, or would exceed the cap. */
  predicate Full(batch: seq<WriteOp>, rest: seq<WriteOp>, cap: nat) {
    rest != [] && rest[0].change.AppendEntries? ==> Entries(batch) + |rest[0].change.entries| > cap
  }

  /** A run that can be joined is joined: appends with appends, and a hard state with the appends behind it. */
  predicate Joined(batch: seq<WriteOp>, rest: seq<WriteOp>, canBatch: bool, cap: nat)
    requires batch != []
  {
    && (batch[0].change.AppendEntries? ==> Full(batch, rest, cap))
    && (canBatch && batch[0].change.SaveHard? && |batch| == 1 ==> rest == [] || !rest[0].change.AppendEntries?)
    && (|batch| > 1 ==> Full(batch, rest, cap))
  }

  lemma TailMore<T>(a: seq<T>, b: seq<T>, k: nat)
    requires k <= |a|
    ensures (a + b)[k..] == a[k..] + b
  {
  }

  lemma SliceSplit<T>(s: seq<T>, a: nat, n: nat)
    requires a + n <= |s|
    ensures s[a..][..n] == s[a..a + n] && s[a..][n..] == s[a + n..] && s[a..] == s[a..a + n] + s[a + n..]
  {
  }

  /** Where the run of appends that starts at `first` ends. */
  method BatchEnd(queue: seq<WriteOp>, first: nat, cap: nat) returns (end: nat)
    requires first < |queue| && queue[first].change.AppendEntries? && first <= 1
    requires first == 1 ==> queue[0].change.SaveHard?
    ensures first < end <= |queue| && Full(queue[..end], queue[end..], cap)
    ensures forall k :: first <= k < end ==> queue[k].change.AppendEntries?
  {
    var entries := 0;
    end := first;
    while end < |queue| && queue[end].change.AppendEntries?
      invariant first <= end <= |queue| && entries == Entries(queue[..end])
      invariant forall k :: first <= k < end ==> queue[k].change.AppendEntries?
    {
      var next := entries + |queue[end].change.entries|;
      if end > first && next > cap { break; }
      assert queue[..end + 1][..end] == queue[..end];
      entries := next;
      end := end + 1;
    }
  }

  /** How many operations the next run takes from the queue. */
  method NextRun(queue: seq<WriteOp>, canBatch: bool, cap: nat) returns (end: nat)
    requires queue != []
    ensures 0 < end <= |queue| && Runnable(queue[..end], canBatch)
    ensures Joined(queue[..end], queue[end..], canBatch, cap)
  {
    var first := 0;
    if canBatch && queue[0].change.SaveHard? && |queue| > 1 && queue[1].change.AppendEntries? {
      first := 1;
    }
    if first == 0 && !queue[0].change.AppendEntries? { return 1; }
    end := BatchEnd(queue, first, cap);
    if first == 1 {
      assert AllAppends(queue[..end][1..]);
    } else {
      assert AllAppends(queue[..end]);
    }
  }

  lemma {:induction false} SerialOne(d: Disk, op: WriteOp, kc: bool)
    ensures Serial(d, [op], kc) == Executed(d, op.change, kc)
  {
    assert [op][..0] == [] && Serial(d, [], kc) == d;
  }

  method Gather(ops: seq<WriteOp>) returns (entries: seq<LogEntry>)
    requires AllAppends(ops) && ops != []
    ensures entries == Concat(ops)
  {
    entries := [];
    for i := 0 to |ops|
      invariant entries == Concat(ops[..i])
    {
      assert ops[..i + 1][..i] == ops[..i];
      entries := entries + ops[i].change.entries;
    }
    assert ops[..|ops|] == ops;
  }

  class Writer {
    const canBatch: bool      // storage can write a hard state and entries as one record
    const keepsCommit: bool   // storage can remember a commit index
    const maxBatch: nat

    var started: bool
    var closed: bool
    var queue: seq<WriteOp>
    var done: seq<Done>
    var failed: Option<Error>
    var disk: Disk

    ghost const disk0: Disk
    ghost var accepted: seq<WriteOp>  // every operation ever accepted
    ghost var inHand: seq<WriteOp>    // taken from the queue, not reported yet
    ghost var reported: seq<Done>     // every completion ever recorded
    ghost var collected: nat          // how many of them the event loop has
    ghost var good: nat               // how many of them succeeded
    ghost var calls: seq<bool>        // every storage call made, and whether it succeeded

    ghost predicate Valid()
      reads this
    {
      && |reported| + |inHand| + |queue| == |accepted|
      && inHand == accepted[|reported|..|reported| + |inHand|]
      && queue == accepted[|reported| + |inHand|..]
      && ReportsOk(accepted, reported, good, failed)
      && collected <= |reported| && done == reported[collected..]
      && disk == Serial(disk0, accepted[..good], keepsCommit)
      && CallsOk(calls, failed)
    }

    constructor (canBatch: bool, keepsCommit: bool, maxBatch: nat, disk: Disk)
      ensures Valid() && accepted == [] && this.disk == disk && !closed && !started
      ensures this.canBatch == canBatch && this.keepsCommit == keepsCommit && this.maxBatch == maxBatch
    {
      this.canBatch, this.keepsCommit, this.maxBatch := canBatch, keepsCommit, maxBatch;
      started, closed, queue, done, failed := false, false, [], [], None;
      this.disk, disk0 := disk, disk;
      accepted, inHand, reported, collected, good, calls := [], [], [], 0, 0, [];
      new;
      assert accepted[..0] == [] && Serial(disk0, [], keepsCommit) == disk0;
    }

    /** Never blocks; a closed writer drops the operation. */
    method Enqueue(op: WriteOp) returns (start: bool)
      requires Valid()
      modifies this
      ensures Valid()
      ensures accepted == if old(closed) then old(accepted) else old(accepted) + [op]
      ensures start <==> !old(closed) && !old(started)
      ensures started == (old(started) || start) && closed == old(closed)
      ensures reported == old(reported) && inHand == old(inHand) && calls == old(calls) && disk == old(disk)
    {
      start := false;
      if !closed {
        queue := queue + [op];
        accepted := accepted + [op];
        start := !started;
        started := true;
        assert accepted[..good] == old(accepted)[..good];
      }
    }

    /**
      The first close wakes a writer that is running and announces the exit of
      one that never ran; nothing queued is dropped, and no writer starts later.
     */
    method Close() returns (wake: bool, exit: bool)
      requires Valid()
      modifies this`closed, this`started
      ensures Valid() && closed && started
      ensures wake <==> !old(closed) && old(started)
      ensures exit <==> !old(closed) && !old(started)
    {
      wake, exit := !closed && started, !closed && !started;
      closed, started := true, true;
    }

    /**
      The next run to execute: one operation, or as many consecutive appends as
      the cap allows, with a hard state directly before them when storage can
      write both at once.
     */
    method Take() returns (batch: seq<WriteOp>, stop: bool)
      requires Valid() && inHand == []
      modifies this`queue, this`inHand
      ensures Valid() && inHand == batch && old(queue) == batch + queue
      ensures if old(queue) == [] then batch == [] && stop == closed else Runnable(batch, canBatch) && !stop
      ensures batch != [] ==> Joined(batch, queue, canBatch, maxBatch)
    {
      hide Serial, ReportsOk, CallsOk, Runnable, Full;
      if |queue| == 0 { return [], closed; }
      var end := NextRun(queue, canBatch, maxBatch);
      SliceSplit(accepted, |reported|, end);
      batch := queue[..end];
      queue, inHand := queue[end..], batch;
      return batch, false;
    }

    /** The storage call for one run; `outcome` is what storage answers. After a failure no call is made. */
    method Run(batch: seq<WriteOp>, outcome: Option<Error>) returns (err: Option<Error>)
      requires Runnable(batch, canBatch)
      modifies this`disk, this`calls
      ensures failed.Some? ==> err == failed && disk == old(disk) && calls == old(calls)
      ensures failed.None? ==> disk == if err.None? then Serial(old(disk), batch, keepsCommit) else old(disk)
      ensures failed.None? ==> calls == (if Skips(batch, keepsCommit) then old(calls) else old(calls) + [outcome.None?])
      ensures failed.None? ==> err == if Skips(batch, keepsCommit) then None else outcome
    {
      if failed.Some? { return failed; }
      var paired := batch[0].change.SaveHard? && |batch| > 1;
      var appends := if paired then batch[1..] else batch;
      if appends[0].change.AppendEntries? {
        var entries := Gather(appends);
        ConcatEmpty(appends);
        if paired {
          PairedWithAppends(disk, batch, keepsCommit);
        } else {
          CoalescedAppends(disk, batch, keepsCommit);
          if |entries| == 0 { return None; }
        }
        calls := calls + [outcome.None?];
        if outcome.None? {
          disk := disk.(log := PutAll(disk.log, entries));
          if paired { disk := disk.(term := batch[0].change.term, vote := batch[0].change.vote); }
        }
        return outcome;
      }
      SerialOne(disk, batch[0], keepsCommit);
      if batch[0].change.SaveCommit? && !keepsCommit { return None; }
      calls := calls + [outcome.None?];
      if outcome.None? { disk := Executed(disk, batch[0].change, keepsCommit); }
      return outcome;
    }

    /** Runs what is in hand and reports every operation of it, in order. */
    method Execute(batch: seq<WriteOp>, outcome: Option<Error>) returns (err: Option<Error>)
      requires Valid() && batch == inHand && Runnable(batch, canBatch)
      modifies this`disk, this`calls, this`failed, this`done, this`inHand, this`reported, this`good
      ensures Valid() && inHand == []
      ensures reported == old(reported) + Reports(batch, err) && done == old(done) + Reports(batch, err)
      ensures old(failed).Some? ==> calls == old(calls) && disk == old(disk)
      ensures failed == err && err == if old(failed).Some? then old(failed) else if Skips(batch, keepsCommit) then None else outcome
    {
      hide Serial, Runnable, CallsOk, ReportsOk, Skips, Reports;
      err := Run(batch, outcome);
      var out := ReportAll(batch, err);
      ReportsMore(accepted, reported, good, failed, batch, err);
      CallsMore(old(calls), calls, failed, err);
      if failed.None? { SerialMore(disk0, accepted, reported, good, failed, batch, keepsCommit); }
      if failed.None? { failed := err; }
      TailMore(reported, out, collected);
      done, reported := done + out, reported + out;
      good, inHand := if err.None? then good + |batch| else good, [];
    }

    /** The event loop collects what has been reported since the last time. */
    method TakeDone() returns (out: seq<Done>)
      requires Valid()
      modifies this`done, this`collected
      ensures Valid() && out == old(done) && done == [] && collected == |reported|
    {
      out := done;
      done := [];
      collected := |reported|;
    }

    /** One turn of the writer's loop: take a run, execute it, report it. */
    method Work(outcome: Option<Error>) returns (more: bool, stop: bool)
      requires Valid() && inHand == []
      modifies this
      ensures Valid() && inHand == [] && accepted == old(accepted)
      ensures more <==> old(queue) != []
      ensures more ==> |queue| < |old(queue)| && |reported| > |old(reported)| && reported[..|old(reported)|] == old(reported)
      ensures stop <==> old(queue) == [] && closed
      ensures closed == old(closed) && started == old(started)
      ensures failed == old(failed) || (old(failed).None? && failed == outcome)
    {
      hide Serial, CallsOk, ReportsOk;
      var batch;
      batch, stop := Take();
      more := |batch| > 0;
      if more { var _ := Execute(batch, outcome); }
    }
  }

  method ReportAll(batch: seq<WriteOp>, err: Option<Error>) returns (out: seq<Done>)
    ensures out == Reports(batch, err)
  {
    out := [];
    for i := 0 to |batch|
      invariant out == Reports(batch, err)[..i]
    {
      out := out + [Done(batch[i].seq_, batch[i].durableAfter, err)];
    }
  }

  function Reports(batch: seq<WriteOp>, err: Option<Error>): seq<Done> {
    seq(|batch|, i requires 0 <= i < |batch| => Done(batch[i].seq_, batch[i].durableAfter, err))
  }

  lemma ReportsMore(accepted: seq<WriteOp>, reported: seq<Done>, good: nat, failed: Option<Error>, batch: seq<WriteOp>, err: Option<Error>)
    requires ReportsOk(accepted, reported, good, failed) && |reported| + |batch| <= |accepted|
    requires batch == accepted[|reported|..|reported| + |batch|] && (failed.Some? ==> err == failed)
    ensures ReportsOk(accepted, reported + Reports(batch, err), if err.None? then good + |batch| else good, if failed.None? then err else failed)
    ensures |Reports(batch, err)| == |batch|
  {
  }

  lemma CallsMore(before: seq<bool>, after: seq<bool>, failed: Option<Error>, err: Option<Error>)
    requires CallsOk(before, failed) && (failed.Some? ==> after == before && err == failed)
    requires failed.None? ==> after == before + [err.None?] || (err.None? && after == before)
    ensures CallsOk(after, if failed.None? then err else failed)
  {
  }

  /** Executing a run as one call keeps storage equal to executing everything accepted so far one by one. */
  lemma {:induction false} SerialMore(d: Disk, accepted: seq<WriteOp>, reported: seq<Done>, good: nat, failed: Option<Error>, batch: seq<WriteOp>, kc: bool)
    requires ReportsOk(accepted, reported, good, failed) && |reported| + |batch| <= |accepted| && failed.None?
    requires batch == accepted[|reported|..|reported| + |batch|]
    ensures Serial(Serial(d, accepted[..good], kc), batch, kc) == Serial(d, accepted[..good + |batch|], kc)
  {
    assert good == |reported| && accepted[..good + |batch|] == accepted[..good] + batch;
    SerialSplit(d, accepted[..good], batch, kc);
  }

  /** How many log entries a run carries. */
  function Entries(ops: seq<WriteOp>): nat {
    if ops == [] then 0
    else
      var op := ops[|ops| - 1].change;
      Entries(ops[..|ops| - 1]) + if op.AppendEntries? then |op.entries| else 0
  }

  /** One report per operation in queueing order: successes first, then the first error for all the rest. */
  ghost predicate ReportsOk(accepted: seq<WriteOp>, reported: seq<Done>, good: nat, failed: Option<Error>) {
    && good <= |reported| <= |accepted|
    && (good < |reported| ==> failed.Some?)
    && forall k :: 0 <= k < |reported| ==>
         reported[k] == Done(accepted[k].seq_, accepted[k].durableAfter, if k < good then None else failed)
  }

  /** Every storage call but the last succeeded, and there is none after a failure. */
  ghost predicate CallsOk(calls: seq<bool>, failed: Option<Error>) {
    && (forall i :: 0 <= i < |calls| - 1 ==> calls[i])
    && (failed.Some? <==> calls != [] && !calls[|calls| - 1])
  }
}
