/**
  The in-memory overlay on the stored log. Every change takes effect here at
  once and is queued for the writer; storage follows later, one write at a
  time, and its completions arrive later still.
 */
module RaftLog {

  import opened Wrappers
  import opened LogSpec
  import opened Unstable
  import opened InFlight
  import opened Overlay
  import opened LogTight

  const BATCH := 1024

  /** Storage holds the log's entry at `i` now, and still would after a crash at any later moment. */
  ghost predicate Settled(v: View, i: nat) {
    i in LogOf(v) && forall k :: 0 <= k <= |v.queue| ==> HasAt(Replay(v.disk, v.queue[..k]), i, LogOf(v)[i])
  }

  /** Once every write up to number `g` has landed, storage holds the log's entry at `i` for good. */
  ghost predicate SettledAfter(v: View, g: nat, i: nat) {
    i in LogOf(v) &&
    forall k :: 0 <= k <= |v.queue| && (k < |v.queue| ==> v.queue[k].seq_ > g) ==>
      HasAt(Replay(v.disk, v.queue[..k]), i, LogOf(v)[i])
  }

  /** No write numbered after `g` touches index `i`, or anything below it that the log holds. */
  ghost predicate AloneAfter(v: View, g: nat, i: nat) {
    forall m :: 0 <= m < |Pending(v)| && Pending(v)[m].seq_ > g ==> !Disturbs(Pending(v)[m].change, i)
  }

  lemma LeftAlone(v: View, g: nat, i: nat)
    requires Core(v) && i in LogOf(v)
    requires forall j :: 0 <= j < |v.segs| && v.segs[j].seq_ > g ==> i < Start(v.segs[j])
    ensures AloneAfter(v, g, i)
  {
    forall m | 0 <= m < |Pending(v)| && Pending(v)[m].seq_ > g ensures !Disturbs(Pending(v)[m].change, i) {
      Undisturbed(Pending(v)[m], v.segs, v.first, v.last, v.snapIndex, i);
    }
  }

  lemma {:induction false} SettleAfter(v: View, g: nat, i: nat)
    requires Core(v) && i in LogOf(v) && AloneAfter(v, g, i)
    ensures SettledAfter(v, g, i)
  {
    hide RunsOk, ImagesOk, Replay;
    var u := Pending(v);
    forall k | 0 <= k <= |v.queue| && (k < |v.queue| ==> v.queue[k].seq_ > g)
      ensures HasAt(Replay(v.disk, v.queue[..k]), i, LogOf(v)[i])
    {
      forall m | k <= m < |v.queue| ensures !Disturbs(v.queue[m].change, i) {
        assert u[|v.landed| + m] == v.queue[m] && u[|v.landed| + k] == v.queue[k];
      }
      StoredAfter(v.disk, v.queue, LogOf(v), k, i);
    }
  }

  lemma {:induction false} Settle(v: View, i: nat)
    requires Core(v) && i in LogOf(v) && (v.segs != [] ==> i < Start(v.segs[0]))
    ensures Settled(v, i)
  {
    forall j | 0 <= j < |v.segs| ensures i < Start(v.segs[j]) {
      if j > 0 { StartsAscend(v.segs, LogOf(v), v.last, v.nextSeq - |Pending(v)| + 1, 0, j); }
    }
    forall k | 0 <= k <= |v.queue| ensures HasAt(Replay(v.disk, v.queue[..k]), i, LogOf(v)[i]) {
      forall m | k <= m < |v.queue| ensures !Disturbs(v.queue[m].change, i) {
        assert Pending(v)[|v.landed| + m] == v.queue[m];
        Undisturbed(v.queue[m], v.segs, v.first, v.last, v.snapIndex, i);
      }
      StoredAfter(v.disk, v.queue, LogOf(v), k, i);
    }
  }

  /** The durable point, raised to the snapshot and capped by what is only in memory and by the log itself. */
  function StableValue(v: View): nat {
    var d := if v.snapIndex > v.durable then v.snapIndex else v.durable;
    var us := FirstHeld(v.segs);
    var e := if us != 0 && d >= us then us - 1 else d;
    if e > LastLogIndex(v) then LastLogIndex(v) else e
  }

  /**
    Every entry up to the stable index is in storage, now and after a crash
    at any later point; with nothing in flight that is the whole log.
   */
  lemma StableIsStored(v: View)
    requires Core(v)
    ensures StableValue(v) <= LastLogIndex(v)
    ensures forall i :: i in LogOf(v) && i <= StableValue(v) ==> Settled(v, i)
    ensures Pending(v) == [] ==> StableValue(v) == LastLogIndex(v)
  {
    SegsFit(v);
    forall i | i in LogOf(v) && i <= StableValue(v) ensures Settled(v, i) {
      Settle(v, i);
    }
  }

  lemma EmptyRuns()
    ensures RunsOk([], map[], 0, 0)
  {
  }

  lemma LastRun(runs: seq<TermRun>, log: Store, first: nat, last: nat)
    requires RunsOk(runs, log, first, last) && first > 0
    ensures runs != [] && last in log && runs[|runs| - 1].term == log[last].term
  {
    assert RunHolds(runs, log, |runs| - 1, last);
  }

  /** A log just opened, with nothing in flight, is valid. */
  lemma OpenedOk(v: View)
    requires v.queue == [] && v.landed == [] && v.segs == [] && v.bytes == 0 && v.durable == v.queuedDurable == v.last
    requires Contiguous(v.disk, v.first, v.last) && RunsOk(v.runs, v.disk, v.first, v.last)
    requires SnapOk(v.disk, v.first, v.last, v.snapIndex, v.snapTerm) && (v.first > 0 ==> v.first <= v.snapIndex + 1)
    requires v.lastTerm == if v.last > 0 then v.disk[v.last].term else v.snapTerm
    ensures Valid(v) && LogOf(v) == v.disk && Pending(v) == []
  {
    hide RunsOk;
    assert v.queue[..0] == [] && Whole(Replay(v.disk, []));
  }

  /** Reading the next batch of a stored log extends its runs by exactly that batch. */
  lemma {:induction false} ReadBatch(runs: seq<TermRun>, disk: Store, first: nat, last: nat, lo: nat, entries: seq<LogEntry>)
    requires Contiguous(disk, first, last) && 0 < first <= lo && lo + |entries| <= last + 1 && entries != []
    requires forall k :: 0 <= k < |entries| ==> entries[k] == disk[lo + k]
    requires if lo == first then RunsOk(runs, map[], 0, 0) else RunsOk(runs, Apply(disk, DropFrom(lo)), first, lo - 1)
    ensures RunsOk(RunsWithAll(runs, entries), Apply(disk, DropFrom(lo + |entries|)), first, lo + |entries| - 1)
  {
    hide RunsOk, RunsWithAll;
    var below: Store := if lo == first then map[] else Apply(disk, DropFrom(lo));
    assert Numbered(lo, entries);
    if lo == first {
      RunsAppended(runs, below, 0, 0, lo, entries);
    } else {
      ContiguousDropFrom(disk, first, last, lo);
      RunsAppended(runs, below, first, lo - 1, lo, entries);
    }
    var a, b := Apply(below, AppendEntries(lo, entries)), Apply(disk, DropFrom(lo + |entries|));
    forall i: nat ensures (i in a <==> i in b) && (i in a ==> a[i] == b[i]) {
      AppendedAt(below, lo, entries, i);
    }
    assert a == b;
  }

  /** Nothing in flight touches the log up to the stable index. */
  lemma BelowStable(v: View, i: nat)
    requires Core(v) && i in LogOf(v) && i <= StableValue(v)
    ensures AloneAfter(v, 0, i)
  {
    SegsFit(v);
    forall j | 0 <= j < |v.segs| ensures i < Start(v.segs[j]) {
      if j > 0 { StartsAscend(v.segs, LogOf(v), v.last, v.nextSeq - |Pending(v)| + 1, 0, j); }
    }
    LeftAlone(v, 0, i);
  }

  /** The entry at an index is in the segment. */
  predicate Holds(s: Seg, i: nat) {
    |s.entries| > 0 && s.entries[0].index <= i <= s.entries[|s.entries| - 1].index
  }

  /** The write of the segment that holds an entry is the last to touch it. */
  lemma HeldFacts(v: View, i: nat, index: nat)
    requires Core(v) && i < |v.segs| && Holds(v.segs[i], index)
    ensures v.segs[i].seq_ <= v.nextSeq
    ensures index in LogOf(v) ==> AloneAfter(v, v.segs[i].seq_, index) && SettledAfter(v, v.segs[i].seq_, index)
    ensures index in LogOf(v) && Tight(v) ==> Named(v, v.segs[i].seq_, index)
  {
    hide Replay, RunsOk, ImagesOk, Shielded, SettledAfter, AloneAfter;
    SegsFit(v);
    assert SegOk(v.segs[i], LogOf(v));
    if index in LogOf(v) {
      forall j | 0 <= j < |v.segs| && v.segs[j].seq_ > v.segs[i].seq_ ensures index < Start(v.segs[j]) {
        StartsAscend(v.segs, LogOf(v), v.last, v.nextSeq - |Pending(v)| + 1, i, j);
      }
      LeftAlone(v, v.segs[i].seq_, index);
      SettleAfter(v, v.segs[i].seq_, index);
      if Tight(v) {
        var k :| 0 <= k < |Pending(v)| && Backs(Pending(v)[k], v.segs[i]);
        assert Disturbs(Pending(v)[k].change, index);
      }
    }
  }

  lemma EverythingAlone(v: View, i: nat)
    requires Core(v)
    ensures AloneAfter(v, v.nextSeq, i)
  {
  }

  /** An entry that is only in memory is in some segment, and that segment's write touches it. */
  lemma {:induction false} HeldIsWritten(v: View, i: nat) returns (j: nat)
    requires Core(v) && Tight(v) && i in LogOf(v) && i > StableValue(v)
    ensures j < |v.segs| && Holds(v.segs[j], i) && Named(v, v.segs[j].seq_, i)
  {
    hide Replay, RunsOk, ImagesOk, Shielded, WritesOk;
    SegsFit(v);
    j := |v.segs| - 1;
    assert Joined(v.segs, j, v.last);
    while Start(v.segs[j]) > i
      invariant 0 <= j < |v.segs| && i < End(v.segs[j])
      decreases j
    {
      assert Joined(v.segs, j - 1, v.last);
      j := j - 1;
    }
    var k :| 0 <= k < |Pending(v)| && Backs(Pending(v)[k], v.segs[j]);
    assert Disturbs(Pending(v)[k].change, i);
    assert SegOk(v.segs[j], LogOf(v));
  }

  /** The write of that number is in flight and touches the index. */
  ghost predicate Named(v: View, g: nat, i: nat) {
    exists m :: 0 <= m < |Pending(v)| && Pending(v)[m].seq_ == g && Disturbs(Pending(v)[m].change, i)
  }

  /** An entry is stable exactly when no write in flight touches it. */
  lemma StableIsExact(v: View, i: nat)
    requires Core(v) && Tight(v) && i in LogOf(v)
    ensures i <= StableValue(v) <==> AloneAfter(v, 0, i)
  {
    hide Core, Tight, LogOf, Pending, StableValue;
    if i <= StableValue(v) {
      BelowStable(v, i);
    } else {
      var j := HeldIsWritten(v, i);
      assert v.segs[j].seq_ > 0 by { SegNumbered(v, j); }
    }
  }

  lemma SegNumbered(v: View, j: nat)
    requires Core(v) && j < |v.segs|
    ensures v.segs[j].seq_ > 0
  {
    hide Replay, RunsOk;
  }

  class RaftLog {
    var snapIndex: nat
    var snapTerm: nat
    var first: nat
    var last: nat
    var lastTerm: nat
    var segs: seq<Seg>
    var unstableBytes: nat
    var runs: seq<TermRun>
    var durable: nat
    var queuedDurable: nat
    var nextSeq: nat

    // The writer and the storage behind it.
    var disk: Store
    var queue: seq<WriteOp>
    var landed: seq<WriteOp>

    ghost function State(): View
      reads this
    {
      View(snapIndex, snapTerm, first, last, lastTerm, segs, unstableBytes, runs,
           durable, queuedDurable, nextSeq, disk, queue, landed)
    }

    /** Opening a stored log: everything that survived a restart is durable, and its terms are read once. */
    constructor (storage: Store, firstIndex: nat, lastIndex: nat, index: nat, term: nat)
      requires Contiguous(storage, firstIndex, lastIndex) && SnapOk(storage, firstIndex, lastIndex, index, term)
      requires firstIndex > 0 ==> firstIndex <= index + 1
      ensures Valid(State()) && LogOf(State()) == storage && Pending(State()) == []
    {
      snapIndex, snapTerm, first, last, lastTerm := index, term, firstIndex, lastIndex, term;
      segs, unstableBytes, runs := [], 0, [];
      durable, queuedDurable, nextSeq := lastIndex, lastIndex, 0;
      disk, queue, landed := storage, [], [];
      new;
      hide RunsOk, Valid;
      if last > 0 {
        LoadRuns();
        LastRun(runs, disk, first, last);
        lastTerm := runs[|runs| - 1].term;
      } else {
        assert RunsOk([], disk, 0, 0) by { EmptyRuns(); }
      }
      OpenedOk(State());
    }

    /** Rebuilds the run index by reading the stored log once, in batches. */
    method LoadRuns()
      requires Contiguous(disk, first, last) && first > 0 && runs == []
      modifies this`runs
      ensures RunsOk(runs, disk, first, last)
    {
      hide RunsOk;
      var lo := first;
      assert RunsOk([], map[], 0, 0) by { EmptyRuns(); }
      while lo <= last
        invariant first <= lo <= last + 1
        invariant lo == first ==> RunsOk(runs, map[], 0, 0)
        invariant lo > first ==> RunsOk(runs, Apply(disk, DropFrom(lo)), first, lo - 1)
      {
        var hi := if lo + BATCH < last + 1 then lo + BATCH else last + 1;
        var entries := StoredEntries(lo, hi);
        ReadBatch(runs, disk, first, last, lo, entries);
        ExtendRuns(entries);
        lo := hi;
      }
      assert Apply(disk, DropFrom(lo)) == disk;
    }

    // ---- Reading the log ----------------------------------------------------

    function LastIndex(): nat
      reads this
    {
      if last > 0 then last else snapIndex
    }

    method StableIndex() returns (d: nat)
      ensures d == StableValue(State())
    {
      d := durable;
      if snapIndex > d { d := snapIndex; }
      var us := UnstableFirst(segs);
      if us != 0 && d >= us { d := us - 1; }
      if d > LastIndex() { d := LastIndex(); }
    }

    /** The segment an index is in, or the number of segments. */
    method SegmentFor(index: nat) returns (i: nat)
      ensures i <= |segs| && (i < |segs| ==> Holds(segs[i], index)) && forall j :: 0 <= j < i ==> !Holds(segs[j], index)
    {
      i := 0;
      while i < |segs|
        invariant i <= |segs| && forall j :: 0 <= j < i ==> !Holds(segs[j], index)
      {
        var es := segs[i].entries;
        if |es| > 0 && es[0].index <= index <= es[|es| - 1].index { return; }
        i := i + 1;
      }
    }

    /** The write to wait for before vouching for the entry at `index`, 0 when there is none: the last in flight that touches it. */
    method WriteSeqCovering(index: nat) returns (g: nat)
      requires Core(State())
      ensures index in LogOf(State()) ==> SettledAfter(State(), g, index) && AloneAfter(State(), g, index)
      ensures g <= nextSeq
      ensures index <= StableValue(State()) ==> g == 0
      ensures Tight(State()) && index in LogOf(State()) && g > 0 ==> Named(State(), g, index)
    {
      hide Core, Tight, LogOf, SettledAfter, AloneAfter, Named, Holds;
      ghost var v := State();
      var stable := StableIndex();
      if index == 0 || index <= stable {
        if index in LogOf(v) {
          BelowStable(v, index);
          SettleAfter(v, 0, index);
        }
        return 0;
      }
      var i := SegmentFor(index);
      if i < |segs| {
        HeldFacts(v, i, index);
        return segs[i].seq_;
      }
      if index in LogOf(v) {
        EverythingAlone(v, index);
        SettleAfter(v, nextSeq, index);
        if Tight(v) { var held := HeldIsWritten(v, index); }
      }
      return nextSeq;
    }

    method RunIndexFor(index: nat) returns (i: int)
      ensures i == RunAt(runs, index)
    {
      i := |runs| - 1;
      assert runs[..|runs|] == runs;
      while i >= 0
        invariant -1 <= i < |runs|
        invariant RunAt(runs[..i + 1], index) == RunAt(runs, index)
      {
        assert runs[..i + 1][..i] == runs[..i];
        if runs[i].start <= index { return; }
        i := i - 1;
      }
    }

    /** The term of an index: answered exactly for the entries of the log, the snapshot boundary and 0. */
    method TermAt(index: nat) returns (t: Option<nat>)
      requires Core(State())
      ensures t.Some? <==> index == 0 || index == snapIndex || index in LogOf(State())
      ensures index in LogOf(State()) ==> t == Some(LogOf(State())[index].term)
      ensures t.Some? ==> forall u :: t.value == u <==> Agrees(State(), index, u)
    {
      if index == 0 { return Some(0); }
      if index == snapIndex { return Some(snapTerm); }
      if first == 0 || index < first || index > last { return None; }
      var i := RunIndexFor(index);
      RunAtIs(runs, index);
      assert RunHolds(runs, LogOf(State()), i, last);
      return Some(runs[i].term);
    }

    /** The first index of the stretch of equal terms that ends in `index`, 0 outside the log. */
    method TermRunStart(index: nat) returns (r: nat)
      requires Core(State())
      ensures index !in LogOf(State()) ==> r == 0
      ensures index in LogOf(State()) ==> first <= r <= index && Uniform(LogOf(State()), r, index, LogOf(State())[index].term)
      ensures index in LogOf(State()) && r > first ==> LogOf(State())[r - 1].term != LogOf(State())[index].term
    {
      var i := RunIndexFor(index);
      RunAtIs(runs, index);
      if i < 0 || index > last { return 0; }
      assert RunHolds(runs, LogOf(State()), i, last);
      if i > 0 { assert RunHolds(runs, LogOf(State()), i - 1, last); }
      return runs[i].start;
    }

    /** The highest index that carries `term`; an empty log answers for its snapshot boundary. */
    method LastIndexOfTerm(term: nat) returns (r: Option<nat>)
      requires Core(State())
      ensures first > 0 && r.Some? ==> r.value in LogOf(State()) && LogOf(State())[r.value].term == term
      ensures first > 0 && r.Some? ==> forall i :: i in LogOf(State()) && LogOf(State())[i].term == term ==> i <= r.value
      ensures first > 0 && r.None? ==> forall i :: i in LogOf(State()) ==> LogOf(State())[i].term != term
      ensures first == 0 ==> r == if snapIndex != 0 && snapTerm == term then Some(snapIndex) else None
    {
      hide Replay;
      ghost var log := LogOf(State());
      var i := |runs| - 1;
      while i >= 0
        invariant -1 <= i < |runs|
        invariant first > 0 && i + 1 < |runs| ==> forall m :: m in log && runs[i + 1].start <= m ==> log[m].term != term
      {
        assert RunHolds(runs, log, i, last);
        if runs[i].term == term {
          return Some(if i + 1 < |runs| then runs[i + 1].start - 1 else last);
        }
        i := i - 1;
      }
      if first == 0 && snapIndex != 0 && snapTerm == term { return Some(snapIndex); }
      return None;
    }

    /** Storage's own range read. */
    method StoredEntries(lo: nat, hi: nat) returns (out: seq<LogEntry>)
      requires lo <= hi && forall i :: lo <= i < hi ==> i in disk
      ensures |out| == hi - lo && forall k :: 0 <= k < |out| ==> out[k] == disk[lo + k]
    {
      out := [];
      for i := lo to hi
        invariant |out| == i - lo && forall k :: 0 <= k < |out| ==> out[k] == disk[lo + k]
      {
        out := out + [disk[i]];
      }
    }

    /** Exactly the log's entries from `lo` to `hi`, from storage and memory together. */
    method Entries(lo: nat, hi: nat) returns (r: Option<seq<LogEntry>>)
      requires Core(State())
      ensures
        var top := if hi > last + 1 then last + 1 else hi;
        if lo >= top then r == Some([])
        else if first == 0 || lo < first then r == None
        else r.Some? && |r.value| == top - lo && forall k :: 0 <= k < top - lo ==> HasAt(LogOf(State()), lo + k, r.value[k])
    {
      hide RunsOk, WritesOk, ImagesOk, SegsOk;
      var top := if hi > last + 1 then last + 1 else hi;
      if lo >= top { return Some([]); }
      if first == 0 || lo < first { return None; }
      ghost var v := State();
      var us := UnstableFirst(segs);
      ghost var from := nextSeq - |Pending(v)| + 1;
      SegsFit(v);
      if us != 0 && lo >= us {
        var out := UnstableSlice(segs, LogOf(v), last, from, lo, top);
        return Some(out);
      }
      var storageHi := if us != 0 && us < top then us else top;
      forall i | lo <= i < storageHi ensures i in disk && disk[i] == LogOf(v)[i] {
        Settle(v, i);
        assert queue[..0] == [] && HasAt(Replay(disk, queue[..0]), i, LogOf(v)[i]);
      }
      var out := StoredEntries(lo, storageHi);
      if storageHi < top {
        var rest := UnstableSlice(segs, LogOf(v), last, from, storageHi, top);
        forall k | 0 <= k < top - lo ensures HasAt(LogOf(v), lo + k, (out + rest)[k]) {
          if k >= |out| { assert HasAt(LogOf(v), storageHi + (k - |out|), rest[k - |out|]); }
        }
        out := out + rest;
      }
      return Some(out);
    }

    // ---- Changing the log -----------------------------------------------------

    method NextWriteSeq() returns (s: nat)
      modifies this`nextSeq
      ensures s == old(nextSeq) + 1 && State() == old(State()).(nextSeq := s)
    {
      nextSeq := nextSeq + 1;
      return nextSeq;
    }

    method Enqueue(op: WriteOp)
      modifies this`queue
      ensures State() == old(State()).(queue := old(queue) + [op])
    {
      queue := queue + [op];
    }

    method Hold(s: Seg)
      modifies this`segs, this`unstableBytes
      ensures State() == old(State()).(segs := old(segs) + [s], bytes := old(unstableBytes) + CommandBytes(s.entries))
    {
      segs := segs + [s];
      var size := SizeOf(s.entries);
      unstableBytes := unstableBytes + size;
    }

    method ExtendRuns(entries: seq<LogEntry>)
      modifies this`runs
      ensures State() == old(State()).(runs := RunsWithAll(old(runs), entries))
    {
      for i := 0 to |entries|
        invariant runs == RunsWithAll(old(runs), entries[..i])
      {
        assert entries[..i + 1][..i] == entries[..i];
        if |runs| > 0 && runs[|runs| - 1].term == entries[i].term { continue; }
        runs := runs + [TermRun(entries[i].index, entries[i].term)];
      }
      assert entries[..|entries|] == entries;
    }

    method Append(entries: seq<LogEntry>) returns (seq_: nat)
      modifies this
      ensures State() == Appended(old(State()), entries)
      ensures seq_ == if entries == [] then 0 else nextSeq
    {
      hide RunsWithAll, CommandBytes;
      if |entries| == 0 { return 0; }
      seq_ := NextWriteSeq();
      Hold(Seg(seq_, entries));
      ExtendRuns(entries);
      var e := entries[|entries| - 1];
      if first == 0 { first := entries[0].index; }
      last, lastTerm, queuedDurable := e.index, e.term, e.index;
      Enqueue(WriteOp(seq_, AppendEntries(entries[0].index, entries), queuedDurable));
    }

    method DropUnstableFrom(from: nat)
      requires unstableBytes == Held(segs) && forall j :: 0 <= j < |segs| ==> Numbered(Start(segs[j]), segs[j].entries)
      modifies this`segs, this`unstableBytes
      ensures segs == CutFrom(old(segs), from) && unstableBytes == Held(segs)
    {
      hide Held, CommandBytes;
      var i := |segs| - 1;
      while i >= 0
        invariant i == |segs| - 1 && unstableBytes == Held(segs)
        invariant forall j :: 0 <= j < |segs| ==> Numbered(Start(segs[j]), segs[j].entries)
        invariant CutFrom(segs, from) == CutFrom(old(segs), from)
      {
        var es := segs[i].entries;
        if |es| == 0 || es[0].index >= from {
          HeldCut(segs, 0);
          var size := SizeOf(es);
          segs, unstableBytes := segs[..i], unstableBytes - size;
          i := i - 1;
          continue;
        }
        if es[|es| - 1].index >= from {
          var keep := from - es[0].index;
          HeldCut(segs, keep);
          var size := SizeOf(es[keep..]);
          segs, unstableBytes := segs[..i] + [Seg(segs[i].seq_, es[..keep])], unstableBytes - size;
        }
        break;
      }
    }

    method DropUnstableBelow(upto: nat)
      requires unstableBytes == Held(segs) && forall j :: 0 <= j < |segs| ==> Numbered(Start(segs[j]), segs[j].entries)
      modifies this`segs, this`unstableBytes
      ensures segs == TrimBelow(old(segs), upto) && unstableBytes == Held(segs)
    {
      hide Held, CommandBytes;
      while |segs| > 0
        invariant unstableBytes == Held(segs)
        invariant forall j :: 0 <= j < |segs| ==> Numbered(Start(segs[j]), segs[j].entries)
        invariant TrimBelow(segs, upto) == TrimBelow(old(segs), upto)
      {
        var es := segs[0].entries;
        if |es| == 0 || es[|es| - 1].index < upto {
          HeldTrim(segs, 0);
          var size := SizeOf(es);
          segs, unstableBytes := segs[1..], unstableBytes - size;
          continue;
        }
        if es[0].index < upto {
          var drop := upto - es[0].index;
          HeldTrim(segs, drop);
          var size := SizeOf(es[..drop]);
          segs, unstableBytes := [Seg(segs[0].seq_, es[drop..])] + segs[1..], unstableBytes - size;
        }
        return;
      }
    }

    method TruncateRunsFrom(from: nat)
      modifies this`runs
      ensures State() == old(State()).(runs := RunsBefore(old(runs), from))
    {
      while |runs| > 0 && runs[|runs| - 1].start >= from
        invariant RunsBefore(runs, from) == RunsBefore(old(runs), from)
      {
        runs := runs[..|runs| - 1];
      }
    }

    method TruncateRunsBelow(to: nat)
      modifies this`runs
      ensures State() == old(State()).(runs := RunsFrom(old(runs), to))
    {
      var i := RunIndexFor(to);
      RunAtIs(runs, to);
      if i < 0 {
        runs := [];
        return;
      }
      runs := [TermRun(to, runs[i].term)] + runs[i + 1..];
    }

    /** A write of the log's own, recording what will be durable once it completes. */
    method QueueWrite(c: Change)
      modifies this`nextSeq, this`queue
      ensures State() == old(State()).(nextSeq := old(nextSeq) + 1, queue := old(queue) + [WriteOp(old(nextSeq) + 1, c, queuedDurable)])
    {
      var s := NextWriteSeq();
      Enqueue(WriteOp(s, c, queuedDurable));
    }

    method Clear()
      modifies this`first, this`last, this`lastTerm, this`runs
      ensures State() == old(State()).(first := 0, last := 0, lastTerm := snapTerm, runs := [])
    {
      first, last, lastTerm, runs := 0, 0, snapTerm, [];
    }

    /** The term the log will end in once it is cut at `from`. */
    method TermBefore(from: nat) returns (t: Option<nat>)
      requires Core(State()) && first > 0 && from > 0
      ensures t.None? <==> last + 1 < from
      ensures t.Some? && first < from ==> from - 1 in LogOf(State()) && t.value == LogOf(State())[from - 1].term
    {
      t := Some(snapTerm);
      if from > first && from - 1 > 0 { t := TermAt(from - 1); }
    }

    /** Fails, changing nothing, exactly when the entry before the cut is beyond the log. */
    method TruncateSuffix(from: nat) returns (ok: bool)
      requires Core(State()) && first > 0 && from > 0
      modifies this
      ensures ok <==> from <= old(last) + 1
      ensures ok ==> State() == Cut(old(State()), from)
      ensures !ok ==> State() == old(State())
    {
      hide CutFrom, RunsBefore, Held, LogOf, Shape, Flight;
      var newLastTerm := TermBefore(from);
      if newLastTerm.None? { return false; }
      SegsFit(State());
      TruncateRunsFrom(from);
      DropUnstableFrom(from);
      if from - 1 < queuedDurable { queuedDurable := from - 1; }
      QueueWrite(DropFrom(from));
      if from <= first {
        Clear();
      } else {
        last, lastTerm := from - 1, newLastTerm.value;
      }
      return true;
    }

    method TruncatePrefix(to: nat)
      requires Core(State())
      modifies this
      ensures State() == Trim(old(State()), to)
    {
      hide TrimBelow, RunsFrom, Held, LogOf, Shape, Flight;
      if first != 0 && to <= first { return; }
      SegsFit(State());
      DropUnstableBelow(to);
      if to > last && to > 0 && to - 1 < queuedDurable { queuedDurable := to - 1; }
      QueueWrite(DropBelow(to));
      if to > last {
        Clear();
      } else {
        TruncateRunsBelow(to);
        first := to;
      }
    }

    /** Makes a received snapshot the log's new base. */
    method InstallSnapshot(index: nat, term: nat)
      requires Core(State()) && snapIndex <= index && (index == 0 ==> term == 0)
      modifies this
      ensures State() == Installed(old(State()), index, term)
    {
      hide CutFrom, TrimBelow, RunsBefore, RunsFrom, Held, Replay, RunsOk, WritesOk, ImagesOk, SegsOk;
      var t := TermAt(index);
      if t == Some(term) {
        TruncatePrefix(index + 1);
      } else if first != 0 {
        var ok := TruncateSuffix(first);
      }
      Rebase(index, term);
    }

    /** The snapshot boundary becomes the end of the log when nothing survived it. */
    method Rebase(index: nat, term: nat)
      modifies this`snapIndex, this`snapTerm, this`first, this`lastTerm, this`runs
      ensures var w := old(State()).(snapIndex := index, snapTerm := term);
              State() == if last == 0 then w.(first := 0, lastTerm := term, runs := []) else w
    {
      snapIndex, snapTerm := index, term;
      if last == 0 {
        first, lastTerm, runs := 0, term, [];
      }
    }

    /** Records a snapshot the node took itself, after dropping what it covers up to `to`. */
    method HandleSnapshotResult(to: nat, index: nat, term: nat)
      requires Core(State())
      modifies this
      ensures State() == Compacted(old(State()), to, index, term)
    {
      hide TrimBelow, RunsFrom, Held, Replay, RunsOk, WritesOk, ImagesOk, SegsOk;
      TruncatePrefix(to);
      snapIndex, snapTerm := index, term;
    }

    /** The writer puts the oldest queued write into storage. */
    method Land()
      requires queue != []
      modifies this`disk, this`queue, this`landed
      ensures State() == Landed(old(State()))
    {
      hide Apply;
      disk, queue, landed := Apply(disk, queue[0].change), queue[1..], landed + [queue[0]];
    }

    /** The oldest stored write is reported: its segments are released unless it failed. */
    method Stabilize(failed: bool)
      requires landed != [] && unstableBytes == Held(segs)
      modifies this`durable, this`segs, this`unstableBytes, this`landed
      ensures !failed ==> State() == Completed(old(State()))
      ensures failed ==> State() == old(State())
    {
      if failed { return; }
      var d := landed[0];
      durable, landed := d.durableAfter, landed[1..];
      ReleaseUpTo(d.seq_);
    }

    method ReleaseUpTo(d: nat)
      requires unstableBytes == Held(segs)
      modifies this`segs, this`unstableBytes
      ensures segs == DropDone(old(segs), d) && unstableBytes == Held(segs)
    {
      hide Held, CommandBytes;
      while |segs| > 0 && segs[0].seq_ <= d
        invariant unstableBytes == Held(segs) && DropDone(segs, d) == DropDone(old(segs), d)
      {
        HeldTrim(segs, 0);
        var size := SizeOf(segs[0].entries);
        segs, unstableBytes := segs[1..], unstableBytes - size;
      }
    }

    /** Whether an append that follows `index` can be described: then everything after it is still here to send. */
    method CanDescribe(index: nat) returns (yes: bool)
      requires Core(State())
      ensures yes ==> forall i :: index < i <= LastIndex() ==> i in LogOf(State())
      ensures yes <==> index == snapIndex || index in LogOf(State()) || (index == 0 && (first == 1 || LastIndex() == 0))
    {
      if index == snapIndex { return true; }
      if index == 0 { return first == 1 || (first == 0 && snapIndex == 0); }
      return first != 0 && first <= index <= last;
    }

    /** The election restriction, against the log as it stands in memory. */
    method IsUpToDate(candidateIndex: nat, candidateTerm: nat) returns (yes: bool)
      requires Valid(State())
      ensures yes <==> candidateTerm > EndTerm(State()) || (candidateTerm == EndTerm(State()) && candidateIndex >= LastIndex())
    {
      if candidateTerm != lastTerm { return candidateTerm > lastTerm; }
      return candidateIndex >= LastIndex();
    }
  }
}
