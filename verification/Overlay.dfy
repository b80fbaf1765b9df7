/**
  The overlay as a value: what each operation of the log does to it, and the
  invariant every operation keeps.
 */
module Overlay {

  import opened LogSpec
  import opened Unstable
  import opened InFlight

  datatype View = View(
    snapIndex: nat, snapTerm: nat,
    first: nat, last: nat, lastTerm: nat,
    segs: seq<Seg>, bytes: nat, runs: seq<TermRun>,
    durable: nat, queuedDurable: nat, nextSeq: nat,
    disk: Store,               // what storage holds
    queue: seq<WriteOp>,       // writes not executed yet
    landed: seq<WriteOp>)      // writes executed, completion not seen yet

  /** The log the overlay stands for: storage once everything queued has been written. */
  ghost function LogOf(v: View): Store {
    Replay(v.disk, v.queue)
  }

  ghost function Pending(v: View): seq<WriteOp> {
    v.landed + v.queue
  }

  function LastLogIndex(v: View): nat {
    if v.last > 0 then v.last else v.snapIndex
  }

  /** The term at the end of the log: its last entry's, or the snapshot's. */
  ghost function EndTerm(v: View): nat
    requires v.last > 0 ==> v.last in LogOf(v)
  {
    if v.last > 0 then LogOf(v)[v.last].term else v.snapTerm
  }

  ghost predicate Whole(m: Store) {
    exists f: nat, l: nat :: Contiguous(m, f, l)
  }

  /** A crash after any number of the queued writes leaves a log without holes. */
  ghost predicate ImagesOk(disk: Store, queue: seq<WriteOp>) {
    forall k :: 0 <= k <= |queue| ==> Whole(Replay(disk, queue[..k]))
  }

  /** The overlay describes its log exactly. */
  ghost predicate Shape(v: View) {
    && Contiguous(LogOf(v), v.first, v.last)
    && RunsOk(v.runs, LogOf(v), v.first, v.last)
    && SnapOk(LogOf(v), v.first, v.last, v.snapIndex, v.snapTerm)
    && (v.first > 0 ==> v.first <= v.snapIndex + 1)
  }

  /** It knows what its writes in flight have still to do. */
  ghost predicate Flight(v: View) {
    && |Pending(v)| <= v.nextSeq
    && SegsOk(v.segs, LogOf(v), v.last, v.nextSeq - |Pending(v)| + 1)
    && WritesOk(Pending(v), v.segs, v.first, v.last, v.snapIndex, v.nextSeq)
    && DurableOk(Pending(v), v.last, v.durable, v.queuedDurable)
    && ImagesOk(v.disk, v.queue)
  }

  ghost predicate Core(v: View) {
    Shape(v) && Flight(v) && v.bytes == Held(v.segs)
  }

  /** The recorded last term is the term the log ends in. */
  ghost predicate Right(v: View)
    requires v.last > 0 ==> v.last in LogOf(v)
  {
    v.lastTerm == EndTerm(v)
  }

  ghost predicate Valid(v: View) {
    Core(v) && Right(v)
  }

  // ---- What a queued write does ----------------------------------------------

  lemma Enqueued(v: View, op: WriteOp)
    ensures Replay(v.disk, v.queue + [op]) == Apply(LogOf(v), op.change)
    ensures v.landed + (v.queue + [op]) == Pending(v) + [op]
  {
    ReplayMore(v.disk, v.queue, op);
  }

  lemma {:induction false} ImagesMore(disk: Store, queue: seq<WriteOp>, op: WriteOp)
    requires ImagesOk(disk, queue) && Whole(Replay(disk, queue + [op]))
    ensures ImagesOk(disk, queue + [op])
  {
    var q := queue + [op];
    forall k | 0 <= k <= |q| ensures Whole(Replay(disk, q[..k])) {
      if k <= |queue| {
        assert q[..k] == queue[..k];
      } else {
        assert q[..k] == q;
      }
    }
  }

  lemma {:induction false} ImagesLess(disk: Store, queue: seq<WriteOp>)
    requires ImagesOk(disk, queue) && queue != []
    ensures ImagesOk(Apply(disk, queue[0].change), queue[1..])
  {
    var q := queue[1..];
    forall k | 0 <= k <= |q| ensures Whole(Replay(Apply(disk, queue[0].change), q[..k])) {
      ReplayFirst(disk, queue[..k + 1]);
      assert queue[..k + 1][1..] == q[..k] && Whole(Replay(disk, queue[..k + 1]));
    }
  }

  // ---- Append -----------------------------------------------------------------

  function Appended(v: View, entries: seq<LogEntry>): View {
    if entries == [] then v
    else
      var e := entries[|entries| - 1];
      var op := WriteOp(v.nextSeq + 1, AppendEntries(entries[0].index, entries), e.index);
      v.(first := if v.first == 0 then entries[0].index else v.first,
         last := e.index, lastTerm := e.term,
         segs := v.segs + [Seg(v.nextSeq + 1, entries)], bytes := v.bytes + CommandBytes(entries),
         runs := RunsWithAll(v.runs, entries),
         queuedDurable := e.index, nextSeq := v.nextSeq + 1, queue := v.queue + [op])
  }

  lemma AppendedShape(v: View, entries: seq<LogEntry>)
    requires Shape(v) && entries != [] && Numbered(LastLogIndex(v) + 1, entries)
    ensures Shape(Appended(v, entries))
    ensures LogOf(Appended(v, entries)) == Apply(LogOf(v), AppendEntries(LastLogIndex(v) + 1, entries))
    ensures HasAt(LogOf(Appended(v, entries)), Appended(v, entries).last, entries[|entries| - 1])
  {
    hide Apply, RunsOk, Replay, RunsWithAll;
    var v', base := Appended(v, entries), LastLogIndex(v) + 1;
    Enqueued(v, v'.queue[|v.queue|]);
    RunsAppended(v.runs, LogOf(v), v.first, v.last, base, entries);
    AppendedAt(LogOf(v), base, entries, v'.last);
    AppendedAt(LogOf(v), base, entries, v.snapIndex);
  }

  lemma AppendedFlight(v: View, entries: seq<LogEntry>)
    requires Core(v) && entries != [] && Numbered(LastLogIndex(v) + 1, entries)
    requires Shape(Appended(v, entries))
    ensures Flight(Appended(v, entries))
  {
    hide Apply, RunsOk, WritesOk, SegsOk, SnapOk, Replay, Held, RunsWithAll, ImagesOk, FirstHeld;
    var v', base := Appended(v, entries), LastLogIndex(v) + 1;
    var s, op := Seg(v.nextSeq + 1, entries), v'.queue[|v.queue|];
    Enqueued(v, op);
    WritesAppended(Pending(v), v.segs, v.first, v.last, v.snapIndex, v.nextSeq, op, s);
    SegsFit(v);
    SegsAppended(v.segs, LogOf(v), v.last, v.nextSeq - |Pending(v)| + 1, s);
    assert Whole(LogOf(v'));
    ImagesMore(v.disk, v.queue, op);
  }

  /** Appending where the log ends keeps the invariant, and the log is the old one with the entries after it. */
  lemma AppendedOk(v: View, entries: seq<LogEntry>)
    requires Core(v) && Numbered(LastLogIndex(v) + 1, entries)
    ensures Core(Appended(v, entries))
    ensures Right(Appended(v, entries)) <==> entries != [] || Right(v)
    ensures entries != [] ==> LogOf(Appended(v, entries)) == Apply(LogOf(v), AppendEntries(LastLogIndex(v) + 1, entries))
  {
    hide Flight, Shape, LogOf, Held;
    if entries != [] {
      AppendedShape(v, entries);
      AppendedFlight(v, entries);
      HeldMore(v.segs, Seg(v.nextSeq + 1, entries));
    }
  }

  /** An empty log holds no segment, and every segment's write has been issued. */
  lemma SegsFit(v: View)
    requires Core(v)
    ensures v.segs != [] ==> v.first > 0
    ensures forall j :: 0 <= j < |v.segs| ==> v.first <= Start(v.segs[j]) && v.segs[j].seq_ <= v.nextSeq
    ensures v.segs != [] ==> 0 < Start(v.segs[0]) == FirstHeld(v.segs)
    ensures forall j :: 0 <= j < |v.segs| ==> Numbered(Start(v.segs[j]), v.segs[j].entries)
  {
    forall j | 0 <= j < |v.segs| ensures 0 < v.first <= Start(v.segs[j]) {
      assert SegOk(v.segs[j], LogOf(v)) && HasAt(LogOf(v), Start(v.segs[j]) + 0, v.segs[j].entries[0]);
    }
  }

  // ---- Suffix truncation ------------------------------------------------------

  ghost function Cut(v: View, x: nat): View
    requires x > v.first ==> x - 1 in LogOf(v)
  {
    var qd := if x > 0 && x - 1 < v.queuedDurable then x - 1 else v.queuedDurable;
    var w := v.(segs := CutFrom(v.segs, x), bytes := Held(CutFrom(v.segs, x)), queuedDurable := qd, nextSeq := v.nextSeq + 1,
                queue := v.queue + [WriteOp(v.nextSeq + 1, DropFrom(x), qd)]);
    if x <= v.first then w.(first := 0, last := 0, lastTerm := v.snapTerm, runs := [])
    else w.(last := x - 1, lastTerm := LogOf(v)[x - 1].term, runs := RunsBefore(v.runs, x))
  }

  lemma CutShape(v: View, x: nat)
    requires Shape(v) && 0 < v.first < x <= v.last + 1 && v.snapIndex < x
    ensures Shape(Cut(v, x)) && LogOf(Cut(v, x)) == Apply(LogOf(v), DropFrom(x))
    ensures Cut(v, x).lastTerm == EndTerm(Cut(v, x))
  {
    hide RunsOk, Replay, RunsBefore, CutFrom, Held;
    var v' := Cut(v, x);
    Enqueued(v, v'.queue[|v.queue|]);
    RunsCutOk(v.runs, LogOf(v), v.first, v.last, x);
    ContiguousDropFrom(LogOf(v), v.first, v.last, x);
  }

  lemma CutFlight(v: View, x: nat)
    requires Core(v) && 0 < v.first < x <= v.last + 1 && Shape(Cut(v, x))
    ensures Flight(Cut(v, x))
  {
    hide RunsOk, Replay, RunsBefore, CutFrom, Held, SegsOk, WritesOk, SnapOk, ImagesOk, Apply;
    var v' := Cut(v, x);
    var op, from := v'.queue[|v.queue|], v.nextSeq - |Pending(v)| + 1;
    Enqueued(v, op);
    WritesCut(Pending(v), v.segs, LogOf(v), v.first, v.last, v.snapIndex, v.nextSeq, from, op, x);
    CutFromOk(v.segs, LogOf(v), v.last, from, x);
    assert Whole(LogOf(v'));
    ImagesMore(v.disk, v.queue, op);
  }

  // ---- Emptying the log -------------------------------------------------------

  /** With nothing left of the log, a queued truncation and a newer snapshot boundary make a valid overlay. */
  lemma EmptiedOk(v: View, w: View, op: WriteOp)
    requires Core(v) && op.seq_ == v.nextSeq + 1 && Apply(LogOf(v), op.change) == map[]
    requires w.queue == v.queue + [op] && w.disk == v.disk && w.landed == v.landed && w.nextSeq == v.nextSeq + 1
    requires w.first == w.last == 0 && w.segs == [] && w.runs == [] && w.bytes == 0
    requires v.snapIndex <= w.snapIndex && (op.change.DropBelow? ==> op.change.index <= w.snapIndex + 1)
    requires op.durableAfter == w.queuedDurable && (w.snapIndex == 0 ==> w.snapTerm == 0)
    ensures Core(w) && LogOf(w) == map[]
  {
    hide Replay, WritesOk, ImagesOk, Apply;
    Enqueued(v, op);
    WritesEmptied(Pending(v), v.segs, v.first, v.last, v.snapIndex, v.nextSeq, op, w.snapIndex);
    assert Contiguous(LogOf(w), 0, 0) && Whole(LogOf(w));
    ImagesMore(v.disk, v.queue, op);
  }

  // ---- Prefix truncation --------------------------------------------------------

  function Trim(v: View, x: nat): View {
    if v.first != 0 && x <= v.first then v
    else
      var qd := if x > v.last && x > 0 && x - 1 < v.queuedDurable then x - 1 else v.queuedDurable;
      var w := v.(segs := TrimBelow(v.segs, x), bytes := Held(TrimBelow(v.segs, x)), queuedDurable := qd, nextSeq := v.nextSeq + 1,
                  queue := v.queue + [WriteOp(v.nextSeq + 1, DropBelow(x), qd)]);
      if x > v.last then w.(first := 0, last := 0, lastTerm := v.snapTerm, runs := [])
      else w.(first := x, runs := RunsFrom(v.runs, x))
  }

  /** The log knows an entry, or its snapshot boundary, at `i`, and its term there is `t`. */
  ghost predicate Agrees(v: View, i: nat, t: nat) {
    if i == v.snapIndex || i == 0 then t == if i == 0 then 0 else v.snapTerm
    else i in LogOf(v) && LogOf(v)[i].term == t
  }

  /** Dropping what a snapshot at `i` covers, then recording that snapshot. */
  function Compacted(v: View, x: nat, i: nat, t: nat): View {
    Trim(v, x).(snapIndex := i, snapTerm := t)
  }

  lemma TrimShape(v: View, x: nat, i: nat, t: nat)
    requires Shape(v) && 0 < v.first < x <= v.last && v.snapIndex <= i <= v.last && x <= i + 1 && Agrees(v, i, t)
    ensures Shape(Compacted(v, x, i, t)) && LogOf(Compacted(v, x, i, t)) == Apply(LogOf(v), DropBelow(x))
  {
    hide RunsOk, Replay, RunsFrom, TrimBelow, Held;
    var v' := Compacted(v, x, i, t);
    Enqueued(v, v'.queue[|v.queue|]);
    RunsTrimOk(v.runs, LogOf(v), v.first, v.last, x);
    ContiguousDropBelow(LogOf(v), v.first, v.last, x);
  }

  lemma TrimFlight(v: View, x: nat, i: nat, t: nat)
    requires Core(v) && 0 < v.first < x <= v.last && Shape(Compacted(v, x, i, t))
    ensures Flight(Compacted(v, x, i, t))
  {
    hide RunsOk, Replay, RunsFrom, TrimBelow, Held, SegsOk, SnapOk, ImagesOk, Apply, Shielded;
    var v' := Compacted(v, x, i, t);
    var op, from := v'.queue[|v.queue|], v.nextSeq - |Pending(v)| + 1;
    Enqueued(v, op);
    WritesTrimmed(Pending(v), v.segs, LogOf(v), v.first, v.last, v.snapIndex, v.nextSeq, from, op, x);
    TrimBelowOk(v.segs, LogOf(v), v.last, from, x);
    assert Whole(LogOf(v'));
    ImagesMore(v.disk, v.queue, op);
  }

  lemma {:induction false} TrimAll(v: View, x: nat)
    requires Core(v) && v.last < x
    ensures TrimBelow(v.segs, x) == [] && Held([]) == 0 && Apply(LogOf(v), DropBelow(x)) == map[]
  {
    hide RunsOk, SnapOk, WritesOk, DurableOk, ImagesOk, SegsOk, LogOf;
    forall j | 0 <= j < |v.segs| ensures End(v.segs[j]) <= x {
      EndsAtLast(v.segs, LogOf(v), v.last, v.nextSeq - |Pending(v)| + 1, j);
    }
    TrimBelowAll(v.segs, x);
  }

  /**
    Compaction keeps the invariant and exactly the entries from `x` on. The
    recorded last term survives it unless the whole log went and the new
    snapshot ends in another term than the one before.
   */
  lemma CompactedOk(v: View, x: nat, i: nat, t: nat)
    requires Core(v) && v.snapIndex <= i <= LastLogIndex(v) && 0 < x <= i + 1 && Agrees(v, i, t)
    ensures Core(Compacted(v, x, i, t)) && LogOf(Compacted(v, x, i, t)) == Apply(LogOf(v), DropBelow(x))
    ensures Right(Compacted(v, x, i, t)) <==> if x <= v.last then Right(v) else v.snapTerm == t
    ensures x > v.last ==> Compacted(v, x, i, t).last == 0
  {
    hide Flight, Replay, TrimBelow, Held, RunsOk, RunsFrom;
    var w := Compacted(v, x, i, t);
    if v.first != 0 && x <= v.first {
      SnapMoved(v, i, t);
    } else if x <= v.last {
      TrimShape(v, x, i, t);
      TrimFlight(v, x, i, t);
    } else {
      TrimAll(v, x);
      EmptiedOk(v, w, w.queue[|v.queue|]);
    }
  }

  lemma SnapMoved(v: View, i: nat, t: nat)
    requires Core(v) && v.first > 0 && v.snapIndex <= i <= v.last && Agrees(v, i, t)
    ensures Core(v.(snapIndex := i, snapTerm := t))
    ensures LogOf(v.(snapIndex := i, snapTerm := t)) == LogOf(v)
  {
    hide Replay, Shielded;
    var w := v.(snapIndex := i, snapTerm := t);
    assert LogOf(w) == LogOf(v) && Pending(w) == Pending(v);
  }

  // ---- Installing a snapshot ----------------------------------------------------

  /** What `installSnapshot` leaves: the entries above the snapshot if the log agrees with it, nothing otherwise. */
  ghost function Installed(v: View, i: nat, t: nat): View
    requires Shape(v)
  {
    var w := if Agrees(v, i, t) then Trim(v, i + 1) else if v.first != 0 then Cut(v, v.first) else v;
    var w' := w.(snapIndex := i, snapTerm := t);
    if w'.last == 0 then w'.(first := 0, lastTerm := t, runs := []) else w'
  }

  lemma CutAll(v: View)
    requires Core(v)
    ensures CutFrom(v.segs, v.first) == [] && Held([]) == 0 && Apply(LogOf(v), DropFrom(v.first)) == map[]
  {
    SegsFit(v);
    CutFromAll(v.segs, v.first);
  }

  /**
    Replacing the tail above the snapshot keeps the invariant and everything
    below the cut, also when the cut is at the first index and nothing is left.
   */
  lemma CutOk(v: View, x: nat)
    requires Core(v) && 0 < v.first && v.snapIndex < x <= v.last + 1
    ensures x > v.first ==> x - 1 in LogOf(v)
    ensures Core(Cut(v, x)) && Right(Cut(v, x)) && LogOf(Cut(v, x)) == Apply(LogOf(v), DropFrom(x))
  {
    hide Flight, LogOf, Held, Apply;
    if v.first < x {
      CutShape(v, x);
      CutFlight(v, x);
    } else {
      var w := Cut(v, x);
      CutAll(v);
      EmptiedOk(v, w, w.queue[|v.queue|]);
    }
  }

  /** A snapshot no older than the last one leaves a valid log: what the old one held above it, if they agree. */
  lemma InstalledOk(v: View, i: nat, t: nat)
    requires Core(v) && v.snapIndex <= i && (i == 0 ==> t == 0)
    ensures Core(Installed(v, i, t)) && Installed(v, i, t).snapIndex == i && Installed(v, i, t).snapTerm == t
    ensures Right(Installed(v, i, t)) <==> Installed(v, i, t).last == 0 || Right(v)
    ensures LogOf(Installed(v, i, t)) == if Agrees(v, i, t) then Apply(LogOf(v), DropBelow(i + 1)) else map[]
  {
    hide Flight, Replay, TrimBelow, CutFrom, RunsOk, RunsFrom, Held;
    var w := Installed(v, i, t);
    if Agrees(v, i, t) {
      CompactedOk(v, i + 1, i, t);
      if w.last == 0 { LastTermReset(Compacted(v, i + 1, i, t), w); }
    } else if v.first != 0 {
      CutAll(v);
      EmptiedOk(v, w, w.queue[|v.queue|]);
    } else {
      SnapReplaced(v, w);
    }
  }

  lemma LastTermReset(v: View, w: View)
    requires Core(v) && v.last == 0 && w == v.(first := 0, lastTerm := v.snapTerm, runs := [])
    ensures Valid(w) && LogOf(w) == LogOf(v)
  {
    hide Replay, SegsOk, WritesOk, ImagesOk;
  }

  lemma SnapReplaced(v: View, w: View)
    requires Core(v) && v.first == 0 && v.snapIndex <= w.snapIndex && (w.snapIndex == 0 ==> w.snapTerm == 0)
    requires w == v.(snapIndex := w.snapIndex, snapTerm := w.snapTerm, lastTerm := w.snapTerm, runs := [])
    ensures Valid(w) && LogOf(w) == map[]
  {
    hide Replay, ImagesOk, Shielded;
    assert Pending(w) == Pending(v);
  }

  // ---- Storage and completions ----------------------------------------------------

  function Landed(v: View): View
    requires v.queue != []
  {
    v.(disk := Apply(v.disk, v.queue[0].change), queue := v.queue[1..], landed := v.landed + [v.queue[0]])
  }

  function Completed(v: View): View
    requires v.landed != []
  {
    var d := v.landed[0];
    v.(durable := d.durableAfter, segs := DropDone(v.segs, d.seq_), bytes := Held(DropDone(v.segs, d.seq_)), landed := v.landed[1..])
  }

  function Noted(v: View, c: Change): View {
    v.(nextSeq := v.nextSeq + 1, queue := v.queue + [WriteOp(v.nextSeq + 1, c, v.queuedDurable)])
  }

  /** Storage catching up changes nothing about the log. */
  lemma LandedOk(v: View)
    requires Core(v) && v.queue != []
    ensures Core(Landed(v)) && LogOf(Landed(v)) == LogOf(v) && (Right(Landed(v)) <==> Right(v))
  {
    hide Apply, Replay, RunsOk, WritesOk, SegsOk, ImagesOk, Held;
    ReplayFirst(v.disk, v.queue);
    ImagesLess(v.disk, v.queue);
    assert Pending(Landed(v)) == Pending(v);
  }

  lemma CompletedOk(v: View)
    requires Core(v) && v.landed != []
    ensures Core(Completed(v)) && LogOf(Completed(v)) == LogOf(v) && (Right(Completed(v)) <==> Right(v))
  {
    hide Apply, Replay, RunsOk, WritesOk, SegsOk, ImagesOk, Held;
    var v', u, d := Completed(v), Pending(v), v.landed[0];
    assert u[0] == d && Pending(v') == u[1..];
    WritesCompleted(u, v.segs, v.first, v.last, v.snapIndex, v.nextSeq);
    FirstSeq(u, v.segs, v.first, v.last, v.snapIndex, v.nextSeq);
    DropDoneOk(v.segs, LogOf(v), v.last, d.seq_);
  }

  lemma FirstSeq(u: seq<WriteOp>, segs: seq<Seg>, first: nat, last: nat, snapIndex: nat, nextSeq: nat)
    requires WritesOk(u, segs, first, last, snapIndex, nextSeq) && u != []
    ensures u[0].seq_ == nextSeq - |u| + 1
  {
  }

  /** A hard-state or commit-index write takes its turn in the queue and leaves the log alone. */
  lemma NotedOk(v: View, c: Change)
    requires Core(v) && Aside(c)
    ensures Core(Noted(v, c)) && LogOf(Noted(v, c)) == LogOf(v) && (Right(Noted(v, c)) <==> Right(v))
  {
    hide Replay, RunsOk, WritesOk, SegsOk, ImagesOk, Held;
    var op := WriteOp(v.nextSeq + 1, c, v.queuedDurable);
    Enqueued(v, op);
    WritesKept(Pending(v), v.segs, v.first, v.last, v.snapIndex, v.nextSeq, op);
    assert Whole(LogOf(v));
    ImagesMore(v.disk, v.queue, op);
  }

  // ---- Runs of the log ----------------------------------------------------------

  datatype Act =
    | DoAppend(entries: seq<LogEntry>)
    | DoCut(from: nat)
    | DoCompact(to: nat, index: nat, term: nat)
    | DoInstall(index: nat, term: nat)
    | DoNote(change: Change) | DoLand | DoComplete

  /** What the event loop, the writer and storage may do next. */
  ghost predicate Permits(v: View, a: Act) {
    match a
    case DoAppend(entries) => Numbered(LastLogIndex(v) + 1, entries)
    case DoCut(x) => 0 < v.first && v.snapIndex < x <= v.last + 1 && (x > v.first ==> x - 1 in LogOf(v))
    case DoCompact(x, i, t) => v.snapIndex <= i <= LastLogIndex(v) && 0 < x <= i + 1 && Agrees(v, i, t)
    case DoInstall(i, t) => v.snapIndex <= i && (i == 0 ==> t == 0) && Shape(v)
    case DoNote(c) => Aside(c)
    case DoLand => v.queue != []
    case DoComplete => v.landed != []
  }

  ghost function Done(v: View, a: Act): View
    requires Permits(v, a)
  {
    match a
    case DoAppend(entries) => Appended(v, entries)
    case DoCut(x) => Cut(v, x)
    case DoCompact(x, i, t) => Compacted(v, x, i, t)
    case DoInstall(i, t) => Installed(v, i, t)
    case DoNote(c) => Noted(v, c)
    case DoLand => Landed(v)
    case DoComplete => Completed(v)
  }

  /** The one step that records a wrong last term: a compaction of the whole log into a snapshot of another term. */
  predicate Forgets(v: View, a: Act) {
    a.DoCompact? && v.last < a.to && v.snapTerm != a.term
  }

  /** The steps that record the last term anew, whatever it was. */
  predicate Records(v: View, a: Act) {
    (a.DoAppend? && a.entries != []) || a.DoCut? || a.DoInstall? || (a.DoCompact? && v.last < a.to)
  }

  /** A wrong last term is only ever recorded of an empty log. */
  ghost predicate Sound(v: View) {
    Core(v) && (v.last > 0 ==> Right(v))
  }

  /**
    Every step keeps the overlay sound, and the last term is right afterwards
    exactly when the step did not forget it and it was right before or the
    step recorded it anew.
   */
  lemma StepSound(v: View, a: Act)
    requires Sound(v) && Permits(v, a)
    ensures Sound(Done(v, a))
    ensures Right(Done(v, a)) <==> !Forgets(v, a) && (Right(v) || Records(v, a))
  {
    hide Core, EndTerm, Agrees, Apply, LogOf;
    match a
    case DoAppend(entries) => AppendedOk(v, entries);
    case DoCut(x) => CutOk(v, x);
    case DoCompact(x, i, t) => CompactedOk(v, x, i, t);
    case DoInstall(i, t) => InstalledOk(v, i, t);
    case DoNote(c) => NotedOk(v, c);
    case DoLand => LandedOk(v);
    case DoComplete => CompletedOk(v);
  }

  lemma StepValid(v: View, a: Act)
    requires Valid(v) && Permits(v, a)
    ensures Valid(Done(v, a)) <==> !Forgets(v, a)
  {
    hide Core, EndTerm, Agrees, Done, Permits;
    StepSound(v, a);
  }

  ghost predicate LogRun(vs: seq<View>, acts: seq<Act>) {
    && |vs| == |acts| + 1
    && forall k :: 0 <= k < |acts| ==> Permits(vs[k], acts[k]) && vs[k + 1] == Done(vs[k], acts[k])
  }

  /** Some step before `k` forgot the last term and none since has recorded it. */
  ghost predicate Forgotten(vs: seq<View>, acts: seq<Act>, k: nat)
    requires k <= |acts| <= |vs|
  {
    k > 0 && (Forgets(vs[k - 1], acts[k - 1]) || (Forgotten(vs, acts, k - 1) && !Records(vs[k - 1], acts[k - 1])))
  }

  /**
    Any interleaving of log operations, storage writes and completions keeps
    the overlay sound throughout, and its last term is right at every point
    except after a step that forgot it and before the next that records it.
   */
  lemma {:induction false} RunSound(vs: seq<View>, acts: seq<Act>, k: nat)
    requires LogRun(vs, acts) && Valid(vs[0]) && k < |vs|
    ensures Sound(vs[k]) && (Right(vs[k]) <==> !Forgotten(vs, acts, k))
  {
    hide Core, EndTerm, Permits, Forgets, Records, Done;
    if k > 0 {
      var j: nat := k - 1;
      RunSound(vs, acts, j);
      assert Permits(vs[j], acts[j]) && vs[j + 1] == Done(vs[j], acts[j]);
      StepSound(vs[j], acts[j]);
    }
  }

  /** In particular a run that never compacts its whole log into another term is valid throughout. */
  lemma {:induction false} RunValid(vs: seq<View>, acts: seq<Act>, k: nat)
    requires LogRun(vs, acts) && Valid(vs[0]) && k < |vs|
    requires forall j :: 0 <= j < k ==> !Forgets(vs[j], acts[j])
    ensures Valid(vs[k])
  {
    hide Core, EndTerm, Permits, Forgets, Records, Done;
    RunSound(vs, acts, k);
    NothingForgotten(vs, acts, k);
  }

  lemma {:induction false} NothingForgotten(vs: seq<View>, acts: seq<Act>, k: nat)
    requires k <= |acts| <= |vs| && forall j :: 0 <= j < k ==> !Forgets(vs[j], acts[j])
    ensures !Forgotten(vs, acts, k)
  {
    hide Forgets, Records;
    if k > 0 { NothingForgotten(vs, acts, k - 1); }
  }

  /** The overlay on empty storage. */
  function Fresh(): View {
    View(0, 0, 0, 0, 0, [], 0, [], 0, 0, 0, map[], [], [])
  }

  lemma FreshValid()
    ensures Valid(Fresh()) && LogOf(Fresh()) == map[]
  {
    var v := Fresh();
    assert LogOf(v) == v.disk == map[];
    assert Shape(v);
    assert v.queue[..0] == [] && Contiguous(Replay(v.disk, []), 0, 0) && Whole(Replay(v.disk, []));
    assert Flight(v);
  }

  /** Take a log whose only entry has a term above 0 and compact it away: the log then claims to end in term 0. */
  lemma CompactionForgets(e: LogEntry)
    requires e.index == 1 && e.term > 0
    ensures
      var v := Appended(Fresh(), [e]);
      var w := Compacted(v, 2, 1, e.term);
      && Valid(v) && Permits(v, DoCompact(2, 1, e.term)) && Forgets(v, DoCompact(2, 1, e.term))
      && w.last == 0 && w.lastTerm == 0 && EndTerm(w) == e.term
  {
    hide Core, EndTerm, Replay, Held, CommandBytes, RunsWithAll;
    FreshValid();
    AppendedOk(Fresh(), [e]);
    AppendedAt(map[], 1, [e], 1);
    EndTermEmpty(Compacted(Appended(Fresh(), [e]), 2, 1, e.term));
  }

  lemma EndTermEmpty(v: View)
    requires v.last == 0
    ensures EndTerm(v) == v.snapTerm
  {
  }
}
