/**
  How exactly the log keeps account of its disk: every segment in memory has its
  write in flight, and everything below the segments is known to be stored. So
  the overlay holds in memory no more than what is still being written.
 */
module LogTight {

  import opened LogSpec
  import opened Unstable
  import opened Overlay

  predicate Backs(op: WriteOp, s: Seg) {
    op.seq_ == s.seq_ && op.change.AppendEntries? && op.change.base <= Start(s)
  }

  /** The segment's write is still in flight. */
  ghost predicate Backed(u: seq<WriteOp>, s: Seg) {
    exists k :: 0 <= k < |u| && Backs(u[k], s)
  }

  /** Once the segment's write has completed, or any later one, the durable point covers the segment. */
  ghost predicate Reaching(u: seq<WriteOp>, s: Seg) {
    forall k :: 0 <= k < |u| && u[k].seq_ >= s.seq_ ==> u[k].durableAfter + 1 >= End(s)
  }

  /** The last index below the segments. */
  function Top(segs: seq<Seg>, last: nat): int {
    if segs == [] then last else Start(segs[0]) - 1
  }

  /** The durable point covers an index, now and after any of the completions to come. */
  ghost predicate Durably(u: seq<WriteOp>, durable: nat, top: int) {
    durable >= top && forall k :: 0 <= k < |u| ==> u[k].durableAfter >= top
  }

  ghost predicate Tight(v: View) {
    && (forall j :: 0 <= j < |v.segs| ==> Backed(Pending(v), v.segs[j]) && Reaching(Pending(v), v.segs[j]))
    && (0 < v.first <= Top(v.segs, v.last) ==> Durably(Pending(v), v.durable, Top(v.segs, v.last)))
  }

  lemma BackedMore(u: seq<WriteOp>, op: WriteOp, s: Seg)
    ensures Backed(u, s) ==> Backed(u + [op], s)
    ensures Backs(op, s) ==> Backed(u + [op], s)
    ensures Reaching(u, s) && op.durableAfter + 1 >= End(s) ==> Reaching(u + [op], s)
  {
    var u' := u + [op];
    assert u'[|u|] == op && forall k :: 0 <= k < |u| ==> u'[k] == u[k];
    if Backed(u, s) {
      var k :| 0 <= k < |u| && Backs(u[k], s);
      assert Backs(u'[k], s);
    }
  }

  /** A shorter segment of the same write is backed as well. */
  lemma BackedPart(u: seq<WriteOp>, s: Seg, r: Seg)
    requires r.seq_ == s.seq_ && Start(s) <= Start(r) && End(r) <= End(s) && Backed(u, s) && Reaching(u, s)
    ensures Backed(u, r) && Reaching(u, r)
  {
    var k :| 0 <= k < |u| && Backs(u[k], s);
    assert Backs(u[k], r);
  }

  lemma DurablyMore(u: seq<WriteOp>, op: WriteOp, durable: nat, top: int, top': int)
    requires Durably(u, durable, top) && top' <= top && op.durableAfter >= top'
    ensures Durably(u + [op], durable, top')
  {
  }

  // ---- Append -------------------------------------------------------------------------

  lemma TightAppended(v: View, entries: seq<LogEntry>)
    requires Core(v) && Tight(v) && Numbered(LastLogIndex(v) + 1, entries)
    ensures Tight(Appended(v, entries))
  {
    hide Replay, RunsOk, Shielded, ImagesOk, Held, RunsWithAll, CommandBytes, Backed, Reaching, Durably;
    if entries != [] {
      var v', u := Appended(v, entries), Pending(v);
      var op, s := v'.queue[|v.queue|], Seg(v.nextSeq + 1, entries);
      assert Pending(v') == u + [op];
      forall j | 0 <= j < |v'.segs| ensures Backed(u + [op], v'.segs[j]) && Reaching(u + [op], v'.segs[j]) {
        BackedMore(u, op, v'.segs[j]);
        if j < |v.segs| {
          assert v'.segs[j] == v.segs[j];
          EndsAtLast(v.segs, LogOf(v), v.last, v.nextSeq - |u| + 1, j);
          assert v.first > 0 by { SegsFit(v); }
        } else {
          assert Reaching(u, s) by { NewestReaches(v, s); }
        }
      }
      if 0 < v'.first <= Top(v'.segs, v'.last) {
        if v.segs != [] { assert v'.segs[0] == v.segs[0]; }
        DurablyMore(u, op, v.durable, Top(v.segs, v.last), Top(v'.segs, v'.last));
      }
    }
  }

  lemma NewestReaches(v: View, s: Seg)
    requires Flight(v) && s.seq_ == v.nextSeq + 1
    ensures Reaching(Pending(v), s)
  {
  }

  // ---- Truncations ----------------------------------------------------------------------

  lemma {:induction false} CutSame(segs: seq<Seg>, x: nat, j: nat)
    requires j < |CutFrom(segs, x)| && forall k :: 0 <= k < |segs| ==> segs[k].entries != []
    ensures j < |segs| && var r, s := CutFrom(segs, x)[j], segs[j];
      r.seq_ == s.seq_ && Start(r) == Start(s) && End(r) <= End(s)
    decreases |segs|
  {
    var n := |segs| - 1;
    if Start(segs[n]) >= x { CutSame(segs[..n], x, j); }
  }

  lemma {:induction false} CutNone(segs: seq<Seg>, x: nat)
    requires segs != [] && CutFrom(segs, x) == [] && forall k :: 0 <= k < |segs| ==> segs[k].entries != []
    ensures Start(segs[0]) >= x
    decreases |segs|
  {
    var n := |segs| - 1;
    if n > 0 && Start(segs[n]) >= x { CutNone(segs[..n], x); }
  }

  lemma TightCut(v: View, x: nat)
    requires Core(v) && Tight(v) && 0 < v.first < x <= v.last + 1 && x - 1 in LogOf(v) && Core(Cut(v, x))
    ensures Tight(Cut(v, x))
  {
    hide Replay, RunsOk, Shielded, ImagesOk, Held, RunsBefore, Backed, Reaching, Durably, CutFrom, Shape;
    var v', u := Cut(v, x), Pending(v);
    var op := v'.queue[|v.queue|];
    assert Pending(v') == u + [op] && op.durableAfter == x - 1;
    SegsFull(v);
    forall j | 0 <= j < |v'.segs| ensures Backed(u + [op], v'.segs[j]) && Reaching(u + [op], v'.segs[j]) {
      CutSame(v.segs, x, j);
      BackedPart(u, v.segs[j], v'.segs[j]);
      EndsAtLast(v'.segs, LogOf(v'), x - 1, v'.nextSeq - |Pending(v')| + 1, j);
      BackedMore(u, op, v'.segs[j]);
    }
    if v.first <= Top(v'.segs, x - 1) {
      if v'.segs != [] {
        CutSame(v.segs, x, 0);
        EndsAtLast(v'.segs, LogOf(v'), x - 1, v'.nextSeq - |Pending(v')| + 1, 0);
      } else if v.segs != [] {
        CutNone(v.segs, x);
      }
      DurablyMore(u, op, v.durable, Top(v.segs, v.last), Top(v'.segs, x - 1));
    }
  }

  lemma SegsFull(v: View)
    requires Core(v)
    ensures forall k :: 0 <= k < |v.segs| ==> v.segs[k].entries != []
  {
    forall k | 0 <= k < |v.segs| ensures v.segs[k].entries != [] { assert SegOk(v.segs[k], LogOf(v)); }
  }

  lemma {:induction false} TrimSame(segs: seq<Seg>, x: nat, j: nat) returns (i: nat)
    requires j < |TrimBelow(segs, x)| && forall k :: 0 <= k < |segs| ==> segs[k].entries != [] && Numbered(Start(segs[k]), segs[k].entries)
    ensures i < |segs| && var r, s := TrimBelow(segs, x)[j], segs[i];
      r.seq_ == s.seq_ && Start(s) <= Start(r) && End(r) == End(s)
    decreases |segs|
  {
    if End(segs[0]) <= x {
      var k := TrimSame(segs[1..], x, j);
      i := k + 1;
    } else {
      i := j;
      if j == 0 && Start(segs[0]) < x {
        var s := segs[0];
        assert s.entries[x - Start(s)..][0] == s.entries[x - Start(s)];
      }
    }
  }

  lemma {:induction false} TrimFirst(segs: seq<Seg>, log: Store, last: nat, from: nat, x: nat)
    requires SegsOk(segs, log, last, from) && segs != [] && x <= last
    ensures TrimBelow(segs, x) != [] && (TrimBelow(segs, x) == segs || Start(TrimBelow(segs, x)[0]) <= x)
    decreases |segs|
  {
    assert Joined(segs, 0, last) && SegOk(segs[0], log);
    if End(segs[0]) <= x {
      DropFirst(segs, log, last, from);
      TrimFirst(segs[1..], log, last, from, x);
    } else if Start(segs[0]) < x {
      var s := segs[0];
      assert s.entries[x - Start(s)..][0] == s.entries[x - Start(s)];
    }
  }

  lemma TightTrimmed(v: View, x: nat, i: nat, t: nat)
    requires Core(v) && Tight(v) && 0 < v.first < x <= v.last
    ensures Tight(Compacted(v, x, i, t))
  {
    hide Replay, RunsOk, Shielded, ImagesOk, Held, RunsFrom, Backed, Reaching, Durably, TrimBelow, Shape;
    var v', u, from := Compacted(v, x, i, t), Pending(v), v.nextSeq - |Pending(v)| + 1;
    var op := v'.queue[|v.queue|];
    assert Pending(v') == u + [op] && op.durableAfter == v.queuedDurable >= v.last;
    SegsFull(v);
    SegsFit(v);
    forall j | 0 <= j < |v'.segs| ensures Backed(u + [op], v'.segs[j]) && Reaching(u + [op], v'.segs[j]) {
      var k := TrimSame(v.segs, x, j);
      BackedPart(u, v.segs[k], v'.segs[j]);
      EndsAtLast(v.segs, LogOf(v), v.last, from, k);
      BackedMore(u, op, v'.segs[j]);
    }
    if v.segs == [] {
      assert v'.segs == [] by { TrimNothing(x); }
      DurablyMore(u, op, v.durable, v.last, v.last);
    } else {
      TrimFirst(v.segs, LogOf(v), v.last, from, x);
      if x <= Top(v'.segs, v'.last) {
        EndsAtLast(v.segs, LogOf(v), v.last, from, 0);
        DurablyMore(u, op, v.durable, Top(v.segs, v.last), Top(v.segs, v.last));
      }
    }
  }

  lemma {:induction false} TrimNothing(x: nat)
    ensures TrimBelow([], x) == []
  {
  }

  // ---- Completions ----------------------------------------------------------------------

  lemma {:induction false} DropDoneSplit(segs: seq<Seg>, d: nat) returns (i: nat)
    ensures i <= |segs| && DropDone(segs, d) == segs[i..] && (i > 0 ==> segs[i - 1].seq_ <= d)
    decreases |segs|
  {
    i := 0;
    if segs != [] && segs[0].seq_ <= d {
      var k := DropDoneSplit(segs[1..], d);
      i := k + 1;
    }
  }

  lemma BackedLess(u: seq<WriteOp>, s: Seg)
    requires u != [] && Backed(u, s) && Reaching(u, s) && u[0].seq_ != s.seq_
    ensures Backed(u[1..], s) && Reaching(u[1..], s)
  {
    var k :| 0 <= k < |u| && Backs(u[k], s);
    assert u[1..][k - 1] == u[k];
  }

  lemma TightCompleted(v: View)
    requires Core(v) && Tight(v) && v.landed != []
    ensures Tight(Completed(v))
  {
    hide Replay, RunsOk, Shielded, ImagesOk, Held, Backed, Reaching, Durably, DropDone, Shape;
    var v', u, d := Completed(v), Pending(v), v.landed[0];
    assert u[0] == d && Pending(v') == u[1..];
    var i := DropDoneSplit(v.segs, d.seq_);
    assert SegsOk(v'.segs, LogOf(v), v.last, d.seq_ + 1) by { DropDoneOk(v.segs, LogOf(v), v.last, d.seq_); }
    forall j | 0 <= j < |v'.segs| ensures Backed(u[1..], v'.segs[j]) && Reaching(u[1..], v'.segs[j]) {
      assert v'.segs[j] == v.segs[i + j];
      BackedLess(u, v.segs[i + j]);
    }
    if i > 0 {
      assert Joined(v.segs, i - 1, v.last);
      ReachedDurably(u, v.segs[i - 1]);
    } else {
      assert v'.segs == v.segs;
      if 0 < v.first <= Top(v.segs, v.last) { StillDurably(u, v.durable, Top(v.segs, v.last)); }
    }
  }

  /** When its oldest write completes, a segment of that write or an earlier one is stored for good. */
  lemma ReachedDurably(u: seq<WriteOp>, s: Seg)
    requires u != [] && Reaching(u, s) && s.seq_ <= u[0].seq_ && forall k :: 0 <= k < |u| ==> u[0].seq_ <= u[k].seq_
    ensures Durably(u[1..], u[0].durableAfter, End(s) - 1)
  {
    forall k | 0 <= k < |u[1..]| ensures u[1..][k].durableAfter >= End(s) - 1 { assert u[1..][k] == u[k + 1]; }
  }

  lemma StillDurably(u: seq<WriteOp>, durable: nat, top: int)
    requires u != [] && Durably(u, durable, top)
    ensures Durably(u[1..], u[0].durableAfter, top)
  {
  }

  lemma TightNoted(v: View, c: Change)
    requires Core(v) && Tight(v) && Aside(c)
    ensures Tight(Noted(v, c))
  {
    hide Replay, RunsOk, Shielded, ImagesOk, Held, Backed, Reaching, Durably, Shape;
    var v', u := Noted(v, c), Pending(v);
    var op := v'.queue[|v.queue|];
    assert Pending(v') == u + [op] && op.durableAfter >= v.last;
    forall j | 0 <= j < |v.segs| ensures Backed(u + [op], v.segs[j]) && Reaching(u + [op], v.segs[j]) {
      EndsAtLast(v.segs, LogOf(v), v.last, v.nextSeq - |u| + 1, j);
      BackedMore(u, op, v.segs[j]);
    }
    if 0 < v.first <= Top(v.segs, v.last) {
      if v.segs != [] { EndsAtLast(v.segs, LogOf(v), v.last, v.nextSeq - |u| + 1, 0); }
      DurablyMore(u, op, v.durable, Top(v.segs, v.last), Top(v.segs, v.last));
    }
  }

  // ---- Every step --------------------------------------------------------------------------

  lemma TightEmpty(v: View)
    requires v.first == 0 && v.segs == []
    ensures Tight(v)
  {
  }

  lemma TightCompacted(v: View, x: nat, i: nat, t: nat)
    requires Core(v) && Tight(v) && v.snapIndex <= i <= LastLogIndex(v) && 0 < x <= i + 1 && Agrees(v, i, t)
    ensures Tight(Compacted(v, x, i, t))
  {
    hide Core, Held, TrimBelow, RunsFrom, Agrees, LogOf, Tight;
    var w := Compacted(v, x, i, t);
    if v.first != 0 && x <= v.first {
      SnapTight(v, i, t);
    } else if x <= v.last {
      assert v.first > 0 by { NotEmpty(v); }
      TightTrimmed(v, x, i, t);
    } else {
      TrimAll(v, x);
      TightEmpty(w);
    }
  }

  lemma NotEmpty(v: View)
    requires Core(v) && v.last > 0
    ensures v.first > 0
  {
    hide Replay;
  }

  lemma SnapTight(v: View, i: nat, t: nat)
    requires Tight(v)
    ensures Tight(v.(snapIndex := i, snapTerm := t))
  {
    assert Pending(v.(snapIndex := i, snapTerm := t)) == Pending(v);
  }

  lemma TightInstalled(v: View, i: nat, t: nat)
    requires Core(v) && Tight(v) && v.snapIndex <= i && (i == 0 ==> t == 0)
    ensures Tight(Installed(v, i, t))
  {
    hide Held, TrimBelow, RunsFrom, CutFrom, Tight, Replay, Flight, RunsOk;
    var w := Installed(v, i, t);
    if Agrees(v, i, t) {
      assert i <= LastLogIndex(v);
      TightCompacted(v, i + 1, i, t);
      if w.last == 0 {
        assert Core(Compacted(v, i + 1, i, t)) by { CompactedOk(v, i + 1, i, t); }
        NoSegs(Compacted(v, i + 1, i, t));
        TightEmpty(w);
      }
    } else {
      CutAll(v);
      if v.first == 0 { NoSegs(v); }
      TightEmpty(w);
    }
  }

  lemma NoSegs(v: View)
    requires Core(v) && v.last == 0
    ensures v.segs == [] && v.first == 0
  {
    hide Replay;
    SegsFit(v);
  }

  lemma StepTight(v: View, a: Act)
    requires Core(v) && Tight(v) && Permits(v, a)
    ensures Tight(Done(v, a))
  {
    hide Core, Tight, Agrees, LogOf, Held;
    match a
    case DoAppend(entries) => TightAppended(v, entries);
    case DoCut(x) =>
      CutOk(v, x);
      if x > v.first { TightCut(v, x); } else { FirstCut(v, x); TightEmpty(Cut(v, x)); }
    case DoCompact(x, i, t) => TightCompacted(v, x, i, t);
    case DoInstall(i, t) => TightInstalled(v, i, t);
    case DoNote(c) => TightNoted(v, c);
    case DoLand => LandTight(v);
    case DoComplete => TightCompleted(v);
  }

  lemma {:induction false} FirstCut(v: View, x: nat)
    requires Core(v) && 0 < v.first && v.snapIndex < x <= v.first
    ensures CutFrom(v.segs, x) == []
  {
    CutAll(v);
  }

  lemma LandTight(v: View)
    requires Tight(v) && v.queue != []
    ensures Tight(Landed(v))
  {
    hide Apply;
    assert Pending(Landed(v)) == Pending(v);
  }

  /** Every run keeps its account tight. */
  lemma {:induction false} RunTight(vs: seq<View>, acts: seq<Act>, k: nat)
    requires LogRun(vs, acts) && Valid(vs[0]) && Tight(vs[0]) && k < |vs|
    ensures Tight(vs[k])
  {
    hide Core, EndTerm, Permits, Done, Tight;
    if k > 0 {
      var j: nat := k - 1;
      RunTight(vs, acts, j);
      RunSound(vs, acts, j);
      assert Permits(vs[j], acts[j]) && vs[j + 1] == Done(vs[j], acts[j]);
      StepTight(vs[j], acts[j]);
    }
  }
}
