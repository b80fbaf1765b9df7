/**
  What the log knows about its own writes while they are queued, or stored but
  not yet reported complete, and how each operation keeps it so.
 */
module InFlight {

  import opened LogSpec
  import opened Unstable

  /** A prefix truncation in flight never reaches into the log as it stands. */
  predicate PrefixOk(op: WriteOp, first: nat, snapIndex: nat) {
    op.change.DropBelow? ==> op.change.index <= if first > 0 then first else snapIndex + 1
  }

  /** What the log knows about the writes that are queued or not yet reported complete. */
  ghost predicate WritesOk(u: seq<WriteOp>, segs: seq<Seg>, first: nat, last: nat, snapIndex: nat, nextSeq: nat) {
    && |u| <= nextSeq
    && (forall k :: 0 <= k < |u| ==> u[k].seq_ == nextSeq - |u| + 1 + k)
    && (forall k :: 0 <= k < |u| ==> Shielded(u[k], segs, first, last) && PrefixOk(u[k], first, snapIndex))
    && (forall j :: 0 <= j < |segs| ==> segs[j].seq_ <= nextSeq)
  }

  /** What will be durable: the last write in flight says so, and with none in flight it already is. */
  ghost predicate DurableOk(u: seq<WriteOp>, last: nat, durable: nat, queuedDurable: nat) {
    && last <= queuedDurable
    && (if u == [] then durable else u[|u| - 1].durableAfter) == queuedDurable
  }

  /** The snapshot boundary lies within a non-empty log's reach and agrees with it. */
  ghost predicate SnapOk(log: Store, first: nat, last: nat, snapIndex: nat, snapTerm: nat) {
    && (first > 0 ==> snapIndex <= last) && (snapIndex == 0 ==> snapTerm == 0)
    && (snapIndex in log ==> log[snapIndex].term == snapTerm)
  }

  /** A write that no later segment answers for leaves index `i` of the log alone. */
  lemma Undisturbed(op: WriteOp, segs: seq<Seg>, first: nat, last: nat, snapIndex: nat, i: nat)
    requires Shielded(op, segs, first, last) && PrefixOk(op, first, snapIndex) && 0 < first <= i <= last
    requires forall j :: 0 <= j < |segs| && segs[j].seq_ >= op.seq_ ==> i < Start(segs[j])
    ensures !Disturbs(op.change, i)
  {
  }

  /** If no write from `k` on disturbs index `i`, storage already holds the log's entry there once the first `k` have landed. */
  lemma {:induction false} StoredAfter(disk: Store, queue: seq<WriteOp>, log: Store, k: nat, i: nat)
    requires Replay(disk, queue) == log && k <= |queue| && i in log
    requires forall m :: k <= m < |queue| ==> !Disturbs(queue[m].change, i)
    ensures HasAt(Replay(disk, queue[..k]), i, log[i])
  {
    var a, b := queue[..k], queue[k..];
    assert queue == a + b;
    ReplaySplit(disk, a, b);
    forall m | 0 <= m < |b| ensures !Disturbs(b[m].change, i) {
      assert b[m] == queue[k + m];
    }
    ReplayUndisturbed(Replay(disk, a), b, i);
  }

  lemma WritesAppended(u: seq<WriteOp>, segs: seq<Seg>, first: nat, last: nat, snapIndex: nat, nextSeq: nat, op: WriteOp, s: Seg)
    requires WritesOk(u, segs, first, last, snapIndex, nextSeq)
    requires op.seq_ == nextSeq + 1 == s.seq_ && s.entries != [] && op.change.AppendEntries? && op.change.base == Start(s)
    requires if first == 0 then Start(s) == snapIndex + 1 else Start(s) == last + 1
    ensures WritesOk(u + [op], segs + [s], if first == 0 then Start(s) else first, End(s) - 1, snapIndex, nextSeq + 1)
  {
    var u', segs', first', last' := u + [op], segs + [s], if first == 0 then Start(s) else first, End(s) - 1;
    forall k | 0 <= k < |u'| ensures Shielded(u'[k], segs', first', last') && PrefixOk(u'[k], first', snapIndex) {
      if k < |u| {
        match u[k].change
        case AppendEntries(p, _) => ShieldAppend(p, u[k].seq_, segs, s, first, last);
        case DropFrom(p) => ShieldAppend(p, u[k].seq_, segs, s, first, last);
        case _ =>
      } else {
        assert segs'[|segs|] == s;
      }
    }
  }

  lemma {:induction false} WritesCut(u: seq<WriteOp>, segs: seq<Seg>, log: Store, first: nat, last: nat, snapIndex: nat, nextSeq: nat, from: nat, op: WriteOp, x: nat)
    requires WritesOk(u, segs, first, last, snapIndex, nextSeq) && SegsOk(segs, log, last, from)
    requires op.seq_ == nextSeq + 1 && op.change == DropFrom(x) && 0 < first < x <= last + 1
    ensures WritesOk(u + [op], CutFrom(segs, x), first, x - 1, snapIndex, nextSeq + 1)
  {
    var u', segs' := u + [op], CutFrom(segs, x);
    forall k | 0 <= k < |u'| ensures Shielded(u'[k], segs', first, x - 1) && PrefixOk(u'[k], first, snapIndex) {
      if k < |u| {
        match u[k].change
        case AppendEntries(p, _) => ShieldCut(p, u[k].seq_, segs, log, first, last, from, x);
        case DropFrom(p) => ShieldCut(p, u[k].seq_, segs, log, first, last, from, x);
        case _ =>
      }
    }
    CutFromSeqs(segs, x, nextSeq);
  }

  lemma WritesKept(u: seq<WriteOp>, segs: seq<Seg>, first: nat, last: nat, snapIndex: nat, nextSeq: nat, op: WriteOp)
    requires WritesOk(u, segs, first, last, snapIndex, nextSeq)
    requires op.seq_ == nextSeq + 1 && Aside(op.change)
    ensures WritesOk(u + [op], segs, first, last, snapIndex, nextSeq + 1)
  {
  }

  lemma {:induction false} CutFromSeqs(segs: seq<Seg>, x: nat, n: nat)
    requires forall j :: 0 <= j < |segs| ==> segs[j].seq_ <= n
    ensures forall j :: 0 <= j < |CutFrom(segs, x)| ==> CutFrom(segs, x)[j].seq_ <= n
    decreases |segs|
  {
    if segs != [] { CutFromSeqs(segs[..|segs| - 1], x, n); }
  }

  lemma {:induction false} TrimBelowSeqs(segs: seq<Seg>, x: nat, n: nat)
    requires forall j :: 0 <= j < |segs| ==> segs[j].seq_ <= n
    ensures forall j :: 0 <= j < |TrimBelow(segs, x)| ==> TrimBelow(segs, x)[j].seq_ <= n
    decreases |segs|
  {
    if segs != [] { TrimBelowSeqs(segs[1..], x, n); }
  }

  lemma {:induction false} WritesTrimmed(u: seq<WriteOp>, segs: seq<Seg>, log: Store, first: nat, last: nat, snapIndex: nat, nextSeq: nat, from: nat, op: WriteOp, x: nat)
    requires WritesOk(u, segs, first, last, snapIndex, nextSeq) && SegsOk(segs, log, last, from)
    requires op.seq_ == nextSeq + 1 && op.change == DropBelow(x) && 0 < first < x <= last
    ensures WritesOk(u + [op], TrimBelow(segs, x), x, last, snapIndex, nextSeq + 1)
  {
    var u', segs' := u + [op], TrimBelow(segs, x);
    forall k | 0 <= k < |u'| ensures Shielded(u'[k], segs', x, last) && PrefixOk(u'[k], x, snapIndex) {
      if k < |u| {
        match u[k].change
        case AppendEntries(p, _) => ShieldTrim(p, u[k].seq_, segs, log, first, last, from, x);
        case DropFrom(p) => ShieldTrim(p, u[k].seq_, segs, log, first, last, from, x);
        case _ =>
      }
    }
    TrimBelowSeqs(segs, x, nextSeq);
  }

  /** A truncation that leaves nothing: no segment is left, and nothing is left to protect. */
  lemma WritesEmptied(u: seq<WriteOp>, segs: seq<Seg>, first: nat, last: nat, snapIndex: nat, nextSeq: nat, op: WriteOp, snapIndex': nat)
    requires WritesOk(u, segs, first, last, snapIndex, nextSeq) && op.seq_ == nextSeq + 1
    requires first <= snapIndex' + 1 && snapIndex <= snapIndex' && (op.change.DropBelow? ==> op.change.index <= snapIndex' + 1)
    ensures WritesOk(u + [op], [], 0, 0, snapIndex', nextSeq + 1)
  {
    var u' := u + [op];
    forall k | 0 <= k < |u'| ensures Shielded(u'[k], [], 0, 0) && PrefixOk(u'[k], 0, snapIndex') {
    }
  }

  lemma {:induction false} WritesCompleted(u: seq<WriteOp>, segs: seq<Seg>, first: nat, last: nat, snapIndex: nat, nextSeq: nat)
    requires WritesOk(u, segs, first, last, snapIndex, nextSeq) && u != []
    ensures WritesOk(u[1..], DropDone(segs, u[0].seq_), first, last, snapIndex, nextSeq)
  {
    var d := u[0].seq_;
    var u', segs' := u[1..], DropDone(segs, d);
    forall k | 0 <= k < |u'| ensures Shielded(u'[k], segs', first, last) && PrefixOk(u'[k], first, snapIndex) {
      assert u'[k] == u[k + 1] && u[k + 1].seq_ > d;
      match u'[k].change
      case AppendEntries(p, _) => ShieldDone(p, u'[k].seq_, segs, first, last, d);
      case DropFrom(p) => ShieldDone(p, u'[k].seq_, segs, first, last, d);
      case _ =>
    }
    DropDoneSeqs(segs, d, nextSeq);
  }

  lemma {:induction false} DropDoneSeqs(segs: seq<Seg>, d: nat, n: nat)
    requires forall j :: 0 <= j < |segs| ==> segs[j].seq_ <= n
    ensures forall j :: 0 <= j < |DropDone(segs, d)| ==> DropDone(segs, d)[j].seq_ <= n
    decreases |segs|
  {
    if segs != [] { DropDoneSeqs(segs[1..], d, n); }
  }

  lemma SegsAppended(segs: seq<Seg>, log: Store, last: nat, from: nat, s: Seg)
    requires SegsOk(segs, log, last, from) && from <= s.seq_ && (forall j :: 0 <= j < |segs| ==> segs[j].seq_ < s.seq_)
    requires s.entries != [] && Numbered(Start(s), s.entries) && Start(s) > 0 && (segs != [] ==> Start(s) == last + 1)
    requires forall i :: i in log ==> i < Start(s)
    ensures SegsOk(segs + [s], Apply(log, AppendEntries(Start(s), s.entries)), End(s) - 1, from)
  {
    var segs', log', y := segs + [s], Apply(log, AppendEntries(Start(s), s.entries)), End(s) - 1;
    forall j | 0 <= j < |segs'| ensures SegOk(segs'[j], log') && from <= segs'[j].seq_ && Joined(segs', j, y) {
      if j < |segs| {
        assert SegOk(segs[j], log) && Joined(segs, j, last);
        forall i | 0 <= i < |segs[j].entries| ensures HasAt(log', Start(segs[j]) + i, segs[j].entries[i]) {
          assert HasAt(log, Start(segs[j]) + i, segs[j].entries[i]);
        }
      } else {
        forall i | 0 <= i < |s.entries| ensures HasAt(log', Start(s) + i, s.entries[i]) {
          assert EntryAt(Start(s), s.entries, Start(s) + i) == s.entries[i];
        }
      }
    }
  }

  lemma AppendedAt(log: Store, base: nat, entries: seq<LogEntry>, i: nat)
    ensures var log' := Apply(log, AppendEntries(base, entries));
            if base <= i < base + |entries| then HasAt(log', i, entries[i - base])
            else (i in log' <==> i in log) && (i in log ==> log'[i] == log[i])
  {
    if base <= i < base + |entries| { assert EntryAt(base, entries, i) == entries[i - base]; }
  }
}
