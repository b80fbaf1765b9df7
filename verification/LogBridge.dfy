/**
  The overlay and the protocol's log are the same log: on one that was never
  compacted, the overlay's operations are the protocol's, and the indices and
  write numbers it vouches for are ones the protocol may rely on.
 */
module LogBridge {

  import opened Bytes
  import opened LogSpec
  import opened Overlay
  import opened BackupSteps
  import Handlers
  import LogTight
  import P = Protocol

  function Text(b: Buf): string {
    seq(|b|, i requires 0 <= i < |b| => b[i] as char)
  }

  function EntryOf(e: LogEntry): P.Entry {
    P.Entry(e.term, Text(e.command))
  }

  function EntriesOf(es: seq<LogEntry>): P.Log {
    seq(|es|, i requires 0 <= i < |es| => EntryOf(es[i]))
  }

  ghost function LogIn(v: View): P.Log
    requires Uncompacted(v)
  {
    seq(v.last, i requires 0 <= i < v.last => EntryOf(LogOf(v)[i + 1]))
  }

  lemma LogInIs(v: View)
    requires Uncompacted(v)
    ensures |LogIn(v)| == v.last == LastLogIndex(v) && (v.first == 0 <==> v.last == 0)
    ensures forall i :: i in LogOf(v) <==> 1 <= i <= v.last
    ensures forall i :: 0 <= i < v.last ==> LogIn(v)[i] == EntryOf(LogOf(v)[i + 1])
  {
    hide Flight, RunsOk, InFlight.SnapOk, Replay;
  }

  /** Appending to the overlay appends to the protocol's log. */
  lemma AppendIsAppend(v: View, es: seq<LogEntry>)
    requires Uncompacted(v) && Numbered(LastLogIndex(v) + 1, es) && es != []
    ensures Uncompacted(Appended(v, es)) && LogIn(Appended(v, es)) == LogIn(v) + EntriesOf(es)
  {
    hide Core, LogOf, RunsWithAll, Apply, LogIn;
    var w := Appended(v, es);
    AppendedOk(v, es);
    LogInIs(v);
    LogInIs(w);
    forall i | 0 <= i < w.last ensures LogIn(w)[i] == (LogIn(v) + EntriesOf(es))[i] {
      InFlight.AppendedAt(LogOf(v), v.last + 1, es, i + 1);
    }
  }

  /** Cutting the overlay at an index keeps that prefix of the protocol's log. */
  lemma CutIsCut(v: View, x: nat)
    requires Uncompacted(v) && 0 < v.first && 0 < x <= v.last + 1
    ensures x > v.first ==> x - 1 in LogOf(v)
    ensures Uncompacted(Cut(v, x)) && LogIn(Cut(v, x)) == LogIn(v)[..x - 1]
  {
    hide Core, LogOf;
    LogInIs(v);
    CutOk(v, x);
    var w := Cut(v, x);
    LogInIs(w);
    forall i | 0 <= i < w.last ensures LogIn(w)[i] == LogIn(v)[i] {
      ApplyAt(LogOf(v), DropFrom(x), i + 1);
    }
  }

  /** The election restriction the overlay applies is the protocol's. */
  lemma SameRestriction(v: View, lastIndex: nat, lastTerm: nat)
    requires Uncompacted(v)
    ensures P.UpToDate(lastTerm, lastIndex, LogIn(v)) <==>
            lastTerm > EndTerm(v) || (lastTerm == EndTerm(v) && lastIndex >= LastLogIndex(v))
  {
    hide Flight;
    LogInIs(v);
  }

  // ---- Writes ---------------------------------------------------------------------------

  predicate Plain(op: WriteOp) {
    !op.change.DropBelow? && (op.change.AppendEntries? ==> op.change.base > 0) && (op.change.DropFrom? ==> op.change.index > 0)
  }

  function OpOf(op: WriteOp): P.WriteOp
    requires Plain(op)
  {
    match op.change
    case AppendEntries(base, es) => P.AppendAt(base - 1, EntriesOf(es))
    case DropFrom(x) => P.TruncateTo(x - 1)
    case SaveHard(t, v) => P.SaveHard(t, v)
    case SaveCommit(i) => P.SaveCommit(i)
  }

  ghost predicate AllPlain(q: seq<WriteOp>) {
    forall k :: 0 <= k < |q| ==> Plain(q[k])
  }

  ghost function QueueOf(q: seq<WriteOp>): seq<P.WriteOp>
    requires AllPlain(q)
  {
    seq(|q|, k requires 0 <= k < |q| => OpOf(q[k]))
  }

  lemma SameTouch(op: WriteOp, upto: nat)
    requires Plain(op)
    ensures P.Touches(OpOf(op), upto) <==> Disturbs(op.change, upto)
  {
  }

  /** The number of writes that have reached storage. */
  ghost function LandedCount(v: View): nat
    requires Core(v)
  {
    v.nextSeq - |v.queue|
  }

  lemma QueueNumbers(v: View, k: nat)
    requires Core(v) && k < |v.queue|
    ensures v.queue[k].seq_ == LandedCount(v) + k + 1
  {
    assert Pending(v)[|v.landed| + k] == v.queue[k];
  }

  /** The write the overlay names before it vouches for an index is one the protocol's gate accepts for it. */
  lemma CoveringIsSafe(v: View, g: nat, index: nat)
    requires Core(v) && AllPlain(v.queue) && index in LogOf(v) && RaftLog.AloneAfter(v, g, index)
    ensures Handlers.Covers(QueueOf(v.queue), LandedCount(v), g, index)
  {
    hide Core;
    forall k | 0 <= k < |v.queue| && g <= LandedCount(v) + k ensures !P.Touches(QueueOf(v.queue)[k], index) {
      QueueNumbers(v, k);
      assert Pending(v)[|v.landed| + k] == v.queue[k];
      SameTouch(v.queue[k], index);
    }
  }

  /**
    The stable index is one the protocol lets a leader count itself for: no
    write queued, or landed and not yet seen to complete, touches that far.
   */
  lemma StableIsSafe(v: View)
    requires Core(v) && AllPlain(Pending(v)) && RaftLog.StableValue(v) in LogOf(v)
    ensures Handlers.Untouched(QueueOf(Pending(v)), RaftLog.StableValue(v))
  {
    hide Core;
    var d := RaftLog.StableValue(v);
    RaftLog.BelowStable(v, d);
    forall k | 0 <= k < |Pending(v)| ensures !P.Touches(QueueOf(Pending(v))[k], d) {
      PendingNumbers(v, k);
      SameTouch(Pending(v)[k], d);
    }
  }

  /** The overlay's stable index is the one the handlers compute from the writes: an index is below it exactly when none touches that far. */
  lemma StableAgrees(v: View, e: nat)
    requires Core(v) && LogTight.Tight(v) && AllPlain(Pending(v)) && v.snapIndex == 0 && e <= v.last
    ensures RaftLog.StableValue(v) <= v.last && (e <= RaftLog.StableValue(v) <==> Handlers.Untouched(QueueOf(Pending(v)), e))
  {
    hide Core, LogTight.Tight, RaftLog.AloneAfter;
    assert RaftLog.StableValue(v) <= v.last && (e > 0 ==> e in LogOf(v)) by { StableInLog(v, e); }
    if e > 0 {
      RaftLog.StableIsExact(v, e);
      AloneIsUntouched(v, e);
    }
  }

  lemma StableInLog(v: View, e: nat)
    requires Core(v) && v.snapIndex == 0 && e <= v.last
    ensures RaftLog.StableValue(v) <= v.last && (e > 0 ==> e in LogOf(v))
  {
    hide Replay;
  }

  lemma AloneIsUntouched(v: View, e: nat)
    requires Core(v) && AllPlain(Pending(v))
    ensures RaftLog.AloneAfter(v, 0, e) <==> Handlers.Untouched(QueueOf(Pending(v)), e)
  {
    hide Core;
    var u := Pending(v);
    forall k | 0 <= k < |u| ensures u[k].seq_ > 0 && (P.Touches(QueueOf(u)[k], e) <==> Disturbs(u[k].change, e)) {
      PendingNumbers(v, k);
      SameTouch(u[k], e);
    }
    if Handlers.Untouched(QueueOf(u), e) {
      forall m | 0 <= m < |u| && u[m].seq_ > 0 ensures !Disturbs(u[m].change, e) { assert !P.Touches(QueueOf(u)[m], e); }
    }
  }

  /** And the write it names for an entry is the one the handlers name: the last in flight that touches it. */
  lemma CoveringAgrees(v: View, g: nat, index: nat)
    requires Core(v) && AllPlain(Pending(v)) && RaftLog.AloneAfter(v, g, index) && (g > 0 ==> RaftLog.Named(v, g, index))
    ensures var done: nat := v.nextSeq - |Pending(v)|;
      && Handlers.Covers(QueueOf(Pending(v)), done, g, index)
      && (g > 0 ==> done < g <= v.nextSeq && P.Touches(QueueOf(Pending(v))[g - done - 1], index))
  {
    hide Core;
    var u, done := Pending(v), CompletedCount(v);
    forall k | 0 <= k < |u| ensures u[k].seq_ == done + k + 1 && (P.Touches(QueueOf(u)[k], index) <==> Disturbs(u[k].change, index)) {
      InOrder(v, k);
      SameTouch(u[k], index);
    }
  }

  ghost function CompletedCount(v: View): (n: nat)
    requires Core(v)
    ensures n == v.nextSeq - |Pending(v)|
  {
    v.nextSeq - |Pending(v)|
  }

  lemma InOrder(v: View, k: nat)
    requires Core(v) && k < |Pending(v)|
    ensures Pending(v)[k].seq_ == CompletedCount(v) + k + 1
  {
  }

  lemma PendingNumbers(v: View, k: nat)
    requires Core(v) && k < |Pending(v)|
    ensures Pending(v)[k].seq_ > 0
  {
  }
}
