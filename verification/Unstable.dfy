/**
  The part of the log that is only in memory: one segment per queued append,
  oldest first, and what each truncation does to it.
 */
module Unstable {

  import opened LogSpec

  datatype Seg = Seg(seq_: nat, entries: seq<LogEntry>)

  function Start(s: Seg): nat {
    if s.entries == [] then 0 else s.entries[0].index
  }

  /** One past the segment's last entry. */
  function End(s: Seg): nat {
    Start(s) + |s.entries|
  }

  function CommandBytes(entries: seq<LogEntry>): nat {
    if entries == [] then 0 else CommandBytes(entries[..|entries| - 1]) + |entries[|entries| - 1].command|
  }

  lemma {:induction false} CommandBytesOne(e: LogEntry)
    ensures CommandBytes([e]) == |e.command|
  {
    assert [e][..0] == [];
  }

  /** The size of all the commands held in memory. */
  function Held(segs: seq<Seg>): nat {
    if segs == [] then 0 else Held(segs[..|segs| - 1]) + CommandBytes(segs[|segs| - 1].entries)
  }

  lemma {:induction false} CommandBytesSplit(a: seq<LogEntry>, b: seq<LogEntry>)
    ensures CommandBytes(a + b) == CommandBytes(a) + CommandBytes(b)
    decreases |b|
  {
    if b == [] {
      assert a + b == a;
    } else {
      CommandBytesSplit(a, b[..|b| - 1]);
      assert (a + b)[..|a + b| - 1] == a + b[..|b| - 1];
    }
  }

  lemma {:induction false} HeldFirst(segs: seq<Seg>)
    requires segs != []
    ensures Held(segs) == CommandBytes(segs[0].entries) + Held(segs[1..])
    decreases |segs|
  {
    if |segs| > 1 {
      HeldFirst(segs[..|segs| - 1]);
      assert segs[..|segs| - 1][1..] == segs[1..][..|segs| - 2];
    }
  }

  lemma {:induction false} HeldMore(segs: seq<Seg>, s: Seg)
    ensures Held(segs + [s]) == Held(segs) + CommandBytes(s.entries)
  {
    assert (segs + [s])[..|segs|] == segs;
  }

  /** What is no longer held when the last segment keeps only its first `keep` entries. */
  lemma {:induction false} HeldCut(segs: seq<Seg>, keep: nat)
    requires segs != [] && keep <= |segs[|segs| - 1].entries|
    ensures var n := |segs| - 1;
            var s := segs[n];
            && Held(segs) == Held(segs[..n]) + CommandBytes(s.entries)
            && Held(segs) == Held(segs[..n] + [Seg(s.seq_, s.entries[..keep])]) + CommandBytes(s.entries[keep..])
  {
    var n := |segs| - 1;
    var s := segs[n];
    assert s.entries == s.entries[..keep] + s.entries[keep..];
    CommandBytesSplit(s.entries[..keep], s.entries[keep..]);
    HeldMore(segs[..n], Seg(s.seq_, s.entries[..keep]));
  }

  /** What is no longer held when the first segment loses its first `drop` entries. */
  lemma {:induction false} HeldTrim(segs: seq<Seg>, drop: nat)
    requires segs != [] && drop <= |segs[0].entries|
    ensures var s := segs[0];
            && Held(segs) == CommandBytes(s.entries) + Held(segs[1..])
            && Held(segs) == CommandBytes(s.entries[..drop]) + Held([Seg(s.seq_, s.entries[drop..])] + segs[1..])
  {
    var s := segs[0];
    var r := [Seg(s.seq_, s.entries[drop..])] + segs[1..];
    assert s.entries == s.entries[..drop] + s.entries[drop..];
    CommandBytesSplit(s.entries[..drop], s.entries[drop..]);
    HeldFirst(segs);
    HeldFirst(r);
    assert r[1..] == segs[1..];
  }

  /** The segment holds the log's own entries. */
  ghost predicate SegOk(s: Seg, log: Store) {
    && s.entries != [] && Numbered(Start(s), s.entries)
    && forall i :: 0 <= i < |s.entries| ==> HasAt(log, Start(s) + i, s.entries[i])
  }

  predicate HasAt(log: Store, i: nat, e: LogEntry) {
    i in log && log[i] == e
  }

  /** Segment `j` is followed directly by the next one, or by the end of the log. */
  ghost predicate Joined(segs: seq<Seg>, j: nat, last: nat)
    requires j < |segs|
  {
    if j + 1 < |segs| then End(segs[j]) == Start(segs[j + 1]) else End(segs[j]) == last + 1
  }

  /** The segments are the contiguous tail of the log, written by ever later writes numbered `from` or more. */
  ghost predicate SegsOk(segs: seq<Seg>, log: Store, last: nat, from: nat) {
    && (forall j :: 0 <= j < |segs| ==> SegOk(segs[j], log) && from <= segs[j].seq_)
    && (forall j, k :: 0 <= j < k < |segs| ==> segs[j].seq_ < segs[k].seq_)
    && (forall j :: 0 <= j < |segs| ==> Joined(segs, j, last))
  }

  lemma {:induction false} StartsAscend(segs: seq<Seg>, log: Store, last: nat, from: nat, j: nat, k: nat)
    requires SegsOk(segs, log, last, from) && j < k < |segs|
    ensures End(segs[j]) <= Start(segs[k]) && Start(segs[j]) < Start(segs[k])
    decreases k - j
  {
    assert Joined(segs, j, last);
    if j + 1 < k {
      StartsAscend(segs, log, last, from, j + 1, k);
    }
  }

  lemma EndsAtLast(segs: seq<Seg>, log: Store, last: nat, from: nat, j: nat)
    requires SegsOk(segs, log, last, from) && j < |segs|
    ensures End(segs[j]) <= last + 1
  {
    var z := |segs| - 1;
    assert Joined(segs, z, last);
    if j < z { StartsAscend(segs, log, last, from, j, z); }
  }

  // ---- Suffix truncation ----------------------------------------------------

  /** The segments without their entries at `x` and above. */
  function CutFrom(segs: seq<Seg>, x: nat): seq<Seg> {
    if segs == [] then []
    else
      var n := |segs| - 1;
      var s := segs[n];
      if s.entries == [] || Start(s) >= x then CutFrom(segs[..n], x)
      else if End(s) > x then segs[..n] + [Seg(s.seq_, s.entries[..x - Start(s)])]
      else segs
  }

  lemma {:induction false} CutFromOk(segs: seq<Seg>, log: Store, last: nat, from: nat, x: nat)
    requires SegsOk(segs, log, last, from) && 0 < x <= last + 1
    ensures SegsOk(CutFrom(segs, x), Apply(log, DropFrom(x)), x - 1, from)
    decreases |segs|
  {
    if segs != [] {
      var n := |segs| - 1;
      if Start(segs[n]) >= x {
        CutLast(segs, log, last, from);
        CutFromOk(segs[..n], log, Start(segs[n]) - 1, from, x);
      } else {
        CutInside(segs, log, last, from, x);
      }
    }
  }

  lemma CutLast(segs: seq<Seg>, log: Store, last: nat, from: nat)
    requires SegsOk(segs, log, last, from) && segs != [] && Start(segs[|segs| - 1]) > 0
    ensures SegsOk(segs[..|segs| - 1], log, Start(segs[|segs| - 1]) - 1, from)
  {
    var n := |segs| - 1;
    var r, y := segs[..n], Start(segs[n]) - 1;
    forall j | 0 <= j < n ensures Joined(r, j, y) {
      assert Joined(segs, j, last);
    }
  }

  function SegCut(s: Seg, x: nat): Seg
    requires Start(s) < x
  {
    if End(s) > x then Seg(s.seq_, s.entries[..x - Start(s)]) else s
  }

  lemma SegCutOk(s: Seg, log: Store, x: nat)
    requires SegOk(s, log) && Start(s) < x
    ensures SegOk(SegCut(s, x), Apply(log, DropFrom(x)))
    ensures Start(SegCut(s, x)) == Start(s) && End(SegCut(s, x)) == if End(s) > x then x else End(s)
  {
    var r, log' := SegCut(s, x), Apply(log, DropFrom(x));
    forall i | 0 <= i < |r.entries| ensures HasAt(log', Start(r) + i, r.entries[i]) {
      assert HasAt(log, Start(s) + i, s.entries[i]) && r.entries[i] == s.entries[i];
      ApplyAt(log, DropFrom(x), Start(s) + i);
    }
  }

  lemma {:induction false} CutInside(segs: seq<Seg>, log: Store, last: nat, from: nat, x: nat)
    requires SegsOk(segs, log, last, from) && segs != [] && Start(segs[|segs| - 1]) < x <= last + 1
    ensures SegsOk(CutFrom(segs, x), Apply(log, DropFrom(x)), x - 1, from)
  {
    var n := |segs| - 1;
    var r, log', y := CutFrom(segs, x), Apply(log, DropFrom(x)), x - 1;
    assert Joined(segs, n, last) && r == segs[..n] + [SegCut(segs[n], x)];
    forall j | 0 <= j < |r| ensures SegOk(r[j], log') && from <= r[j].seq_ && Joined(r, j, y) {
      if j < n { StartsAscend(segs, log, last, from, j, n); }
      assert Joined(segs, j, last);
      SegCutOk(segs[j], log, x);
      if j + 1 == n { SegCutOk(segs[n], log, x); }
    }
  }

  /** A segment that starts below the cut survives it, in the same place. */
  lemma {:induction false} CutFromKeeps(segs: seq<Seg>, x: nat, j: nat)
    requires j < |segs| && forall k :: 0 <= k < |segs| ==> segs[k].entries != []
    requires Start(segs[j]) < x
    ensures j < |CutFrom(segs, x)| && CutFrom(segs, x)[j].seq_ == segs[j].seq_
    ensures Start(CutFrom(segs, x)[j]) == Start(segs[j])
    decreases |segs|
  {
    var n := |segs| - 1;
    if Start(segs[n]) >= x {
      CutFromKeeps(segs[..n], x, j);
    }
  }

  lemma {:induction false} CutFromAll(segs: seq<Seg>, x: nat)
    requires forall j :: 0 <= j < |segs| ==> x <= Start(segs[j])
    ensures CutFrom(segs, x) == []
    decreases |segs|
  {
    if segs != [] { CutFromAll(segs[..|segs| - 1], x); }
  }

  // ---- Prefix truncation ----------------------------------------------------

  /** The segments without their entries below `x`. */
  function TrimBelow(segs: seq<Seg>, x: nat): seq<Seg> {
    if segs == [] then []
    else
      var s := segs[0];
      if s.entries == [] || End(s) <= x then TrimBelow(segs[1..], x)
      else if Start(s) < x then [Seg(s.seq_, s.entries[x - Start(s)..])] + segs[1..]
      else segs
  }

  lemma DropFirst(segs: seq<Seg>, log: Store, last: nat, from: nat)
    requires SegsOk(segs, log, last, from) && segs != []
    ensures SegsOk(segs[1..], log, last, from)
  {
    var r := segs[1..];
    forall j | 0 <= j < |r| ensures Joined(r, j, last) {
      assert Joined(segs, j + 1, last);
    }
  }

  lemma {:induction false} TrimBelowOk(segs: seq<Seg>, log: Store, last: nat, from: nat, x: nat)
    requires SegsOk(segs, log, last, from)
    ensures SegsOk(TrimBelow(segs, x), Apply(log, DropBelow(x)), last, from)
    decreases |segs|
  {
    if segs != [] {
      if End(segs[0]) <= x {
        DropFirst(segs, log, last, from);
        TrimBelowOk(segs[1..], log, last, from, x);
      } else {
        TrimInside(segs, log, last, from, x);
      }
    }
  }

  function SegTrim(s: Seg, x: nat): Seg
    requires End(s) > x
  {
    if Start(s) < x then Seg(s.seq_, s.entries[x - Start(s)..]) else s
  }

  lemma SegTrimOk(s: Seg, log: Store, x: nat)
    requires SegOk(s, log) && End(s) > x
    ensures SegOk(SegTrim(s, x), Apply(log, DropBelow(x)))
    ensures End(SegTrim(s, x)) == End(s) && Start(SegTrim(s, x)) == if Start(s) < x then x else Start(s)
  {
    hide Apply;
    var r, log' := SegTrim(s, x), Apply(log, DropBelow(x));
    var d := if Start(s) < x then x - Start(s) else 0;
    assert r.entries == s.entries[d..] && r.entries[0] == s.entries[d];
    forall i | 0 <= i < |r.entries| ensures HasAt(log', Start(r) + i, r.entries[i]) {
      assert HasAt(log, Start(s) + (d + i), s.entries[d + i]) && r.entries[i] == s.entries[d + i];
      ApplyAt(log, DropBelow(x), Start(r) + i);
    }
  }

  lemma {:induction false} TrimInside(segs: seq<Seg>, log: Store, last: nat, from: nat, x: nat)
    requires SegsOk(segs, log, last, from) && segs != [] && End(segs[0]) > x
    ensures SegsOk(TrimBelow(segs, x), Apply(log, DropBelow(x)), last, from)
  {
    var r, log' := TrimBelow(segs, x), Apply(log, DropBelow(x));
    assert r == [SegTrim(segs[0], x)] + segs[1..];
    forall j | 0 <= j < |r| ensures SegOk(r[j], log') && from <= r[j].seq_ && Joined(r, j, last) {
      assert Joined(segs, j, last);
      if j > 0 { StartsAscend(segs, log, last, from, 0, j); }
      SegTrimOk(segs[j], log, x);
    }
  }

  /**
    Whatever segment stood at or below an index, one at or below it (or at the
    new first index) still does, from a write no earlier.
   */
  lemma {:induction false} TrimBelowKeeps(segs: seq<Seg>, log: Store, last: nat, from: nat, x: nat, j: nat)
    returns (k: nat)
    requires SegsOk(segs, log, last, from) && j < |segs| && x <= last
    ensures k < |TrimBelow(segs, x)| && TrimBelow(segs, x)[k].seq_ >= segs[j].seq_
    ensures Start(TrimBelow(segs, x)[k]) <= Start(segs[j]) || Start(TrimBelow(segs, x)[k]) <= x
    decreases |segs|
  {
    if End(segs[0]) <= x {
      assert Joined(segs, 0, last);
      DropFirst(segs, log, last, from);
      k := TrimBelowKeeps(segs[1..], log, last, from, x, if j == 0 then 0 else j - 1);
    } else {
      k := j;
    }
  }

  lemma {:induction false} TrimBelowAll(segs: seq<Seg>, x: nat)
    requires forall j :: 0 <= j < |segs| ==> End(segs[j]) <= x
    ensures TrimBelow(segs, x) == []
    decreases |segs|
  {
    if segs != [] { TrimBelowAll(segs[1..], x); }
  }

  // ---- Completed writes -------------------------------------------------------

  /** The segments whose write is later than `d`. */
  function DropDone(segs: seq<Seg>, d: nat): seq<Seg> {
    if segs == [] || segs[0].seq_ > d then segs else DropDone(segs[1..], d)
  }

  lemma {:induction false} DropDoneOk(segs: seq<Seg>, log: Store, last: nat, d: nat)
    requires SegsOk(segs, log, last, d)
    ensures SegsOk(DropDone(segs, d), log, last, d + 1)
    decreases |segs|
  {
    if segs != [] && segs[0].seq_ <= d {
      DropFirst(segs, log, last, d);
      DropDoneOk(segs[1..], log, last, d);
    }
  }

  lemma {:induction false} DropDoneKeeps(segs: seq<Seg>, d: nat, j: nat) returns (k: nat)
    requires j < |segs| && segs[j].seq_ > d
    ensures k < |DropDone(segs, d)| && DropDone(segs, d)[k] == segs[j]
    decreases |segs|
  {
    if segs[0].seq_ > d {
      k := j;
    } else {
      k := DropDoneKeeps(segs[1..], d, j - 1);
    }
  }

  // ---- What the segments promise about the writes in flight -----------------

  /**
    The write either leaves the log's current entries alone, or an append no
    earlier than it, still in memory, rewrites everything it touched.
   */
  ghost predicate Shielded(op: WriteOp, segs: seq<Seg>, first: nat, last: nat) {
    match op.change
    case AppendEntries(p, _) => ShieldedAt(p, op.seq_, segs, first, last)
    case DropFrom(p) => ShieldedAt(p, op.seq_, segs, first, last)
    case DropBelow(_) => true
    case SaveHard(_, _) => true
    case SaveCommit(_) => true
  }

  ghost predicate ShieldedAt(p: nat, seq_: nat, segs: seq<Seg>, first: nat, last: nat) {
    || first == 0
    || last < p
    || exists j :: 0 <= j < |segs| && segs[j].seq_ >= seq_ && (Start(segs[j]) <= p || Start(segs[j]) <= first)
  }

  lemma {:induction false} ShieldCut(p: nat, q: nat, segs: seq<Seg>, log: Store, first: nat, last: nat, from: nat, x: nat)
    requires SegsOk(segs, log, last, from) && ShieldedAt(p, q, segs, first, last) && 0 < first < x <= last + 1
    ensures ShieldedAt(p, q, CutFrom(segs, x), first, x - 1)
  {
    if p < x {
      var j :| 0 <= j < |segs| && segs[j].seq_ >= q && (Start(segs[j]) <= p || Start(segs[j]) <= first);
      CutFromKeeps(segs, x, j);
    }
  }

  lemma {:induction false} ShieldTrim(p: nat, q: nat, segs: seq<Seg>, log: Store, first: nat, last: nat, from: nat, x: nat)
    requires SegsOk(segs, log, last, from) && ShieldedAt(p, q, segs, first, last) && 0 < first < x <= last
    ensures ShieldedAt(p, q, TrimBelow(segs, x), x, last)
  {
    if p <= last {
      var j :| 0 <= j < |segs| && segs[j].seq_ >= q && (Start(segs[j]) <= p || Start(segs[j]) <= first);
      var k := TrimBelowKeeps(segs, log, last, from, x, j);
    }
  }

  lemma ShieldAppend(p: nat, q: nat, segs: seq<Seg>, s: Seg, first: nat, last: nat)
    requires ShieldedAt(p, q, segs, first, last) && q <= s.seq_ && s.entries != []
    requires if first == 0 then Start(s) > 0 else Start(s) == last + 1
    ensures ShieldedAt(p, q, segs + [s], if first == 0 then Start(s) else first, End(s) - 1)
  {
    var r := segs + [s];
    assert r[|segs|] == s;
    if first > 0 && p <= last {
      var j :| 0 <= j < |segs| && segs[j].seq_ >= q && (Start(segs[j]) <= p || Start(segs[j]) <= first);
      assert r[j] == segs[j];
    }
  }

  lemma {:induction false} ShieldDone(p: nat, q: nat, segs: seq<Seg>, first: nat, last: nat, d: nat)
    requires ShieldedAt(p, q, segs, first, last) && q > d
    ensures ShieldedAt(p, q, DropDone(segs, d), first, last)
  {
    if first > 0 && p <= last {
      var j :| 0 <= j < |segs| && segs[j].seq_ >= q && (Start(segs[j]) <= p || Start(segs[j]) <= first);
      var k := DropDoneKeeps(segs, d, j);
    }
  }

  // ---- The loops over the segments --------------------------------------------

  /** The first entry held only in memory, or 0. */
  function FirstHeld(segs: seq<Seg>): nat {
    if segs == [] then 0
    else if segs[0].entries != [] then Start(segs[0])
    else FirstHeld(segs[1..])
  }

  method UnstableFirst(segs: seq<Seg>) returns (r: nat)
    ensures r == FirstHeld(segs)
  {
    for i := 0 to |segs|
      invariant FirstHeld(segs[i..]) == FirstHeld(segs)
    {
      assert segs[i..][0] == segs[i] && segs[i..][1..] == segs[i + 1..];
      if |segs[i].entries| > 0 { return segs[i].entries[0].index; }
    }
    return 0;
  }

  method SizeOf(entries: seq<LogEntry>) returns (total: nat)
    ensures total == CommandBytes(entries)
  {
    total := 0;
    for i := 0 to |entries|
      invariant total == CommandBytes(entries[..i])
    {
      assert entries[..i + 1][..i] == entries[..i];
      total := total + |entries[i].command|;
    }
    assert entries[..|entries|] == entries;
  }

  /** The entries are the log's own from index `lo` on. */
  ghost predicate IsSlice(log: Store, lo: nat, es: seq<LogEntry>) {
    forall k :: 0 <= k < |es| ==> HasAt(log, lo + k, es[k])
  }

  lemma NoSlice(log: Store, lo: nat)
    ensures IsSlice(log, lo, [])
  {
  }

  lemma PartIsSlice(s: Seg, log: Store, a: nat, b: nat)
    requires SegOk(s, log) && Start(s) <= a <= b <= End(s)
    ensures IsSlice(log, a, s.entries[a - Start(s)..b - Start(s)])
  {
    var part := s.entries[a - Start(s)..b - Start(s)];
    forall k | 0 <= k < |part| ensures HasAt(log, a + k, part[k]) {
      assert HasAt(log, Start(s) + (a - Start(s) + k), s.entries[a - Start(s) + k]);
    }
  }

  lemma SliceJoined(log: Store, lo: nat, out: seq<LogEntry>, part: seq<LogEntry>)
    requires IsSlice(log, lo, out) && IsSlice(log, lo + |out|, part)
    ensures IsSlice(log, lo, out + part)
  {
    forall k | 0 <= k < |out + part| ensures HasAt(log, lo + k, (out + part)[k]) {
      if k >= |out| { assert HasAt(log, lo + |out| + (k - |out|), part[k - |out|]); }
    }
  }

  /** The entries from `lo` to `hi` that are only in memory. */
  method UnstableSlice(segs: seq<Seg>, ghost log: Store, ghost last: nat, ghost from: nat, lo: nat, hi: nat)
    returns (out: seq<LogEntry>)
    requires SegsOk(segs, log, last, from) && segs != [] && Start(segs[0]) <= lo < hi <= last + 1
    ensures |out| == hi - lo
    ensures IsSlice(log, lo, out)
  {
    hide IsSlice;
    out := [];
    assert IsSlice(log, lo, []) by { NoSlice(log, lo); }
    var i := 0;
    while i < |segs|
      invariant 0 <= i <= |segs|
      invariant IsSlice(log, lo, out)
      invariant |out| == Reached(segs, i, lo, hi) - lo
    {
      assert SegOk(segs[i], log) && Joined(segs, i, last);
      if i > 0 { assert Joined(segs, i - 1, last); }
      var es := segs[i].entries;
      if |es| == 0 || es[|es| - 1].index < lo {
        i := i + 1;
        continue;
      }
      if es[0].index >= hi { break; }
      var a := if es[0].index > lo then es[0].index else lo;
      var b := if es[|es| - 1].index + 1 < hi then es[|es| - 1].index + 1 else hi;
      var part := es[a - es[0].index..b - es[0].index];
      PartIsSlice(segs[i], log, a, b);
      SliceJoined(log, lo, out, part);
      out := out + part;
      i := i + 1;
    }
    if i == |segs| {
      assert Joined(segs, |segs| - 1, last);
    } else if i > 0 {
      assert Joined(segs, i - 1, last);
    }
  }

  /** How far the first `i` segments reach into the range. */
  function Reached(segs: seq<Seg>, i: nat, lo: nat, hi: nat): nat
    requires i <= |segs|
  {
    if i == 0 || End(segs[i - 1]) <= lo then lo else if End(segs[i - 1]) <= hi then End(segs[i - 1]) else hi
  }
}
