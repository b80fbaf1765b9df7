/**
  Facts about replaying a queue of writes and about logs that come from leaders:
  how the image of a disk changes when a write joins the queue or lands, that a
  truncation or an append leaves the earlier part of it alone, and that two logs
  of leaders that agree on a term at an index agree on everything before it.
 */
module Facts {
  import opened Protocol
  import opened Invariant

  // ---- Replay -------------------------------------------------------------

  lemma {:induction false} ReplayFirst(d: Durable, q: seq<WriteOp>)
    requires q != []
    ensures Replay(d, q) == Replay(ApplyOp(d, q[0]), q[1..])
    decreases |q|
  {
    var p := q[..|q| - 1];
    if p == [] {
      assert q[1..] == [];
      assert Replay(d, p) == d;
    } else {
      ReplayFirst(d, p);
      assert q[1..][..|q| - 2] == p[1..];
    }
  }

  /** Queueing a write leaves every image as it was and adds one. */
  lemma ImageEnqueued(nd: Node, nd': Node, op: WriteOp)
    requires nd'.disk == nd.disk && nd'.queue == nd.queue + [op]
    ensures forall k :: 0 <= k <= |nd.queue| ==> Image(nd', k) == Image(nd, k)
    ensures Image(nd', |nd'.queue|) == ApplyOp(Image(nd, |nd.queue|), op)
  {
    forall k | 0 <= k <= |nd.queue| ensures Image(nd', k) == Image(nd, k) {
      assert nd'.queue[..k] == nd.queue[..k];
    }
    var q := nd'.queue[..|nd'.queue|];
    assert q[..|q| - 1] == nd.queue[..|nd.queue|];
  }

  /** Landing a write drops the first image and keeps the others. */
  lemma ImageLanded(nd: Node, nd': Node)
    requires nd.queue != []
    requires nd'.disk == ApplyOp(nd.disk, nd.queue[0]) && nd'.queue == nd.queue[1..]
    ensures forall k :: 0 <= k <= |nd'.queue| ==> Image(nd', k) == Image(nd, k + 1)
  {
    forall k | 0 <= k <= |nd'.queue| ensures Image(nd', k) == Image(nd, k + 1) {
      var q := nd.queue[..k + 1];
      assert q[1..] == nd'.queue[..k];
      ReplayFirst(nd.disk, q);
    }
  }

  lemma ImageStep(nd: Node, k: nat)
    requires k < |nd.queue|
    ensures Image(nd, k + 1) == ApplyOp(Image(nd, k), nd.queue[k])
  {
    var q := nd.queue[..k + 1];
    assert q[..|q| - 1] == nd.queue[..k];
  }

  /** Writes that leave the first `upto` entries and the hard state alone do so in every image. */
  lemma {:induction false} ImagePrefix(nd: Node, k: nat, upto: nat)
    requires NodeShape(nd) && k <= |nd.queue| && upto <= |nd.mem.log|
    requires forall i :: k <= i < |nd.queue| ==> !Touches(nd.queue[i], upto)
    ensures upto <= |Image(nd, k).log| && Image(nd, k).log[..upto] == nd.mem.log[..upto]
    decreases |nd.queue| - k
  {
    if k < |nd.queue| {
      ImagePrefix(nd, k + 1, upto);
      ImageStep(nd, k);
      assert OpFits(Image(nd, k), nd.queue[k]);
      var d := Image(nd, k);
      match nd.queue[k]
      case SaveHard(_, _) =>
      case AppendAt(at, es) =>
        assert (d.log + es)[..upto] == d.log[..upto];
      case TruncateTo(keep) =>
        assert d.log[..keep][..upto] == d.log[..upto];
      case SaveCommit(_) =>
    }
  }

  lemma {:induction false} ImageHard(nd: Node, k: nat)
    requires NodeShape(nd) && k <= |nd.queue|
    requires forall i :: k <= i < |nd.queue| ==> !nd.queue[i].SaveHard?
    ensures Image(nd, k).term == nd.mem.term && Image(nd, k).vote == nd.mem.vote
    decreases |nd.queue| - k
  {
    if k < |nd.queue| {
      ImageHard(nd, k + 1);
      ImageStep(nd, k);
    }
  }

  // ---- Logs ---------------------------------------------------------------

  lemma LogOkPrefix(ll: map<nat, Log>, log: Log, k: nat)
    requires LogOk(ll, log) && k <= |log|
    ensures LogOk(ll, log[..k])
  {
    forall i | 0 <= i < k ensures log[..k][i].term in ll && log[..k][..i + 1] <= ll[log[..k][i].term] {
      assert log[..k][..i + 1] == log[..i + 1];
    }
  }

  lemma LogOkSorted(ll: map<nat, Log>, log: Log)
    requires LeaderLogsOk(ll) && LogOk(ll, log)
    ensures Sorted(log)
  {
    forall i, j | 0 <= i <= j < |log| ensures log[i].term <= log[j].term {
      var top := ll[log[j].term];
      assert log[..j + 1] <= top;
      assert top[i] == log[..j + 1][i] == log[i] && top[j] == log[..j + 1][j] == log[j];
    }
  }

  /** Strong log matching: the same term at two indices makes both logs equal up to the lower one. */
  lemma LogsMatch(ll: map<nat, Log>, a: Log, b: Log, i: nat, j: nat)
    requires LogOk(ll, a) && LogOk(ll, b)
    requires i <= j < |b| && i < |a| && a[i].term == b[j].term
    ensures a[..i + 1] == b[..i + 1]
  {
    var top := ll[a[i].term];
    assert a[..i + 1] <= top && b[..j + 1] <= top;
    assert b[..j + 1][..i + 1] == b[..i + 1];
    assert top[..i + 1] == a[..i + 1] && top[..i + 1] == b[..j + 1][..i + 1];
  }

  /** The memory state is the last image. */
  lemma MemImage(s: State, n: nat)
    requires Shape(s) && Images(s) && HasNode(s, n)
    ensures ImageOk(s.hist.logs, s.nodes[n].mem)
  {
    hide ImageOk;
    var nd := s.nodes[n];
    assert NodeShape(nd) && NodeImages(s.hist.logs, nd);
    assert ImageOk(s.hist.logs, Image(nd, |nd.queue|));
  }
}
