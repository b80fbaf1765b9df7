/**
  What configuration entries mean to a tool that reads a stopped node's storage,
  stated on the bytes of the entries and on the lists of peers.
 */
module RecoveryLaws {

  import opened Wrappers
  import opened Bytes
  import opened PeerCodec
  import opened Recovery
  import opened Selection

  /** An entry that adds or removes one peer: magic, operation, roles, ID. */
  function OnePeer(op: byte, voter: bool, isWitness: bool, id: Buf): Buf {
    [0x00, 0x52, 0x61, 0x43, op, if voter && isWitness then 3 else if isWitness then 2 else if voter then 1 else 0] + id
  }

  /** A peer that is listed takes the new role where it stands; one that is not goes to the end. */
  ghost predicate PeerAdded(l: seq<Peer>, l': seq<Peer>, p: Peer) {
    if exists k :: 0 <= k < |l| && l[k].id == p.id then
      exists k :: 0 <= k < |l| && l[k].id == p.id && (forall j :: 0 <= j < k ==> l[j].id != p.id)
        && l' == l[k := Peer(p.id, p.voter, l[k].isWitness)]
    else l' == l + [p]
  }

  /** Nobody of that ID is left, and the others stay in order. */
  ghost predicate PeerRemoved(l: seq<Peer>, l': seq<Peer>, id: Buf) {
    Selects(l, l', (p: Peer) => p.id != id)
  }

  lemma UpsertAdds(l: seq<Peer>, p: Peer)
    ensures PeerAdded(l, Upsert(l, p), p)
  {
    hide IndexOfPeer;
    var i := IndexOfPeer(l, p.id);
    if i < |l| { assert Upsert(l, p) == l[i := Peer(p.id, p.voter, l[i].isWitness)]; }
  }

  lemma {:induction false} RemovedRemoves(l: seq<Peer>, id: Buf)
    ensures PeerRemoved(l, Removed(l, id), id)
    decreases |l|
  {
    hide Selects;
    var p: Peer -> bool := (p: Peer) => p.id != id;
    if l == [] {
      SelectsNone(p);
    } else {
      var n := |l| - 1;
      RemovedRemoves(l[..n], id);
      SelectsMore(l[..n], Removed(l[..n], id), p, l[n]);
      assert l == l[..n] + [l[n]];
    }
  }

  /** What the entry does to each list, both of them while a membership is joint; its shape and its quorum policy stay. */
  lemma AddEntry(ms: Membership, p: Peer)
    ensures var (ms', whole) := Adopted(ms, OnePeer(1, p.voter, p.isWitness, p.id));
      && !whole && ms'.commitQuorum == ms.commitQuorum
      && match ms
         case Simple(m, _) => ms'.Simple? && PeerAdded(m, ms'.members, p)
         case Joint(o, n, _) => ms'.Joint? && PeerAdded(o, ms'.old_, p) && PeerAdded(n, ms'.new_, p)
  {
    hide Upsert, PeerAdded;
    OnePeerParts(1, p.voter, p.isWitness, p.id);
    match ms
    case Simple(m, _) => UpsertAdds(m, p);
    case Joint(o, n, _) => UpsertAdds(o, p); UpsertAdds(n, p);
  }

  lemma RemoveEntry(ms: Membership, voter: bool, isWitness: bool, id: Buf)
    ensures var (ms', whole) := Adopted(ms, OnePeer(2, voter, isWitness, id));
      && !whole && ms'.commitQuorum == ms.commitQuorum
      && match ms
         case Simple(m, _) => ms'.Simple? && PeerRemoved(m, ms'.members, id)
         case Joint(o, n, _) => ms'.Joint? && PeerRemoved(o, ms'.old_, id) && PeerRemoved(n, ms'.new_, id)
  {
    hide Removed, PeerRemoved;
    OnePeerParts(2, voter, isWitness, id);
    match ms
    case Simple(m, _) => RemovedRemoves(m, id);
    case Joint(o, n, _) => RemovedRemoves(o, id); RemovedRemoves(n, id);
  }

  lemma OnePeerParts(op: byte, voter: bool, isWitness: bool, id: Buf)
    ensures var cmd := OnePeer(op, voter, isWitness, id);
      IsConfigEntry(cmd) && |cmd| >= 6 && cmd[4] == op && Roles(cmd[5]) == (voter, isWitness) && cmd[6..] == id
  {
    var cmd := OnePeer(op, voter, isWitness, id);
    assert cmd[..4] == [0x00, 0x52, 0x61, 0x43];
  }

  /** A joint entry: the membership in effect becomes the old side, whatever the entry says it was. */
  lemma JointEntry(ms: Membership, o: seq<Peer>, n: seq<Peer>)
    requires PeersInRange(o) && PeersInRange(n)
    ensures Adopted(ms, [0x00, 0x52, 0x61, 0x43, 3] + EncodePeers(o) + EncodePeers(n)) ==
      (Joint(match ms case Simple(m, _) => m case Joint(before, _, _) => before, n, 0), false)
  {
    hide PeersInRange, EncodePeers, DecodePeers;
    var cmd := [0x00, 0x52, 0x61, 0x43, 3] + EncodePeers(o) + EncodePeers(n);
    assert cmd == EncodeJoint(o, n) && cmd[..4] == CONFIG_MAGIC && |cmd| >= 6 by { PeersLong(o); PeersLong(n); }
    JointRoundTrip(o, n);
  }

  lemma PeersLong(l: seq<Peer>)
    ensures |EncodePeers(l)| >= 4
  {
  }

  /** The one entry that states a configuration outright. */
  lemma FinaliseEntry(ms: Membership, members: seq<Peer>)
    requires PeersInRange(members)
    ensures Adopted(ms, [0x00, 0x52, 0x61, 0x43, 4] + EncodePeers(members)) == (Simple(members, 0), true)
  {
    hide PeersInRange, EncodePeers, Adopted;
    assert EncodeFinalise(members) == [0x00, 0x52, 0x61, 0x43, 4] + EncodePeers(members);
    AdoptFinalise(ms, members);
  }

  /** Anything else leaves the membership alone: ordinary commands, and configuration entries about other things. */
  lemma OtherEntries(ms: Membership, cmd: Buf)
    requires |cmd| < 6 || cmd[..4] != [0x00, 0x52, 0x61, 0x43] || !(1 <= cmd[4] <= 4)
    ensures Adopted(ms, cmd) == (ms, false)
  {
  }

  // ---- The report ------------------------------------------------------------------

  /** What is read off storage before any entry: the snapshot's membership, and completeness only with one. */
  lemma InspectStart(d: Disk)
    requires d.entries == []
    ensures var i := Inspected(d);
      && i.complete == d.snapMembers.Some? && i.term == d.term && i.lastIndex == d.snapIndex && i.lastTerm == d.snapTerm
      && i.membership == match d.snapMembers case Some(ms) => ms case None => Simple([], 0)
  {
  }

  /** Proven committed: the snapshot, and the recorded index as far as the log reaches. */
  lemma KnownExactly(d: Disk)
    requires Sane(d)
    ensures var k := Inspected(d).known;
      && d.snapIndex <= k <= LastIndex(d) && (d.recorded.None? ==> k == d.snapIndex)
      && forall r :: d.recorded == Some(r) ==>
           && (d.snapIndex <= r <= LastIndex(d) ==> k == r)
           && (r > LastIndex(d) ==> k == LastIndex(d)) && (r < d.snapIndex ==> k == d.snapIndex)
  {
    hide Replayed;
    KnownIsHeld(d);
  }

  // ---- What recovery accepts ---------------------------------------------------------

  /** A membership in which this node, and nobody else, votes. */
  ghost predicate SoleVoter(self: Buf, members: seq<Peer>) {
    && self != [] && (forall p :: p in members ==> p.id != [])
    && (forall i, j :: 0 <= i < |members| && 0 <= j < |members| && members[i].id == members[j].id ==> i == j)
    && (exists p :: p in members && p.id == self && p.voter) && (forall p :: p in members && p.voter ==> p.id == self)
  }

  lemma MembersOkExactly(self: Buf, members: seq<Peer>)
    ensures MembersOk(self, members) <==> SoleVoter(self, members)
  {
    hide IndexOfPeer;
    var i := IndexOfPeer(members, self);
    if MembersOk(self, members) { assert members[i] in members; }
    if SoleVoter(self, members) {
      var p :| p in members && p.id == self && p.voter;
      var k :| 0 <= k < |members| && members[k] == p;
    }
  }

  /**
    Recovery goes ahead exactly when this node is to be the only voter, the
    operator claims no more than the log has, and a request to discard does not
    throw away a log of which nothing is proven committed.
   */
  lemma AcceptsExactly(d: Disk, self: Buf, members: seq<Peer>, o: Options)
    requires Sane(d)
    ensures Planned(d, self, members, o).Some? <==>
      && SoleVoter(self, members) && o.knownCommitted <= LastIndex(d)
      && !(o.discard && o.knownCommitted == 0 && Inspected(d).known == 0 && LastIndex(d) > 0)
  {
    hide Replayed, EncodeFinalise, MembersOk, SoleVoter;
    MembersOkExactly(self, members);
    KnownIsHeld(d);
  }

  /** The recovery term is the next one after every term the storage knows, and the vote in it is free. */
  lemma TermIsNext(d: Disk, self: Buf, members: seq<Peer>, o: Options)
    requires Sane(d) && Planned(d, self, members, o).Some?
    ensures var p := Planned(d, self, members, o).value;
      var d' := After(d, p, |p.writes|);
      && d'.vote == None && p.report.term > d.term && p.report.term > LastTerm(d)
      && (p.report.term == d.term + 1 || p.report.term == LastTerm(d) + 1)
  {
    hide EncodeFinalise, MembersOk, Sane;
    PlanSteps(d, self, members, o, |Planned(d, self, members, o).value.writes|);
  }
}
