/**
  Peer lists and memberships on the wire: a big-endian count, then for every
  peer a two-byte length, a role byte and the ID.
 */
module PeerCodec {

  import opened Wrappers
  import opened Bytes

  datatype Peer = Peer(id: Buf, voter: bool, isWitness: bool)

  function Flags(p: Peer): byte {
    (if p.voter then 1 else 0) + (if p.isWitness then 2 else 0)
  }

  function Roles(b: byte): (bool, bool) {
    (b % 2 == 1, (b / 2) % 2 == 1)
  }

  function EncodePeer(p: Peer): Buf {
    Be(|p.id|, 2) + [Flags(p)] + p.id
  }

  function EncodeAll(list: seq<Peer>): Buf {
    if list == [] then [] else EncodePeer(list[0]) + EncodeAll(list[1..])
  }

  function EncodePeers(list: seq<Peer>): Buf {
    Be(|list|, 4) + EncodeAll(list)
  }

  /** One peer from the front of the buffer, and the rest of it. */
  function DecodePeer(buf: Buf): Option<(Peer, Buf)> {
    if |buf| < 3 then None
    else
      var n := FromBe(buf[..2]);
      var (voter, isWitness) := Roles(buf[2]);
      if |buf| < 3 + n then None else Some((Peer(buf[3..3 + n], voter, isWitness), buf[3 + n..]))
  }

  function DecodeAll(n: nat, buf: Buf): Option<(seq<Peer>, Buf)> {
    if n == 0 then Some(([], buf))
    else
      match DecodePeer(buf)
      case None => None
      case Some((p, rest)) =>
        match DecodeAll(n - 1, rest)
        case None => None
        case Some((list, rest')) => Some(([p] + list, rest'))
  }

  function DecodePeers(buf: Buf): Option<(seq<Peer>, Buf)> {
    if |buf| < 4 then None else DecodeAll(FromBe(buf[..4]), buf[4..])
  }

  /** The lengths fit their fields. */
  predicate PeersInRange(list: seq<Peer>) {
    |list| < TWO_32 && forall i :: 0 <= i < |list| ==> |list[i].id| < TWO_16
  }

  lemma RolesBack(p: Peer)
    ensures Roles(Flags(p)) == (p.voter, p.isWitness)
  {
  }

  /** A peer comes back whole, with whatever followed it, when its ID's length fits; a longer ID comes back shorter. */
  lemma PeerRoundTrip(p: Peer, rest: Buf)
    ensures |p.id| < TWO_16 ==> DecodePeer(EncodePeer(p) + rest) == Some((p, rest))
    ensures |p.id| >= TWO_16 ==> DecodePeer(EncodePeer(p) + rest).Some? && DecodePeer(EncodePeer(p) + rest).value.0 != p
  {
    var buf := EncodePeer(p) + rest;
    assert buf[..2] == Be(|p.id|, 2) && buf[2] == Flags(p) && buf[3..] == p.id + rest;
    BeRoundTrip(|p.id|, 2);
    Widths();
    RolesBack(p);
    var n := FromBe(buf[..2]);
    assert buf[3..3 + n] == (p.id + rest)[..n] && buf[3 + n..] == (p.id + rest)[n..];
    if |p.id| < TWO_16 {
      assert (p.id + rest)[..n] == p.id && (p.id + rest)[n..] == rest;
    }
  }

  lemma {:induction false} AllRoundTrip(list: seq<Peer>, rest: Buf)
    requires forall i :: 0 <= i < |list| ==> |list[i].id| < TWO_16
    ensures DecodeAll(|list|, EncodeAll(list) + rest) == Some((list, rest))
    decreases |list|
  {
    if list == [] {
      assert EncodeAll(list) + rest == rest;
    } else {
      var more := EncodeAll(list[1..]) + rest;
      assert EncodeAll(list) + rest == EncodePeer(list[0]) + more;
      PeerRoundTrip(list[0], more);
      AllRoundTrip(list[1..], rest);
      assert [list[0]] + list[1..] == list;
    }
  }

  lemma {:induction false} LongIdLost(list: seq<Peer>, rest: Buf, i: nat)
    requires i < |list| && |list[i].id| >= TWO_16
    ensures var d := DecodeAll(|list|, EncodeAll(list) + rest); d.Some? ==> d.value.0 != list
    decreases |list|
  {
    var more := EncodeAll(list[1..]) + rest;
    assert EncodeAll(list) + rest == EncodePeer(list[0]) + more;
    PeerRoundTrip(list[0], more);
    if |list[0].id| < TWO_16 { LongIdLost(list[1..], rest, i - 1); }
  }

  lemma {:induction false} DecodedCount(n: nat, buf: Buf)
    ensures DecodeAll(n, buf).Some? ==> |DecodeAll(n, buf).value.0| == n
    decreases n
  {
    if n > 0 && DecodePeer(buf).Some? { DecodedCount(n - 1, DecodePeer(buf).value.1); }
  }

  /** A peer list comes back, with any bytes after it untouched, exactly when its lengths fit their fields. */
  lemma PeersRoundTrip(list: seq<Peer>, rest: Buf)
    ensures PeersInRange(list) ==> DecodePeers(EncodePeers(list) + rest) == Some((list, rest))
    ensures !PeersInRange(list) ==> var d := DecodePeers(EncodePeers(list) + rest); d.None? || d.value.0 != list
  {
    var buf := EncodePeers(list) + rest;
    assert buf[..4] == Be(|list|, 4) && buf[4..] == EncodeAll(list) + rest;
    BeRoundTrip(|list|, 4);
    Widths();
    if PeersInRange(list) {
      AllRoundTrip(list, rest);
    } else if |list| >= TWO_32 {
      DecodedCount(FromBe(buf[..4]), buf[4..]);
    } else {
      var i :| 0 <= i < |list| && |list[i].id| >= TWO_16;
      LongIdLost(list, rest, i);
    }
  }

  /** Every strict prefix is refused. */
  lemma PeerPrefix(p: Peer, k: nat)
    requires |p.id| < TWO_16 && k < |EncodePeer(p)|
    ensures DecodePeer(EncodePeer(p)[..k]) == None
  {
    if k >= 3 {
      var buf := EncodePeer(p)[..k];
      assert buf[..2] == Be(|p.id|, 2);
      BeRoundTrip(|p.id|, 2);
      Widths();
    }
  }

  lemma {:induction false} AllPrefix(list: seq<Peer>, k: nat)
    requires (forall i :: 0 <= i < |list| ==> |list[i].id| < TWO_16) && k < |EncodeAll(list)|
    ensures DecodeAll(|list|, EncodeAll(list)[..k]) == None
    decreases |list|
  {
    var first, more := EncodePeer(list[0]), EncodeAll(list[1..]);
    if k < |first| {
      assert EncodeAll(list)[..k] == first[..k];
      PeerPrefix(list[0], k);
    } else {
      assert EncodeAll(list)[..k] == first + more[..k - |first|];
      PeerRoundTrip(list[0], more[..k - |first|]);
      AllPrefix(list[1..], k - |first|);
    }
  }

  lemma PeersPrefix(list: seq<Peer>, k: nat)
    requires PeersInRange(list) && k < |EncodePeers(list)|
    ensures DecodePeers(EncodePeers(list)[..k]) == None
  {
    if k >= 4 {
      var buf := EncodePeers(list)[..k];
      assert buf[..4] == Be(|list|, 4) && buf[4..] == EncodeAll(list)[..k - 4];
      BeRoundTrip(|list|, 4);
      Widths();
      AllPrefix(list, k - 4);
    }
  }

  // ---- The loops ------------------------------------------------------------------

  method AppendPeerList(b: Buf, list: seq<Peer>) returns (out: Buf)
    ensures out == b + EncodePeers(list)
  {
    out := b + Be(|list|, 4);
    for i := 0 to |list|
      invariant out + EncodeAll(list[i..]) == b + EncodePeers(list)
    {
      assert list[i..][0] == list[i] && list[i..][1..] == list[i + 1..];
      ghost var before := out;
      out := out + Be(|list[i].id|, 2);
      out := out + [Flags(list[i])];
      out := out + list[i].id;
      assert out == before + EncodePeer(list[i]);
      assert out + EncodeAll(list[i + 1..]) == before + (EncodePeer(list[i]) + EncodeAll(list[i + 1..]));
    }
    assert list[|list|..] == [] && out + [] == out;
  }

  method DecodePeerList(input: Buf) returns (r: Option<(seq<Peer>, Buf)>)
    ensures r == DecodePeers(input)
  {
    if |input| < 4 { return None; }
    var n := FromBe(input[..4]);
    var buf := input[4..];
    var peers: seq<Peer> := [];
    assert DecodeAll(n, buf).Some? ==> [] + DecodeAll(n, buf).value.0 == DecodeAll(n, buf).value.0;
    for i := 0 to n
      invariant DecodePeers(input) == Prepended(peers, DecodeAll(n - i, buf))
    {
      if |buf| < 3 { return None; }
      var idLen := FromBe(buf[..2]);
      var (voter, isWitness) := Roles(buf[2]);
      if |buf| - 3 < idLen { return None; }
      ghost var more := DecodeAll(n - i - 1, buf[3 + idLen..]);
      var p := Peer(buf[3..3 + idLen], voter, isWitness);
      assert more.Some? ==> peers + ([p] + more.value.0) == peers + [p] + more.value.0;
      peers := peers + [p];
      buf := buf[3 + idLen..];
    }
    assert peers + [] == peers;
    return Some((peers, buf));
  }

  function Prepended(peers: seq<Peer>, d: Option<(seq<Peer>, Buf)>): Option<(seq<Peer>, Buf)> {
    if d.None? then None else Some((peers + d.value.0, d.value.1))
  }

  // ---- Memberships -----------------------------------------------------------------

  datatype Membership =
    | Simple(members: seq<Peer>, commitQuorum: nat)
    | Joint(old_: seq<Peer>, new_: seq<Peer>, commitQuorum: nat)

  const KIND_SIMPLE: byte := 0
  const KIND_JOINT: byte := 1

  function EncodeMembership(ms: Membership): Buf {
    (match ms
     case Simple(members, _) => [KIND_SIMPLE] + EncodePeers(members)
     case Joint(o, n, _) => [KIND_JOINT] + EncodePeers(o) + EncodePeers(n))
    + Be(ms.commitQuorum, 8)
  }

  /** The trailing quorum, 0 when the writer did not know the field, refused when it exceeds a signed integer. */
  function DecodeQuorum(rest: Buf): Option<nat> {
    if |rest| < 8 then Some(0)
    else if FromBe(rest[..8]) >= TWO_63 then None
    else Some(FromBe(rest[..8]))
  }

  function DecodeMembership(buf: Buf): Option<Membership> {
    if |buf| < 1 then None
    else if buf[0] == KIND_SIMPLE then
      match DecodePeers(buf[1..])
      case None => None
      case Some((members, rest)) =>
        var q := DecodeQuorum(rest);
        if q.None? then None else Some(Simple(members, q.value))
    else if buf[0] == KIND_JOINT then
      match DecodePeers(buf[1..])
      case None => None
      case Some((o, rest)) =>
        match DecodePeers(rest)
        case None => None
        case Some((n, rest')) =>
          var q := DecodeQuorum(rest');
          if q.None? then None else Some(Joint(o, n, q.value))
    else None
  }

  predicate MembershipInRange(ms: Membership) {
    ms.commitQuorum < TWO_63 &&
    match ms
    case Simple(members, _) => PeersInRange(members)
    case Joint(o, n, _) => PeersInRange(o) && PeersInRange(n)
  }

  lemma {:induction false} QuorumBack(q: nat)
    requires q < TWO_63
    ensures DecodeQuorum(Be(q, 8)) == Some(q)
  {
    Widths();
    BeRoundTrip(q, 8);
    assert Be(q, 8)[..8] == Be(q, 8);
  }

  lemma {:induction false} QuorumLost(q: nat)
    requires q >= TWO_63
    ensures DecodeQuorum(Be(q, 8)) != Some(q)
  {
    Widths();
    BeRoundTrip(q, 8);
    assert Be(q, 8)[..8] == Be(q, 8);
  }

  /** A membership, simple or joint, comes back with its quorum policy exactly when everything fits its field. */
  lemma MembershipRoundTrip(ms: Membership)
    ensures DecodeMembership(EncodeMembership(ms)) == Some(ms) <==> MembershipInRange(ms)
  {
    hide PeersInRange, EncodePeers, DecodePeers, DecodeQuorum;
    var buf, tail := EncodeMembership(ms), Be(ms.commitQuorum, 8);
    if ms.commitQuorum < TWO_63 { QuorumBack(ms.commitQuorum); } else { QuorumLost(ms.commitQuorum); }
    match ms
    case Simple(members, _) =>
      assert buf[1..] == EncodePeers(members) + tail;
      PeersRoundTrip(members, tail);
    case Joint(o, n, _) =>
      assert buf[1..] == EncodePeers(o) + (EncodePeers(n) + tail);
      PeersRoundTrip(o, EncodePeers(n) + tail);
      PeersRoundTrip(n, tail);
  }

  /** A cut inside the quorum field is taken for a membership written without one; any other cut is refused. */
  lemma MembershipPrefix(ms: Membership, k: nat)
    requires MembershipInRange(ms) && k < |EncodeMembership(ms)|
    ensures DecodeMembership(EncodeMembership(ms)[..k]) ==
            if k + 8 < |EncodeMembership(ms)| then None else Some(ms.(commitQuorum := 0))
  {
    hide PeersInRange, EncodePeers, DecodePeers;
    var all, tail := EncodeMembership(ms), Be(ms.commitQuorum, 8);
    var buf := all[..k];
    if k > 0 {
      match ms
      case Simple(members, _) =>
        assert all[1..] == EncodePeers(members) + tail;
        ListThenRest(members, tail, all[1..], k - 1);
        assert buf[1..] == all[1..][..k - 1];
      case Joint(o, n, _) =>
        var rest := EncodePeers(n) + tail;
        assert all[1..] == EncodePeers(o) + rest;
        ListThenRest(o, rest, all[1..], k - 1);
        assert buf[1..] == all[1..][..k - 1];
        if k - 1 >= |EncodePeers(o)| { ListThenRest(n, tail, rest, k - 1 - |EncodePeers(o)|); }
    }
  }

  /** A cut through a peer list and what follows it. */
  lemma ListThenRest(list: seq<Peer>, rest: Buf, all: Buf, k: nat)
    requires PeersInRange(list) && all == EncodePeers(list) + rest && k <= |all|
    ensures DecodePeers(all[..k]) == if k < |EncodePeers(list)| then None else Some((list, rest[..k - |EncodePeers(list)|]))
  {
    hide PeersInRange, EncodePeers, DecodePeers;
    var e := EncodePeers(list);
    if k < |e| {
      assert all[..k] == e[..k];
      PeersPrefix(list, k);
    } else {
      assert all[..k] == e + rest[..k - |e|];
      PeersRoundTrip(list, rest[..k - |e|]);
    }
  }

  // ---- Configuration entries -------------------------------------------------------

  const CONFIG_MAGIC: Buf := [0x00, 0x52, 0x61, 0x43]
  const OP_FINALISE: byte := 4
  const OP_JOINT: byte := 3

  predicate IsConfigEntry(cmd: Buf) {
    |cmd| >= 5 && cmd[..4] == CONFIG_MAGIC
  }

  function EncodeFinalise(members: seq<Peer>): Buf {
    CONFIG_MAGIC + [OP_FINALISE] + EncodePeers(members)
  }

  function DecodeFinalise(cmd: Buf): Option<seq<Peer>> {
    if !IsConfigEntry(cmd) || cmd[4] != OP_FINALISE then None
    else
      match DecodePeers(cmd[5..])
      case None => None
      case Some((members, _)) => Some(members)
  }

  function EncodeJoint(o: seq<Peer>, n: seq<Peer>): Buf {
    CONFIG_MAGIC + [OP_JOINT] + EncodePeers(o) + EncodePeers(n)
  }

  function DecodeJoint(cmd: Buf): Option<(seq<Peer>, seq<Peer>)> {
    if !IsConfigEntry(cmd) || cmd[4] != OP_JOINT then None
    else
      match DecodePeers(cmd[5..])
      case None => None
      case Some((o, rest)) =>
        match DecodePeers(rest)
        case None => None
        case Some((n, _)) => Some((o, n))
  }

  /** An entry that states a configuration outright gives back that configuration exactly when its IDs fit. */
  lemma FinaliseRoundTrip(members: seq<Peer>)
    ensures DecodeFinalise(EncodeFinalise(members)) == Some(members) <==> PeersInRange(members)
  {
    hide PeersInRange, EncodePeers, DecodePeers;
    var cmd := EncodeFinalise(members);
    assert cmd[..4] == CONFIG_MAGIC && cmd[5..] == EncodePeers(members) + [];
    PeersRoundTrip(members, []);
  }

  lemma JointRoundTrip(o: seq<Peer>, n: seq<Peer>)
    ensures DecodeJoint(EncodeJoint(o, n)) == Some((o, n)) <==> PeersInRange(o) && PeersInRange(n)
  {
    hide PeersInRange, EncodePeers, DecodePeers;
    var cmd := EncodeJoint(o, n);
    assert cmd[..4] == CONFIG_MAGIC && cmd[5..] == EncodePeers(o) + (EncodePeers(n) + []);
    PeersRoundTrip(o, EncodePeers(n) + []);
    PeersRoundTrip(n, []);
  }
}
