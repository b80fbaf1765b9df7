/**
  The formats byte by byte, and what a reader makes of files its own version
  would not write: the two older snapshot layouts, and files of other producers.
 */
module WireLaws {

  import opened Wrappers
  import opened Bytes
  import opened PeerCodec
  import opened SnapshotCodec

  lemma {:induction false} LeBack(s: Buf)
    ensures Le(FromLe(s), |s|) == s
    decreases |s|
  {
    if s != [] {
      LeBack(s[1..]);
      assert FromLe(s) % 256 == s[0] as nat && FromLe(s) / 256 == FromLe(s[1..]);
    }
  }

  lemma {:induction false} TwoBytes(v: nat)
    requires v < TWO_16
    ensures Be(v, 2) == [(v / 256) as byte, (v % 256) as byte] && Le(v, 2) == [(v % 256) as byte, (v / 256) as byte]
  {
    assert Be(v / 256, 1) == Be(v / 256 / 256, 0) + [(v / 256 % 256) as byte];
    assert Le(v / 256, 1) == [(v / 256 % 256) as byte] + Le(v / 256 / 256, 0);
  }

  /** A peer: its ID's length, big end first; bit 0 of the role byte for a voter, bit 1 for a witness; the ID. */
  lemma PeerLayout(p: Peer)
    requires |p.id| < TWO_16
    ensures EncodePeer(p) ==
      [(|p.id| / 256) as byte, (|p.id| % 256) as byte, if p.voter && p.isWitness then 3 else if p.isWitness then 2 else if p.voter then 1 else 0] + p.id
  {
    TwoBytes(|p.id|);
  }

  /** A membership: 0 for a simple one and 1 for a joint one, its list or lists with the old one first, and the quorum policy. */
  lemma MembershipLayout(ms: Membership)
    ensures EncodeMembership(ms) == match ms
      case Simple(m, q) => [0] + EncodePeers(m) + Be(q, 8)
      case Joint(o, n, q) => [1] + EncodePeers(o) + EncodePeers(n) + Be(q, 8)
  {
  }

  /** A once-only command: its marker, the client's ID with its length, the number, the command itself, little ends first. */
  lemma {:induction false} DedupLayout(client: Buf, seqNum: nat, payload: Buf)
    requires |client| < TWO_16
    ensures EncodeDedup(client, seqNum, payload) ==
      [0x00, 0x52, 0x61, 0x44, (|client| % 256) as byte, (|client| / 256) as byte] + client + Le(seqNum, 8) + payload
  {
    TwoBytes(|client|);
  }

  // ---- Snapshot frames ----------------------------------------------------------------

  /** The eight bytes a frame starts with, by the last digit of its marker. */
  function Marker(low: byte): Buf {
    [low, 0xD0, 0xEF, 0xBE, 0xAD, 0xDE, 0xFE, 0xCA]
  }

  lemma MarkerValue(low: byte)
    ensures FromLe(Marker(low)) == 0xCAFEDEAD_BEEFD000 + low as nat
  {
    HighBytes();
    var s, t: Buf, u: Buf := Marker(low), [0xD0, 0xEF, 0xBE, 0xAD, 0xDE, 0xFE, 0xCA], [0xEF, 0xBE, 0xAD, 0xDE, 0xFE, 0xCA];
    assert s[1..] == t && t[1..] == u && u[1..] == [0xBE, 0xAD, 0xDE, 0xFE, 0xCA];
    assert FromLe(u) == 0xEF + 256 * 0xCAFEDEADBE && FromLe(t) == 0xD0 + 256 * FromLe(u);
  }

  lemma HighBytes()
    ensures FromLe([0xBE, 0xAD, 0xDE, 0xFE, 0xCA]) == 0xCAFEDEADBE
  {
    var s: Buf := [0xBE, 0xAD, 0xDE, 0xFE, 0xCA];
    assert s[1..] == [0xAD, 0xDE, 0xFE, 0xCA];
    var t: Buf := [0xAD, 0xDE, 0xFE, 0xCA];
    assert t[1..] == [0xDE, 0xFE, 0xCA] && t[1..][1..] == [0xFE, 0xCA] && t[1..][1..][1..] == [0xCA] && [0xCA as byte][1..] == [];
    assert FromLe([0xCA]) == 0xCA && FromLe([0xFE, 0xCA]) == 0xCAFE && FromLe([0xDE, 0xFE, 0xCA]) == 0xCAFEDE;
  }

  /** A frame starts with the marker of the third layout. */
  lemma FrameLayout(table: seq<Record>, membership: Membership, cap: Option<nat>)
    ensures var t, m := EncodeTable(table), EncodeMembership(membership);
      WriteFrame(table, membership, cap) ==
        Marker(0x0F) + Le(|t|, 4) + Le(|m|, 4) + (if cap.Some? then Le(8, 4) else Le(0, 4)) + t + m + (if cap.Some? then Le(cap.value, 8) else [])
  {
    hide Le, FromLe, EncodeTable, EncodeMembership;
    MarkerValue(0x0F);
    LeBack(Marker(0x0F));
    assert Le(MAGIC_V3, 8) == Marker(0x0F);
  }

  /** Whatever wrote the limits: their first eight bytes are the bound, more is skipped, and too few or too large a bound is refused. */
  lemma SectionsRead(table: seq<Record>, ms: Option<Membership>, limits: Buf, sm: Buf)
    requires TableInRange(table) && (ms.Some? ==> MembershipInRange(ms.value))
    ensures var t, m := EncodeTable(table), if ms.Some? then EncodeMembership(ms.value) else [];
      ReadSections(|t|, |m|, |limits|, t + m + limits + sm) ==
        if limits == [] then Framed(Frame(table, ms, None), sm)
        else if |limits| < 8 || FromLe(limits[..8]) >= TWO_63 then Refused
        else Framed(Frame(table, ms, Some(FromLe(limits[..8]))), sm)
  {
    hide EncodeTable, EncodeMembership, DecodeTable, DecodeMembership, TableInRange, MembershipInRange, FromLe;
    var t, m := EncodeTable(table), if ms.Some? then EncodeMembership(ms.value) else [];
    var r := t + m + limits + sm;
    TableRoundTrip(table);
    if ms.Some? {
      MembershipRoundTrip(ms.value);
      MembershipNotEmpty(ms.value);
    }
    assert r[..|t|] == t && r[|t|..] == m + limits + sm;
    assert (m + limits + sm)[..|m|] == m && (m + limits + sm)[|m|..] == limits + sm;
    assert (limits + sm)[|limits|..] == sm;
    if |limits| >= 8 { assert (limits + sm)[..8] == limits[..8]; }
  }

  lemma {:induction false} FirstTwelve(low: byte, a: nat, rest: Buf)
    requires a < TWO_32
    ensures var r := Marker(low) + Le(a, 4) + rest;
      FromLe(r[..8]) == 0xCAFEDEAD_BEEFD000 + low as nat && FromLe(r[8..12]) == a && r[12..] == rest
  {
    hide FromLe, Le;
    var r := Marker(low) + Le(a, 4) + rest;
    assert r[..8] == Marker(low) && r[8..12] == Le(a, 4);
    MarkerValue(low);
    LeRoundTrip(a, 4);
    Widths();
  }

  /** The first layout: a table and nothing else. */
  lemma FirstLayoutRead(table: seq<Record>, sm: Buf)
    requires TableInRange(table) && |EncodeTable(table)| < TWO_32
    ensures ReadFrame(Marker(0x0D) + Le(|EncodeTable(table)|, 4) + EncodeTable(table) + sm) == Framed(Frame(table, None, None), sm)
  {
    hide EncodeTable, TableInRange, ReadSections, FromLe, Le;
    var t := EncodeTable(table);
    var r := Marker(0x0D) + Le(|t|, 4) + t + sm;
    assert r == Marker(0x0D) + Le(|t|, 4) + (t + sm);
    FirstTwelve(0x0D, |t|, t + sm);
    SectionsRead(table, None, [], sm);
    assert t + [] + [] + sm == t + sm;
  }

  /** The second layout: a table and a membership. */
  lemma SecondLayoutRead(table: seq<Record>, ms: Membership, sm: Buf)
    requires TableInRange(table) && MembershipInRange(ms) && |EncodeTable(table)| < TWO_32 && |EncodeMembership(ms)| < TWO_32
    ensures ReadFrame(Marker(0x0E) + Le(|EncodeTable(table)|, 4) + Le(|EncodeMembership(ms)|, 4) + EncodeTable(table) + EncodeMembership(ms) + sm)
      == Framed(Frame(table, Some(ms), None), sm)
  {
    hide EncodeTable, EncodeMembership, TableInRange, MembershipInRange, ReadSections, FromLe, Le;
    var t, m := EncodeTable(table), EncodeMembership(ms);
    var r, rest := Marker(0x0E) + Le(|t|, 4) + Le(|m|, 4) + t + m + sm, Le(|m|, 4) + (t + m + sm);
    assert r == Marker(0x0E) + Le(|t|, 4) + rest;
    FirstTwelve(0x0E, |t|, rest);
    assert r[12..16] == rest[..4] == Le(|m|, 4) && r[16..] == rest[4..] == t + m + sm;
    LeRoundTrip(|m|, 4);
    Widths();
    SectionsRead(table, Some(ms), [], sm);
    assert t + m + [] + sm == t + m + sm;
  }

  /** A file that starts with no marker is another producer's, and all of it is the state machine's. */
  lemma ForeignRead(r: Buf)
    requires |r| >= 12 && r[..8] != Marker(0x0D) && r[..8] != Marker(0x0E) && r[..8] != Marker(0x0F)
    ensures ReadFrame(r) == Foreign(r)
  {
    hide ReadSections, FromLe;
    LeBack(r[..8]);
    MarkerValue(0x0D); LeBack(Marker(0x0D));
    MarkerValue(0x0E); LeBack(Marker(0x0E));
    MarkerValue(0x0F); LeBack(Marker(0x0F));
  }
}
