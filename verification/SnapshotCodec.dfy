/**
  The client table on the wire, the once-only command header, and the frame
  that wraps a snapshot: lengths first, then table, membership and limits, then
  the state machine's own bytes.
 */
module SnapshotCodec {

  import opened Wrappers
  import opened Bytes
  import opened PeerCodec

  datatype Record = Record(id: Buf, seqNum: nat, result: Buf)

  // ---- Client table ------------------------------------------------------------------

  function EncodeRecord(r: Record): Buf {
    Le(|r.id|, 2) + r.id + Le(r.seqNum, 8) + Le(|r.result|, 4) + r.result
  }

  function EncodeRecords(t: seq<Record>): Buf {
    if t == [] then [] else EncodeRecord(t[0]) + EncodeRecords(t[1..])
  }

  function EncodeTable(t: seq<Record>): Buf {
    Le(|t|, 4) + EncodeRecords(t)
  }

  function DecodeRecord(buf: Buf): Option<(Record, Buf)> {
    if |buf| < 2 then None
    else
      var n, b := FromLe(buf[..2]), buf[2..];
      if |b| < n + 12 then None else DecodeFields(b[..n], b[n..])
  }

  /** What follows the ID: the number, and the result with its length. */
  function DecodeFields(id: Buf, buf: Buf): Option<(Record, Buf)>
    requires |buf| >= 12
  {
    var seqNum, b := FromLe(buf[..8]), buf[8..];
    var m, c := FromLe(b[..4]), b[4..];
    if |c| < m then None else Some((Record(id, seqNum, c[..m]), c[m..]))
  }

  function DecodeRecords(n: nat, buf: Buf): Option<seq<Record>> {
    if n == 0 then Some([])
    else
      match DecodeRecord(buf)
      case None => None
      case Some((r, rest)) =>
        match DecodeRecords(n - 1, rest)
        case None => None
        case Some(t) => Some([r] + t)
  }

  /** Bytes after the last record are ignored. */
  function DecodeTable(buf: Buf): Option<seq<Record>> {
    if |buf| < 4 then None else DecodeRecords(FromLe(buf[..4]), buf[4..])
  }

  predicate RecordInRange(r: Record) {
    |r.id| < TWO_16 && r.seqNum < TWO_64 && |r.result| < TWO_32
  }

  predicate TableInRange(t: seq<Record>) {
    |t| < TWO_32 && forall i :: 0 <= i < |t| ==> RecordInRange(t[i])
  }

  lemma FieldsRoundTrip(r: Record, rest: Buf)
    requires RecordInRange(r)
    ensures DecodeFields(r.id, Le(r.seqNum, 8) + (Le(|r.result|, 4) + (r.result + rest))) == Some((r, rest))
  {
    Widths();
    LeRoundTrip(r.seqNum, 8);
    LeRoundTrip(|r.result|, 4);
    Front(r.result, rest);
    Front(Le(|r.result|, 4), r.result + rest);
    Front(Le(r.seqNum, 8), Le(|r.result|, 4) + (r.result + rest));
  }

  lemma RecordRoundTrip(r: Record, rest: Buf)
    requires RecordInRange(r)
    ensures DecodeRecord(EncodeRecord(r) + rest) == Some((r, rest))
  {
    hide DecodeFields;
    Widths();
    LeRoundTrip(|r.id|, 2);
    var fields := Le(r.seqNum, 8) + (Le(|r.result|, 4) + (r.result + rest));
    assert EncodeRecord(r) + rest == Le(|r.id|, 2) + (r.id + fields);
    Front(r.id, fields);
    Front(Le(|r.id|, 2), r.id + fields);
    FieldsRoundTrip(r, rest);
  }

  lemma {:induction false} RecordsRoundTrip(t: seq<Record>, rest: Buf)
    requires forall i :: 0 <= i < |t| ==> RecordInRange(t[i])
    ensures DecodeRecords(|t|, EncodeRecords(t) + rest) == Some(t)
    decreases |t|
  {
    hide EncodeRecord, DecodeRecord;
    if t != [] {
      var more := EncodeRecords(t[1..]) + rest;
      assert EncodeRecords(t) + rest == EncodeRecord(t[0]) + more;
      RecordRoundTrip(t[0], more);
      RecordsRoundTrip(t[1..], rest);
      assert [t[0]] + t[1..] == t;
    }
  }

  /** A record whose lengths or number do not fit is refused or comes back as another. */
  lemma RecordLost(r: Record, rest: Buf)
    requires !RecordInRange(r)
    ensures var d := DecodeRecord(EncodeRecord(r) + rest); d.None? || d.value.0 != r
  {
    Widths();
    LeRoundTrip(|r.id|, 2);
    var fields := Le(r.seqNum, 8) + (Le(|r.result|, 4) + (r.result + rest));
    assert EncodeRecord(r) + rest == Le(|r.id|, 2) + (r.id + fields);
    Front(Le(|r.id|, 2), r.id + fields);
    if |r.id| < TWO_16 {
      Front(r.id, fields);
      LeRoundTrip(r.seqNum, 8);
      LeRoundTrip(|r.result|, 4);
      Front(Le(r.seqNum, 8), Le(|r.result|, 4) + (r.result + rest));
      Front(Le(|r.result|, 4), r.result + rest);
    }
  }

  lemma {:induction false} RecordsLost(t: seq<Record>, rest: Buf, i: nat)
    requires i < |t| && !RecordInRange(t[i])
    ensures DecodeRecords(|t|, EncodeRecords(t) + rest) != Some(t)
    decreases |t|
  {
    hide EncodeRecord, DecodeRecord, RecordInRange;
    var more := EncodeRecords(t[1..]) + rest;
    assert EncodeRecords(t) + rest == EncodeRecord(t[0]) + more;
    if RecordInRange(t[0]) {
      RecordRoundTrip(t[0], more);
      RecordsLost(t[1..], rest, i - 1);
    } else {
      RecordLost(t[0], more);
    }
  }

  lemma {:induction false} RecordsCount(n: nat, buf: Buf)
    ensures DecodeRecords(n, buf).Some? ==> |DecodeRecords(n, buf).value| == n
    decreases n
  {
    hide DecodeRecord;
    if n > 0 && DecodeRecord(buf).Some? { RecordsCount(n - 1, DecodeRecord(buf).value.1); }
  }

  /** A client table comes back, order included, exactly when everything fits its field. */
  lemma TableRoundTrip(t: seq<Record>)
    ensures DecodeTable(EncodeTable(t)) == Some(t) <==> TableInRange(t)
  {
    hide RecordInRange;
    var buf := EncodeTable(t);
    Widths();
    LeRoundTrip(|t|, 4);
    assert buf[..4] == Le(|t|, 4) && buf[4..] == EncodeRecords(t) + [];
    if TableInRange(t) {
      RecordsRoundTrip(t, []);
    } else if |t| >= TWO_32 {
      RecordsCount(FromLe(buf[..4]), buf[4..]);
    } else {
      var i :| 0 <= i < |t| && !RecordInRange(t[i]);
      RecordsLost(t, [], i);
    }
  }

  lemma RecordPrefix(r: Record, k: nat)
    requires RecordInRange(r) && k < |EncodeRecord(r)|
    ensures DecodeRecord(EncodeRecord(r)[..k]) == None
  {
    Widths();
    LeRoundTrip(|r.id|, 2);
    LeRoundTrip(|r.result|, 4);
    var all, n := EncodeRecord(r), |r.id|;
    if k >= 2 {
      var buf := all[..k];
      assert buf[..2] == Le(n, 2);
      if k >= 14 + n { assert buf[2..][n..][8..][..4] == Le(|r.result|, 4); }
    }
  }

  lemma {:induction false} RecordsPrefix(t: seq<Record>, k: nat)
    requires (forall i :: 0 <= i < |t| ==> RecordInRange(t[i])) && k < |EncodeRecords(t)|
    ensures DecodeRecords(|t|, EncodeRecords(t)[..k]) == None
    decreases |t|
  {
    hide EncodeRecord, DecodeRecord, RecordInRange;
    var first, more := EncodeRecord(t[0]), EncodeRecords(t[1..]);
    if k < |first| {
      assert EncodeRecords(t)[..k] == first[..k];
      RecordPrefix(t[0], k);
    } else {
      CutFront(first, more, k);
      RecordRoundTrip(t[0], more[..k - |first|]);
      RecordsPrefix(t[1..], k - |first|);
    }
  }

  /** Every strict prefix of a client table is refused. */
  lemma TablePrefix(t: seq<Record>, k: nat)
    requires TableInRange(t) && k < |EncodeTable(t)|
    ensures DecodeTable(EncodeTable(t)[..k]) == None
  {
    hide RecordInRange, EncodeRecords, DecodeRecords, Le, FromLe;
    if k >= 4 {
      CutFront(Le(|t|, 4), EncodeRecords(t), k);
      LeRoundTrip(|t|, 4);
      Widths();
      RecordsPrefix(t, k - 4);
    }
  }

  method DecodeOne(buf: Buf) returns (r: Option<(Record, Buf)>)
    ensures r == DecodeRecord(buf)
  {
    hide FromLe;
    if |buf| < 2 { return None; }
    var idLen := FromLe(buf[..2]);
    var b := buf[2..];
    if |b| < idLen + 12 { return None; }
    var id := b[..idLen];
    b := b[idLen..];
    var seqNum := FromLe(b[..8]);
    b := b[8..];
    var resLen := FromLe(b[..4]);
    b := b[4..];
    if |b| < resLen { return None; }
    return Some((Record(id, seqNum, b[..resLen]), b[resLen..]));
  }

  method DecodeClientTable(input: Buf) returns (r: Option<seq<Record>>)
    ensures r == DecodeTable(input)
  {
    hide FromLe, DecodeRecord;
    if |input| < 4 { return None; }
    var n := FromLe(input[..4]);
    var buf := input[4..];
    var table: seq<Record> := [];
    assert DecodeRecords(n, buf).Some? ==> [] + DecodeRecords(n, buf).value == DecodeRecords(n, buf).value;
    for i := 0 to n
      invariant DecodeTable(input) == (match DecodeRecords(n - i, buf) case None => None case Some(t) => Some(table + t))
    {
      var one := DecodeOne(buf);
      if one.None? { return None; }
      ghost var more := DecodeRecords(n - i - 1, one.value.1);
      assert more.Some? ==> table + ([one.value.0] + more.value) == table + [one.value.0] + more.value;
      table := table + [one.value.0];
      buf := one.value.1;
    }
    assert table + [] == table;
    return Some(table);
  }

  method EncodeClientTable(t: seq<Record>) returns (out: Buf)
    ensures out == EncodeTable(t)
  {
    hide EncodeRecord;
    out := Le(|t|, 4);
    assert t[0..] == t;
    for i := 0 to |t|
      invariant out + EncodeRecords(t[i..]) == EncodeTable(t)
    {
      assert t[i..][0] == t[i] && t[i..][1..] == t[i + 1..];
      assert out + (EncodeRecord(t[i]) + EncodeRecords(t[i + 1..])) == out + EncodeRecord(t[i]) + EncodeRecords(t[i + 1..]);
      out := out + EncodeRecord(t[i]);
    }
    assert t[|t|..] == [] && out + [] == out;
  }

  // ---- Once-only commands ---------------------------------------------------------------

  const DEDUP_MAGIC: Buf := [0x00, 0x52, 0x61, 0x44]

  predicate IsDedup(cmd: Buf) {
    |cmd| >= 4 && cmd[..4] == DEDUP_MAGIC
  }

  function EncodeDedup(client: Buf, seqNum: nat, payload: Buf): Buf {
    DEDUP_MAGIC + Le(|client|, 2) + client + Le(seqNum, 8) + payload
  }

  function DecodeDedup(cmd: Buf): Option<(Buf, nat, Buf)> {
    if |cmd| < 14 then None
    else
      var n := FromLe(cmd[4..6]);
      if 6 + n + 8 > |cmd| then None
      else Some((cmd[6..6 + n], FromLe(cmd[6 + n..14 + n]), cmd[14 + n..]))
  }

  /** A once-only command is recognised, is no configuration entry, and gives back client, number and payload exactly when they fit. */
  lemma DedupRoundTrip(client: Buf, seqNum: nat, payload: Buf)
    ensures var cmd := EncodeDedup(client, seqNum, payload);
      && IsDedup(cmd) && !IsConfigEntry(cmd)
      && (DecodeDedup(cmd) == Some((client, seqNum, payload)) <==> |client| < TWO_16 && seqNum < TWO_64)
  {
    var cmd := EncodeDedup(client, seqNum, payload);
    Widths();
    LeRoundTrip(|client|, 2);
    LeRoundTrip(seqNum, 8);
    var n := |client|;
    assert cmd[..4] == DEDUP_MAGIC && cmd[3] == 0x44 && cmd[4..6] == Le(n, 2);
    if n < TWO_16 {
      assert cmd[6..6 + n] == client && cmd[6 + n..14 + n] == Le(seqNum, 8) && cmd[14 + n..] == payload;
    }
    assert CONFIG_MAGIC[3] == 0x43 && cmd[..4][3] == cmd[3];
  }

  /** A cut anywhere in the header is refused. */
  lemma DedupPrefix(client: Buf, seqNum: nat, payload: Buf, k: nat)
    requires |client| < TWO_16 && k < 14 + |client|
    ensures k <= |EncodeDedup(client, seqNum, payload)| && DecodeDedup(EncodeDedup(client, seqNum, payload)[..k]) == None
  {
    if k >= 14 {
      var cmd := EncodeDedup(client, seqNum, payload)[..k];
      Widths();
      LeRoundTrip(|client|, 2);
      assert cmd[4..6] == Le(|client|, 2);
    }
  }

  // ---- Frames ----------------------------------------------------------------------------

  const MAGIC_V1: nat := 0xCAFEDEAD_BEEFD00D
  const MAGIC_V2: nat := 0xCAFEDEAD_BEEFD00E
  const MAGIC_V3: nat := 0xCAFEDEAD_BEEFD00F

  /** What a snapshot carries besides the state machine. */
  datatype Frame = Frame(table: seq<Record>, membership: Option<Membership>, cap: Option<nat>)

  /** A frame, nothing usable, or bytes another producer wrote, which are all state-machine data. */
  datatype Read = Framed(frame: Frame, rest: Buf) | Refused | Foreign(rest: Buf)

  function Limits(cap: Option<nat>): Buf {
    if cap.Some? then Le(cap.value, 8) else []
  }

  function Header(magic: nat, a: nat, b: nat, c: nat): Buf {
    Le(magic, 8) + Le(a, 4) + Le(b, 4) + Le(c, 4)
  }

  function WriteFrame(table: seq<Record>, membership: Membership, cap: Option<nat>): Buf {
    var t, m, l := EncodeTable(table), EncodeMembership(membership), Limits(cap);
    Header(MAGIC_V3, |t|, |m|, |l|) + t + m + l
  }

  /** The sections after the header, whose lengths it gave. */
  function ReadSections(tableLen: nat, membershipLen: nat, limitsLen: nat, r: Buf): Read {
    if |r| < tableLen then Refused
    else
      var table := DecodeTable(r[..tableLen]);
      var r1 := r[tableLen..];
      if table.None? || |r1| < membershipLen then Refused
      else
        var ms := if membershipLen > 0 then DecodeMembership(r1[..membershipLen]) else None;
        var r2 := r1[membershipLen..];
        if (membershipLen > 0 && ms.None?) || |r2| < limitsLen || 0 < limitsLen < 8 then Refused
        else if limitsLen > 0 && FromLe(r2[..8]) >= TWO_63 then Refused
        else
          Framed(Frame(table.value, ms, if limitsLen > 0 then Some(FromLe(r2[..8])) else None), r2[limitsLen..])
  }

  /** Frames of all three layouts: the first had no membership, the first two no limits. */
  function ReadFrame(r: Buf): Read {
    if |r| < 12 then Refused
    else
      var magic, tableLen := FromLe(r[..8]), FromLe(r[8..12]);
      if magic == MAGIC_V1 then ReadSections(tableLen, 0, 0, r[12..])
      else if magic == MAGIC_V2 then
        if |r| < 16 then Refused else ReadSections(tableLen, FromLe(r[12..16]), 0, r[16..])
      else if magic == MAGIC_V3 then
        if |r| < 20 then Refused else ReadSections(tableLen, FromLe(r[12..16]), FromLe(r[16..20]), r[20..])
      else Foreign(r)
  }

  predicate FrameInRange(table: seq<Record>, membership: Membership, cap: Option<nat>) {
    && TableInRange(table) && MembershipInRange(membership) && (cap.Some? ==> cap.value < TWO_63)
    && |EncodeTable(table)| < TWO_32 && |EncodeMembership(membership)| < TWO_32
  }

  lemma SectionsBack(table: seq<Record>, membership: Membership, cap: Option<nat>, sm: Buf)
    requires FrameInRange(table, membership, cap)
    ensures var t, m, l := EncodeTable(table), EncodeMembership(membership), Limits(cap);
      ReadSections(|t|, |m|, |l|, t + m + l + sm) == Framed(Frame(table, Some(membership), cap), sm)
  {
    hide EncodeTable, EncodeMembership, DecodeTable, DecodeMembership, TableInRange, MembershipInRange;
    var t, m, l := EncodeTable(table), EncodeMembership(membership), Limits(cap);
    var r := t + m + l + sm;
    TableRoundTrip(table);
    MembershipRoundTrip(membership);
    assert |m| > 0 by { MembershipNotEmpty(membership); }
    assert r[..|t|] == t && r[|t|..] == m + l + sm;
    assert (m + l + sm)[..|m|] == m && (m + l + sm)[|m|..] == l + sm;
    assert (l + sm)[|l|..] == sm;
    if cap.Some? {
      Widths();
      LeRoundTrip(cap.value, 8);
      assert (l + sm)[..8] == l;
    }
  }

  lemma MembershipNotEmpty(ms: Membership)
    ensures |EncodeMembership(ms)| > 0
  {
  }

  lemma HeaderBack(a: nat, b: nat, c: nat, rest: Buf)
    requires a < TWO_32 && b < TWO_32 && c < TWO_32
    ensures var r := Header(MAGIC_V3, a, b, c) + rest;
      && |r| == 20 + |rest| && FromLe(r[..8]) == MAGIC_V3 && FromLe(r[8..12]) == a && FromLe(r[12..16]) == b && FromLe(r[16..20]) == c
      && r[20..] == rest
  {
    hide Le, FromLe, Pow256;
    Widths();
    LeRoundTrip(MAGIC_V3, 8);
    LeRoundTrip(a, 4);
    LeRoundTrip(b, 4);
    LeRoundTrip(c, 4);
    var r3 := Le(c, 4) + rest;
    var r2 := Le(b, 4) + r3;
    var r1 := Le(a, 4) + r2;
    var r := Header(MAGIC_V3, a, b, c) + rest;
    assert r == Le(MAGIC_V3, 8) + r1;
    Front(Le(MAGIC_V3, 8), r1);
    Front(Le(a, 4), r2);
    Front(Le(b, 4), r3);
    Front(Le(c, 4), rest);
    assert r[8..] == r1 && r[8..12] == r1[..4] && r[12..] == r2 && r[12..16] == r2[..4] && r[16..] == r3 && r[16..20] == r3[..4];
  }

  /** Reading a written snapshot gives back table, membership, policy and bound, with the reader at the state machine's bytes. */
  lemma FrameRoundTrip(table: seq<Record>, membership: Membership, cap: Option<nat>, sm: Buf)
    requires FrameInRange(table, membership, cap)
    ensures ReadFrame(WriteFrame(table, membership, cap) + sm) == Framed(Frame(table, Some(membership), cap), sm)
  {
    hide EncodeTable, EncodeMembership, ReadSections, Header, TableInRange, MembershipInRange;
    var t, m, l := EncodeTable(table), EncodeMembership(membership), Limits(cap);
    assert WriteFrame(table, membership, cap) + sm == Header(MAGIC_V3, |t|, |m|, |l|) + (t + m + l + sm);
    HeaderBack(|t|, |m|, |l|, t + m + l + sm);
    SectionsBack(table, membership, cap, sm);
  }

  /** A file cut off anywhere inside the framing is refused. */
  lemma FramePrefix(table: seq<Record>, membership: Membership, cap: Option<nat>, k: nat)
    requires FrameInRange(table, membership, cap) && k < |WriteFrame(table, membership, cap)|
    ensures ReadFrame(WriteFrame(table, membership, cap)[..k]) == Refused
  {
    hide EncodeTable, EncodeMembership, DecodeTable, DecodeMembership, Header, TableInRange, MembershipInRange;
    var t, m, l := EncodeTable(table), EncodeMembership(membership), Limits(cap);
    var whole := WriteFrame(table, membership, cap);
    var body := t + m + l;
    assert whole == Header(MAGIC_V3, |t|, |m|, |l|) + body;
    HeaderBack(|t|, |m|, |l|, body);
    var r := whole[..k];
    if k >= 12 {
      assert r[..8] == whole[..8] && r[8..12] == whole[8..12];
      assert MAGIC_V3 != MAGIC_V1 && MAGIC_V3 != MAGIC_V2;
      if k >= 20 {
        assert r[12..16] == whole[12..16] && r[16..20] == whole[16..20] && r[20..] == body[..k - 20];
      }
    }
  }
}
