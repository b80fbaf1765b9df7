/**
  Disaster recovery after permanent quorum loss: what a stopped node's storage
  proves, and the ordered writes that make it the only voter of a new cluster.
 */
module Recovery {

  import opened Wrappers
  import opened Bytes
  import opened PeerCodec

  datatype Entry = Entry(term: nat, cmd: Buf)

  /** A stopped node's storage. Entry number `i` of the log has index `first + i`; `recorded` is the kept commit index, if any. */
  datatype Disk = Disk(
    term: nat, vote: Option<nat>,
    snapIndex: nat, snapTerm: nat, snapMembers: Option<Membership>,
    first: nat, entries: seq<Entry>,
    recorded: Option<nat>)

  function LastIndex(d: Disk): nat {
    if d.entries == [] then d.snapIndex else d.first + |d.entries| - 1
  }

  function LastTerm(d: Disk): nat {
    if d.entries == [] then d.snapTerm else d.entries[|d.entries| - 1].term
  }

  function EntryAt(d: Disk, i: nat): Option<Entry> {
    if d.first <= i < d.first + |d.entries| then Some(d.entries[i - d.first]) else None
  }

  /** The log joins its snapshot, and terms never decrease. */
  ghost predicate Sane(d: Disk) {
    && (d.entries != [] ==> 0 < d.first <= d.snapIndex + 1 && d.snapIndex <= LastIndex(d))
    && (forall i, j :: 0 <= i <= j < |d.entries| ==> d.entries[i].term <= d.entries[j].term)
  }

  // ---- Inspection ---------------------------------------------------------------------

  const OP_ADD: byte := 1
  const OP_REMOVE: byte := 2

  function IndexOfPeer(list: seq<Peer>, id: Buf): (i: nat)
    ensures i <= |list| && (i < |list| ==> list[i].id == id) && forall k :: 0 <= k < i ==> list[k].id != id
  {
    if list == [] then 0
    else if list[0].id == id then 0
    else
      var r := IndexOfPeer(list[1..], id);
      assert forall k :: 1 <= k < 1 + r ==> list[k] == list[1..][k - 1];
      1 + r
  }

  function Upsert(list: seq<Peer>, p: Peer): seq<Peer> {
    var i := IndexOfPeer(list, p.id);
    if i < |list| then list[i := list[i].(voter := p.voter)] else list + [p]
  }

  function Removed(list: seq<Peer>, id: Buf): seq<Peer> {
    if list == [] then []
    else
      var rest := Removed(list[..|list| - 1], id);
      if list[|list| - 1].id == id then rest else rest + [list[|list| - 1]]
  }

  /** One configuration entry, and whether it stated a whole configuration. */
  function Adopted(ms: Membership, cmd: Buf): (Membership, bool) {
    if !IsConfigEntry(cmd) || |cmd| < 6 then (ms, false)
    else
      var (voter, isWitness) := Roles(cmd[5]);
      var peer := Peer(cmd[6..], voter, isWitness);
      if cmd[4] == OP_ADD then
        (match ms
         case Simple(m, q) => Simple(Upsert(m, peer), q)
         case Joint(o, n, q) => Joint(Upsert(o, peer), Upsert(n, peer), q), false)
      else if cmd[4] == OP_REMOVE then
        (match ms
         case Simple(m, q) => Simple(Removed(m, peer.id), q)
         case Joint(o, n, q) => Joint(Removed(o, peer.id), Removed(n, peer.id), q), false)
      else if cmd[4] == OP_JOINT then
        var d := DecodeJoint(cmd);
        if d.None? then (ms, false)
        else (Joint(if ms.Joint? then ms.old_ else ms.members, d.value.1, 0), false)
      else if cmd[4] == OP_FINALISE then
        var d := DecodeFinalise(cmd);
        if d.None? then (ms, false) else (Simple(d.value, 0), true)
      else (ms, false)
  }

  function Replayed(ms: Membership, complete: bool, entries: seq<Entry>): (Membership, bool) {
    if entries == [] then (ms, complete)
    else
      var (m, c) := Replayed(ms, complete, entries[..|entries| - 1]);
      var (m', whole) := Adopted(m, entries[|entries| - 1].cmd);
      (m', c || whole)
  }

  datatype Info = Info(term: nat, lastIndex: nat, lastTerm: nat, known: nat, membership: Membership, complete: bool)

  function KnownCommitted(d: Disk): nat {
    if d.recorded.None? then d.snapIndex
    else
      var top := if d.recorded.value > d.snapIndex then d.recorded.value else d.snapIndex;
      if top < LastIndex(d) then top else LastIndex(d)
  }

  function Inspected(d: Disk): Info {
    var (ms, complete) := Replayed(if d.snapMembers.Some? then d.snapMembers.value else Simple([], 0), d.snapMembers.Some?, d.entries);
    Info(d.term, LastIndex(d), LastTerm(d), KnownCommitted(d), ms, complete)
  }

  /** What storage proves committed is there to be kept. */
  lemma KnownIsHeld(d: Disk)
    requires Sane(d)
    ensures d.snapIndex <= KnownCommitted(d) <= LastIndex(d)
  {
  }

  // ---- Recovery -------------------------------------------------------------------------

  datatype Options = Options(knownCommitted: nat, discard: bool)

  /** Both bounds are 0 when there is no such band. */
  datatype Report = Report(term: nat, index: nat, floor: nat, promotedFrom: nat, promotedTo: nat, discardedFrom: nat, discardedTo: nat)

  datatype Write = SaveTerm(term: nat) | DropFrom(index: nat) | AppendEntry(index: nat, entry: Entry)

  datatype Plan = Plan(report: Report, writes: seq<Write>)

  predicate MembersOk(self: Buf, members: seq<Peer>) {
    && self != []
    && (forall i :: 0 <= i < |members| ==> members[i].id != [])
    && (forall i, j :: 0 <= i < j < |members| ==> members[i].id != members[j].id)
    && IndexOfPeer(members, self) < |members|
    && (forall i :: 0 <= i < |members| ==> (members[i].voter <==> members[i].id == self))
  }

  function Floor(d: Disk, o: Options): nat {
    if o.knownCommitted > KnownCommitted(d) then o.knownCommitted else KnownCommitted(d)
  }

  function RecoveryTerm(d: Disk): nat {
    (if d.term > LastTerm(d) then d.term else LastTerm(d)) + 1
  }

  /** The writes recovery makes, in order, or nothing when it refuses. */
  function Planned(d: Disk, self: Buf, members: seq<Peer>, o: Options): Option<Plan> {
    var floor, last, term := Floor(d, o), LastIndex(d), RecoveryTerm(d);
    if !MembersOk(self, members) || floor > last || (o.discard && floor == 0 && last > 0) then None
    else
      var tail := if o.discard then floor else last;
      var from, to := if last > floor then floor + 1 else 0, if last > floor then last else 0;
      var cut := if o.discard && last > floor then [DropFrom(floor + 1)] else [];
      Some(Plan(
        if o.discard then Report(term, tail + 1, floor, 0, 0, from, to) else Report(term, tail + 1, floor, from, to, 0, 0),
        [SaveTerm(term)] + cut + [AppendEntry(tail + 1, Entry(term, EncodeFinalise(members)))]))
  }

  function Written(d: Disk, w: Write): Disk {
    match w
    case SaveTerm(t) => d.(term := t, vote := None)
    case DropFrom(x) =>
      if x <= d.first then d.(entries := [], first := 0)
      else if x < d.first + |d.entries| then d.(entries := d.entries[..x - d.first]) else d
    case AppendEntry(i, e) => if d.entries == [] then d.(first := i, entries := [e]) else d.(entries := d.entries + [e])
  }

  function WrittenAll(d: Disk, ws: seq<Write>): Disk {
    if ws == [] then d else Written(WrittenAll(d, ws[..|ws| - 1]), ws[|ws| - 1])
  }

  // ---- What each write keeps -------------------------------------------------------------

  /** Everything up to `floor` is as it was. */
  ghost predicate KeptUpTo(d: Disk, d': Disk, floor: nat) {
    && d'.snapIndex == d.snapIndex && d'.snapTerm == d.snapTerm && d'.snapMembers == d.snapMembers && d'.recorded == d.recorded
    && forall i :: 0 <= i <= floor ==> EntryAt(d', i) == EntryAt(d, i)
  }

  lemma CutKeeps(d: Disk, floor: nat)
    requires Sane(d) && KnownCommitted(d) <= floor < LastIndex(d)
    ensures var d' := Written(d, DropFrom(floor + 1));
      && Sane(d') && LastIndex(d') == floor && KeptUpTo(d, d', floor)
      && (forall i :: i > floor ==> EntryAt(d', i) == None)
      && LastTerm(d') <= (if LastTerm(d) > d.snapTerm then LastTerm(d) else d.snapTerm) && d'.term == d.term
      && KnownCommitted(d') == KnownCommitted(d)
      && forall i :: 0 <= i < |d'.entries| ==> d'.entries[i].term <= LastTerm(d)
  {
    KnownIsHeld(d);
  }

  lemma AppendKeeps(d: Disk, e: Entry)
    requires Sane(d) && forall i :: 0 <= i < |d.entries| ==> d.entries[i].term <= e.term
    ensures var last := LastIndex(d); var d' := Written(d, AppendEntry(last + 1, e));
      && Sane(d') && LastIndex(d') == last + 1 && LastTerm(d') == e.term && EntryAt(d', last + 1) == Some(e)
      && KeptUpTo(d, d', last) && d'.entries == d.entries + [e] && d'.term == d.term
  {
  }

  // ---- What recovery leaves ------------------------------------------------------------

  /** Storage once the first `k` writes have been made. */
  function After(d: Disk, p: Plan, k: nat): Disk
    requires k <= |p.writes|
  {
    WrittenAll(d, p.writes[..k])
  }

  /** The storage the recovery entry is appended to. */
  function Prepared(d: Disk, o: Options): Disk {
    var d1 := Written(d, SaveTerm(RecoveryTerm(d)));
    if o.discard && LastIndex(d) > Floor(d, o) then Written(d1, DropFrom(Floor(d, o) + 1)) else d1
  }

  lemma TermKeeps(d: Disk, o: Options)
    requires Sane(d)
    ensures var d1 := Written(d, SaveTerm(RecoveryTerm(d)));
      && Sane(d1) && LastIndex(d1) == LastIndex(d) && LastTerm(d1) == LastTerm(d) && d1.term == RecoveryTerm(d)
      && KnownCommitted(d1) == KnownCommitted(d) && Floor(d1, o) == Floor(d, o)
      && KeptUpTo(d, d1, LastIndex(d)) && KeptUpTo(d, d1, Floor(d, o))
      && forall i :: 0 <= i < |d1.entries| ==> d1.entries[i].term < RecoveryTerm(d)
  {
  }

  lemma PreparedKeeps(d: Disk, self: Buf, members: seq<Peer>, o: Options)
    requires Sane(d) && Planned(d, self, members, o).Some?
    ensures var d2 := Prepared(d, o);
      && Sane(d2) && LastIndex(d2) == (if o.discard then Floor(d, o) else LastIndex(d)) && d2.term == RecoveryTerm(d)
      && KeptUpTo(d, d2, LastIndex(d2)) && KnownCommitted(d2) == KnownCommitted(d)
      && (forall i :: 0 <= i < |d2.entries| ==> d2.entries[i].term < RecoveryTerm(d))
  {
    hide MembersOk, EncodeFinalise, Written, Sane, EntryAt, LastTerm, KnownCommitted;
    var d1 := Written(d, SaveTerm(RecoveryTerm(d)));
    KnownIsHeld(d);
    TermKeeps(d, o);
    if o.discard && LastIndex(d) > Floor(d, o) {
      CutKeeps(d1, Floor(d, o));
    }
  }

  lemma {:induction false} PlanSteps(d: Disk, self: Buf, members: seq<Peer>, o: Options, k: nat)
    requires Planned(d, self, members, o).Some? && k <= |Planned(d, self, members, o).value.writes|
    ensures var p := Planned(d, self, members, o).value;
      && (k == 0 ==> After(d, p, k) == d)
      && (0 < k < |p.writes| ==> After(d, p, k) == Prepared(d, o) || After(d, p, k) == Written(d, SaveTerm(RecoveryTerm(d))))
      && (k == |p.writes| ==> After(d, p, k) == Written(Prepared(d, o), p.writes[|p.writes| - 1]))
  {
    hide Written, EncodeFinalise, MembersOk;
    var p := Planned(d, self, members, o).value;
    var n := |p.writes|;
    assert p.writes[..n] == p.writes && p.writes[..0] == [];
    assert p.writes[..1] == [SaveTerm(RecoveryTerm(d))] && [SaveTerm(RecoveryTerm(d))][..0] == [];
    assert WrittenAll(d, []) == d;
    assert After(d, p, 1) == Written(d, SaveTerm(RecoveryTerm(d)));
    if n == 3 {
      assert p.writes[..2][..1] == p.writes[..1] && p.writes[..2][1] == p.writes[1];
      assert After(d, p, 2) == Written(After(d, p, 1), p.writes[1]);
      assert p.writes[..3][..2] == p.writes[..2];
    } else {
      assert p.writes[..2][..1] == p.writes[..1];
    }
  }

  /** A finished recovery: nothing proven committed has changed, and the log ends in the new membership, above every term. */
  ghost predicate Recovered(d: Disk, d': Disk, r: Report, members: seq<Peer>, o: Options) {
    && KeptUpTo(d, d', r.floor) && Floor(d, o) == r.floor
    && LastIndex(d') == r.index && EntryAt(d', r.index) == Some(Entry(r.term, EncodeFinalise(members)))
    && d'.term == r.term > d.term
    && (forall i :: i != r.index && EntryAt(d', i).Some? ==> EntryAt(d', i).value.term < r.term)
    // the report names exactly the entries nobody could vouch for, and says what became of them
    && (if LastIndex(d) <= r.floor then r.promotedTo == r.discardedTo == 0
        else if o.discard then
          r.discardedFrom == r.floor + 1 && r.discardedTo == LastIndex(d) && r.promotedTo == 0 && r.index == r.floor + 1
        else
          r.promotedFrom == r.floor + 1 && r.promotedTo == LastIndex(d) && r.discardedTo == 0
          && KeptUpTo(d, d', LastIndex(d)) && r.index == LastIndex(d) + 1)
  }

  lemma {:induction false} RecoverySucceeds(d: Disk, self: Buf, members: seq<Peer>, o: Options)
    requires Sane(d) && Planned(d, self, members, o).Some?
    ensures var p := Planned(d, self, members, o).value;
      && Sane(After(d, p, |p.writes|)) && Recovered(d, After(d, p, |p.writes|), p.report, members, o)
  {
    hide EncodeFinalise, MembersOk, Written;
    var p := Planned(d, self, members, o).value;
    PlanSteps(d, self, members, o, |p.writes|);
    PreparedKeeps(d, self, members, o);
    var d2, e := Prepared(d, o), Entry(RecoveryTerm(d), EncodeFinalise(members));
    AppendKeeps(d2, e);
    var d3 := Written(d2, AppendEntry(LastIndex(d2) + 1, e));
    forall i | i != LastIndex(d3) && EntryAt(d3, i).Some? ensures EntryAt(d3, i).value.term < e.term {
      assert EntryAt(d3, i) == EntryAt(d2, i);
    }
  }

  lemma {:induction false} InspectAppended(d: Disk, e: Entry)
    requires Sane(d)
    ensures var d' := Written(d, AppendEntry(LastIndex(d) + 1, e));
      var (ms, whole) := Adopted(Inspected(d).membership, e.cmd);
      Inspected(d').membership == ms && Inspected(d').complete == (Inspected(d).complete || whole)
  {
    hide Adopted;
    assert (d.entries + [e])[..|d.entries|] == d.entries;
    assert [e][..0] == [];
  }

  lemma AdoptFinalise(ms: Membership, members: seq<Peer>)
    ensures var (after, whole) := Adopted(ms, EncodeFinalise(members));
      if PeersInRange(members) then after == Simple(members, 0) && whole
      else after == ms || after != Simple(members, 0)
  {
    hide PeersInRange, EncodeFinalise, DecodeFinalise;
    FinaliseRoundTrip(members);
    FinaliseShape(members);
  }

  /**
    Re-inspecting recovered storage returns exactly the new membership when the
    IDs fit their length fields, and otherwise does not, unless the storage
    already had that membership before.
   */
  lemma {:induction false} ReinspectionAgrees(d: Disk, self: Buf, members: seq<Peer>, o: Options)
    requires Sane(d) && Planned(d, self, members, o).Some?
    ensures var p := Planned(d, self, members, o).value;
      var info := Inspected(After(d, p, |p.writes|));
      && (PeersInRange(members) ==> info.membership == Simple(members, 0) && info.complete)
      && (!PeersInRange(members) && Inspected(Prepared(d, o)).membership != Simple(members, 0) ==> info.membership != Simple(members, 0))
  {
    hide MembersOk, Written, PeersInRange, EncodeFinalise, Inspected, Prepared;
    var p := Planned(d, self, members, o).value;
    PlanSteps(d, self, members, o, |p.writes|);
    PreparedKeeps(d, self, members, o);
    InspectAppended(Prepared(d, o), Entry(RecoveryTerm(d), EncodeFinalise(members)));
    AdoptFinalise(Inspected(Prepared(d, o)).membership, members);
  }

  lemma FinaliseShape(members: seq<Peer>)
    ensures var cmd := EncodeFinalise(members); IsConfigEntry(cmd) && |cmd| >= 6 && cmd[4] == OP_FINALISE
  {
    var cmd := EncodeFinalise(members);
    assert cmd[..4] == CONFIG_MAGIC;
  }

  // ---- A crash between two writes ----------------------------------------------------------

  /**
    After a crash before the last write, the same recovery is accepted again,
    works from the same floor, and ends as a recovery of the original storage:
    the floor's entries, the new membership last, above every term.
   */
  lemma {:induction false} RerunAfterCrash(d: Disk, self: Buf, members: seq<Peer>, o: Options, k: nat)
    requires Sane(d) && Planned(d, self, members, o).Some? && k < |Planned(d, self, members, o).value.writes|
    ensures var dk := After(d, Planned(d, self, members, o).value, k);
      && Sane(dk) && Planned(dk, self, members, o).Some?
      && var p := Planned(dk, self, members, o).value;
         p.report.floor == Floor(d, o) && KeptUpTo(d, After(dk, p, |p.writes|), Floor(d, o))
         && Recovered(dk, After(dk, p, |p.writes|), p.report, members, o)
  {
    hide EncodeFinalise, MembersOk, Recovered;
    PlanSteps(d, self, members, o, k);
    PreparedKeeps(d, self, members, o);
    KnownIsHeld(d);
    var dk := After(d, Planned(d, self, members, o).value, k);
    assert Sane(dk) && KnownCommitted(dk) == KnownCommitted(d) && KeptUpTo(d, dk, Floor(d, o)) && Floor(d, o) <= LastIndex(dk) <= LastIndex(d);
    assert Planned(dk, self, members, o).Some?;
    RecoverySucceeds(dk, self, members, o);
    KeptTwice(d, dk, After(dk, Planned(dk, self, members, o).value, |Planned(dk, self, members, o).value.writes|),
              Planned(dk, self, members, o).value.report, members, o);
  }

  lemma KeptTwice(d: Disk, dk: Disk, d': Disk, r: Report, members: seq<Peer>, o: Options)
    requires KeptUpTo(d, dk, Floor(dk, o)) && Recovered(dk, d', r, members, o)
    ensures KeptUpTo(d, d', Floor(dk, o))
  {
  }

  /** Once recovery has finished, running it again is refused exactly when it discards and nothing is proven committed. */
  lemma {:induction false} RerunAfterSuccess(d: Disk, self: Buf, members: seq<Peer>, o: Options)
    requires Sane(d) && Planned(d, self, members, o).Some?
    ensures var p := Planned(d, self, members, o).value;
      var d' := After(d, p, |p.writes|);
      && Sane(d') && Floor(d', o) >= Floor(d, o) && KeptUpTo(d, d', Floor(d, o))
      && (Planned(d', self, members, o).Some? <==> !(o.discard && Floor(d', o) == 0))
  {
    hide EncodeFinalise, MembersOk, Written, WrittenAll;
    RecoverySucceeds(d, self, members, o);
    KnownIsHeld(d);
  }

  /** Recovery attempted again and again: the `i`-th attempt gets `ks[i]` of its writes done. */
  ghost predicate Attempted(ds: seq<Disk>, self: Buf, members: seq<Peer>, o: Options, ks: seq<nat>) {
    |ds| == |ks| + 1 && forall i :: 0 <= i < |ks| ==> Attempt(ds[i], ds[i + 1], self, members, o, ks[i])
  }

  ghost predicate Attempt(d: Disk, d': Disk, self: Buf, members: seq<Peer>, o: Options, k: nat) {
    && Planned(d, self, members, o).Some? && k <= |Planned(d, self, members, o).value.writes|
    && d' == After(d, Planned(d, self, members, o).value, k)
  }

  ghost predicate CutShort(d: Disk, self: Buf, members: seq<Peer>, o: Options, k: nat) {
    Planned(d, self, members, o).Some? && k < |Planned(d, self, members, o).value.writes|
  }

  lemma {:induction false} AttemptKeeps(d: Disk, d': Disk, self: Buf, members: seq<Peer>, o: Options, k: nat)
    requires Sane(d) && Attempt(d, d', self, members, o, k)
    ensures Sane(d') && Floor(d', o) >= Floor(d, o) && KeptUpTo(d, d', Floor(d, o))
    ensures CutShort(d, self, members, o, k) ==> Planned(d', self, members, o).Some?
  {
    hide EncodeFinalise, MembersOk, Written, WrittenAll, Recovered;
    if CutShort(d, self, members, o, k) {
      RerunAfterCrash(d, self, members, o, k);
      PlanSteps(d, self, members, o, k);
      PreparedKeeps(d, self, members, o);
      KnownIsHeld(d);
      TermKeeps(d, o);
    } else {
      RerunAfterSuccess(d, self, members, o);
    }
  }

  /**
    After any number of attempts, cut short anywhere or finished, what the
    original storage proved committed is unchanged, an attempt that is accepted
    ends as a recovery, and one after attempts that were all cut short is
    accepted.
   */
  lemma {:induction false} RerunAfterCrashes(ds: seq<Disk>, self: Buf, members: seq<Peer>, o: Options, ks: seq<nat>, i: nat)
    requires Attempted(ds, self, members, o, ks) && Sane(ds[0]) && Planned(ds[0], self, members, o).Some? && i < |ds|
    ensures Sane(ds[i]) && Floor(ds[i], o) >= Floor(ds[0], o) && KeptUpTo(ds[0], ds[i], Floor(ds[0], o))
    ensures (forall j :: 0 <= j < i ==> CutShort(ds[j], self, members, o, ks[j])) ==> Planned(ds[i], self, members, o).Some?
    ensures Planned(ds[i], self, members, o).Some? ==>
      var p := Planned(ds[i], self, members, o).value;
      var d' := After(ds[i], p, |p.writes|);
      Recovered(ds[i], d', p.report, members, o) && KeptUpTo(ds[0], d', Floor(ds[0], o))
  {
    hide EncodeFinalise, MembersOk, Written, WrittenAll, Sane, Planned, Floor;
    if i > 0 {
      var j: nat := i - 1;
      RerunAfterCrashes(ds, self, members, o, ks, j);
      assert Attempt(ds[j], ds[i], self, members, o, ks[j]);
      AttemptKeeps(ds[j], ds[i], self, members, o, ks[j]);
    }
    if Planned(ds[i], self, members, o).Some? { RecoverySucceeds(ds[i], self, members, o); }
  }

  /** A crash after the cut loses the first report, and the second no longer names what was discarded. */
  lemma {:induction false} DiscardReportLost(d: Disk, self: Buf, members: seq<Peer>, o: Options, k: nat)
    requires Sane(d) && Planned(d, self, members, o).Some? && k < |Planned(d, self, members, o).value.writes|
    requires o.discard && LastIndex(d) > Floor(d, o)
    ensures var p := Planned(d, self, members, o).value;
      var dk := After(d, p, k);
      Planned(dk, self, members, o).Some? &&
      (Planned(dk, self, members, o).value.report.discardedTo == p.report.discardedTo <==> k < 2)
  {
    hide EncodeFinalise, MembersOk, Recovered;
    RerunAfterCrash(d, self, members, o, k);
    var p := Planned(d, self, members, o).value;
    assert |p.writes| == 3;
    CrashPoints(d, self, members, o);
    PreparedKeeps(d, self, members, o);
  }

  lemma {:induction false} CrashPoints(d: Disk, self: Buf, members: seq<Peer>, o: Options)
    requires Planned(d, self, members, o).Some? && o.discard && LastIndex(d) > Floor(d, o)
    ensures var p := Planned(d, self, members, o).value;
      |p.writes| == 3 && After(d, p, 0) == d && After(d, p, 1) == Written(d, SaveTerm(RecoveryTerm(d))) && After(d, p, 2) == Prepared(d, o)
  {
    hide Written, EncodeFinalise, MembersOk;
    var p := Planned(d, self, members, o).value;
    assert p.writes[..1] == [SaveTerm(RecoveryTerm(d))] && [SaveTerm(RecoveryTerm(d))][..0] == [];
    assert WrittenAll(d, []) == d && p.writes[..0] == [];
    assert p.writes[..2][..1] == p.writes[..1] && p.writes[..2][1] == p.writes[1];
  }

  // ---- The operations ----------------------------------------------------------------------

  /** Accepts exactly the memberships whose only voter is this node. */
  method ValidateMembers(self: Buf, members: seq<Peer>) returns (ok: bool)
    ensures ok <==> MembersOk(self, members)
  {
    if self == [] || |members| == 0 { return false; }
    var seen: set<Buf> := {};
    var voters := 0;
    ghost var who: seq<nat> := [];
    for i := 0 to |members|
      invariant forall k :: 0 <= k < i ==> members[k].id != []
      invariant forall j, k :: 0 <= j < k < i ==> members[j].id != members[k].id
      invariant forall x :: x in seen <==> exists k :: 0 <= k < i && members[k].id == x
      invariant |who| == voters && forall k :: 0 <= k < |who| ==> 0 <= who[k] < i && members[who[k]].voter
      invariant forall j, k :: 0 <= j < k < |who| ==> who[j] < who[k]
      invariant forall k :: 0 <= k < i && members[k].voter ==> k in who
    {
      if members[i].id == [] || members[i].id in seen { return false; }
      seen := seen + {members[i].id};
      if members[i].voter {
        voters := voters + 1;
        who := who + [i];
      }
    }
    var at := IndexOfPeer(members, self);
    if at == |members| || !members[at].voter { return false; }
    assert at in who;
    if voters > 1 {
      assert exists k :: 0 <= k < |members| && k != at && members[k].voter by {
        assert members[who[0]].voter && members[who[1]].voter && who[0] != who[1];
      }
      return false;
    }
    return true;
  }

  const BATCH := 1024

  class Store {
    var d: Disk

    constructor (d: Disk)
      ensures this.d == d
    {
      this.d := d;
    }

    /** Reads a stopped node's storage without changing it. */
    method Inspect() returns (info: Info)
      ensures info == Inspected(d)
    {
      var ms := if d.snapMembers.Some? then d.snapMembers.value else Simple([], 0);
      var complete := d.snapMembers.Some?;
      ghost var ms0, complete0 := ms, complete;
      var lo := 0;
      while lo < |d.entries|
        invariant 0 <= lo <= |d.entries| && (ms, complete) == Replayed(ms0, complete0, d.entries[..lo])
      {
        var hi := if lo + BATCH < |d.entries| then lo + BATCH else |d.entries|;
        for i := lo to hi
          invariant (ms, complete) == Replayed(ms0, complete0, d.entries[..i])
        {
          assert d.entries[..i + 1][..i] == d.entries[..i];
          var (ms', whole) := Adopted(ms, d.entries[i].cmd);
          ms, complete := ms', whole || complete;
        }
        lo := hi;
      }
      assert d.entries[..|d.entries|] == d.entries;
      return Info(d.term, LastIndex(d), LastTerm(d), KnownCommitted(d), ms, complete);
    }

    /** One write; it fails, changing nothing, once `budget` writes have been made. */
    method Write(w: Write, budget: nat) returns (ok: bool)
      modifies this
      ensures ok == (budget > 0) && d == if ok then Written(old(d), w) else old(d)
    {
      ok := budget > 0;
      if ok { d := Written(d, w); }
    }

    /**
      Hard state, then the cut if one was asked for, then the entry. Storage
      fails, or the machine stops, after `budget` writes.
     */
    method RecoverCluster(self: Buf, members: seq<Peer>, o: Options, budget: nat) returns (report: Option<Report>)
      modifies this
      ensures var p := Planned(old(d), self, members, o);
        if p.None? then report == None && d == old(d)
        else
          var k := if budget < |p.value.writes| then budget else |p.value.writes|;
          d == After(old(d), p.value, k) && report == if k == |p.value.writes| then Some(p.value.report) else None
    {
      hide Written, Replayed, MembersOk, EncodeFinalise, WrittenAll, Adopted;
      var valid := ValidateMembers(self, members);
      if !valid { return None; }
      var info := Inspect();
      var floor := if o.knownCommitted > info.known then o.knownCommitted else info.known;
      if floor > info.lastIndex { return None; }
      var tail := info.lastIndex;
      var r := Report(0, 0, floor, 0, 0, 0, 0);
      if o.discard {
        if floor == 0 && info.lastIndex > 0 { return None; }
        if info.lastIndex > floor { r := r.(discardedFrom := floor + 1, discardedTo := info.lastIndex); }
        tail := floor;
      } else if info.lastIndex > floor {
        r := r.(promotedFrom := floor + 1, promotedTo := info.lastIndex);
      }
      var term := (if info.term > info.lastTerm then info.term else info.lastTerm) + 1;
      r := r.(term := term, index := tail + 1);
      ghost var p := Planned(d, self, members, o).value;
      assert r == p.report;
      Stages(d, p);
      var ok := Write(SaveTerm(term), budget);
      if !ok { return None; }
      var left := budget - 1;
      if o.discard && info.lastIndex > floor {
        ok := Write(DropFrom(floor + 1), left);
        if !ok { return None; }
        left := left - 1;
      }
      ok := Write(AppendEntry(tail + 1, Entry(term, EncodeFinalise(members))), left);
      if !ok { return None; }
      return Some(r);
    }
  }

  lemma {:induction false} Stages(d: Disk, p: Plan)
    requires 2 <= |p.writes| <= 3
    ensures After(d, p, 0) == d && After(d, p, 1) == Written(d, p.writes[0]) && After(d, p, 2) == Written(After(d, p, 1), p.writes[1])
    ensures |p.writes| == 3 ==> After(d, p, 3) == Written(After(d, p, 2), p.writes[2])
  {
    hide Written;
    assert p.writes[..0] == [] && p.writes[..1][..0] == [] && p.writes[..2][..1] == p.writes[..1];
    if |p.writes| == 3 { assert p.writes[..3][..2] == p.writes[..2]; }
  }
}
