/**
  The loops that count acknowledgements against a peer list, and what the sets
  of voters they accept have in common.
 */
module Counting {

  import opened Quorum

  type Id = nat
  type Zone = nat

  datatype Peer = Peer(id: Id, voter: bool, isWitness: bool)

  /** A peer list names every peer once and never the local node. */
  predicate Listed(members: seq<Peer>, self: Id) {
    && (forall i :: 0 <= i < |members| ==> members[i].id != self)
    && forall i, j :: 0 <= i < j < |members| ==> members[i].id != members[j].id
  }

  ghost function Ids(members: seq<Peer>, pick: Peer -> bool): set<Id> {
    set p | p in members && pick(p) :: p.id
  }

  function Tally(b: bool): nat {
    if b then 1 else 0
  }

  lemma IdsMore(members: seq<Peer>, self: Id, pick: Peer -> bool, i: nat)
    requires Listed(members, self) && i < |members|
    ensures |Ids(members[..i + 1], pick)| == |Ids(members[..i], pick)| + Tally(pick(members[i]))
  {
    var a, p := Ids(members[..i], pick), members[i];
    assert members[..i + 1] == members[..i] + [p];
    assert Ids(members[..i + 1], pick) == if pick(p) then a + {p.id} else a;
    assert p.id !in a;
  }

  /** A picked set of members, and the local node when it counts. */
  ghost function WithSelf(ids: set<Id>, self: Id, selfCounts: bool): set<Id> {
    if selfCounts then ids + {self} else ids
  }

  lemma WithSelfSize(members: seq<Peer>, pick: Peer -> bool, self: Id, selfCounts: bool)
    requires Listed(members, self)
    ensures |WithSelf(Ids(members, pick), self, selfCounts)| == |Ids(members, pick)| + Tally(selfCounts)
  {
    assert self !in Ids(members, pick);
  }

  ghost function VoterSet(members: seq<Peer>, self: Id, selfCounts: bool): set<Id> {
    WithSelf(Ids(members, (p: Peer) => p.voter), self, selfCounts)
  }

  /** The voters a leader or candidate has behind it: those that answered, and itself if it counts. */
  ghost function Behind(members: seq<Peer>, self: Id, selfCounts: bool, acks: set<Id>): set<Id> {
    WithSelf(Ids(members, (p: Peer) => p.voter && p.id in acks), self, selfCounts)
  }

  method CountVoters(members: seq<Peer>, self: Id, selfCounts: bool) returns (total: nat)
    requires Listed(members, self)
    ensures total == |VoterSet(members, self, selfCounts)|
  {
    ghost var pick := (p: Peer) => p.voter;
    total := 0;
    for i := 0 to |members|
      invariant total == |Ids(members[..i], pick)|
    {
      IdsMore(members, self, pick, i);
      if members[i].voter { total := total + 1; }
    }
    assert members[..|members|] == members;
    WithSelfSize(members, pick, self, selfCounts);
    if selfCounts { total := total + 1; }
  }

  /** True exactly when the voters that answered are enough of the voters there are. */
  method HasQuorumAck(kind: Kind, applied: int, latest: int, acks: set<Id>, members: seq<Peer>,
                      self: Id, includeSelf: bool, selfVoter: bool) returns (yes: bool)
    requires Listed(members, self)
    ensures var counts := includeSelf && selfVoter;
      yes <==> |Behind(members, self, counts, acks)| >= QuorumNeeded(kind, applied, latest, |VoterSet(members, self, counts)|)
  {
    ghost var pick := (p: Peer) => p.voter && p.id in acks;
    var count := 0;
    if includeSelf && selfVoter { count := 1; }
    for i := 0 to |members|
      invariant count == Tally(includeSelf && selfVoter) + |Ids(members[..i], pick)|
    {
      IdsMore(members, self, pick, i);
      if members[i].voter && members[i].id in acks { count := count + 1; }
    }
    assert members[..|members|] == members;
    WithSelfSize(members, pick, self, includeSelf && selfVoter);
    var total := CountVoters(members, self, includeSelf && selfVoter);
    return count >= QuorumNeeded(kind, applied, latest, total);
  }

  // ---- Replication ------------------------------------------------------------

  function MatchOf(matchIndex: map<Id, nat>, p: Id): nat {
    if p in matchIndex then matchIndex[p] else 0
  }

  /** The voters known to hold `idx`, witnesses included or not, and the leader if its own disk does. */
  ghost function Holders(members: seq<Peer>, self: Id, selfHolds: bool, matchIndex: map<Id, nat>, idx: nat, witnesses: bool): set<Id> {
    WithSelf(Ids(members, (p: Peer) => p.voter && (witnesses || !p.isWitness) && MatchOf(matchIndex, p.id) >= idx), self, selfHolds)
  }

  predicate Missing(p: Peer, matchIndex: map<Id, nat>, down: set<Id>, idx: nat) {
    p.voter && !p.isWitness && MatchOf(matchIndex, p.id) < idx && p.id in down
  }

  /** A full voter that lacks the entry has stopped answering. */
  predicate FullVoterDown(members: seq<Peer>, matchIndex: map<Id, nat>, down: set<Id>, idx: nat) {
    exists p :: p in members && Missing(p, matchIndex, down, idx)
  }

  method CountReplicas(members: seq<Peer>, self: Id, matchIndex: map<Id, nat>, down: set<Id>, idx: nat)
    returns (full: nat, witnesses: nat, fullDown: bool)
    requires Listed(members, self)
    ensures full == |Holders(members, self, false, matchIndex, idx, false)|
    ensures full + witnesses == |Holders(members, self, false, matchIndex, idx, true)|
    ensures fullDown <==> FullVoterDown(members, matchIndex, down, idx)
  {
    ghost var isFull := (p: Peer) => p.voter && (false || !p.isWitness) && MatchOf(matchIndex, p.id) >= idx;
    ghost var isAny := (p: Peer) => p.voter && (true || !p.isWitness) && MatchOf(matchIndex, p.id) >= idx;
    full, witnesses, fullDown := 0, 0, false;
    for i := 0 to |members|
      invariant full == |Ids(members[..i], isFull)| && full + witnesses == |Ids(members[..i], isAny)|
      invariant fullDown <==> FullVoterDown(members[..i], matchIndex, down, idx)
    {
      IdsMore(members, self, isFull, i);
      IdsMore(members, self, isAny, i);
      DownMore(members, matchIndex, down, idx, i);
      var p := members[i];
      if !p.voter {
      } else if p.isWitness {
        if MatchOf(matchIndex, p.id) >= idx { witnesses := witnesses + 1; }
      } else if MatchOf(matchIndex, p.id) >= idx {
        full := full + 1;
      } else if p.id in down {
        fullDown := true;
      }
    }
    assert members[..|members|] == members;
  }

  lemma DownMore(members: seq<Peer>, matchIndex: map<Id, nat>, down: set<Id>, idx: nat, i: nat)
    requires i < |members|
    ensures FullVoterDown(members[..i + 1], matchIndex, down, idx) <==>
            FullVoterDown(members[..i], matchIndex, down, idx) || Missing(members[i], matchIndex, down, idx)
  {
    assert members[..i + 1] == members[..i] + [members[i]];
  }

  /** The failure domains of the voters known to hold `idx`. */
  ghost function ZonesOf(holders: set<Id>, zones: map<Id, Zone>): set<Zone> {
    set p | p in holders && p in zones :: zones[p]
  }

  method SpansEnoughZones(members: seq<Peer>, self: Id, selfHolds: bool, matchIndex: map<Id, nat>, idx: nat,
                          zones: map<Id, Zone>, required: nat) returns (yes: bool)
    requires Listed(members, self)
    ensures yes <==> required <= 1 || |ZonesOf(Holders(members, self, selfHolds, matchIndex, idx, true), zones)| >= required
  {
    if required <= 1 { return true; }
    ghost var pick := (p: Peer) => p.voter && (true || !p.isWitness) && MatchOf(matchIndex, p.id) >= idx;
    var seen: set<Zone> := {};
    if selfHolds && self in zones { seen := seen + {zones[self]}; }
    for i := 0 to |members|
      invariant seen == ZonesOf(WithSelf(Ids(members[..i], pick), self, selfHolds), zones)
    {
      var p := members[i];
      assert members[..i + 1] == members[..i] + [p];
      assert Ids(members[..i + 1], pick) == if pick(p) then Ids(members[..i], pick) + {p.id} else Ids(members[..i], pick);
      if p.voter && MatchOf(matchIndex, p.id) >= idx && p.id in zones { seen := seen + {zones[p.id]}; }
    }
    assert members[..|members|] == members;
    return |seen| >= required;
  }

  /**
    Counts full voters, and witnesses only in place of a full voter that is
    down. A yes therefore always rests on a commit quorum of voters that hold
    the entry, in enough zones.
   */
  method ReplicatedOnMajority(applied: int, latest: int, idx: nat, members: seq<Peer>, self: Id, includeSelf: bool, selfVoter: bool,
                              stableIndex: nat, matchIndex: map<Id, nat>, down: set<Id>, zones: map<Id, Zone>, required: nat)
    returns (yes: bool)
    requires Listed(members, self)
    ensures var counts := includeSelf && selfVoter;
      var witnesses := FullVoterDown(members, matchIndex, down, idx);
      var holders := Holders(members, self, counts && idx <= stableIndex, matchIndex, idx, witnesses);
      yes <==>
        && |holders| >= QuorumNeeded(ForCommit, applied, latest, |VoterSet(members, self, counts)|)
        && (required <= 1 || |ZonesOf(Holders(members, self, counts && idx <= stableIndex, matchIndex, idx, true), zones)| >= required)
  {
    var counts := includeSelf && selfVoter;
    var full, witnesses, fullDown := CountReplicas(members, self, matchIndex, down, idx);
    var count := full;
    if fullDown { count := count + witnesses; }
    HoldersWithSelf(members, self, counts && idx <= stableIndex, matchIndex, idx, fullDown);
    if counts && idx <= stableIndex { count := count + 1; }
    var total := CountVoters(members, self, counts);
    if count < QuorumNeeded(ForCommit, applied, latest, total) { return false; }
    yes := SpansEnoughZones(members, self, counts && idx <= stableIndex, matchIndex, idx, zones, required);
  }

  lemma HoldersWithSelf(members: seq<Peer>, self: Id, selfHolds: bool, matchIndex: map<Id, nat>, idx: nat, witnesses: bool)
    requires Listed(members, self)
    ensures |Holders(members, self, selfHolds, matchIndex, idx, witnesses)|
         == |Holders(members, self, false, matchIndex, idx, witnesses)| + Tally(selfHolds)
  {
    WithSelfSize(members, (p: Peer) => p.voter && (witnesses || !p.isWitness) && MatchOf(matchIndex, p.id) >= idx, self, selfHolds);
  }

  /** The acknowledgements of a peer reach an index; nobody has to acknowledge index 0. */
  predicate Reaches(matchIndex: map<Id, nat>, p: Id, idx: nat) {
    idx == 0 || (p in matchIndex && matchIndex[p] >= idx)
  }

  /** Who is in the sets that are counted, peer by peer. */
  lemma CountedExactly(members: seq<Peer>, self: Id, selfCounts: bool, acks: set<Id>, matchIndex: map<Id, nat>, idx: nat, witnesses: bool, x: Id)
    ensures x in VoterSet(members, self, selfCounts) <==>
      (selfCounts && x == self) || exists p :: p in members && p.id == x && p.voter
    ensures x in Behind(members, self, selfCounts, acks) <==>
      (selfCounts && x == self) || exists p :: p in members && p.id == x && p.voter && x in acks
    ensures x in Holders(members, self, selfCounts, matchIndex, idx, witnesses) <==>
      (selfCounts && x == self) || exists p :: p in members && p.id == x && p.voter && (p.isWitness ==> witnesses) && Reaches(matchIndex, x, idx)
  {
  }

  /** Witnesses stand in exactly when a full voter that has not got the entry is down; zones are those of the holders. */
  lemma StandInExactly(members: seq<Peer>, matchIndex: map<Id, nat>, down: set<Id>, idx: nat, holders: set<Id>, zones: map<Id, Zone>, z: Zone)
    ensures FullVoterDown(members, matchIndex, down, idx) <==>
      exists p :: p in members && p.voter && !p.isWitness && p.id in down && !Reaches(matchIndex, p.id, idx)
    ensures z in ZonesOf(holders, zones) <==> exists p :: p in holders && p in zones && zones[p] == z
  {
  }

  // ---- What accepted sets have in common -----------------------------------------

  lemma CountedAreVoters(members: seq<Peer>, self: Id, counts: bool, acks: set<Id>, selfHolds: bool,
                         matchIndex: map<Id, nat>, idx: nat, witnesses: bool)
    requires selfHolds ==> counts
    ensures Behind(members, self, counts, acks) <= VoterSet(members, self, counts)
    ensures Holders(members, self, selfHolds, matchIndex, idx, witnesses) <= VoterSet(members, self, counts)
  {
  }

  lemma {:induction false} SetOverlap(a: set<Id>, b: set<Id>, u: set<Id>)
    requires a <= u && b <= u && |a| + |b| > |u|
    ensures a * b != {}
  {
    SubsetSize(a + b, u);
    assert |a + b| + |a * b| == |a| + |b|;
  }

  /** A set of the voters `u` large enough to be counted under the two policies a node consults. */
  ghost predicate Enough(kind: Kind, applied: int, latest: int, a: set<Id>, u: set<Id>) {
    a <= u && |a| >= QuorumNeeded(kind, applied, latest, |u|)
  }

  /** Two candidates always share a voter, whatever policies they hold. */
  lemma ElectionsMeet(a: set<Id>, applied: int, latest: int, b: set<Id>, applied': int, latest': int, u: set<Id>)
    requires u != {} && Enough(ForElection, applied, latest, a, u) && Enough(ForElection, applied', latest', b, u)
    ensures a * b != {}
  {
    SetOverlap(a, b, u);
  }

  predicate SharePolicy(applied: int, latest: int, applied': int, latest': int) {
    applied == applied' || applied == latest' || latest == applied' || latest == latest'
  }

  /** A commit and an election share a voter whenever the two nodes have an applied or latest policy in common. */
  lemma CommitMeetsElection(a: set<Id>, applied: int, latest: int, b: set<Id>, applied': int, latest': int, u: set<Id>)
    requires u != {} && SharePolicy(applied, latest, applied', latest')
    requires Enough(ForCommit, applied, latest, a, u) && Enough(ForElection, applied', latest', b, u)
    ensures a * b != {}
  {
    SetOverlap(a, b, u);
  }

  /** Without one they need not: two of five commit under one policy, the other three elect under another. */
  lemma UnsharedPoliciesMiss()
    ensures
      var u: set<Id>, a: set<Id>, b: set<Id> := {0, 1, 2, 3, 4}, {0, 1}, {2, 3, 4};
      Enough(ForCommit, 2, 2, a, u) && Enough(ForElection, 0, 0, b, u) && a * b == {}
  {
    var u: set<Id>, a: set<Id>, b: set<Id> := {0, 1, 2, 3, 4}, {0, 1}, {2, 3, 4};
    assert |u| == 5 && |a| == 2 && |b| == 3;
    assert CommitQuorumFor(2, 5) == 2 && CommitQuorumFor(0, 5) == 3 && ElectionQuorumFor(0, 5) == 3;
  }

  lemma {:induction false} SubsetOf(u: set<Id>, k: nat) returns (a: set<Id>)
    requires k <= |u|
    ensures a <= u && |a| == k
  {
    a := {};
    if k > 0 {
      var x :| x in u;
      var rest := SubsetOf(u - {x}, k - 1);
      a := rest + {x};
    }
  }

  ghost predicate AlwaysMeet(kind: Kind, applied: int, latest: int, applied': int, latest': int, u: set<Id>) {
    forall a: set<Id>, b: set<Id> :: Enough(kind, applied, latest, a, u) && Enough(ForElection, applied', latest', b, u) ==> a * b != {}
  }

  /** Every set that counts meets every election set exactly when the two thresholds add up to more than the voters. */
  lemma {:induction false} MeetIff(kind: Kind, applied: int, latest: int, applied': int, latest': int, u: set<Id>)
    ensures AlwaysMeet(kind, applied, latest, applied', latest', u) <==>
            QuorumNeeded(kind, applied, latest, |u|) + QuorumNeeded(ForElection, applied', latest', |u|) > |u|
  {
    hide QuorumNeeded;
    var x, y := QuorumNeeded(kind, applied, latest, |u|), QuorumNeeded(ForElection, applied', latest', |u|);
    if x + y > |u| {
      forall a: set<Id>, b: set<Id> | Enough(kind, applied, latest, a, u) && Enough(ForElection, applied', latest', b, u) ensures a * b != {} {
        SetOverlap(a, b, u);
      }
    } else {
      var a := SubsetOf(u, x);
      var b := SubsetOf(u - a, y);
      assert Enough(kind, applied, latest, a, u) && Enough(ForElection, applied', latest', b, u) && a * b == {};
    }
  }

  /**
    During joint consensus a candidate needs both configurations. Its votes
    then meet every commit of the old one, every commit of the new one, and
    the votes of any candidate elected under either.
   */
  lemma JointElectionMeets(votes: set<Id>, votesOld: set<Id>, votesNew: set<Id>, applied: int, latest: int,
                           other: set<Id>, kind: Kind, applied': int, latest': int, old_: set<Id>, new_: set<Id>, inOld: bool)
    requires old_ != {} && new_ != {} && votesOld <= votes && votesNew <= votes
    requires Enough(ForElection, applied, latest, votesOld, old_) && Enough(ForElection, applied, latest, votesNew, new_)
    requires Enough(kind, applied', latest', other, if inOld then old_ else new_)
    requires kind == ForCommit ==> SharePolicy(applied, latest, applied', latest')
    ensures votes * other != {}
  {
    var mine, u := if inOld then votesOld else votesNew, if inOld then old_ else new_;
    SetOverlap(mine, other, u);
    assert mine * other <= votes * other;
  }
}
