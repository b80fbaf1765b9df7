/**
  The greedy balancer: it plans leadership transfers from the busiest host to
  the least busy one until their counts are within one or nothing can move.
 */
module Balance {

  import opened Wrappers

  type NodeId = nat
  type HostId = nat

  datatype Status = Status(node: NodeId, group: nat, leads: bool, voter: bool, isWitness: bool, applied: nat)

  /** One host's report. The order of hosts is whatever order the view is walked in. */
  datatype Report = Report(host: HostId, statuses: seq<Status>)

  datatype Transfer = Transfer(group: nat, from: NodeId, to: NodeId)

  const DEFAULT_MAX_LAG := 1024

  predicate EligibleTarget(leader: Status, candidate: Status, maxLag: nat) {
    && candidate.node != leader.node && candidate.voter && !candidate.isWitness
    && candidate.applied + (if maxLag == 0 then DEFAULT_MAX_LAG else maxLag) >= leader.applied
  }

  /** `loads[h]` are the leaders the plan so far leaves on host number `h`. */
  type Loads = seq<seq<Status>>

  // ---- One move -------------------------------------------------------------------

  /** The `i`-th leader of host `b` moves to the end of host `l`'s list. */
  function Moved(loads: Loads, b: nat, i: nat, l: nat): Loads
    requires b < |loads| && l < |loads| && b != l && i < |loads[b]|
  {
    loads[b := loads[b][..i] + loads[b][i + 1..]][l := loads[l] + [loads[b][i]]]
  }

  ghost predicate Busiest(loads: Loads, b: nat) {
    b < |loads| && forall h :: 0 <= h < |loads| ==> |loads[h]| <= |loads[b]|
  }

  ghost predicate LeastBusy(loads: Loads, l: nat) {
    l < |loads| && forall h :: 0 <= h < |loads| ==> |loads[l]| <= |loads[h]|
  }

  /** All leaders, wherever they are. */
  function All(loads: Loads): multiset<Status> {
    if loads == [] then multiset{} else All(loads[..|loads| - 1]) + multiset(loads[|loads| - 1])
  }

  /** How often a status occurs is a sum over the hosts, so replacing one list shifts it by the difference. */
  lemma {:induction false} AllUpdate(loads: Loads, h: nat, list: seq<Status>, e: Status)
    requires h < |loads|
    ensures All(loads[h := list])[e] + multiset(loads[h])[e] == All(loads)[e] + multiset(list)[e]
    decreases |loads|
  {
    var n := |loads| - 1;
    if h == n {
      assert loads[h := list][..n] == loads[..n];
    } else {
      assert loads[h := list][..n] == loads[..n][h := list];
      AllUpdate(loads[..n], h, list, e);
    }
  }

  /** A move neither loses nor invents a leader. */
  lemma {:induction false} MovedKeepsAll(loads: Loads, b: nat, i: nat, l: nat)
    requires b < |loads| && l < |loads| && b != l && i < |loads[b]|
    ensures All(Moved(loads, b, i, l)) == All(loads)
  {
    var x := loads[b][i];
    var rest, more := loads[b][..i] + loads[b][i + 1..], loads[l] + [x];
    assert loads[b] == loads[b][..i] + [x] + loads[b][i + 1..];
    forall e ensures All(Moved(loads, b, i, l))[e] == All(loads)[e] {
      AllUpdate(loads, b, rest, e);
      AllUpdate(loads[b := rest], l, more, e);
      assert multiset(loads[b])[e] == multiset(rest)[e] + multiset{x}[e];
      assert multiset(more)[e] == multiset(loads[l])[e] + multiset{x}[e];
    }
  }

  function Squares(loads: Loads): nat {
    if loads == [] then 0 else Squares(loads[..|loads| - 1]) + |loads[|loads| - 1]| * |loads[|loads| - 1]|
  }

  lemma {:induction false} SquaresUpdate(loads: Loads, h: nat, list: seq<Status>)
    requires h < |loads|
    ensures Squares(loads[h := list]) + |loads[h]| * |loads[h]| == Squares(loads) + |list| * |list|
    decreases |loads|
  {
    var n := |loads| - 1;
    if h == n {
      assert loads[h := list][..n] == loads[..n];
    } else {
      assert loads[h := list][..n] == loads[..n][h := list];
      SquaresUpdate(loads[..n], h, list);
    }
  }

  lemma SquaresDrop(x: nat, y: nat)
    requires x >= y + 2
    ensures (x - 1) * (x - 1) + (y + 1) * (y + 1) < x * x + y * y
  {
    assert (x - 1) * (x - 1) == x * x - 2 * x + 1;
    assert (y + 1) * (y + 1) == y * y + 2 * y + 1;
  }

  /** A move between hosts more than one apart brings the loads closer, so planning ends. */
  lemma {:induction false} MovedIsCloser(loads: Loads, b: nat, i: nat, l: nat)
    requires b < |loads| && l < |loads| && b != l && i < |loads[b]| && |loads[b]| >= |loads[l]| + 2
    ensures Squares(Moved(loads, b, i, l)) < Squares(loads)
  {
    var rest := loads[b][..i] + loads[b][i + 1..];
    SquaresUpdate(loads, b, rest);
    SquaresUpdate(loads[b := rest], l, loads[l] + [loads[b][i]]);
    SquaresDrop(|loads[b]|, |loads[l]|);
  }

  // ---- Who sends and who receives --------------------------------------------------

  /** Every host that has sent is within one of the busiest, every host that has received within one of the least busy. */
  ghost predicate Sided(loads: Loads, sent: set<nat>, received: set<nat>) {
    && (forall h, k :: h in sent && h < |loads| && 0 <= k < |loads| ==> |loads[k]| <= |loads[h]| + 1)
    && (forall h, k :: h in received && h < |loads| && 0 <= k < |loads| ==> |loads[h]| <= |loads[k]| + 1)
  }

  /** So the busiest has never received, the least busy has never sent, and the move keeps it that way. */
  lemma MoveIsSided(loads: Loads, sent: set<nat>, received: set<nat>, b: nat, i: nat, l: nat)
    requires Sided(loads, sent, received) && Busiest(loads, b) && LeastBusy(loads, l)
    requires |loads[b]| >= |loads[l]| + 2 && i < |loads[b]|
    ensures b !in received && l !in sent && b != l
    ensures Sided(Moved(loads, b, i, l), sent + {b}, received + {l})
  {
    var loads' := Moved(loads, b, i, l);
    assert |loads'[b]| == |loads[b]| - 1 && |loads'[l]| == |loads[l]| + 1;
    assert forall k :: 0 <= k < |loads| && k != b && k != l ==> loads'[k] == loads[k];
  }

  predicate At(loads: Loads, h: int, i: int) {
    0 <= h < |loads| && 0 <= i < |loads[h]|
  }

  function GroupAt(loads: Loads, h: int, i: int): nat
    requires At(loads, h, i)
  {
    loads[h][i].group
  }

  /** One leader per group, over all hosts. */
  ghost predicate OnePerGroup(loads: Loads) {
    forall h, i, k, j | At(loads, h, i) && At(loads, k, j) ::
      GroupAt(loads, h, i) == GroupAt(loads, k, j) ==> h == k && i == j
  }

  /** What a host that has received nothing still holds has not been moved. */
  ghost predicate Unmoved(loads: Loads, received: set<nat>, groups: set<nat>) {
    forall h, i | At(loads, h, i) :: h in received || GroupAt(loads, h, i) !in groups
  }

  /** Where the entry at (k, j) of the moved loads was before. */
  function Origin(loads: Loads, b: nat, i: nat, l: nat, k: nat, j: nat): (nat, nat)
    requires b < |loads| && l < |loads| && b != l && i < |loads[b]|
  {
    if k == b then (b, if j < i then j else j + 1)
    else if k == l && j == |loads[l]| then (b, i)
    else (k, j)
  }

  lemma MovedAt(loads: Loads, b: nat, i: nat, l: nat, k: nat, j: nat)
    requires b < |loads| && l < |loads| && b != l && i < |loads[b]| && At(Moved(loads, b, i, l), k, j)
    ensures var (h, m) := Origin(loads, b, i, l, k, j);
      At(loads, h, m) && GroupAt(Moved(loads, b, i, l), k, j) == GroupAt(loads, h, m)
  {
  }

  lemma MovedOnePerGroup(loads: Loads, received: set<nat>, groups: set<nat>, b: nat, i: nat, l: nat)
    requires b < |loads| && l < |loads| && b != l && i < |loads[b]| && b !in received
    requires OnePerGroup(loads) && Unmoved(loads, received, groups)
    ensures OnePerGroup(Moved(loads, b, i, l))
    ensures GroupAt(loads, b, i) !in groups
    ensures Unmoved(Moved(loads, b, i, l), received + {l}, groups + {GroupAt(loads, b, i)})
  {
    hide Moved;
    assert At(loads, b, i);
    var loads' := Moved(loads, b, i, l);
    forall h, x, k, j | At(loads', h, x) && At(loads', k, j) && GroupAt(loads', h, x) == GroupAt(loads', k, j)
      ensures h == k && x == j
    {
      MovedAt(loads, b, i, l, h, x);
      MovedAt(loads, b, i, l, k, j);
      assert Origin(loads, b, i, l, h, x) == Origin(loads, b, i, l, k, j);
    }
    forall h, x | At(loads', h, x) && h !in received + {l}
      ensures GroupAt(loads', h, x) !in groups + {GroupAt(loads, b, i)}
    {
      MovedAt(loads, b, i, l, h, x);
    }
  }

  // ---- The plan ----------------------------------------------------------------------

  function LeadersIn(statuses: seq<Status>): (r: seq<Status>)
    ensures forall x :: x in r <==> x in statuses && x.leads
  {
    if statuses == [] then []
    else
      var n := |statuses| - 1;
      LeadersIn(statuses[..n]) + if statuses[n].leads then [statuses[n]] else []
  }

  function InitialLoads(view: seq<Report>): Loads {
    seq(|view|, h requires 0 <= h < |view| => LeadersIn(view[h].statuses))
  }

  method CollectLeaders(view: seq<Report>) returns (loads: Loads)
    ensures loads == InitialLoads(view)
  {
    loads := [];
    for h := 0 to |view|
      invariant loads == InitialLoads(view)[..h]
    {
      var leaders := [];
      var statuses := view[h].statuses;
      for i := 0 to |statuses|
        invariant leaders == LeadersIn(statuses[..i])
      {
        assert statuses[..i + 1][..i] == statuses[..i];
        if statuses[i].leads { leaders := leaders + [statuses[i]]; }
      }
      assert statuses[..|statuses|] == statuses;
      loads := loads + [leaders];
    }
  }

  /** A host that reported the node. */
  ghost predicate RunsOn(view: seq<Report>, node: NodeId, host: HostId) {
    exists h, i :: 0 <= h < |view| && 0 <= i < |view[h].statuses| && view[h].statuses[i].node == node && view[h].host == host
  }

  method IndexNodes(view: seq<Report>) returns (nodeToHost: map<NodeId, HostId>, all: seq<Status>)
    ensures forall n :: n in nodeToHost ==> RunsOn(view, n, nodeToHost[n])
    ensures forall x :: x in all <==> exists h :: 0 <= h < |view| && x in view[h].statuses
    ensures forall x :: x in all ==> x.node in nodeToHost
  {
    nodeToHost, all := map[], [];
    for h := 0 to |view|
      invariant forall n :: n in nodeToHost ==> RunsOn(view, n, nodeToHost[n])
      invariant forall x :: x in all <==> exists k :: 0 <= k < h && x in view[k].statuses
      invariant forall x :: x in all ==> x.node in nodeToHost
    {
      ghost var before := all;
      var statuses := view[h].statuses;
      for i := 0 to |statuses|
        invariant forall n :: n in nodeToHost ==> RunsOn(view, n, nodeToHost[n])
        invariant all == before + statuses[..i]
        invariant forall x :: x in all ==> x.node in nodeToHost
      {
        nodeToHost := nodeToHost[statuses[i].node := view[h].host];
        all := all + [statuses[i]];
      }
      assert statuses[..|statuses|] == statuses;
    }
  }

  /** The candidate could take the leader's group over on the given host. */
  predicate Possible(nodeToHost: map<NodeId, HostId>, leader: Status, candidate: Status, host: HostId, maxLag: nat) {
    && candidate.group == leader.group && EligibleTarget(leader, candidate, maxLag)
    && candidate.node in nodeToHost && nodeToHost[candidate.node] == host
  }

  /** The first leader of the list that some replica on `host` could take over, and that replica. */
  method FindMove(leaders: seq<Status>, all: seq<Status>, nodeToHost: map<NodeId, HostId>, host: HostId, maxLag: nat)
    returns (found: Option<(nat, Status)>)
    ensures found.Some? ==> found.value.0 < |leaders| && found.value.1 in all
    ensures found.Some? ==> Possible(nodeToHost, leaders[found.value.0], found.value.1, host, maxLag)
    ensures found.None? ==> forall x, c :: x in leaders && c in all ==> !Possible(nodeToHost, x, c, host, maxLag)
  {
    for i := 0 to |leaders|
      invariant forall x, c :: x in leaders[..i] && c in all ==> !Possible(nodeToHost, x, c, host, maxLag)
    {
      var leader := leaders[i];
      for j := 0 to |all|
        invariant forall c :: c in all[..j] ==> !Possible(nodeToHost, leader, c, host, maxLag)
      {
        var candidate := all[j];
        if candidate.group == leader.group && candidate.node in nodeToHost && nodeToHost[candidate.node] == host
           && EligibleTarget(leader, candidate, maxLag) {
          return Some((i, candidate));
        }
      }
      assert all[..|all|] == all && leaders[..i + 1] == leaders[..i] + [leader];
    }
    return None;
  }

  method FindBusiest(loads: Loads) returns (b: nat)
    requires loads != []
    ensures Busiest(loads, b)
  {
    b := 0;
    for h := 0 to |loads|
      invariant b < |loads| && forall k :: 0 <= k < h ==> |loads[k]| <= |loads[b]|
    {
      if |loads[h]| > |loads[b]| { b := h; }
    }
  }

  method FindLeastBusy(loads: Loads) returns (l: nat)
    requires loads != []
    ensures LeastBusy(loads, l)
  {
    l := 0;
    for h := 0 to |loads|
      invariant l < |loads| && forall k :: 0 <= k < h ==> |loads[l]| <= |loads[k]|
    {
      if |loads[h]| < |loads[l]| { l := h; }
    }
  }

  /** One planned handoff: the leader as its host reported it, the replica that takes over, and both hosts' numbers. */
  datatype Move = Move(from: nat, to: nat, leader: Status, target: Status)

  function TransferOf(m: Move): Transfer {
    Transfer(m.leader.group, m.leader.node, m.target.node)
  }

  /** The move starts at a leader its host really reported and ends at an eligible replica reported on the other host. */
  ghost predicate RealMove(view: seq<Report>, m: Move, maxLag: nat) {
    && m.from < |view| && m.to < |view| && m.from != m.to
    && m.leader in view[m.from].statuses && m.leader.leads
    && m.target.group == m.leader.group && m.target.node != m.leader.node && m.target.voter && !m.target.isWitness
    && m.leader.applied <= m.target.applied + (if maxLag > 0 then maxLag else 1024)
    && RunsOn(view, m.target.node, view[m.to].host)
  }

  /** A replica can take over exactly when it votes, keeps the data, and lags no further than allowed. */
  lemma EligibleExactly(leader: Status, candidate: Status, maxLag: nat)
    ensures EligibleTarget(leader, candidate, maxLag) <==>
      && candidate.node != leader.node && candidate.voter && !candidate.isWitness
      && leader.applied - candidate.applied <= if maxLag > 0 then maxLag else 1024
  {
  }

  /** No load above the old maximum, none below the old minimum. */
  ghost predicate Within(loads: Loads, initial: Loads) {
    && |loads| == |initial|
    && (forall b: nat, h :: Busiest(initial, b) && 0 <= h < |loads| ==> |loads[h]| <= |initial[b]|)
    && (forall l: nat, h :: LeastBusy(initial, l) && 0 <= h < |loads| ==> |initial[l]| <= |loads[h]|)
  }

  lemma MovedWithin(loads: Loads, initial: Loads, b: nat, i: nat, l: nat)
    requires Within(loads, initial) && Busiest(loads, b) && LeastBusy(loads, l) && |loads[b]| >= |loads[l]| + 2 && i < |loads[b]|
    ensures Within(Moved(loads, b, i, l), initial)
  {
    var loads' := Moved(loads, b, i, l);
    assert forall k :: 0 <= k < |loads| && k != b && k != l ==> loads'[k] == loads[k];
    assert |loads'[b]| == |loads[b]| - 1 && |loads'[l]| == |loads[l]| + 1;
  }

  /** Leaders on hosts that have received nothing are ones those hosts reported. */
  ghost predicate Reported(loads: Loads, initial: Loads, received: set<nat>) {
    |loads| == |initial| && forall h, i | At(loads, h, i) && h !in received :: loads[h][i] in initial[h]
  }

  lemma MovedReported(loads: Loads, initial: Loads, received: set<nat>, b: nat, i: nat, l: nat)
    requires Reported(loads, initial, received) && b < |loads| && l < |loads| && b != l && i < |loads[b]|
    ensures Reported(Moved(loads, b, i, l), initial, received + {l})
  {
    var loads' := Moved(loads, b, i, l);
    forall h, x | At(loads', h, x) && h !in received + {l} ensures loads'[h][x] in initial[h] {
      if h == b {
        var y := if x < i then x else x + 1;
        assert loads'[h][x] == loads[b][y] && At(loads, b, y);
      } else {
        assert loads'[h] == loads[h] && At(loads, h, x);
      }
    }
  }

  /** How much a sequence of moves changes a host's count. */
  function Net(moves: seq<Move>, h: nat): int {
    if moves == [] then 0
    else
      var m := moves[|moves| - 1];
      Net(moves[..|moves| - 1], h) + (if m.to == h then 1 else 0) - (if m.from == h then 1 else 0)
  }

  ghost predicate Accounted(loads: Loads, initial: Loads, moves: seq<Move>) {
    |loads| == |initial| && forall h :: 0 <= h < |loads| ==> |loads[h]| == |initial[h]| + Net(moves, h)
  }

  lemma {:induction false} MovedAccounted(loads: Loads, initial: Loads, moves: seq<Move>, b: nat, i: nat, l: nat, m: Move)
    requires Accounted(loads, initial, moves) && b < |loads| && l < |loads| && b != l && i < |loads[b]|
    requires m.from == b && m.to == l
    ensures Accounted(Moved(loads, b, i, l), initial, moves + [m])
  {
    var loads' := Moved(loads, b, i, l);
    assert (moves + [m])[..|moves|] == moves;
    forall h | 0 <= h < |loads'| ensures |loads'[h]| == |initial[h]| + Net(moves + [m], h) {
      assert |loads[h]| == |initial[h]| + Net(moves, h);
      if h != b && h != l { assert loads'[h] == loads[h]; }
    }
  }

  /** Everything the plan so far guarantees. */
  ghost predicate PlanOk(view: seq<Report>, maxLag: nat, loads: Loads, moves: seq<Move>, transfers: seq<Transfer>,
                         sent: set<nat>, received: set<nat>) {
    && All(loads) == All(InitialLoads(view))
    && Within(loads, InitialLoads(view))
    && Accounted(loads, InitialLoads(view), moves)
    && Sided(loads, sent, received) && sent !! received
    && Reported(loads, InitialLoads(view), received)
    && |transfers| == |moves|
    && forall k :: 0 <= k < |moves| ==>
         RealMove(view, moves[k], maxLag) && moves[k].from in sent && moves[k].to in received
         && transfers[k] == Transfer(moves[k].leader.group, moves[k].leader.node, moves[k].target.node)
  }

  lemma PlanStarts(view: seq<Report>, maxLag: nat)
    ensures PlanOk(view, maxLag, InitialLoads(view), [], [], {}, {})
  {
  }

  lemma PlanStep(view: seq<Report>, maxLag: nat, loads: Loads, moves: seq<Move>, transfers: seq<Transfer>,
                 sent: set<nat>, received: set<nat>, b: nat, i: nat, l: nat, target: Status)
    requires PlanOk(view, maxLag, loads, moves, transfers, sent, received)
    requires Busiest(loads, b) && LeastBusy(loads, l) && |loads[b]| >= |loads[l]| + 2 && i < |loads[b]| && |loads| == |view|
    requires target.group == loads[b][i].group && EligibleTarget(loads[b][i], target, maxLag)
    requires RunsOn(view, target.node, view[l].host)
    ensures b != l
    ensures var m := Move(b, l, loads[b][i], target);
      PlanOk(view, maxLag, Moved(loads, b, i, l), moves + [m], transfers + [TransferOf(m)], sent + {b}, received + {l})
  {
    hide Moved, All, RunsOn, Within, Accounted, Sided;
    var initial := InitialLoads(view);
    MoveIsSided(loads, sent, received, b, i, l);
    MovedKeepsAll(loads, b, i, l);
    MovedWithin(loads, initial, b, i, l);
    MovedAccounted(loads, initial, moves, b, i, l, Move(b, l, loads[b][i], target));
    MovedReported(loads, initial, received, b, i, l);
    assert At(loads, b, i) && loads[b][i] in initial[b];
  }

  /** The counts are within one, or no leader of the busiest host can go to the least busy one. */
  ghost predicate Finished(view: seq<Report>, maxLag: nat, loads: Loads, b: nat, l: nat, nodeToHost: map<NodeId, HostId>) {
    && Busiest(loads, b) && LeastBusy(loads, l) && l < |view|
    && (|loads[b]| <= |loads[l]| + 1
        || forall x, h, c :: x in loads[b] && 0 <= h < |view| && c in view[h].statuses ==>
             !Possible(nodeToHost, x, c, view[l].host, maxLag))
  }

  /** With one leader per group, no group is moved twice. */
  ghost predicate GroupsOnce(transfers: seq<Transfer>) {
    forall j, k :: 0 <= j < k < |transfers| ==> transfers[j].group != transfers[k].group
  }

  ghost predicate GroupsOk(loads: Loads, received: set<nat>, transfers: seq<Transfer>, groups: set<nat>) {
    && OnePerGroup(loads) && Unmoved(loads, received, groups) && GroupsOnce(transfers)
    && forall k :: 0 <= k < |transfers| ==> transfers[k].group in groups
  }

  method Plan(view: seq<Report>, maxLag: nat)
    returns (transfers: seq<Transfer>, ghost moves: seq<Move>, ghost final: Loads, ghost sent: set<nat>, ghost received: set<nat>,
             ghost nodeToHost: map<NodeId, HostId>)
    ensures PlanOk(view, maxLag, final, moves, transfers, sent, received)
    ensures OnePerGroup(InitialLoads(view)) ==> GroupsOnce(transfers)
    ensures |view| < 2 ==> transfers == []
    ensures |view| >= 2 ==> exists b: nat, l: nat :: Finished(view, maxLag, final, b, l, nodeToHost)
    ensures forall n :: n in nodeToHost ==> RunsOn(view, n, nodeToHost[n])
  {
    hide PlanOk, Finished, RunsOn, GroupsOk;
    PlanStarts(view, maxLag);
    transfers, moves, final, sent, received, nodeToHost := [], [], InitialLoads(view), {}, {}, map[];
    if |view| < 2 { return; }
    var hosts, all := IndexNodes(view);
    nodeToHost := hosts;
    var loads := CollectLeaders(view);
    ghost var groups: set<nat> := {};
    assert OnePerGroup(loads) ==> GroupsOk(loads, received, transfers, groups) by { GroupsStart(loads); }
    while true
      invariant PlanOk(view, maxLag, loads, moves, transfers, sent, received) && |loads| == |view|
      invariant OnePerGroup(InitialLoads(view)) ==> GroupsOk(loads, received, transfers, groups)
      decreases Squares(loads)
    {
      final := loads;
      assert OnePerGroup(InitialLoads(view)) ==> GroupsOnce(transfers) by { if OnePerGroup(InitialLoads(view)) { GroupsGive(loads, received, transfers, groups); } }
      var b := FindBusiest(loads);
      var l := FindLeastBusy(loads);
      if |loads[b]| - |loads[l]| <= 1 {
        assert Finished(view, maxLag, loads, b, l, nodeToHost) by { Balanced(view, maxLag, loads, b, l, nodeToHost); }
        break;
      }
      var found := FindMove(loads[b], all, hosts, view[l].host, maxLag);
      if found.None? {
        assert Finished(view, maxLag, loads, b, l, nodeToHost) by { Blocked(view, maxLag, loads, b, l, nodeToHost, all); }
        break;
      }
      var i, target := found.value.0, found.value.1;
      PlanStep(view, maxLag, loads, moves, transfers, sent, received, b, i, l, target);
      MovedIsCloser(loads, b, i, l);
      if OnePerGroup(InitialLoads(view)) {
        GroupsStep(view, maxLag, loads, moves, transfers, sent, received, groups, b, i, l, target.node);
      }
      groups := groups + {loads[b][i].group};
      transfers := transfers + [Transfer(loads[b][i].group, loads[b][i].node, target.node)];
      moves, sent, received := moves + [Move(b, l, loads[b][i], target)], sent + {b}, received + {l};
      loads := Moved(loads, b, i, l);
    }
  }

  lemma GroupsStart(loads: Loads)
    ensures OnePerGroup(loads) ==> GroupsOk(loads, {}, [], {})
  {
  }

  lemma GroupsGive(loads: Loads, received: set<nat>, transfers: seq<Transfer>, groups: set<nat>)
    requires GroupsOk(loads, received, transfers, groups)
    ensures GroupsOnce(transfers)
  {
  }

  lemma GroupsStep(view: seq<Report>, maxLag: nat, loads: Loads, moves: seq<Move>, transfers: seq<Transfer>,
                   sent: set<nat>, received: set<nat>, groups: set<nat>, b: nat, i: nat, l: nat, to: NodeId)
    requires PlanOk(view, maxLag, loads, moves, transfers, sent, received) && GroupsOk(loads, received, transfers, groups)
    requires Busiest(loads, b) && LeastBusy(loads, l) && |loads[b]| >= |loads[l]| + 2 && i < |loads[b]|
    ensures b != l
    ensures GroupsOk(Moved(loads, b, i, l), received + {l}, transfers + [Transfer(loads[b][i].group, loads[b][i].node, to)],
                     groups + {loads[b][i].group})
  {
    hide All, RealMove, Within, Accounted, Reported, Moved, OnePerGroup, Unmoved;
    MoveIsSided(loads, sent, received, b, i, l);
    MovedOnePerGroup(loads, received, groups, b, i, l);
  }

  lemma Balanced(view: seq<Report>, maxLag: nat, loads: Loads, b: nat, l: nat, nodeToHost: map<NodeId, HostId>)
    requires Busiest(loads, b) && LeastBusy(loads, l) && |loads| == |view| && |loads[b]| <= |loads[l]| + 1
    ensures Finished(view, maxLag, loads, b, l, nodeToHost)
  {
  }

  lemma Blocked(view: seq<Report>, maxLag: nat, loads: Loads, b: nat, l: nat, nodeToHost: map<NodeId, HostId>, all: seq<Status>)
    requires Busiest(loads, b) && LeastBusy(loads, l) && |loads| == |view|
    requires forall x :: x in all <==> exists h :: 0 <= h < |view| && x in view[h].statuses
    requires forall x, c :: x in loads[b] && c in all ==> !Possible(nodeToHost, x, c, view[l].host, maxLag)
    ensures Finished(view, maxLag, loads, b, l, nodeToHost)
  {
  }
}
