/**
  How a leader finds where a follower's log diverges from its own: the hint a
  follower attaches to a rejected append, and the leader's answer to it. Logs
  are their sequences of terms, index 1 first.
 */
module FastBackup {

  type Terms = seq<nat>

  function TermAt(log: Terms, i: nat): nat {
    if 1 <= i <= |log| then log[i - 1] else 0
  }

  /** Every term is real, and terms never decrease. */
  ghost predicate Proper(log: Terms) {
    && (forall i :: 1 <= i <= |log| ==> TermAt(log, i) > 0)
    && (forall i, j :: 1 <= i <= j <= |log| ==> TermAt(log, i) <= TermAt(log, j))
  }

  ghost predicate AgreeUpTo(a: Terms, b: Terms, n: nat) {
    forall i :: 1 <= i <= n ==> TermAt(a, i) == TermAt(b, i)
  }

  /** Log matching in the form every run keeps: wherever two logs show the same term, they agree up to the lower index. */
  ghost predicate Matching(a: Terms, b: Terms) {
    forall i, j :: 1 <= i <= |a| && 1 <= j <= |b| && TermAt(a, i) == TermAt(b, j) ==> AgreeUpTo(a, b, if i < j then i else j)
  }

  /** The length of the longest common prefix. */
  ghost predicate Common(a: Terms, b: Terms, c: nat) {
    && c <= |a| && c <= |b| && AgreeUpTo(a, b, c)
    && (c < |a| && c < |b| ==> TermAt(a, c + 1) != TermAt(b, c + 1))
  }

  /** The first index of the stretch of equal terms that ends in `i`. */
  function RunStart(log: Terms, i: nat): (r: nat)
    requires 1 <= i <= |log|
    ensures 1 <= r <= i && TermAt(log, r) == TermAt(log, i)
    ensures forall k :: r <= k <= i ==> TermAt(log, k) == TermAt(log, i)
    ensures r > 1 ==> TermAt(log, r - 1) != TermAt(log, i)
  {
    if i == 1 || TermAt(log, i - 1) != TermAt(log, i) then i else RunStart(log, i - 1)
  }

  /** The highest index up to `n` that carries term `t`, or 0. */
  function LastOf(log: Terms, t: nat, n: nat): (r: nat)
    requires n <= |log|
    ensures r <= n && (r > 0 ==> TermAt(log, r) == t)
    ensures forall k :: r < k <= n ==> TermAt(log, k) != t
  {
    if n == 0 || TermAt(log, n) == t then n else LastOf(log, t, n - 1)
  }

  datatype Answer = Accepted | Rejected(conflictTerm: nat, conflictIndex: nat)

  /** The follower's answer to an append that follows entry `prev` of term `prevTerm`. */
  function Answered(follower: Terms, prev: nat, prevTerm: nat): Answer {
    if prev == 0 || TermAt(follower, prev) == prevTerm then Accepted
    else if TermAt(follower, prev) == 0 || prev > |follower| then Rejected(0, |follower| + 1)
    else Rejected(TermAt(follower, prev), RunStart(follower, prev))
  }

  /** Where the leader resumes after a hint, with `match` already acknowledged. */
  function Resume(leader: Terms, conflictTerm: nat, conflictIndex: nat, match_: nat): (r: nat)
    ensures r > match_ && r >= 1
    ensures forall k :: 1 <= k <= |leader| && conflictTerm > 0 && TermAt(leader, k) == conflictTerm ==> r > k
    ensures r == match_ + 1 || r == 1 || r == conflictIndex || (conflictTerm > 0 && TermAt(leader, r - 1) == conflictTerm)
  {
    var idx := LastOf(leader, conflictTerm, |leader|);
    var n := if conflictTerm != 0 && idx > 0 then idx + 1 else conflictIndex;
    var atLeastOne := if n < 1 then 1 else n;
    if atLeastOne <= match_ then match_ + 1 else atLeastOne
  }

  function Probe(leader: Terms, follower: Terms, next: nat): Answer
    requires 1 <= next
  {
    Answered(follower, next - 1, TermAt(leader, next - 1))
  }

  function NextTry(leader: Terms, follower: Terms, next: nat, match_: nat): nat
    requires 1 <= next && Probe(leader, follower, next).Rejected?
  {
    var a := Probe(leader, follower, next);
    Resume(leader, a.conflictTerm, a.conflictIndex, match_)
  }

  /**
    A rejection moves the next index strictly back, to the rejected index at
    most, and never past the point of divergence: when the leader knows the
    follower's term, exactly to it.
   */
  lemma {:induction false} RejectionNarrows(leader: Terms, follower: Terms, next: nat, match_: nat, c: nat)
    requires Proper(leader) && Proper(follower) && Matching(leader, follower) && Common(leader, follower, c)
    requires 1 <= next <= |leader| + 1 && match_ <= c
    requires Probe(leader, follower, next).Rejected?
    ensures c + 1 <= NextTry(leader, follower, next, match_) <= next - 1
    ensures next - 1 <= |follower| && LastOf(leader, TermAt(follower, next - 1), |leader|) > 0 ==> NextTry(leader, follower, next, match_) == c + 1
    ensures next - 1 <= |follower| && LastOf(leader, TermAt(follower, next - 1), |leader|) == 0 ==> NextTry(leader, follower, next, match_) == RunStart(follower, next - 1)
    ensures next - 1 > |follower| ==> NextTry(leader, follower, next, match_) == |follower| + 1
  {
    var prev := next - 1;
    if prev <= |follower| {
      var t := TermAt(follower, prev);
      var idx := LastOf(leader, t, |leader|);
      if idx > 0 {
        assert TermAt(leader, idx) == TermAt(follower, prev);
        assert idx < prev && AgreeUpTo(leader, follower, idx);
        assert TermAt(follower, idx) <= TermAt(follower, idx + 1) <= TermAt(follower, prev);
        assert TermAt(leader, idx + 1) != t == TermAt(follower, idx + 1);
      } else {
        var r := RunStart(follower, prev);
        assert r <= |leader| ==> TermAt(leader, r) != t;
      }
    }
  }

  /** A probe is accepted exactly when the logs agree at the entry before it, so everything up to there is common. */
  lemma AcceptedIsCommon(leader: Terms, follower: Terms, next: nat, c: nat)
    requires Proper(leader) && Proper(follower) && Matching(leader, follower) && Common(leader, follower, c)
    requires 1 <= next <= |leader| + 1
    ensures Probe(leader, follower, next).Accepted? <==> next - 1 <= c
  {
    var prev := next - 1;
    if prev > 0 && prev <= |follower| && TermAt(follower, prev) == TermAt(leader, prev) {
      assert AgreeUpTo(leader, follower, prev);
    }
  }

  // ---- How many rejections there can be -----------------------------------------

  /** The number of stretches of equal terms in the follower's entries after `c`, up to `n`. */
  function Runs(log: Terms, c: nat, n: nat): nat
    requires n <= |log|
    decreases n
  {
    if n <= c then 0
    else
      var r := RunStart(log, n);
      1 + Runs(log, c, r - 1)
  }

  /** How often a lock-step probe is rejected before it is accepted. */
  ghost function Rejections(leader: Terms, follower: Terms, next: nat, match_: nat, c: nat): nat
    requires Proper(leader) && Proper(follower) && Matching(leader, follower) && Common(leader, follower, c)
    requires 1 <= next <= |leader| + 1 && match_ <= c
    decreases next
  {
    if Probe(leader, follower, next).Accepted? then 0
    else
      RejectionNarrows(leader, follower, next, match_, c);
      1 + Rejections(leader, follower, NextTry(leader, follower, next, match_), match_, c)
  }

  /** While the probe is inside the follower's log, each rejection costs one diverging stretch of terms. */
  lemma {:induction false} RejectionsInside(leader: Terms, follower: Terms, next: nat, match_: nat, c: nat)
    requires Proper(leader) && Proper(follower) && Matching(leader, follower) && Common(leader, follower, c)
    requires 1 <= next <= |leader| + 1 && match_ <= c && next - 1 <= |follower|
    ensures Rejections(leader, follower, next, match_, c) <= Runs(follower, c, next - 1)
    decreases next
  {
    hide Proper, Matching, Common, NextTry, Answered, RunStart, LastOf;
    AcceptedIsCommon(leader, follower, next, c);
    if Probe(leader, follower, next).Rejected? {
      RejectionNarrows(leader, follower, next, match_, c);
      var next' := NextTry(leader, follower, next, match_);
      var r := RunStart(follower, next - 1);
      if LastOf(leader, TermAt(follower, next - 1), |leader|) > 0 {
        AcceptedIsCommon(leader, follower, next', c);
      } else {
        RejectionsInside(leader, follower, next', match_, c);
      }
    }
  }

  /** At most one rejection per diverging stretch of terms in the follower's log, plus one. */
  lemma {:induction false} RejectionBound(leader: Terms, follower: Terms, next: nat, match_: nat, c: nat)
    requires Proper(leader) && Proper(follower) && Matching(leader, follower) && Common(leader, follower, c)
    requires 1 <= next <= |leader| + 1 && match_ <= c
    ensures Rejections(leader, follower, next, match_, c) <= Runs(follower, c, |follower|) + 1
  {
    hide Proper, Matching, Common, NextTry, Answered, RunStart, LastOf;
    if next - 1 <= |follower| {
      RejectionsInside(leader, follower, next, match_, c);
      RunsGrow(follower, c, next - 1, |follower|);
    } else if Probe(leader, follower, next).Rejected? {
      RejectionNarrows(leader, follower, next, match_, c);
      var next' := NextTry(leader, follower, next, match_);
      RejectionsInside(leader, follower, next', match_, c);
    }
  }

  lemma {:induction false} RunsGrow(log: Terms, c: nat, m: nat, n: nat)
    requires m <= n <= |log|
    ensures Runs(log, c, m) <= Runs(log, c, n)
    decreases n
  {
    if m < n && c < n {
      var r := RunStart(log, n);
      if m < r {
        RunsGrow(log, c, m, r - 1);
      } else if c < m {
        assert RunStart(log, m) == r by { SameRun(log, m, n); }
      }
    }
  }

  lemma {:induction false} SameRun(log: Terms, m: nat, n: nat)
    requires 1 <= m <= n <= |log| && RunStart(log, n) <= m
    ensures RunStart(log, m) == RunStart(log, n)
    decreases n
  {
    if m < n { SameRun(log, m, n - 1); }
  }

  // ---- What matching must mean -------------------------------------------------

  /** Log matching as it is usually put: the same term at the same index means the same entries up to it. */
  ghost predicate MatchingAtIndex(a: Terms, b: Terms) {
    forall i :: 1 <= i <= |a| && 1 <= i <= |b| && TermAt(a, i) == TermAt(b, i) ==> AgreeUpTo(a, b, i)
  }

  /** The index-wise form alone is not enough: the leader can be sent forward past the entry that was rejected. */
  lemma IndexMatchingIsNotEnough()
    ensures
      var leader, follower := [1, 2], [2];
      && Proper(leader) && Proper(follower) && MatchingAtIndex(leader, follower)
      && Probe(leader, follower, 2).Rejected? && NextTry(leader, follower, 2, 0) == 3
  {
    var leader, follower: Terms := [1, 2], [2];
    assert Probe(leader, follower, 2) == Rejected(2, 1);
    assert LastOf(leader, 2, 2) == 2;
  }

  /** Under it, a rejection moves the next index back exactly when the leader has no entry of the follower's term from there on. */
  lemma {:induction false} MovesBackIff(leader: Terms, follower: Terms, next: nat)
    requires Proper(leader) && Proper(follower) && MatchingAtIndex(leader, follower)
    requires 1 <= next <= |leader| + 1 && Probe(leader, follower, next).Rejected?
    ensures NextTry(leader, follower, next, 0) <= next - 1 <==>
            (next - 1 > |follower| || LastOf(leader, TermAt(follower, next - 1), |leader|) < next - 1)
  {
  }
}
