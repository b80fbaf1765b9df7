/**
  The two halves of fast backup as the nodes carry them out, on a log that has
  never been compacted.
 */
module BackupSteps {

  import opened Overlay
  import opened RaftLog
  import opened FastBackup

  /** Nothing has been compacted away: the log starts at index 1. */
  ghost predicate Uncompacted(v: View) {
    Core(v) && v.snapIndex == 0 && v.first <= 1
  }

  ghost function TermsIn(v: View): Terms
    requires Uncompacted(v)
  {
    seq(v.last, i requires 0 <= i < v.last => LogOf(v)[i + 1].term)
  }

  lemma TermsAre(v: View)
    requires Uncompacted(v)
    ensures |TermsIn(v)| == v.last && (v.first == 0 <==> v.last == 0)
    ensures forall k :: k in LogOf(v) <==> 1 <= k <= v.last
    ensures forall k :: 1 <= k <= v.last ==> TermAt(TermsIn(v), k) == LogOf(v)[k].term
  {
  }

  lemma {:induction false} RunStartUnique(log: Terms, i: nat, r: nat)
    requires 1 <= r <= i <= |log| && (forall k :: r <= k <= i ==> TermAt(log, k) == TermAt(log, i))
    requires r > 1 ==> TermAt(log, r - 1) != TermAt(log, i)
    ensures r == RunStart(log, i)
  {
    if r < i {
      assert TermAt(log, i - 1) == TermAt(log, i);
      RunStartUnique(log, i - 1, r);
    }
  }

  lemma {:induction false} LastOfUnique(log: Terms, t: nat, r: nat)
    requires r <= |log| && (r > 0 ==> TermAt(log, r) == t) && forall k :: r < k <= |log| ==> TermAt(log, k) != t
    ensures r == LastOf(log, t, |log|)
  {
  }

  /** The follower's consistency check, and its hint when it fails. */
  method CheckPrev(rl: RaftLog, prev: nat, prevTerm: nat) returns (a: Answer)
    requires Uncompacted(rl.State())
    ensures a == Answered(TermsIn(rl.State()), prev, prevTerm)
  {
    hide Core;
    ghost var v := rl.State();
    ghost var terms := TermsIn(v);
    TermsAre(v);
    if prev > 0 {
      var found := rl.TermAt(prev);
      var term := if found.Some? then found.value else 0;
      assert term == TermAt(terms, prev);
      if term != prevTerm {
        if term == 0 { return Rejected(0, rl.LastIndex() + 1); }
        var start := rl.TermRunStart(prev);
        RunStartUnique(terms, prev, start);
        return Rejected(term, if start == 0 then prev else start);
      }
    }
    return Accepted;
  }

  /** Where the leader resumes after a rejection. */
  method NextAfterRejection(rl: RaftLog, conflictTerm: nat, conflictIndex: nat, matched: nat) returns (next: nat)
    requires Uncompacted(rl.State())
    ensures next == Resume(TermsIn(rl.State()), conflictTerm, conflictIndex, matched)
  {
    hide Core, LogOf, TermsIn;
    ghost var v := rl.State();
    ghost var terms := TermsIn(v);
    TermsAre(v);
    next := conflictIndex;
    if conflictTerm != 0 {
      var idx := rl.LastIndexOfTerm(conflictTerm);
      ghost var r := if idx.Some? then idx.value else 0;
      forall k | r < k <= |terms| ensures TermAt(terms, k) != conflictTerm {
        assert rl.State() == v && rl.first > 0 && k in LogOf(v) && TermAt(terms, k) == LogOf(v)[k].term;
      }
      LastOfUnique(terms, conflictTerm, r);
      if idx.Some? { next := idx.value + 1; }
    }
    if next < 1 { next := 1; }
    if next <= matched { next := matched + 1; }
  }
}
