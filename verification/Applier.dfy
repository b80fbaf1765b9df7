/**
  The apply loop itself: it collects a run of entries, hands the run to the
  state machine, and only then writes the table and reports the results.
 */
module Applier {

  import opened Wrappers
  import opened ClientTable
  import opened ApplyLoop
  import opened NoticeCuts
  import opened ApplyLaws

  /** Every command of a run in turn, without the table. */
  function Outcomes<S>(sm: Apply<S>, s: S, run: seq<Entry>): (S, seq<Outcome>)
    requires NoConfig(run)
  {
    if run == [] then (s, [])
    else
      var n := |run| - 1;
      var (s1, outs) := Outcomes(sm, s, run[..n]);
      var (s2, o) := sm(s1, run[n].cmd.payload);
      (s2, outs + [o])
  }

  /** The table is no part of what the state machine sees, so writing it afterwards changes nothing. */
  lemma {:induction false} OutcomesFlushed<S>(sm: Apply<S>, m: Machine<S>, run: seq<Entry>)
    requires NoConfig(run)
    ensures Flushed(sm, m, run).0.state == Outcomes(sm, m.state, run).0
    ensures |Flushed(sm, m, run).1| == |Outcomes(sm, m.state, run).1| == |run|
    decreases |run|
  {
    if run != [] { OutcomesFlushed(sm, m, run[..|run| - 1]); }
  }

  lemma {:induction false} FlushedSteps<S>(sm: Apply<S>, m: Machine<S>, run: seq<Entry>, i: nat)
    requires NoConfig(run) && i < |run|
    ensures |Outcomes(sm, m.state, run).1| == |run|
    ensures var (m1, rs) := Flushed(sm, m, run[..i]);
      var out := Outcomes(sm, m.state, run).1[i];
      var (m2, r) := Applied(sm, m1, run[i]);
      && Flushed(sm, m, run[..i + 1]) == (m2, rs + [r]) && r == Result(run[i].index, out, run[i].cmd)
      && m2.table == (if out.Ok? && run[i].cmd.Once? then Written(m1.table, m1.cap, run[i].cmd.client, Cached(run[i].cmd.seqNum, out.value)) else m1.table)
      && m2.cap == m1.cap
  {
    hide Written;
    assert run[..i + 1][..i] == run[..i];
    OutcomesFlushed(sm, m, run[..i]);
    OutcomesAt(sm, m.state, run, i);
  }

  lemma {:induction false} OutcomesAt<S>(sm: Apply<S>, s: S, run: seq<Entry>, i: nat)
    requires NoConfig(run) && i < |run|
    ensures |Outcomes(sm, s, run).1| == |run|
    ensures Outcomes(sm, s, run).1[i] == sm(Outcomes(sm, s, run[..i]).0, run[i].cmd.payload).1
    decreases |run|
  {
    var n := |run| - 1;
    OutcomesSize(sm, s, run[..n]);
    if i < n {
      OutcomesAt(sm, s, run[..n], i);
      assert run[..n][..i] == run[..i];
    }
  }

  lemma {:induction false} OutcomesFold<S>(sm: Apply<S>, s: S, run: seq<Entry>)
    requires NoConfig(run)
    ensures Outcomes(sm, s, run).0 == Fold(sm, s, PayloadsOf(run)) && |Outcomes(sm, s, run).1| == |run|
    decreases |run|
  {
    if run != [] {
      OutcomesFold(sm, s, run[..|run| - 1]);
      FoldMore(sm, s, PayloadsOf(run[..|run| - 1]), run[|run| - 1].cmd.payload);
    }
  }

  lemma {:induction false} OutcomesSize<S>(sm: Apply<S>, s: S, run: seq<Entry>)
    requires NoConfig(run)
    ensures |Outcomes(sm, s, run).1| == |run|
    decreases |run|
  {
    if run != [] { OutcomesSize(sm, s, run[..|run| - 1]); }
  }

  class Applier<S> {
    const sm: Apply<S>
    const clients: ClientLru
    var state: S
    var lastApplied: nat
    var results: seq<Result>

    ghost predicate Valid()
      reads this, clients
    {
      clients.Valid()
    }

    ghost function M(): Machine<S>
      reads this, clients
      requires Valid()
    {
      Machine(state, clients.View(), clients.cap)
    }

    constructor (sm: Apply<S>, clients: ClientLru, state: S, lastApplied: nat)
      requires clients.Valid()
      ensures Valid() && this.sm == sm && this.clients == clients && M() == Machine(state, clients.View(), clients.cap)
      ensures results == [] && this.lastApplied == lastApplied
    {
      this.sm, this.clients, this.state, this.lastApplied, results := sm, clients, state, lastApplied, [];
    }

    method ApplyEntries(run: seq<Entry>) returns (outs: seq<Outcome>)
      requires NoConfig(run)
      modifies this`state
      ensures (state, outs) == Outcomes(sm, old(state), run)
      ensures state == Fold(sm, old(state), PayloadsOf(run)) && |outs| == |run|
      ensures forall i :: 0 <= i < |run| ==> outs[i] == AnswerOf(sm, old(state), PayloadsOf(run[..i]), run[i].cmd)
    {
      ghost var s0 := state;
      outs := [];
      for i := 0 to |run|
        invariant (state, outs) == Outcomes(sm, old(state), run[..i])
      {
        assert run[..i + 1][..i] == run[..i];
        var (s, o) := sm(state, run[i].cmd.payload);
        state := s;
        outs := outs + [o];
      }
      assert run[..|run|] == run;
      OutcomesFold(sm, s0, run);
      forall i | 0 <= i < |run| ensures outs[i] == AnswerOf(sm, s0, PayloadsOf(run[..i]), run[i].cmd) {
        OutcomesAt(sm, s0, run, i);
        OutcomesFold(sm, s0, run[..i]);
      }
    }

    /** Hands a run to the state machine, then writes the table and reports each result in order. */
    method ApplyPending(run: seq<Entry>)
      requires Valid() && NoConfig(run)
      modifies this`state, this`results, this`lastApplied, clients
      ensures Valid() && M() == Flushed(sm, old(M()), run).0 && state == Fold(sm, old(state), PayloadsOf(run))
      ensures results == old(results) + Flushed(sm, old(M()), run).1
      ensures lastApplied == if run == [] then old(lastApplied) else run[|run| - 1].index
    {
      hide Written, Flushed, Outcomes, Fold, PayloadsOf, AnswerOf;
      ghost var m := M();
      var outs := ApplyEntries(run);
      OutcomesFlushed(sm, m, run);
      ghost var s := state;
      assert Flushed(sm, m, run[..0]) == (m, []) by { FlushedNone(sm, m, run); }
      for i := 0 to |run|
        invariant Valid() && state == s
        invariant clients.View() == Flushed(sm, m, run[..i]).0.table && clients.cap == Flushed(sm, m, run[..i]).0.cap
        invariant results == old(results) + Flushed(sm, m, run[..i]).1
        invariant lastApplied == if i == 0 then old(lastApplied) else run[i - 1].index
      {
        FlushedSteps(sm, m, run, i);
        var cmd := run[i].cmd;
        if outs[i].Ok? && cmd.Once? {
          var _ := clients.Put(cmd.client, Cached(cmd.seqNum, outs[i].value));
        }
        results := results + [Result(run[i].index, outs[i], cmd)];
        lastApplied := run[i].index;
      }
      assert run[..|run|] == run;
    }

    /** The remembered result of a request, if this is a retry of it. */
    method KnownResult(cmd: Command) returns (known: Option<Value>)
      requires Valid()
      ensures known == Retry(M().table, cmd)
    {
      known := None;
      if cmd.Once? {
        var cached := clients.Get(cmd.client);
        if cached.Some? && cached.value.seqNum == cmd.seqNum { known := Some(cached.value.result); }
      }
    }

    /** An entry the Raft layer answers itself: the run goes first. */
    method Interrupt(run: seq<Entry>, e: Entry, known: Option<Value>)
      requires Valid() && NoConfig(run) && known == Retry(M().table, e.cmd) && (e.cmd.Config? || known.Some?)
      modifies this`state, this`results, this`lastApplied, clients
      ensures Valid() && M() == Interrupted(sm, old(M()), run, e).0 && lastApplied == e.index
      ensures results == old(results) + Interrupted(sm, old(M()), run, e).1
    {
      hide Flushed, Retry;
      ApplyPending(run);
      if e.cmd.Config? && e.cmd.newCap.Some? {
        var _ := clients.SetCap(e.cmd.newCap.value);
      }
      results := results + [Result(e.index, if e.cmd.Config? then Ok(0) else Ok(known.value), e.cmd)];
      lastApplied := e.index;
    }

    /** One commit notification: its entries as storage returned them. */
    method HandleCommit(entries: seq<Entry>)
      requires Valid()
      modifies this`state, this`results, this`lastApplied, clients
      ensures Valid() && M() == Noticed(sm, old(M()), [], entries).0
      ensures results == old(results) + Noticed(sm, old(M()), [], entries).1
      ensures lastApplied == if entries == [] then old(lastApplied) else entries[|entries| - 1].index
      ensures Fresh(Known(old(clients.View())), entries) ==>
        && state == Fold(sm, old(state), PayloadsOf(entries))
        && |results| == |old(results)| + |entries| && AnswersFold(sm, old(state), entries, results[|old(results)|..])
    {
      OneNotice(sm, M(), entries);
      Collect(entries);
    }

    method Collect(entries: seq<Entry>)
      requires Valid()
      modifies this`state, this`results, this`lastApplied, clients
      ensures Valid() && M() == Noticed(sm, old(M()), [], entries).0
      ensures results == old(results) + Noticed(sm, old(M()), [], entries).1
      ensures lastApplied == if entries == [] then old(lastApplied) else entries[|entries| - 1].index
    {
      hide Flushed, Noticed, Interrupted, Retry;
      ghost var whole := Noticed(sm, M(), [], entries);
      ghost var done: seq<Result> := [];
      var pending: seq<Entry> := [];
      assert entries[0..] == entries && [] + whole.1 == whole.1 && results + [] == results;
      for i := 0 to |entries|
        invariant Valid() && NoConfig(pending) && results == old(results) + done
        invariant Joined(whole, done, Noticed(sm, M(), pending, entries[i..]))
        invariant if pending == [] then lastApplied == (if i == 0 then old(lastApplied) else entries[i - 1].index)
                  else i > 0 && pending[|pending| - 1].index == entries[i - 1].index
      {
        NoticedStep(sm, M(), pending, entries, i);
        var known := KnownResult(entries[i].cmd);
        if !entries[i].cmd.Config? && known.None? {
          pending := pending + [entries[i]];
          continue;
        }
        ghost var step := Interrupted(sm, M(), pending, entries[i]);
        Interrupt(pending, entries[i], known);
        pending := [];
        assert old(results) + done + step.1 == old(results) + (done + step.1);
        JoinedStep(whole, done, step.1, Noticed(sm, step.0, [], entries[i + 1..]));
        done := done + step.1;
      }
      NoticedEnd(sm, M(), pending, entries);
      ApplyPending(pending);
    }
  }

  /** A notification without repeated requests, as the fold over its payloads. */
  lemma {:induction false} OneNotice<S>(sm: Apply<S>, m: Machine<S>, entries: seq<Entry>)
    ensures Fresh(Known(m.table), entries) ==>
      var (m', rs) := Noticed(sm, m, [], entries);
      m'.state == Fold(sm, m.state, PayloadsOf(entries)) && AnswersFold(sm, m.state, entries, rs) && |rs| == |entries|
  {
    hide Fresh, Known, Steady, Noticed;
    if Fresh(Known(m.table), entries) {
      assert [] + entries == entries;
      FreshIsSteady(sm, m, [], entries);
      LastNotice(sm, m, entries);
      FreshFolds(sm, m, entries);
    }
  }

  /** The results so far and those still to come are the whole. */
  ghost predicate Joined<S>(whole: (Machine<S>, seq<Result>), done: seq<Result>, rest: (Machine<S>, seq<Result>)) {
    whole.0 == rest.0 && whole.1 == done + rest.1
  }

  lemma JoinedStep<S>(whole: (Machine<S>, seq<Result>), done: seq<Result>, step: seq<Result>, rest: (Machine<S>, seq<Result>))
    requires Joined(whole, done, (rest.0, step + rest.1))
    ensures Joined(whole, done + step, rest)
  {
    assert done + (step + rest.1) == done + step + rest.1;
  }

  lemma {:induction false} NoticedStep<S>(sm: Apply<S>, m: Machine<S>, run: seq<Entry>, entries: seq<Entry>, i: nat)
    requires NoConfig(run) && i < |entries|
    ensures var e := entries[i];
      if !e.cmd.Config? && Retry(m.table, e.cmd).None? then
        Noticed(sm, m, run, entries[i..]) == Noticed(sm, m, run + [e], entries[i + 1..])
      else
        var (m1, rs) := Interrupted(sm, m, run, e);
        var (m2, rs') := Noticed(sm, m1, [], entries[i + 1..]);
        Noticed(sm, m, run, entries[i..]) == (m2, rs + rs')
  {
    assert entries[i..][0] == entries[i] && entries[i..][1..] == entries[i + 1..];
  }

  lemma {:induction false} NoticedEnd<S>(sm: Apply<S>, m: Machine<S>, run: seq<Entry>, entries: seq<Entry>)
    requires NoConfig(run)
    ensures Noticed(sm, m, run, entries[|entries|..]) == Flushed(sm, m, run)
  {
  }

  lemma {:induction false} FlushedNone<S>(sm: Apply<S>, m: Machine<S>, run: seq<Entry>)
    ensures Flushed(sm, m, run[..0]) == (m, [])
  {
  }
}
