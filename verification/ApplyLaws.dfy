/**
  What the apply loop makes of a committed log, stated without it: the state
  machine's own command folded over the payloads, in order, each once.
 */
module ApplyLaws {

  import opened ClientTable
  import opened ApplyLoop
  import opened NoticeCuts

  /** The state after the commands with these payloads, one after the other. */
  function Fold<S>(sm: Apply<S>, s: S, ps: seq<Payload>): S {
    if ps == [] then s else sm(Fold(sm, s, ps[..|ps| - 1]), ps[|ps| - 1]).0
  }

  /** What the state machine is meant to see of a log: every payload in order, configuration entries left out. */
  function PayloadsOf(es: seq<Entry>): seq<Payload> {
    if es == [] then []
    else PayloadsOf(es[..|es| - 1]) + (if es[|es| - 1].cmd.Config? then [] else [es[|es| - 1].cmd.payload])
  }

  /** What a command answers when the state machine has seen these payloads before it. */
  function AnswerOf<S>(sm: Apply<S>, s: S, ps: seq<Payload>, cmd: Command): Outcome {
    if cmd.Config? then Ok(0) else sm(Fold(sm, s, ps), cmd.payload).1
  }

  /** The writes to the table that a list of results stands for. */
  function EventsOf(rs: seq<Result>): seq<Event> {
    if rs == [] then []
    else
      var r := rs[|rs| - 1];
      EventsOf(rs[..|rs| - 1]) +
      if r.cmd.Once? && r.out.Ok? then [Wrote(r.cmd.client, Cached(r.cmd.seqNum, r.out.value))]
      else if r.cmd.Config? && r.cmd.newCap.Some? then [Capped(r.cmd.newCap.value)]
      else []
  }

  lemma {:induction false} FoldMore<S>(sm: Apply<S>, s: S, ps: seq<Payload>, p: Payload)
    ensures Fold(sm, s, ps + [p]) == sm(Fold(sm, s, ps), p).0
  {
    assert (ps + [p])[..|ps|] == ps;
  }

  lemma {:induction false} EventsMore(rs: seq<Result>, r: Result)
    ensures EventsOf(rs + [r]) == EventsOf(rs) + EventsOf([r])
  {
    assert (rs + [r])[..|rs|] == rs && [r][..0] == [];
  }

  lemma {:induction false} AfterOne(t: Table, cap: nat, h: seq<Event>, e: Event)
    ensures After(t, cap, h + [e]) == (match e case Wrote(id, ce) => Written(After(t, cap, h), CapAfter(cap, h), id, ce) case Capped(c) => SetCap(After(t, cap, h), c))
    ensures CapAfter(cap, h + [e]) == (match e case Wrote(_, _) => CapAfter(cap, h) case Capped(c) => c)
  {
    assert (h + [e])[..|h|] == h;
  }

  /** The machine is what its log and its answers say it is. */
  ghost predicate Explained<S>(sm: Apply<S>, m: Machine<S>, ps: seq<Payload>, rs: seq<Result>, m': Machine<S>) {
    && m'.state == Fold(sm, m.state, ps)
    && m'.table == After(m.table, m.cap, EventsOf(rs)) && m'.cap == CapAfter(m.cap, EventsOf(rs))
  }

  /** One more entry, handed to the state machine or to the table's bound. */
  lemma {:induction false} ExplainedStep<S>(sm: Apply<S>, m: Machine<S>, ps: seq<Payload>, rs: seq<Result>, m1: Machine<S>, e: Entry)
    requires Explained(sm, m, ps, rs, m1)
    ensures var (m2, r) := if e.cmd.Config? then Configured(m1, e) else Applied(sm, m1, e);
      && r == Result(e.index, AnswerOf(sm, m.state, ps, e.cmd), e.cmd)
      && Explained(sm, m, ps + (if e.cmd.Config? then [] else [e.cmd.payload]), rs + [r], m2)
  {
    hide Written, SetCap, After, CapAfter, Fold;
    var (m2, r) := if e.cmd.Config? then Configured(m1, e) else Applied(sm, m1, e);
    EventsMore(rs, r);
    assert [r][..0] == [];
    if !e.cmd.Config? { FoldMore(sm, m.state, ps, e.cmd.payload); }
    if EventsOf([r]) != [] { AfterOne(m.table, m.cap, EventsOf(rs), EventsOf([r])[0]); }
    assert ps + [] == ps && EventsOf(rs) + [] == EventsOf(rs);
  }

  /** Answers to a log: one per entry, in order, each from the state its predecessors left. */
  ghost predicate AnswersFold<S>(sm: Apply<S>, s: S, es: seq<Entry>, rs: seq<Result>) {
    && |rs| == |es|
    && forall i :: 0 <= i < |es| ==> rs[i] == Result(es[i].index, AnswerOf(sm, s, PayloadsOf(es[..i]), es[i].cmd), es[i].cmd)
  }

  lemma {:induction false} AnswersMore<S>(sm: Apply<S>, s: S, es: seq<Entry>, rs: seq<Result>, e: Entry)
    requires AnswersFold(sm, s, es, rs)
    ensures AnswersFold(sm, s, es + [e], rs + [Result(e.index, AnswerOf(sm, s, PayloadsOf(es), e.cmd), e.cmd)])
  {
    hide AnswerOf, PayloadsOf;
    var es', rs' := es + [e], rs + [Result(e.index, AnswerOf(sm, s, PayloadsOf(es), e.cmd), e.cmd)];
    forall i | 0 <= i < |es'|
      ensures rs'[i] == Result(es'[i].index, AnswerOf(sm, s, PayloadsOf(es'[..i]), es'[i].cmd), es'[i].cmd)
    {
      assert es'[..i] == es[..i];
      if i == |es| { assert es[..i] == es; }
    }
  }

  /** A run: the fold over its payloads, an answer for each, and the table written from the answers. */
  lemma {:induction false} FlushedFolds<S>(sm: Apply<S>, m: Machine<S>, run: seq<Entry>)
    requires NoConfig(run)
    ensures Explained(sm, m, PayloadsOf(run), Flushed(sm, m, run).1, Flushed(sm, m, run).0)
    ensures AnswersFold(sm, m.state, run, Flushed(sm, m, run).1)
    decreases |run|
  {
    hide Explained, Applied, AnswersFold;
    if run == [] {
      assert Explained(sm, m, [], [], m) by { NothingExplained(sm, m); }
      assert AnswersFold(sm, m.state, run, []) by { NoAnswers(sm, m.state, run); }
    } else {
      var n := |run| - 1;
      var before := run[..n];
      FlushedFolds(sm, m, before);
      var (m1, rs) := Flushed(sm, m, before);
      ExplainedStep(sm, m, PayloadsOf(before), rs, m1, run[n]);
      AnswersMore(sm, m.state, before, rs, run[n]);
      assert run == before + [run[n]];
    }
  }

  lemma NoAnswers<S>(sm: Apply<S>, s: S, es: seq<Entry>)
    requires es == []
    ensures AnswersFold(sm, s, es, [])
  {
  }

  lemma NothingExplained<S>(sm: Apply<S>, m: Machine<S>)
    ensures Explained(sm, m, [], [], m)
  {
  }

  // ---- Logs without repeated requests ---------------------------------------------

  lemma OneKnown<S>(sm: Apply<S>, m: Machine<S>, e: Entry)
    ensures Known(One(sm, m, e).0.table) <= Known(m.table) + Requests([e])
  {
    hide Known, Requests, Applied, Configured;
    if e.cmd.Config? { ConfiguredKnown(m, e); }
    else if Retry(m.table, e.cmd).None? { AppliedKnown(sm, m, e); }
  }

  lemma {:induction false} FreshFolds<S>(sm: Apply<S>, m: Machine<S>, es: seq<Entry>)
    requires Fresh(Known(m.table), es)
    ensures Explained(sm, m, PayloadsOf(es), OneByOne(sm, m, es).1, OneByOne(sm, m, es).0)
    ensures AnswersFold(sm, m.state, es, OneByOne(sm, m, es).1)
    ensures Known(OneByOne(sm, m, es).0.table) <= Known(m.table) + Requests(es)
    decreases |es|
  {
    hide Explained, Applied, AnswersFold, Known, Requests, Fresh, Retry, Configured;
    if es == [] {
      assert Explained(sm, m, [], [], m) by { NothingExplained(sm, m); }
      assert AnswersFold(sm, m.state, es, []) by { NoAnswers(sm, m.state, es); }
    } else {
      var n := |es| - 1;
      var before, e := es[..n], es[n];
      assert es == before + [e];
      FreshSplit(Known(m.table), before, [e], Known(m.table) + Requests(before));
      FreshFolds(sm, m, before);
      var (m1, rs) := OneByOne(sm, m, before);
      FreshHead(Known(m.table) + Requests(before), m1.table, [e]);
      ExplainedStep(sm, m, PayloadsOf(before), rs, m1, e);
      AnswersMore(sm, m.state, before, rs, e);
      OneKnown(sm, m1, e);
      RequestsJoin(before, [e]);
      assert PayloadsOf(before) + [] == PayloadsOf(before);
    }
  }

  /**
    However a log without repeated requests is cut into notifications: the state
    is the fold over all its payloads in order, every entry is answered from the
    state its predecessors left, and the table is what those answers write.
   */
  lemma {:induction false} NoticesFold<S>(sm: Apply<S>, m: Machine<S>, cuts: seq<seq<Entry>>)
    requires Fresh(Known(m.table), Flatten(cuts))
    ensures var (m', rs) := Notices(sm, m, cuts);
      Explained(sm, m, PayloadsOf(Flatten(cuts)), rs, m') && AnswersFold(sm, m.state, Flatten(cuts), rs)
  {
    hide Explained, AnswersFold, Fresh, Known, Notices, OneByOne, SteadyCuts;
    FreshCuts(sm, m, cuts);
    CutsDoNotMatter(sm, m, cuts);
    FreshFolds(sm, m, Flatten(cuts));
  }

  // ---- Logs with retries -------------------------------------------------------------

  /** The log without the entries that repeat the number their client used last. */
  function Firsts(es: seq<Entry>): seq<Entry> {
    if es == [] then []
    else Firsts(es[..|es| - 1]) + (if Repeats(es, |es| - 1) then [] else [es[|es| - 1]])
  }

  lemma {:induction false} LastOnce<S(!new)>(sm: Apply<S>, m: Machine<S>, es: seq<Entry>, c: Client)
    requires AlwaysOk(sm) && m.cap == 0 && m.table == [] && Uncapped(es)
    ensures var m1 := OneByOne(sm, m, es).0;
      && m1.cap == 0 && Distinct(m1.table) && Lookup(m1.table, c).Some? == LastNumber(es, c).Some?
      && (Lookup(m1.table, c).Some? ==> Lookup(m1.table, c).value.seqNum == LastNumber(es, c).value)
    decreases |es|
  {
    hide Distinct, One, AlwaysOk;
    if es == [] {
      assert Distinct(m.table) by { EmptyDistinct(); }
    } else {
      var n := |es| - 1;
      LastOnce(sm, m, es[..n], c);
      var m1 := OneByOne(sm, m, es[..n]).0;
      assert Uncaps(es[n].cmd);
      OneLookup(sm, m1, es[n], c);
      if By(es[n].cmd, c) { OnceOk(sm, m1, es[n]); }
    }
  }

  lemma OnceOk<S(!new)>(sm: Apply<S>, m: Machine<S>, e: Entry)
    requires AlwaysOk(sm)
    ensures One(sm, m, e).1.out.Ok?
  {
  }

  lemma {:induction false} PayloadsMore(es: seq<Entry>, e: Entry)
    ensures PayloadsOf(es + [e]) == PayloadsOf(es) + (if e.cmd.Config? then [] else [e.cmd.payload])
  {
    assert (es + [e])[..|es|] == es;
  }

  lemma {:induction false} RetryIsRepeat<S(!new)>(sm: Apply<S>, m: Machine<S>, es: seq<Entry>, n: nat)
    requires AlwaysOk(sm) && m.cap == 0 && m.table == [] && Uncapped(es) && n < |es|
    ensures Retry(OneByOne(sm, m, es[..n]).0.table, es[n].cmd).Some? <==> Repeats(es, n)
  {
    hide OneByOne, LastNumber, Lookup, AlwaysOk;
    if es[n].cmd.Once? { LastOnce(sm, m, es[..n], es[n].cmd.client); }
  }

  lemma {:induction false} FirstsFold<S(!new)>(sm: Apply<S>, m: Machine<S>, es: seq<Entry>)
    requires AlwaysOk(sm) && m.cap == 0 && m.table == [] && Uncapped(es)
    ensures OneByOne(sm, m, es).0.state == Fold(sm, m.state, PayloadsOf(Firsts(es)))
    decreases |es|
  {
    hide AlwaysOk, Repeats, Retry, Written, PayloadsOf, Fold;
    if es == [] {
      assert Fold(sm, m.state, PayloadsOf([])) == m.state by { NothingFolded(sm, m.state); }
    } else {
      var n := |es| - 1;
      FirstsFold(sm, m, es[..n]);
      RetryIsRepeat(sm, m, es, n);
      PayloadsMore(Firsts(es[..n]), es[n]);
      var ps := PayloadsOf(Firsts(es[..n]));
      assert Firsts(es[..n]) + [] == Firsts(es[..n]) && ps + [] == ps;
      if !es[n].cmd.Config? { FoldMore(sm, m.state, ps, es[n].cmd.payload); }
    }
  }

  lemma {:induction false} NothingFolded<S>(sm: Apply<S>, s: S)
    ensures Fold(sm, s, PayloadsOf([])) == s
  {
  }

  /**
    Exactly once, end to end: with an unbounded table and a client at most once
    in a notification, the state after any cut of a log is the fold over the
    payloads of the requests that are no retries, each once and in order.
   */
  lemma {:induction false} ExactlyOnce<S(!new)>(sm: Apply<S>, m: Machine<S>, cuts: seq<seq<Entry>>)
    requires AlwaysOk(sm) && m.cap == 0 && m.table == [] && ApartCuts(cuts)
    ensures Notices(sm, m, cuts).0.state == Fold(sm, m.state, PayloadsOf(Firsts(Flatten(cuts))))
  {
    hide AlwaysOk, Distinct, ApartCuts, SteadyCuts, Notices, OneByOne, Fold, Uncapped;
    assert Distinct(m.table) by { EmptyDistinct(); }
    ApartIsSteadyCuts(sm, m, cuts);
    CutsDoNotMatter(sm, m, cuts);
    FlattenUncapped(cuts);
    FirstsFold(sm, m, Flatten(cuts));
  }
}
