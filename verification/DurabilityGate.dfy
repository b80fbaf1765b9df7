/**
  Work that must wait for a write, failures included: what is registered is run
  once or failed once, and until the first failed write nothing is run before
  the write it waits for is on disk.
 */
module DurabilityGate {

  import opened Selection

  type Work = nat

  datatype Waiting = Waiting(seq_: nat, work: Work)

  /** Work that was run, and whether the write it waited for had succeeded. */
  datatype Run = Run(work: Work, durable: bool)

  /**
    `completed` counts reported writes, `good` the successes before the first
    failure; `broken` says whether one has failed.
   */
  datatype State = State(completed: nat, good: nat, broken: bool, waiting: seq<Waiting>, ran: seq<Run>, failed: seq<Work>)

  function Due(ws: seq<Waiting>, c: nat): seq<Waiting> {
    if ws == [] then []
    else Due(ws[..|ws| - 1], c) + if ws[|ws| - 1].seq_ <= c then [ws[|ws| - 1]] else []
  }

  function Later(ws: seq<Waiting>, c: nat): seq<Waiting> {
    if ws == [] then []
    else Later(ws[..|ws| - 1], c) + if ws[|ws| - 1].seq_ > c then [ws[|ws| - 1]] else []
  }

  function WorkOf(ws: seq<Waiting>): seq<Work> {
    seq(|ws|, i requires 0 <= i < |ws| => ws[i].work)
  }

  function RunsOf(ws: seq<Waiting>, good: nat): seq<Run> {
    seq(|ws|, i requires 0 <= i < |ws| => Run(ws[i].work, ws[i].seq_ <= good))
  }

  /** afterWrite */
  function Registered(g: State, seq_: nat, work: Work): State {
    if seq_ <= g.completed then g.(ran := g.ran + [Run(work, seq_ <= g.good)])
    else g.(waiting := g.waiting + [Waiting(seq_, work)])
  }

  /** One completion, in order. A failed write counts as completed, and fails everything that waits. */
  function Completed(g: State, ok: bool): State {
    if !ok then g.(completed := g.completed + 1, broken := true, waiting := [], failed := g.failed + WorkOf(g.waiting))
    else
      var c := g.completed + 1;
      var good := if g.broken then g.good else c;
      g.(completed := c, good := good, waiting := Later(g.waiting, c), ran := g.ran + RunsOf(Due(g.waiting, c), good))
  }

  // ---- Once, and in time ------------------------------------------------------------

  function Names(ran: seq<Run>): seq<Work> {
    seq(|ran|, i requires 0 <= i < |ran| => ran[i].work)
  }

  /** All the work ever registered, wherever it is now. */
  ghost function Everything(g: State): multiset<Work> {
    multiset(Names(g.ran)) + multiset(g.failed) + multiset(WorkOf(g.waiting))
  }

  lemma {:induction false} DueOrLater(ws: seq<Waiting>, c: nat)
    ensures multiset(WorkOf(Due(ws, c))) + multiset(WorkOf(Later(ws, c))) == multiset(WorkOf(ws))
    ensures forall i :: 0 <= i < |Due(ws, c)| ==> Due(ws, c)[i].seq_ <= c
    ensures forall i :: 0 <= i < |Later(ws, c)| ==> Later(ws, c)[i].seq_ > c
    decreases |ws|
  {
    if ws != [] {
      var n := |ws| - 1;
      var w, p := ws[n], ws[..n];
      DueOrLater(p, c);
      WorkOfMore(p, w);
      WorkOfMore(Due(p, c), w);
      WorkOfMore(Later(p, c), w);
      assert ws == p + [w];
      if w.seq_ <= c {
        assert Due(ws, c) == Due(p, c) + [w] && Later(ws, c) == Later(p, c);
      } else {
        assert Due(ws, c) == Due(p, c) && Later(ws, c) == Later(p, c) + [w];
      }
    }
  }

  /** What is due and what is not are picked out of the list in the order of registration. */
  lemma {:induction false} DueInOrder(ws: seq<Waiting>, c: nat)
    ensures Selects(ws, Due(ws, c), (w: Waiting) => w.seq_ <= c) && Selects(ws, Later(ws, c), (w: Waiting) => w.seq_ > c)
    decreases |ws|
  {
    hide Selects;
    var due: Waiting -> bool, later: Waiting -> bool := (w: Waiting) => w.seq_ <= c, (w: Waiting) => w.seq_ > c;
    if ws == [] {
      SelectsNone(due);
      SelectsNone(later);
    } else {
      var n := |ws| - 1;
      DueInOrder(ws[..n], c);
      assert ws == ws[..n] + [ws[n]] && Due(ws[..n], c) + [] == Due(ws[..n], c) && Later(ws[..n], c) + [] == Later(ws[..n], c);
      SelectsMore(ws[..n], Due(ws[..n], c), due, ws[n]);
      SelectsMore(ws[..n], Later(ws[..n], c), later, ws[n]);
    }
  }

  /** A completion: a success runs what waited for no later write, in order, and keeps the rest; a failure fails everything. */
  lemma CompletionExactly(g: State, ok: bool, due: seq<Waiting>)
    requires Selects(g.waiting, due, (w: Waiting) => w.seq_ <= g.completed + 1)
    ensures var g' := Completed(g, ok);
      && g'.completed == g.completed + 1
      && (!ok ==> g'.waiting == [] && g'.ran == g.ran && |g'.failed| == |g.failed| + |g.waiting| && g.failed <= g'.failed
                  && forall i :: 0 <= i < |g.waiting| ==> g'.failed[|g.failed| + i] == g.waiting[i].work)
      && (ok ==> g'.failed == g.failed && g.ran <= g'.ran && |g'.ran| == |g.ran| + |due|
                 && (forall i :: 0 <= i < |due| ==> g'.ran[|g.ran| + i].work == due[i].work)
                 && Selects(g.waiting, g'.waiting, (w: Waiting) => w.seq_ > g.completed + 1))
  {
    hide Selects, Due, Later;
    var c := g.completed + 1;
    DueInOrder(g.waiting, c);
    SelectsOne(g.waiting, due, Due(g.waiting, c), (w: Waiting) => w.seq_ <= c);
  }

  lemma WorkOfMore(ws: seq<Waiting>, w: Waiting)
    ensures multiset(WorkOf(ws + [w])) == multiset(WorkOf(ws)) + multiset{w.work}
  {
    assert WorkOf(ws + [w]) == WorkOf(ws) + [w.work];
  }

  lemma RegisteredOnce(g: State, seq_: nat, work: Work)
    ensures Everything(Registered(g, seq_, work)) == Everything(g) + multiset{work}
  {
    if seq_ <= g.completed {
      assert Names(g.ran + [Run(work, seq_ <= g.good)]) == Names(g.ran) + [work];
    } else {
      WorkOfMore(g.waiting, Waiting(seq_, work));
    }
  }

  lemma NamesJoin(ran: seq<Run>, ws: seq<Waiting>, good: nat)
    ensures multiset(Names(ran + RunsOf(ws, good))) == multiset(Names(ran)) + multiset(WorkOf(ws))
  {
    assert Names(ran + RunsOf(ws, good)) == Names(ran) + WorkOf(ws);
  }

  lemma CompletedOnce(g: State, ok: bool)
    ensures Everything(Completed(g, ok)) == Everything(g)
  {
    hide Due, Later, WorkOf, RunsOf, Names;
    if ok {
      var c := g.completed + 1;
      DueOrLater(g.waiting, c);
      NamesJoin(g.ran, Due(g.waiting, c), if g.broken then g.good else c);
    } else {
      assert multiset(WorkOf([])) == multiset{} by { NoWork(); }
    }
  }

  lemma NoWork()
    ensures WorkOf([]) == []
  {
  }

  /** However registrations and completions follow one another, each piece of work is run once, failed once, or still waits. */
  datatype Event = Register(seq_: nat, work: Work) | Complete(ok: bool)

  function After(g: State, events: seq<Event>): State {
    if events == [] then g
    else
      var g1 := After(g, events[..|events| - 1]);
      match events[|events| - 1]
      case Register(n, w) => Registered(g1, n, w)
      case Complete(ok) => Completed(g1, ok)
  }

  function WorkIn(events: seq<Event>): multiset<Work> {
    if events == [] then multiset{}
    else
      var e := events[|events| - 1];
      WorkIn(events[..|events| - 1]) + if e.Register? then multiset{e.work} else multiset{}
  }

  lemma {:induction false} OnceOnly(g: State, events: seq<Event>)
    ensures Everything(After(g, events)) == Everything(g) + WorkIn(events)
    decreases |events|
  {
    hide Everything, Registered, Completed;
    if events != [] {
      var h := events[..|events| - 1];
      OnceOnly(g, h);
      match events[|events| - 1]
      case Register(n, w) => RegisteredOnce(After(g, h), n, w);
      case Complete(ok) => CompletedOnce(After(g, h), ok);
    }
  }

  /** In every run without a failed write, whatever has run had its write on disk. */
  lemma {:induction false} NothingTooSoon(g: State, events: seq<Event>)
    requires Sane(g)
    ensures Sane(After(g, events))
    decreases |events|
  {
    hide Sane, Registered, Completed;
    if events != [] {
      var h := events[..|events| - 1];
      NothingTooSoon(g, h);
      match events[|events| - 1]
      case Register(n, w) => RunsInTime(After(g, h), n, w, true);
      case Complete(ok) => RunsInTime(After(g, h), 0, 0, ok);
    }
  }

  ghost predicate Sane(g: State) {
    && (if g.broken then g.good < g.completed else g.good == g.completed)
    && (forall i :: 0 <= i < |g.waiting| ==> g.completed < g.waiting[i].seq_)
    && (!g.broken ==> forall i :: 0 <= i < |g.ran| ==> g.ran[i].durable)
  }

  /** As long as no write has failed, whatever ran had its write on disk. */
  lemma RunsInTime(g: State, seq_: nat, work: Work, ok: bool)
    requires Sane(g)
    ensures Sane(Registered(g, seq_, work)) && Sane(Completed(g, ok))
  {
    hide Registered, Completed;
    assert Sane(Registered(g, seq_, work)) by { RegisteredSane(g, seq_, work); }
    assert Sane(Completed(g, ok)) by { CompletedSane(g, ok); }
  }

  lemma RegisteredSane(g: State, seq_: nat, work: Work)
    requires Sane(g)
    ensures Sane(Registered(g, seq_, work))
  {
  }

  lemma CompletedSane(g: State, ok: bool)
    requires Sane(g)
    ensures Sane(Completed(g, ok))
  {
    hide Due, Later;
    DueOrLater(g.waiting, g.completed + 1);
  }

  // ---- Exactly when work runs too soon -------------------------------------------------

  const Start: State := State(0, 0, false, [], [], [])

  /** The outcomes of the writes reported so far; write number `k` is at `k - 1`. */
  function Outcomes(events: seq<Event>): seq<bool> {
    if events == [] then []
    else
      var e := events[|events| - 1];
      Outcomes(events[..|events| - 1]) + if e.Complete? then [e.ok] else []
  }

  /** The writer makes no call after a failure: every later write is reported as failed. */
  ghost predicate Sticky(os: seq<bool>) {
    forall i, j :: 0 <= i < j < |os| && os[j] ==> os[i]
  }

  /** `good` is where the successes end. */
  lemma {:induction false} GoodIs(events: seq<Event>)
    ensures var g, os := After(Start, events), Outcomes(events);
      && g.completed == |os| && g.good <= |os| && (g.broken <==> g.good < |os|)
      && (forall k :: 0 <= k < g.good ==> os[k]) && (g.good < |os| ==> !os[g.good])
    decreases |events|
  {
    hide Due, Later, RunsOf, WorkOf;
    if events != [] { GoodIs(events[..|events| - 1]); }
  }

  /** The event registers work for a write that has already been reported as failed. */
  ghost predicate Late(events: seq<Event>, j: nat)
    requires j < |events|
  {
    events[j].Register? && 0 < events[j].seq_ <= |Outcomes(events[..j])| && !Outcomes(events[..j])[events[j].seq_ - 1]
  }

  ghost predicate Undurable(ran: seq<Run>) {
    exists i :: 0 <= i < |ran| && !ran[i].durable
  }

  /**
    Over any sequence of registrations and completions, some work runs without
    its write on disk exactly when some work is registered for a write that has
    already been reported as failed.
   */
  lemma {:induction false} RunsTooSoonIff(events: seq<Event>)
    requires Sticky(Outcomes(events))
    ensures Undurable(After(Start, events).ran) <==> exists j :: 0 <= j < |events| && Late(events, j)
    decreases |events|
  {
    if events != [] {
      var n := |events| - 1;
      var h, e := events[..n], events[n];
      StickyBefore(events);
      RunsTooSoonIff(h);
      GoodIs(h);
      LateMore(events);
      match e
      case Register(s, w) => RegisteredTooSoon(h, s, w);
      case Complete(ok) => CompletedInTime(h, ok);
    }
  }

  lemma {:induction false} StickyBefore(events: seq<Event>)
    requires events != [] && Sticky(Outcomes(events))
    ensures Sticky(Outcomes(events[..|events| - 1]))
  {
    var os := Outcomes(events[..|events| - 1]);
    assert os <= Outcomes(events);
  }

  lemma LateMore(events: seq<Event>)
    requires events != []
    ensures var n := |events| - 1;
      (exists j :: 0 <= j < |events| && Late(events, j)) <==> Late(events, n) || exists j :: 0 <= j < n && Late(events[..n], j)
  {
    hide Outcomes;
    var n := |events| - 1;
    var h := events[..n];
    assert forall j :: 0 <= j < n ==> h[..j] == events[..j] && h[j] == events[j];
    assert forall j :: 0 <= j < n ==> (Late(h, j) <==> Late(events, j));
  }

  lemma {:induction false} RegisteredTooSoon(h: seq<Event>, s: nat, w: Work)
    requires Sticky(Outcomes(h))
    ensures var events := h + [Register(s, w)];
      Undurable(Registered(After(Start, h), s, w).ran) <==> Undurable(After(Start, h).ran) || Late(events, |h|)
  {
    hide After, Outcomes;
    var events, g, os := h + [Register(s, w)], After(Start, h), Outcomes(h);
    assert events[..|h|] == h;
    GoodIs(h);
    var g' := Registered(g, s, w);
    if s <= g.completed {
      assert g'.ran == g.ran + [Run(w, s <= g.good)];
      assert Undurable(g'.ran) <==> Undurable(g.ran) || s > g.good by { UndurableMore(g.ran, Run(w, s <= g.good)); }
      assert 0 < s ==> (os[s - 1] <==> s <= g.good);
    }
  }

  lemma UndurableMore(ran: seq<Run>, r: Run)
    ensures Undurable(ran + [r]) <==> Undurable(ran) || !r.durable
  {
    assert (ran + [r])[|ran|] == r;
    assert forall i :: 0 <= i < |ran| ==> (ran + [r])[i] == ran[i];
  }

  lemma {:induction false} CompletedInTime(h: seq<Event>, ok: bool)
    requires Sticky(Outcomes(h + [Complete(ok)]))
    ensures Undurable(Completed(After(Start, h), ok).ran) <==> Undurable(After(Start, h).ran)
  {
    hide After;
    var events, g := h + [Complete(ok)], After(Start, h);
    assert events[..|h|] == h && Outcomes(events) == Outcomes(h) + [ok];
    GoodIs(h);
    if ok {
      assert !g.broken by { StickyGood(Outcomes(h), g.good); }
      DueOrLater(g.waiting, g.completed + 1);
      var more := RunsOf(Due(g.waiting, g.completed + 1), g.completed + 1);
      assert forall i :: 0 <= i < |more| ==> more[i].durable;
      assert forall i :: 0 <= i < |g.ran| ==> (g.ran + more)[i] == g.ran[i];
    }
  }

  lemma StickyGood(os: seq<bool>, good: nat)
    requires Sticky(os + [true]) && good <= |os| && (good < |os| ==> !os[good])
    ensures good == |os|
  {
    var all := os + [true];
    assert forall k :: 0 <= k < |os| ==> all[k] == os[k];
    assert all[|os|];
  }

  /** One failed write is enough: work registered for it afterwards is run as if it had succeeded. */
  lemma FailedWriteReleases(work: Work)
    ensures
      var g := Completed(Start, false);
      Sane(g) && Registered(g, 1, work).ran == [Run(work, false)]
  {
  }

  class Gate {
    var completed: nat
    var waiting: seq<Waiting>
    var ran: seq<Work>
    var failed: seq<Work>
    ghost var good: nat
    ghost var broken: bool
    ghost var record: seq<Run>

    ghost predicate Valid()
      reads this
    {
      ran == Names(record)
    }

    ghost function Now(): State
      reads this
    {
      State(completed, good, broken, waiting, record, failed)
    }

    constructor ()
      ensures Valid() && Now() == State(0, 0, false, [], [], [])
    {
      completed, waiting, ran, failed, good, broken, record := 0, [], [], [], 0, false, [];
    }

    method AfterWrite(seq_: nat, work: Work)
      requires Valid()
      modifies this
      ensures Valid() && Now() == Registered(old(Now()), seq_, work)
    {
      if seq_ == 0 || seq_ <= completed {
        ran := ran + [work];
        record := record + [Run(work, seq_ <= good)];
        return;
      }
      waiting := waiting + [Waiting(seq_, work)];
    }

    /** The next write in order is reported, successful or not. */
    method HandleCompletion(ok: bool)
      requires Valid()
      modifies this
      ensures Valid() && Now() == Completed(old(Now()), ok)
    {
      completed := completed + 1;
      if !ok {
        broken := true;
        FailDeferred();
        return;
      }
      good := if broken then good else completed;
      RunDeferred();
    }

    method RunDeferred()
      requires Valid()
      modifies this`waiting, this`ran, this`record
      ensures Valid() && waiting == Later(old(waiting), completed)
      ensures record == old(record) + RunsOf(Due(old(waiting), completed), good)
    {
      var pending := waiting;
      var kept: seq<Waiting> := [];
      for i := 0 to |pending|
        invariant Valid() && kept == Later(pending[..i], completed)
        invariant record == old(record) + RunsOf(Due(pending[..i], completed), good)
      {
        assert pending[..i + 1][..i] == pending[..i];
        var w := pending[i];
        if w.seq_ > completed {
          kept := kept + [w];
          continue;
        }
        assert RunsOf(Due(pending[..i], completed) + [w], good) == RunsOf(Due(pending[..i], completed), good) + [Run(w.work, w.seq_ <= good)];
        ran := ran + [w.work];
        record := record + [Run(w.work, w.seq_ <= good)];
      }
      assert pending[..|pending|] == pending;
      waiting := kept;
    }

    method FailDeferred()
      modifies this`waiting, this`failed
      ensures waiting == [] && failed == old(failed) + WorkOf(old(waiting))
    {
      var pending := waiting;
      waiting := [];
      for i := 0 to |pending|
        invariant waiting == [] && failed == old(failed) + WorkOf(pending)[..i]
      {
        failed := failed + [pending[i].work];
      }
    }
  }
}
