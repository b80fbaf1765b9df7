/**
  How commits are cut into notifications. The apply loop looks a request up
  before the entries it has collected reach the table, so cutting a log
  differently can change what it answers; here is exactly when.
 */
module NoticeCuts {

  import opened Wrappers
  import opened ClientTable
  import opened ApplyLoop

  predicate Collects<S>(m: Machine<S>, e: Entry) {
    !e.cmd.Config? && Retry(m.table, e.cmd).None?
  }

  /** Looking the entry up before the collected run is applied finds what looking it up afterwards would. */
  ghost predicate SameAnswer<S>(sm: Apply<S>, m: Machine<S>, run: seq<Entry>, e: Entry)
    requires NoConfig(run)
  {
    e.cmd.Config? || Retry(m.table, e.cmd) == Retry(Flushed(sm, m, run).0.table, e.cmd)
  }

  /** That holds of every entry of a notification. */
  ghost predicate Steady<S>(sm: Apply<S>, m: Machine<S>, run: seq<Entry>, entries: seq<Entry>)
    requires NoConfig(run)
    decreases |entries|
  {
    entries == [] ||
    (SameAnswer(sm, m, run, entries[0]) &&
     if Collects(m, entries[0]) then Steady(sm, m, run + [entries[0]], entries[1..])
     else Steady(sm, Interrupted(sm, m, run, entries[0]).0, [], entries[1..]))
  }

  // ---- Steady notifications are the reference ---------------------------------------

  lemma {:induction false} StepIsOne<S>(sm: Apply<S>, m: Machine<S>, run: seq<Entry>, e: Entry)
    requires NoConfig(run) && Flushed(sm, m, run) == OneByOne(sm, m, run) && SameAnswer(sm, m, run, e)
    ensures Collects(m, e) ==> Flushed(sm, m, run + [e]) == OneByOne(sm, m, run + [e])
    ensures !Collects(m, e) ==> Interrupted(sm, m, run, e) == OneByOne(sm, m, run + [e])
  {
    hide Retry, Applied, Configured;
    assert (run + [e])[..|run|] == run && (run + [e])[|run|] == e;
  }

  /** A steady notification does what its entries do one by one. */
  lemma {:induction false} SteadyIsOneByOne<S>(sm: Apply<S>, m: Machine<S>, run: seq<Entry>, entries: seq<Entry>)
    requires NoConfig(run) && Flushed(sm, m, run) == OneByOne(sm, m, run) && Steady(sm, m, run, entries)
    ensures Noticed(sm, m, run, entries) == OneByOne(sm, m, run + entries)
    decreases |entries|
  {
    hide Retry, SameAnswer, Flushed, OneByOne, Interrupted;
    if entries == [] {
      assert run + entries == run;
    } else {
      var e, rest := entries[0], entries[1..];
      assert run + entries == run + [e] + rest;
      StepIsOne(sm, m, run, e);
      if Collects(m, e) {
        SteadyIsOneByOne(sm, m, run + [e], rest);
      } else {
        var m1 := Interrupted(sm, m, run, e).0;
        assert Flushed(sm, m1, []) == OneByOne(sm, m1, []) by { NothingCollected(sm, m1); }
        assert [] + rest == rest;
        SteadyIsOneByOne(sm, m1, [], rest);
        OneByOneSplit(sm, m, run + [e], rest);
      }
    }
  }

  lemma {:induction false} NothingCollected<S>(sm: Apply<S>, m: Machine<S>)
    ensures Flushed(sm, m, []) == OneByOne(sm, m, []) == (m, [])
  {
  }

  // ---- Unsteady ones show ------------------------------------------------------------

  /** A state machine that answers every success with a number it has not given before, as a revision counter does. */
  ghost predicate Tells<S(!new)>(sm: Apply<S>, size: S -> nat) {
    forall s, p :: Telling(sm, size, s, p)
  }

  ghost predicate Telling<S>(sm: Apply<S>, size: S -> nat, s: S, p: Payload) {
    var (s', out) := sm(s, p);
    size(s) <= size(s') && (out.Ok? ==> size(s) < size(s') == out.value)
  }

  /** What the table remembers was answered before. */
  ghost predicate Dated<S>(size: S -> nat, m: Machine<S>) {
    forall i :: 0 <= i < |m.table| ==> m.table[i].ce.result <= size(m.state)
  }

  lemma AppliedDated<S(!new)>(sm: Apply<S>, size: S -> nat, m: Machine<S>, e: Entry)
    requires Tells(sm, size) && Dated(size, m) && !e.cmd.Config?
    ensures var (m1, r) := Applied(sm, m, e);
      && Dated(size, m1) && size(m.state) <= size(m1.state)
      && (r.out.Ok? ==> r.out.value > size(m.state))
  {
    assert Telling(sm, size, m.state, e.cmd.payload);
    var (s, out) := sm(m.state, e.cmd.payload);
    if e.cmd.Once? && out.Ok? {
      var ce := Cached(e.cmd.seqNum, out.value);
      var t' := Written(m.table, m.cap, e.cmd.client, ce);
      forall i | 0 <= i < |t'| ensures t'[i].ce.result <= size(s) {
        WrittenFrom(m.table, m.cap, e.cmd.client, ce, i);
      }
    }
  }

  /** Every record but the new one was in the table before. */
  lemma WrittenFrom(t: Table, cap: nat, id: Client, ce: Cached, i: nat)
    requires i < |Written(t, cap, id, ce)|
    ensures var r := Written(t, cap, id, ce)[i];
      r == Record(id, ce) || exists k :: 0 <= k < |t| && t[k] == r
  {
    if i > 0 {
      var w := Without(t, id);
      assert Written(t, cap, id, ce)[i] == w[i - 1] == t[if Has(t, id) && i - 1 >= Find(t, id) then i else i - 1];
    }
  }

  lemma {:induction false} FlushedDated<S(!new)>(sm: Apply<S>, size: S -> nat, m: Machine<S>, run: seq<Entry>)
    requires NoConfig(run) && Tells(sm, size) && Dated(size, m)
    ensures Dated(size, Flushed(sm, m, run).0) && size(m.state) <= size(Flushed(sm, m, run).0.state)
    decreases |run|
  {
    hide Tells, Dated, Applied;
    if run != [] {
      var n := |run| - 1;
      FlushedDated(sm, size, m, run[..n]);
      AppliedDated(sm, size, Flushed(sm, m, run[..n]).0, run[n]);
    }
  }

  lemma OneDated<S(!new)>(sm: Apply<S>, size: S -> nat, m: Machine<S>, e: Entry)
    requires Tells(sm, size) && Dated(size, m)
    ensures Dated(size, One(sm, m, e).0)
  {
    hide Tells, Applied;
    if !e.cmd.Config? { AppliedDated(sm, size, m, e); }
  }

  lemma {:induction false} OneByOneDated<S(!new)>(sm: Apply<S>, size: S -> nat, m: Machine<S>, entries: seq<Entry>)
    requires Tells(sm, size) && Dated(size, m)
    ensures Dated(size, OneByOne(sm, m, entries).0)
    decreases |entries|
  {
    hide Tells, Dated, One;
    if entries != [] {
      var n := |entries| - 1;
      OneByOneDated(sm, size, m, entries[..n]);
      OneDated(sm, size, OneByOne(sm, m, entries[..n]).0, entries[n]);
    }
  }

  lemma RetryDated<S>(size: S -> nat, m: Machine<S>, cmd: Command)
    requires Dated(size, m) && Retry(m.table, cmd).Some?
    ensures Retry(m.table, cmd).value <= size(m.state)
  {
  }

  /** What a notification answers for an entry, once the run before it has been applied. */
  ghost function Said<S>(sm: Apply<S>, m: Machine<S>, run: seq<Entry>, e: Entry): Result
    requires NoConfig(run)
  {
    var m1 := Flushed(sm, m, run).0;
    if e.cmd.Config? then Configured(m1, e).1
    else if Retry(m.table, e.cmd).Some? then Result(e.index, Ok(Retry(m.table, e.cmd).value), e.cmd)
    else Applied(sm, m1, e).1
  }

  /** If it answers what the reference answers, the two lookups agree. */
  lemma {:induction false} SaidIsSame<S(!new)>(sm: Apply<S>, size: S -> nat, m: Machine<S>, run: seq<Entry>, e: Entry)
    requires NoConfig(run) && Tells(sm, size) && Dated(size, m)
    requires Said(sm, m, run, e) == One(sm, Flushed(sm, m, run).0, e).1
    ensures SameAnswer(sm, m, run, e)
  {
    hide Tells, Dated, Retry, Flushed, Applied;
    if !e.cmd.Config? {
      var m1 := Flushed(sm, m, run).0;
      FlushedDated(sm, size, m, run);
      AppliedDated(sm, size, m1, e);
      if Retry(m.table, e.cmd).Some? { RetryDated(size, m, e.cmd); }
      if Retry(m1.table, e.cmd).Some? { RetryDated(size, m1, e.cmd); }
    }
  }

  lemma {:induction false} OneByOneSize<S>(sm: Apply<S>, m: Machine<S>, entries: seq<Entry>)
    ensures |OneByOne(sm, m, entries).1| == |entries|
    decreases |entries|
  {
    if entries != [] { OneByOneSize(sm, m, entries[..|entries| - 1]); }
  }

  lemma {:induction false} FlushedSize<S>(sm: Apply<S>, m: Machine<S>, run: seq<Entry>)
    requires NoConfig(run)
    ensures |Flushed(sm, m, run).1| == |run|
    decreases |run|
  {
    if run != [] { FlushedSize(sm, m, run[..|run| - 1]); }
  }

  /** The results of a notification start with those of the run collected so far. */
  lemma {:induction false} NoticedStarts<S>(sm: Apply<S>, m: Machine<S>, run: seq<Entry>, entries: seq<Entry>)
    requires NoConfig(run)
    ensures Flushed(sm, m, run).1 <= Noticed(sm, m, run, entries).1 && |Noticed(sm, m, run, entries).1| == |run| + |entries|
    decreases |entries|
  {
    hide Retry, Applied, Configured;
    FlushedSize(sm, m, run);
    if entries != [] {
      var e, rest := entries[0], entries[1..];
      if Collects(m, e) {
        NoticedStarts(sm, m, run + [e], rest);
        assert (run + [e])[..|run|] == run;
      } else {
        NoticedStarts(sm, Interrupted(sm, m, run, e).0, [], rest);
      }
    }
  }

  lemma {:induction false} NoticedSays<S>(sm: Apply<S>, m: Machine<S>, run: seq<Entry>, entries: seq<Entry>)
    requires NoConfig(run) && entries != []
    ensures |Noticed(sm, m, run, entries).1| > |run| && Noticed(sm, m, run, entries).1[|run|] == Said(sm, m, run, entries[0])
  {
    hide Retry, Applied, Configured;
    var e, rest := entries[0], entries[1..];
    FlushedSize(sm, m, run);
    NoticedStarts(sm, m, run, entries);
    if Collects(m, e) {
      NoticedStarts(sm, m, run + [e], rest);
      assert (run + [e])[..|run|] == run && (run + [e])[|run|] == e;
      assert Flushed(sm, m, run + [e]).1[|run|] == Applied(sm, Flushed(sm, m, run).0, e).1;
    } else {
      assert Interrupted(sm, m, run, e).1[|run|] == Said(sm, m, run, e);
    }
  }

  lemma {:induction false} ReferenceSays<S>(sm: Apply<S>, m: Machine<S>, run: seq<Entry>, entries: seq<Entry>)
    requires entries != []
    ensures |OneByOne(sm, m, run + entries).1| > |run|
    ensures OneByOne(sm, m, run + entries).1[|run|] == One(sm, OneByOne(sm, m, run).0, entries[0]).1
  {
    hide One;
    var e, rest := entries[0], entries[1..];
    assert run + entries == run + [e] + rest;
    OneByOneSplit(sm, m, run + [e], rest);
    OneByOneSize(sm, m, run);
    assert (run + [e])[..|run|] == run && (run + [e])[|run|] == e;
  }

  /** A notification that answers what the reference answers is steady. */
  lemma {:induction false} SameIsSteady<S(!new)>(sm: Apply<S>, size: S -> nat, m: Machine<S>, run: seq<Entry>, entries: seq<Entry>)
    requires NoConfig(run) && Tells(sm, size) && Dated(size, m) && Flushed(sm, m, run) == OneByOne(sm, m, run)
    requires Noticed(sm, m, run, entries).1 == OneByOne(sm, m, run + entries).1
    ensures Steady(sm, m, run, entries)
    decreases |entries|
  {
    hide Tells, Dated, Retry, Flushed, Interrupted, OneByOne, SameAnswer, Said, One;
    if entries != [] {
      var e, rest := entries[0], entries[1..];
      NoticedSays(sm, m, run, entries);
      ReferenceSays(sm, m, run, entries);
      SaidIsSame(sm, size, m, run, e);
      StepIsOne(sm, m, run, e);
      assert run + entries == run + [e] + rest;
      if Collects(m, e) {
        SameIsSteady(sm, size, m, run + [e], rest);
      } else {
        SameAfter(sm, m, run, entries);
        var m1 := Interrupted(sm, m, run, e).0;
        assert Flushed(sm, m1, []) == OneByOne(sm, m1, []) by { NothingCollected(sm, m1); }
        OneByOneDated(sm, size, m, run + [e]);
        assert [] + rest == rest;
        SameIsSteady(sm, size, m1, [], rest);
      }
    }
  }

  lemma {:induction false} SameAfter<S>(sm: Apply<S>, m: Machine<S>, run: seq<Entry>, entries: seq<Entry>)
    requires NoConfig(run) && entries != [] && !Collects(m, entries[0])
    requires Interrupted(sm, m, run, entries[0]) == OneByOne(sm, m, run + [entries[0]])
    requires Noticed(sm, m, run, entries).1 == OneByOne(sm, m, run + entries).1
    ensures var m1 := Interrupted(sm, m, run, entries[0]).0;
      Noticed(sm, m1, [], entries[1..]).1 == OneByOne(sm, m1, entries[1..]).1
  {
    hide Retry, Flushed, Interrupted, OneByOne;
    var e, rest := entries[0], entries[1..];
    var (m1, rs) := Interrupted(sm, m, run, e);
    assert run + entries == run + [e] + rest;
    OneByOneSplit(sm, m, run + [e], rest);
    var x, y := Noticed(sm, m1, [], rest).1, OneByOne(sm, m1, rest).1;
    assert rs + x == rs + y;
    assert (rs + x)[|rs|..] == x && (rs + y)[|rs|..] == y;
  }

  // ---- Any number of notifications -----------------------------------------------------

  function Flatten(cuts: seq<seq<Entry>>): seq<Entry> {
    if cuts == [] then [] else Flatten(cuts[..|cuts| - 1]) + cuts[|cuts| - 1]
  }

  function Notices<S>(sm: Apply<S>, m: Machine<S>, cuts: seq<seq<Entry>>): (Machine<S>, seq<Result>) {
    if cuts == [] then (m, [])
    else
      var n := |cuts| - 1;
      var (m1, rs) := Notices(sm, m, cuts[..n]);
      var (m2, rs') := Noticed(sm, m1, [], cuts[n]);
      (m2, rs + rs')
  }

  ghost predicate SteadyCuts<S>(sm: Apply<S>, m: Machine<S>, cuts: seq<seq<Entry>>) {
    cuts == [] ||
    (SteadyCuts(sm, m, cuts[..|cuts| - 1]) && Steady(sm, Notices(sm, m, cuts[..|cuts| - 1]).0, [], cuts[|cuts| - 1]))
  }

  /** However a log is cut into steady notifications, they give the results, state and table of its entries one at a time. */
  lemma {:induction false} CutsDoNotMatter<S>(sm: Apply<S>, m: Machine<S>, cuts: seq<seq<Entry>>)
    requires SteadyCuts(sm, m, cuts)
    ensures Notices(sm, m, cuts) == OneByOne(sm, m, Flatten(cuts))
    decreases |cuts|
  {
    hide Noticed, Steady, OneByOne;
    if cuts == [] {
      NothingCollected(sm, m);
    } else {
      var n := |cuts| - 1;
      CutsDoNotMatter(sm, m, cuts[..n]);
      LastNotice(sm, Notices(sm, m, cuts[..n]).0, cuts[n]);
      OneByOneSplit(sm, m, Flatten(cuts[..n]), cuts[n]);
    }
  }

  lemma {:induction false} LastNotice<S>(sm: Apply<S>, m: Machine<S>, entries: seq<Entry>)
    requires Steady(sm, m, [], entries)
    ensures Noticed(sm, m, [], entries) == OneByOne(sm, m, entries)
  {
    hide Noticed, Steady;
    NothingCollected(sm, m);
    SteadyIsOneByOne(sm, m, [], entries);
    assert [] + entries == entries;
  }

  /**
    On a state machine that tells its successes apart, the cut does not matter
    exactly when every lookup before a flush finds what it would find after
    it: then the results are those of the entries one at a time, and only then.
   */
  lemma {:induction false} CutsDoNotMatterIff<S(!new)>(sm: Apply<S>, size: S -> nat, m: Machine<S>, cuts: seq<seq<Entry>>)
    requires Tells(sm, size) && Dated(size, m)
    ensures Notices(sm, m, cuts).1 == OneByOne(sm, m, Flatten(cuts)).1 <==> SteadyCuts(sm, m, cuts)
    decreases |cuts|
  {
    hide Noticed, Steady, OneByOne, Tells, Dated;
    if SteadyCuts(sm, m, cuts) {
      CutsDoNotMatter(sm, m, cuts);
    } else {
      var n := |cuts| - 1;
      var before, last := cuts[..n], cuts[n];
      CutsDoNotMatterIff(sm, size, m, before);
      OneByOneSplit(sm, m, Flatten(before), last);
      OneByOneSize(sm, m, Flatten(before));
      NoticesSize(sm, m, before);
      if SteadyCuts(sm, m, before) {
        CutsDoNotMatter(sm, m, before);
        OneByOneDated(sm, size, m, Flatten(before));
        LastNoticeShows(sm, size, Notices(sm, m, before).0, last);
        SameTails(Notices(sm, m, before).1, Noticed(sm, Notices(sm, m, before).0, [], last).1, OneByOne(sm, Notices(sm, m, before).0, last).1);
      } else {
        SameHeads(Notices(sm, m, before).1, Noticed(sm, Notices(sm, m, before).0, [], last).1,
                  OneByOne(sm, m, Flatten(before)).1, OneByOne(sm, OneByOne(sm, m, Flatten(before)).0, last).1);
      }
    }
  }

  lemma {:induction false} LastNoticeShows<S(!new)>(sm: Apply<S>, size: S -> nat, m: Machine<S>, entries: seq<Entry>)
    requires Tells(sm, size) && Dated(size, m) && !Steady(sm, m, [], entries)
    ensures Noticed(sm, m, [], entries).1 != OneByOne(sm, m, entries).1
  {
    hide Noticed, Steady, Tells, Dated;
    NothingCollected(sm, m);
    assert [] + entries == entries;
    if Noticed(sm, m, [], entries).1 == OneByOne(sm, m, entries).1 { SameIsSteady(sm, size, m, [], entries); }
  }

  lemma SameTails<T>(a: seq<T>, x: seq<T>, y: seq<T>)
    ensures a + x == a + y ==> x == y
  {
    assert (a + x)[|a|..] == x && (a + y)[|a|..] == y;
  }

  lemma SameHeads<T>(a: seq<T>, x: seq<T>, b: seq<T>, y: seq<T>)
    ensures |a| == |b| && a + x == b + y ==> a == b
  {
    assert (a + x)[..|a|] == a && (b + y)[..|b|] == b;
  }

  lemma {:induction false} NoticesSize<S>(sm: Apply<S>, m: Machine<S>, cuts: seq<seq<Entry>>)
    ensures |Notices(sm, m, cuts).1| == |Flatten(cuts)|
    decreases |cuts|
  {
    hide Noticed, Flushed;
    if cuts != [] {
      var n := |cuts| - 1;
      NoticesSize(sm, m, cuts[..n]);
      NoticedStarts(sm, Notices(sm, m, cuts[..n]).0, [], cuts[n]);
    }
  }

  // ---- Logs without repeated requests ---------------------------------------------

  lemma NotRetried(t: Table, cmd: Command)
    requires cmd.Once? ==> RequestOf(cmd) !in Known(t)
    ensures Retry(t, cmd) == None
  {
    if cmd.Once? && Has(t, cmd.client) {
      var i := Find(t, cmd.client);
      assert (t[i].id, t[i].ce.seqNum) in Known(t);
    }
  }

  lemma WrittenKnown(t: Table, cap: nat, id: Client, ce: Cached)
    ensures Known(Written(t, cap, id, ce)) <= Known(t) + {(id, ce.seqNum)}
  {
    var w, t' := Without(t, id), Written(t, cap, id, ce);
    forall i | 0 <= i < |t'| ensures (t'[i].id, t'[i].ce.seqNum) in Known(t) + {(id, ce.seqNum)} {
      if i > 0 {
        var k := if i - 1 < Find(t, id) then i - 1 else i;
        assert t'[i] == w[i - 1];
        assert w[i - 1] == t[if Has(t, id) && i - 1 >= Find(t, id) then i else i - 1];
      }
    }
  }

  lemma AppliedKnown<S>(sm: Apply<S>, m: Machine<S>, e: Entry)
    requires !e.cmd.Config?
    ensures Known(Applied(sm, m, e).0.table) <= Known(m.table) + Requests([e])
  {
    var (s, out) := sm(m.state, e.cmd.payload);
    if e.cmd.Once? {
      assert [e][0].cmd.Once? && RequestOf(e.cmd) in Requests([e]);
      if out.Ok? { WrittenKnown(m.table, m.cap, e.cmd.client, Cached(e.cmd.seqNum, out.value)); }
    }
  }

  lemma RequestsJoin(a: seq<Entry>, b: seq<Entry>)
    ensures Requests(a + b) == Requests(a) + Requests(b)
  {
    forall x | x in Requests(a) + Requests(b) ensures x in Requests(a + b) {
      if x in Requests(a) {
        var i :| 0 <= i < |a| && a[i].cmd.Once? && RequestOf(a[i].cmd) == x;
        assert (a + b)[i] == a[i];
      } else {
        var i :| 0 <= i < |b| && b[i].cmd.Once? && RequestOf(b[i].cmd) == x;
        assert (a + b)[|a| + i] == b[i];
      }
    }
  }

  lemma FreshSplit(seen: set<(Client, nat)>, a: seq<Entry>, b: seq<Entry>, known: set<(Client, nat)>)
    requires Fresh(seen, a + b) && known <= seen + Requests(a)
    ensures Fresh(seen, a) && Fresh(known, b)
  {
    assert forall i :: 0 <= i < |a| ==> (a + b)[i] == a[i];
    assert forall i :: 0 <= i < |b| ==> (a + b)[|a| + i] == b[i];
  }

  lemma ConfiguredKnown<S>(m: Machine<S>, e: Entry)
    requires e.cmd.Config?
    ensures Known(Configured(m, e).0.table) <= Known(m.table)
  {
  }

  lemma FreshHead(seen: set<(Client, nat)>, t: Table, entries: seq<Entry>)
    requires Fresh(seen, entries) && entries != [] && Known(t) <= seen
    ensures Retry(t, entries[0].cmd).None?
  {
    NotRetried(t, entries[0].cmd);
  }

  lemma {:induction false} FlushedKnown<S>(sm: Apply<S>, m: Machine<S>, run: seq<Entry>)
    requires NoConfig(run)
    ensures Known(Flushed(sm, m, run).0.table) <= Known(m.table) + Requests(run)
    decreases |run|
  {
    hide Known, Requests, Applied;
    if run != [] {
      var n := |run| - 1;
      FlushedKnown(sm, m, run[..n]);
      AppliedKnown(sm, Flushed(sm, m, run[..n]).0, run[n]);
      assert run == run[..n] + [run[n]];
      RequestsJoin(run[..n], [run[n]]);
    }
  }

  lemma {:induction false} FreshIsSteady<S>(sm: Apply<S>, m: Machine<S>, run: seq<Entry>, entries: seq<Entry>)
    requires NoConfig(run) && Fresh(Known(m.table), run + entries)
    ensures Steady(sm, m, run, entries) && Known(Noticed(sm, m, run, entries).0.table) <= Known(m.table) + Requests(run + entries)
    decreases |entries|
  {
    hide Fresh, Known, Requests, Flushed, Retry;
    FlushedKnown(sm, m, run);
    if entries == [] {
      assert run + entries == run;
    } else {
      var e, rest := entries[0], entries[1..];
      assert run + entries == run + [e] + rest && entries == [e] + rest;
      FreshSplit(Known(m.table), run, entries, Known(m.table) + Requests(run));
      FreshHead(Known(m.table) + Requests(run), m.table, entries);
      FreshHead(Known(m.table) + Requests(run), Flushed(sm, m, run).0.table, entries);
      if !e.cmd.Config? {
        FreshIsSteady(sm, m, run + [e], rest);
      } else {
        var m1 := Interrupted(sm, m, run, e).0;
        ConfiguredKnown(Flushed(sm, m, run).0, e);
        RequestsJoin(run, [e]);
        FreshSplit(Known(m.table), run + [e], rest, Known(m1.table));
        assert [] + rest == rest;
        FreshIsSteady(sm, m1, [], rest);
        RequestsJoin(run + [e], rest);
      }
    }
  }

  /** On a log in which no once-only request occurs twice, every cut is steady, whatever the table's bound. */
  lemma {:induction false} FreshCuts<S>(sm: Apply<S>, m: Machine<S>, cuts: seq<seq<Entry>>)
    requires Fresh(Known(m.table), Flatten(cuts))
    ensures SteadyCuts(sm, m, cuts) && Known(Notices(sm, m, cuts).0.table) <= Known(m.table) + Requests(Flatten(cuts))
    decreases |cuts|
  {
    hide Fresh, Known, Requests, Noticed, Steady;
    if cuts != [] {
      var n := |cuts| - 1;
      var before, last := Flatten(cuts[..n]), cuts[n];
      FreshSplit(Known(m.table), before, last, Known(m.table) + Requests(before));
      FreshCuts(sm, m, cuts[..n]);
      var m1 := Notices(sm, m, cuts[..n]).0;
      FreshSplit(Known(m.table), before, last, Known(m1.table));
      assert [] + last == last;
      FreshIsSteady(sm, m1, [], last);
      RequestsJoin(before, last);
    }
  }

  // ---- Retries in a later notification ------------------------------------------------

  /** No client appears twice. */
  ghost predicate Apart(entries: seq<Entry>) {
    forall i, j :: 0 <= i < j < |entries| && entries[i].cmd.Once? && entries[j].cmd.Once? ==> entries[i].cmd.client != entries[j].cmd.client
  }

  /** No configuration entry bounds the table. */
  ghost predicate Uncapped(entries: seq<Entry>) {
    forall i :: 0 <= i < |entries| ==> Uncaps(entries[i].cmd)
  }

  predicate Uncaps(cmd: Command) {
    cmd.Config? && cmd.newCap.Some? ==> cmd.newCap.value == 0
  }

  predicate By(cmd: Command, c: Client) { cmd.Once? && cmd.client == c }

  lemma {:induction false} LookupFront(r: Record, t: Table, c: Client)
    ensures Lookup([r] + t, c) == if r.id == c then Some(r.ce) else Lookup(t, c)
  {
    assert ([r] + t)[1..] == t;
  }

  lemma {:induction false} FindStep(t: Table, id: Client)
    requires t != []
    ensures Find(t, id) == if t[0].id == id then 0 else 1 + Find(t[1..], id)
  {
  }

  lemma {:induction false} LookupWithout(t: Table, id: Client, c: Client)
    requires c != id
    ensures Lookup(Without(t, id), c) == Lookup(t, c)
    decreases |t|
  {
    hide Find, Lookup;
    if t != [] {
      var rest := t[1..];
      FindStep(t, id);
      assert t == [t[0]] + rest;
      LookupFront(t[0], rest, c);
      if t[0].id == id {
        assert t[..0] + rest == rest;
      } else {
        LookupWithout(rest, id, c);
        WithoutTail(t, id);
        LookupFront(t[0], Without(rest, id), c);
      }
    }
  }

  lemma {:induction false} WithoutTail(t: Table, id: Client)
    requires t != [] && t[0].id != id
    ensures Without(t, id) == [t[0]] + Without(t[1..], id)
  {
    hide Find;
    FindStep(t, id);
    var rest, i := t[1..], Find(t[1..], id);
    assert t == [t[0]] + rest;
    if i < |rest| { assert t[..1 + i] == [t[0]] + rest[..i] && t[2 + i..] == rest[i + 1..]; }
  }

  /** In an unbounded table a write is the client's record and nobody else's. */
  lemma {:induction false} WrittenLookup(t: Table, id: Client, ce: Cached, c: Client)
    requires Distinct(t)
    ensures Lookup(Written(t, 0, id, ce), c) == if c == id then Some(ce) else Lookup(t, c)
    ensures Distinct(Written(t, 0, id, ce))
  {
    hide Distinct, Find, Lookup, Without;
    PutDistinct(t, 0, id, ce);
    LookupFront(Record(id, ce), Without(t, id), c);
    if c != id { LookupWithout(t, id, c); }
  }

  lemma OneLookup<S>(sm: Apply<S>, m: Machine<S>, e: Entry, c: Client)
    requires m.cap == 0 && Distinct(m.table) && Uncaps(e.cmd)
    ensures var (m1, r) := One(sm, m, e);
      && m1.cap == 0 && Distinct(m1.table)
      && Lookup(m1.table, c) == if By(e.cmd, c) && r.out.Ok? then Some(Cached(e.cmd.seqNum, r.out.value)) else Lookup(m.table, c)
  {
    hide Lookup, Written;
    if !e.cmd.Config? && Retry(m.table, e.cmd).None? && e.cmd.Once? {
      var out := sm(m.state, e.cmd.payload).1;
      if out.Ok? { WrittenLookup(m.table, e.cmd.client, Cached(e.cmd.seqNum, out.value), c); }
    }
  }

  lemma {:induction false} FlushedLookup<S>(sm: Apply<S>, m: Machine<S>, run: seq<Entry>, c: Client)
    requires NoConfig(run) && m.cap == 0 && Distinct(m.table) && forall i :: 0 <= i < |run| ==> !By(run[i].cmd, c)
    ensures var m1 := Flushed(sm, m, run).0; m1.cap == 0 && Distinct(m1.table) && Lookup(m1.table, c) == Lookup(m.table, c)
    decreases |run|
  {
    hide Lookup, Written, Distinct;
    if run != [] {
      var n := |run| - 1;
      FlushedLookup(sm, m, run[..n], c);
      var m1, e := Flushed(sm, m, run[..n]).0, run[n];
      if e.cmd.Once? {
        var out := sm(m1.state, e.cmd.payload).1;
        if out.Ok? { WrittenLookup(m1.table, e.cmd.client, Cached(e.cmd.seqNum, out.value), c); }
      }
    }
  }

  lemma {:induction false} FlushedUncapped<S>(sm: Apply<S>, m: Machine<S>, run: seq<Entry>)
    requires NoConfig(run) && m.cap == 0 && Distinct(m.table)
    ensures Flushed(sm, m, run).0.cap == 0 && Distinct(Flushed(sm, m, run).0.table)
    decreases |run|
  {
    hide Written, Distinct;
    if run != [] {
      var n := |run| - 1;
      FlushedUncapped(sm, m, run[..n]);
      var m1, e := Flushed(sm, m, run[..n]).0, run[n];
      if e.cmd.Once? {
        PutDistinct(m1.table, 0, e.cmd.client, Cached(e.cmd.seqNum, if sm(m1.state, e.cmd.payload).1.Ok? then sm(m1.state, e.cmd.payload).1.value else 0));
      }
    }
  }

  /** With an unbounded table and each client at most once in a notification, the notification is steady, retries or not. */
  lemma {:induction false} ApartIsSteady<S>(sm: Apply<S>, m: Machine<S>, run: seq<Entry>, entries: seq<Entry>)
    requires NoConfig(run) && m.cap == 0 && Distinct(m.table) && Apart(run + entries) && Uncapped(entries)
    ensures Steady(sm, m, run, entries)
    ensures Noticed(sm, m, run, entries).0.cap == 0 && Distinct(Noticed(sm, m, run, entries).0.table)
    decreases |entries|
  {
    hide Distinct, Flushed, Lookup, Apart;
    FlushedUncapped(sm, m, run);
    if entries != [] {
      var e, rest := entries[0], entries[1..];
      assert run + entries == run + [e] + rest;
      if e.cmd.Once? {
        assert forall i :: 0 <= i < |run| ==> !By(run[i].cmd, e.cmd.client) by { ApartFrom(run, entries); }
        FlushedLookup(sm, m, run, e.cmd.client);
      }
      assert SameAnswer(sm, m, run, e);
      if Collects(m, e) {
        ApartIsSteady(sm, m, run + [e], rest);
      } else {
        assert Apart([] + rest) by { ApartTail(run + [e], rest); }
        assert Uncaps(e.cmd);
        ApartIsSteady(sm, Interrupted(sm, m, run, e).0, [], rest);
      }
    }
  }

  lemma ApartFrom(run: seq<Entry>, entries: seq<Entry>)
    requires Apart(run + entries) && entries != [] && entries[0].cmd.Once?
    ensures forall i :: 0 <= i < |run| ==> !By(run[i].cmd, entries[0].cmd.client)
  {
    forall i | 0 <= i < |run| ensures !By(run[i].cmd, entries[0].cmd.client) {
      assert (run + entries)[i] == run[i] && (run + entries)[|run|] == entries[0];
    }
  }

  lemma ApartTail(a: seq<Entry>, b: seq<Entry>)
    requires Apart(a + b)
    ensures Apart([] + b)
  {
    assert [] + b == b;
    forall i, j | 0 <= i < j < |b| && b[i].cmd.Once? && b[j].cmd.Once? ensures b[i].cmd.client != b[j].cmd.client {
      assert (a + b)[|a| + i] == b[i] && (a + b)[|a| + j] == b[j];
    }
  }

  ghost predicate ApartCuts(cuts: seq<seq<Entry>>) {
    forall k :: 0 <= k < |cuts| ==> Apart(cuts[k]) && Uncapped(cuts[k])
  }

  lemma {:induction false} ApartIsSteadyCuts<S>(sm: Apply<S>, m: Machine<S>, cuts: seq<seq<Entry>>)
    requires m.cap == 0 && Distinct(m.table) && ApartCuts(cuts)
    ensures SteadyCuts(sm, m, cuts) && Notices(sm, m, cuts).0.cap == 0 && Distinct(Notices(sm, m, cuts).0.table)
    decreases |cuts|
  {
    hide Distinct, Steady, Noticed, Apart, Uncapped;
    if cuts != [] {
      var n := |cuts| - 1;
      ApartIsSteadyCuts(sm, m, cuts[..n]);
      assert [] + cuts[n] == cuts[n];
      ApartIsSteady(sm, Notices(sm, m, cuts[..n]).0, [], cuts[n]);
    }
  }

  // ---- Exactly once ------------------------------------------------------------------

  /** From a success on, as long as the client uses no other number, the table remembers it. */
  lemma {:induction false} Remembered<S>(sm: Apply<S>, m: Machine<S>, es: seq<Entry>, i: nat, j: nat)
    requires m.cap == 0 && Distinct(m.table) && Uncapped(es) && i < j <= |es| && es[i].cmd.Once?
    requires forall k :: i < k < j && By(es[k].cmd, es[i].cmd.client) ==> es[k].cmd.seqNum == es[i].cmd.seqNum
    requires One(sm, OneByOne(sm, m, es[..i]).0, es[i]).1.out.Ok?
    ensures var m1 := OneByOne(sm, m, es[..j]).0;
      && m1.cap == 0 && Distinct(m1.table)
      && Lookup(m1.table, es[i].cmd.client) == Some(Cached(es[i].cmd.seqNum, One(sm, OneByOne(sm, m, es[..i]).0, es[i]).1.out.value))
    decreases j
  {
    hide Lookup, Distinct, One, Uncapped;
    var k, c := j - 1, es[i].cmd.client;
    assert es[..j][..k] == es[..k] && es[..j][k] == es[k];
    assert Uncaps(es[k].cmd) by { assert Uncapped(es); UncappedAt(es, k); }
    if k == i {
      Unbounded(sm, m, es, i);
      OneLookup(sm, OneByOne(sm, m, es[..i]).0, es[i], c);
    } else {
      Remembered(sm, m, es, i, k);
      var m1 := OneByOne(sm, m, es[..k]).0;
      OneLookup(sm, m1, es[k], c);
      if By(es[k].cmd, c) { RetryIs(sm, m1, es[k]); }
    }
  }

  lemma UncappedAt(es: seq<Entry>, k: nat)
    requires Uncapped(es) && k < |es|
    ensures Uncaps(es[k].cmd)
  {
  }

  lemma RetryIs<S>(sm: Apply<S>, m: Machine<S>, e: Entry)
    requires e.cmd.Once? && Lookup(m.table, e.cmd.client).Some? && Lookup(m.table, e.cmd.client).value.seqNum == e.cmd.seqNum
    ensures One(sm, m, e) == (m, Result(e.index, Ok(Lookup(m.table, e.cmd.client).value.result), e.cmd))
  {
  }

  lemma {:induction false} Unbounded<S>(sm: Apply<S>, m: Machine<S>, es: seq<Entry>, j: nat)
    requires m.cap == 0 && Distinct(m.table) && Uncapped(es) && j <= |es|
    ensures var m1 := OneByOne(sm, m, es[..j]).0; m1.cap == 0 && Distinct(m1.table)
    decreases j
  {
    hide Distinct, One;
    if j > 0 {
      Unbounded(sm, m, es, j - 1);
      assert es[..j][..j - 1] == es[..j - 1] && es[..j][j - 1] == es[j - 1];
      OneLookup(sm, OneByOne(sm, m, es[..j - 1]).0, es[j - 1], 0);
    }
  }

  /** The result at a position of the reference. */
  lemma {:induction false} ResultAt<S>(sm: Apply<S>, m: Machine<S>, es: seq<Entry>, i: nat)
    requires i < |es|
    ensures |OneByOne(sm, m, es).1| == |es| && OneByOne(sm, m, es).1[i] == One(sm, OneByOne(sm, m, es[..i]).0, es[i]).1
  {
    OneByOneSize(sm, m, es);
    assert es == es[..i] + es[i..];
    ReferenceSays(sm, m, es[..i], es[i..]);
  }

  /**
    Exactly once: however the log is cut, as long as the table is unbounded and
    a notification names a client at most once, a request that succeeded and is
    committed again, with no other number of its client in between, gets the
    first answer and the state machine does not see it.
   */
  lemma {:induction false} RetriedOnce<S>(sm: Apply<S>, m: Machine<S>, cuts: seq<seq<Entry>>, i: nat, j: nat)
    requires m.cap == 0 && Distinct(m.table) && ApartCuts(cuts)
    requires i < j < |Flatten(cuts)| && Flatten(cuts)[i].cmd.Once? && By(Flatten(cuts)[j].cmd, Flatten(cuts)[i].cmd.client)
    requires forall k :: i < k <= j && By(Flatten(cuts)[k].cmd, Flatten(cuts)[i].cmd.client) ==>
               Flatten(cuts)[k].cmd.seqNum == Flatten(cuts)[i].cmd.seqNum
    ensures var es, rs := Flatten(cuts), Notices(sm, m, cuts).1;
      |rs| == |es| && (rs[i].out.Ok? ==> rs[j].out == rs[i].out && OneByOne(sm, m, es[..j + 1]).0 == OneByOne(sm, m, es[..j]).0)
  {
    hide Distinct, ApartCuts, SteadyCuts, Notices, One, Lookup;
    var es := Flatten(cuts);
    ApartIsSteadyCuts(sm, m, cuts);
    CutsDoNotMatter(sm, m, cuts);
    FlattenUncapped(cuts);
    ResultAt(sm, m, es, i);
    ResultAt(sm, m, es, j);
    if One(sm, OneByOne(sm, m, es[..i]).0, es[i]).1.out.Ok? {
      Remembered(sm, m, es, i, j);
      RetryIs(sm, OneByOne(sm, m, es[..j]).0, es[j]);
      assert es[..j + 1][..j] == es[..j] && es[..j + 1][j] == es[j];
    }
  }

  lemma {:induction false} FlattenUncapped(cuts: seq<seq<Entry>>)
    requires ApartCuts(cuts)
    ensures Uncapped(Flatten(cuts))
    decreases |cuts|
  {
    hide Apart;
    if cuts != [] { FlattenUncapped(cuts[..|cuts| - 1]); }
  }

  // ---- One notification, read off the log -----------------------------------------------

  ghost predicate AlwaysOk<S(!new)>(sm: Apply<S>) {
    forall s, p :: sm(s, p).1.Ok?
  }

  /** The number a client used last. */
  function LastNumber(es: seq<Entry>, c: Client): Option<nat> {
    if es == [] then None
    else if By(es[|es| - 1].cmd, c) then Some(es[|es| - 1].cmd.seqNum)
    else LastNumber(es[..|es| - 1], c)
  }

  /** An entry repeats the number its client used last. */
  predicate Repeats(es: seq<Entry>, j: nat)
    requires j < |es|
  {
    es[j].cmd.Once? && LastNumber(es[..j], es[j].cmd.client) == Some(es[j].cmd.seqNum)
  }

  lemma {:induction false} FlushedLast<S(!new)>(sm: Apply<S>, m: Machine<S>, run: seq<Entry>, c: Client)
    requires AlwaysOk(sm) && NoConfig(run) && m.cap == 0 && m.table == []
    ensures var m1 := Flushed(sm, m, run).0;
      && m1.cap == 0 && Distinct(m1.table)
      && Lookup(m1.table, c).Some? == LastNumber(run, c).Some?
      && (Lookup(m1.table, c).Some? ==> Lookup(m1.table, c).value.seqNum == LastNumber(run, c).value)
    decreases |run|
  {
    hide Written, Distinct;
    if run == [] {
      assert Distinct(m.table) by { EmptyDistinct(); }
    } else {
      var n := |run| - 1;
      FlushedLast(sm, m, run[..n], c);
      var m1, e := Flushed(sm, m, run[..n]).0, run[n];
      if e.cmd.Once? {
        var out := sm(m1.state, e.cmd.payload).1;
        WrittenLookup(m1.table, e.cmd.client, Cached(e.cmd.seqNum, out.value), c);
      }
    }
  }

  lemma EmptyDistinct()
    ensures Distinct([])
  {
  }

  lemma {:induction false} SteadyIffFrom<S(!new)>(sm: Apply<S>, m: Machine<S>, run: seq<Entry>, entries: seq<Entry>)
    requires AlwaysOk(sm) && NoConfig(run + entries) && NoConfig(run) && m.cap == 0 && m.table == []
    ensures Steady(sm, m, run, entries) <==> forall j :: |run| <= j < |run + entries| ==> !Repeats(run + entries, j)
    decreases |entries|
  {
    hide Flushed, AlwaysOk;
    if entries != [] {
      var e, rest, n := entries[0], entries[1..], |run|;
      var es := run + entries;
      assert es == run + [e] + rest && es[n] == e && es[..n] == run;
      assert !e.cmd.Config?;
      if e.cmd.Once? { FlushedLast(sm, m, run, e.cmd.client); }
      assert Collects(m, e);
      assert SameAnswer(sm, m, run, e) <==> !Repeats(es, n);
      SteadyIffFrom(sm, m, run + [e], rest);
      assert (forall j :: n <= j < |es| ==> !Repeats(es, j)) <==> !Repeats(es, n) && forall j :: n + 1 <= j < |es| ==> !Repeats(es, j);
    }
  }

  /**
    One notification to a fresh node, without configuration entries: if every
    command succeeds, the loop answers what one entry at a time would answer
    exactly when no entry repeats the number its client used last.
   */
  lemma {:induction false} RepeatsIff<S(!new)>(sm: Apply<S>, size: S -> nat, m: Machine<S>, es: seq<Entry>)
    requires AlwaysOk(sm) && Tells(sm, size) && NoConfig(es) && m.cap == 0 && m.table == []
    ensures Noticed(sm, m, [], es).1 == OneByOne(sm, m, es).1 <==> forall j :: 0 <= j < |es| ==> !Repeats(es, j)
  {
    hide AlwaysOk, Tells, Steady, Noticed, Repeats;
    assert [] + es == es;
    SteadyIffFrom(sm, m, [], es);
    if Steady(sm, m, [], es) {
      LastNotice(sm, m, es);
    } else {
      LastNoticeShows(sm, size, m, es);
    }
  }

  /** A revision counter tells its successes apart, so these conditions can be met. */
  function Ticker(s: nat, p: Payload): (nat, Outcome) {
    (s + 1, Ok(s + 1))
  }

  lemma TickerTells()
    ensures Tells(Ticker, (s: nat) => s) && AlwaysOk(Ticker)
  {
  }

  // ---- A request twice in one notification ------------------------------------------

  /** The same request twice in one notification is applied twice; one at a time it is applied once. */
  lemma {:induction false} RepeatInOneNotice(a: Entry, b: Entry)
    requires a.cmd.Once? && b.cmd == a.cmd && a.cmd.payload > 0
    ensures
      var m := Machine(0, [], 0);
      && Noticed(Adder, m, [], [a, b]).0.state == 2 * a.cmd.payload
      && OneByOne(Adder, m, [a, b]).0.state == a.cmd.payload
  {
    var m := Machine(0, [], 0);
    AppliedTwice(m, a, b);
    AppliedOnce(m, a, b);
  }

  lemma {:induction false} AppliedTwice(m: Machine<nat>, a: Entry, b: Entry)
    requires a.cmd.Once? && b.cmd == a.cmd && m.table == []
    ensures Noticed(Adder, m, [], [a, b]).0.state == m.state + 2 * a.cmd.payload
  {
    hide Lookup;
    assert [a, b][1..] == [b] && [b][1..] == [] && [] + [a] == [a] && [a] + [b] == [a, b];
    assert [a, b][..1] == [a] && [a][..0] == [] && Retry(m.table, a.cmd).None? by { NotRetried(m.table, a.cmd); }
    assert Noticed(Adder, m, [], [a, b]) == Noticed(Adder, m, [a], [b]) == Noticed(Adder, m, [a, b], [b][1..]) == Flushed(Adder, m, [a, b]);
    assert Flushed(Adder, m, [a]).0.state == m.state + a.cmd.payload;
  }

  lemma {:induction false} AppliedOnce(m: Machine<nat>, a: Entry, b: Entry)
    requires a.cmd.Once? && b.cmd == a.cmd && m.table == []
    ensures OneByOne(Adder, m, [a, b]).0.state == m.state + a.cmd.payload
  {
    assert [a, b][..1] == [a] && [a][..0] == [];
    assert OneByOne(Adder, m, [a][..0]) == (m, []);
    var m1 := One(Adder, m, a).0;
    assert m1.table == [Record(a.cmd.client, Cached(a.cmd.seqNum, m.state + a.cmd.payload))];
    assert Retry(m1.table, b.cmd) == Some(m.state + a.cmd.payload);
  }

  // ---- Both tables, however commits are cut ----------------------------------------------

  lemma {:induction false} HighestAtLeast(hi: map<Client, nat>, es: seq<Entry>, c: Client)
    requires Rising(hi, es)
    ensures c in hi ==> c in Highest(hi, es) && Highest(hi, es)[c] >= hi[c]
    ensures forall i :: 0 <= i < |es| && By(es[i].cmd, c) ==> c in Highest(hi, es) && Highest(hi, es)[c] >= es[i].cmd.seqNum
    decreases |es|
  {
    hide Rising;
    if es != [] {
      var n := |es| - 1;
      RisingPrefix(hi, es, n);
      RisingAt(hi, es, n);
      HighestAtLeast(hi, es[..n], c);
      forall i | 0 <= i < |es| && By(es[i].cmd, c) ensures c in Highest(hi, es) && Highest(hi, es)[c] >= es[i].cmd.seqNum {
        if i < n { assert es[..n][i] == es[i]; }
      }
    }
  }

  lemma {:induction false} RisingAt(hi: map<Client, nat>, es: seq<Entry>, n: nat)
    requires Rising(hi, es) && n < |es|
    ensures CountsUp(Highest(hi, es[..n]), es[n].cmd)
  {
  }

  lemma RisingPrefix(hi: map<Client, nat>, es: seq<Entry>, n: nat)
    requires Rising(hi, es) && n <= |es|
    ensures Rising(hi, es[..n])
  {
    forall i | 0 <= i < n ensures CountsUp(Highest(hi, es[..n][..i]), es[..n][i].cmd) {
      assert es[..n][..i] == es[..i] && CountsUp(Highest(hi, es[..i]), es[i].cmd);
    }
  }

  /** Clients that count up never repeat a request. */
  lemma RisingIsFresh(t: Table, hi: map<Client, nat>, es: seq<Entry>)
    requires Below(t, hi) && Rising(hi, es)
    ensures Fresh(Known(t), es)
  {
    hide Highest;
    forall i | 0 <= i < |es| && es[i].cmd.Once? ensures RequestOf(es[i].cmd) !in Known(t) {
      assert CountsUp(Highest(hi, es[..i]), es[i].cmd);
      RisingPrefix(hi, es, i);
      HighestAtLeast(hi, es[..i], es[i].cmd.client);
    }
    forall i, j | 0 <= i < j < |es| && es[i].cmd.Once? && es[j].cmd.Once? ensures RequestOf(es[i].cmd) != RequestOf(es[j].cmd) {
      assert CountsUp(Highest(hi, es[..j]), es[j].cmd);
      RisingPrefix(hi, es, j);
      HighestAtLeast(hi, es[..j], es[j].cmd.client);
      assert es[..j][i] == es[i];
    }
  }

  /**
    If every client counts up, then however commits are cut into notifications
    the results are those of the entries one at a time, and the table the event
    loop keeps from the first `k` of them is the apply loop's after `k` entries.
   */
  lemma {:induction false} LockstepCuts<S>(sm: Apply<S>, m: Machine<S>, cuts: seq<seq<Entry>>, hi: map<Client, nat>, k: nat)
    requires Distinct(m.table) && Below(m.table, hi) && Rising(hi, Flatten(cuts)) && k <= |Flatten(cuts)|
    ensures Notices(sm, m, cuts) == OneByOne(sm, m, Flatten(cuts)) && |Notices(sm, m, cuts).1| == |Flatten(cuts)|
    ensures var m1 := OneByOne(sm, m, Flatten(cuts)[..k]).0;
      RecordedAll(m.table, m.cap, Notices(sm, m, cuts).1[..k]) == (m1.table, m1.cap)
  {
    hide Distinct, Below, Rising, Fresh, SteadyCuts, Notices, RecordedAll, OneByOne, Highest;
    var es := Flatten(cuts);
    RisingIsFresh(m.table, hi, es);
    FreshCuts(sm, m, cuts);
    CutsDoNotMatter(sm, m, cuts);
    RisingPrefix(hi, es, k);
    Lockstep(sm, m, es[..k], hi);
    assert es == es[..k] + es[k..];
    OneByOneSplit(sm, m, es[..k], es[k..]);
    OneByOneSize(sm, m, es[..k]);
    OneByOneSize(sm, m, es);
  }
}
