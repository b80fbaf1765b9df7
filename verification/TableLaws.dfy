/**
  The exactly-once table, record by record: whom a write or a smaller bound
  drops, what a lookup finds, what saved records load as, and that a table with
  a fixed bound holds exactly the clients written last.
 */
module TableLaws {

  import opened Wrappers
  import opened Selection
  import opened ClientTable

  lemma FoundOrNot(t: Table, id: Client)
    ensures Has(t, id) <==> exists r :: r in t && r.id == id
  {
    hide Find;
    if Has(t, id) { assert t[Find(t, id)] in t; }
  }

  /** A lookup finds the client's one record, or says that there is none. */
  lemma LookupExactly(t: Table, id: Client, ce: Cached)
    requires Distinct(t)
    ensures Lookup(t, id) == Some(ce) <==> Record(id, ce) in t
    ensures Lookup(t, id) == None <==> forall r :: r in t ==> r.id != id
  {
    hide Find;
    FoundOrNot(t, id);
    if Has(t, id) {
      var i := Find(t, id);
      assert t[i] in t && t[i].id == id;
      if Record(id, ce) in t {
        var k :| 0 <= k < |t| && t[k] == Record(id, ce);
        FindIs(t, id, k);
      }
    }
  }

  lemma {:induction false} OthersStay(t: Table, id: Client)
    requires Distinct(t)
    ensures Selects(t, Without(t, id), (r: Record) => r.id != id)
  {
    hide Find, Distinct, Picked, Chosen;
    var i, out := Find(t, id), Without(t, id);
    var at: seq<nat> := seq(|out|, k requires 0 <= k < |out| => if k < i then k else k + 1);
    assert Picked(t, out, at) by { OthersPicked(t, id, at); }
    assert Chosen(t, at, (r: Record) => r.id != id) by { OthersChosen(t, id, at); }
  }

  lemma {:induction false} OthersPicked(t: Table, id: Client, at: seq<nat>)
    requires at == seq(|Without(t, id)|, k requires 0 <= k < |Without(t, id)| => if k < Find(t, id) then k else k + 1)
    ensures Picked(t, Without(t, id), at)
  {
    hide Find;
  }

  lemma {:induction false} OthersChosen(t: Table, id: Client, at: seq<nat>)
    requires Distinct(t) && at == seq(|Without(t, id)|, k requires 0 <= k < |Without(t, id)| => if k < Find(t, id) then k else k + 1)
    ensures Chosen(t, at, (r: Record) => r.id != id)
  {
    hide Find;
    var i := Find(t, id);
    forall k | 0 <= k < |t| ensures k in at <==> t[k].id != id {
      if k < i {
        assert at[k] == k;
      } else if k > i {
        assert at[k - 1] == k && t[i].id == id;
      }
    }
  }

  /**
    A write puts its client first and leaves the others in order; a new client
    that finds the table full drops the one written longest ago, and only then.
   */
  lemma WriteExactly(t: Table, cap: nat, id: Client, ce: Cached)
    requires Distinct(t) && Fits(t, cap)
    ensures var t' := Written(t, cap, id, ce);
      var drops := cap > 0 && |t| == cap && forall r :: r in t ==> r.id != id;
      && t' != [] && t'[0] == Record(id, ce)
      && Selects(if drops then t[..|t| - 1] else t, t'[1..], (r: Record) => r.id != id)
      && Dropped(t, cap, Wrote(id, ce)) == if drops then [t[|t| - 1].id] else []
  {
    hide Find, Selects, Distinct, Dropped, Has;
    FoundOrNot(t, id);
    OthersStay(t, id);
    WriteDrops(t, cap, id, ce);
    var t1 := [Record(id, ce)] + Without(t, id);
    assert t1[1..] == Without(t, id);
    if cap > 0 && |t| == cap && !Has(t, id) {
      assert Written(t, cap, id, ce) == t1[..cap] && t1[..cap][1..] == t[..|t| - 1];
      assert Distinct(t[..|t| - 1]) by { NotBefore(t, |t| - 1); }
      NoOthers(t[..|t| - 1], id);
      assert ([Record(id, ce)] + t)[|t|] == t[|t| - 1];
    }
  }

  lemma NoOthers(t: Table, id: Client)
    requires Distinct(t) && forall r :: r in t ==> r.id != id
    ensures Selects(t, t, (r: Record) => r.id != id)
  {
    hide Selects, Distinct;
    OthersStay(t, id);
    FoundOrNot(t, id);
  }

  /** A smaller bound keeps the front of the table and drops the rest, the one written longest ago first. */
  lemma {:induction false} CapExactly(t: Table, cap: nat, j: nat)
    ensures cap == 0 || |t| <= cap ==> SetCap(t, cap) == t && Dropped(t, 0, Capped(cap)) == []
    ensures 0 < cap < |t| ==>
      && SetCap(t, cap) == t[..cap] && |Dropped(t, 0, Capped(cap))| == |t| - cap
      && (j < |t| - cap ==> Dropped(t, 0, Capped(cap))[j] == t[|t| - 1 - j].id)
    decreases |t|
  {
    if 0 < cap < |t| { CapExactly(t[..|t| - 1], cap, if j > 0 then j - 1 else 0); }
  }

  // ---- Saved records ---------------------------------------------------------------

  /** The first record of its client. */
  ghost predicate First(records: seq<Record>, k: nat)
    requires k < |records|
  {
    forall j :: 0 <= j < k ==> records[j].id != records[k].id
  }

  ghost predicate Firsts(records: seq<Record>, at: seq<nat>) {
    forall k :: 0 <= k < |records| ==> (k in at <==> First(records, k))
  }

  ghost predicate Covers(t: Table, records: seq<Record>) {
    forall k :: 0 <= k < |records| ==> Has(t, records[k].id)
  }

  /** Loading without a bound keeps every client's first record, in order; a bound keeps as many of those as it allows. */
  lemma {:induction false} LoadExactly(cap: nat, records: seq<Record>)
    ensures exists at: seq<nat> :: Picked(records, Load(0, records), at) && Firsts(records, at)
    ensures Covers(Load(0, records), records)
    ensures Load(cap, records) == Bounded(Load(0, records), cap)
    decreases |records|
  {
    hide Picked, Firsts, Covers, Has, Bounded;
    if records == [] {
      assert Picked(records, [], []) && Firsts(records, []) && Covers([], records) by { NothingLoaded(records); }
      assert Bounded([], cap) == [] by { NothingBounded(cap); }
    } else {
      var n := |records| - 1;
      var before, x := records[..n], records[n];
      LoadExactly(cap, before);
      var t := Load(0, before);
      assert records == before + [x];
      var at: seq<nat> :| Picked(before, t, at) && Firsts(before, at);
      FirstHas(before, t, at, x);
      PickedMore(before, t, at, x);
      FirstsMore(before, t, at, x);
      CoversMore(before, t, x);
      LoadBound(cap, records);
    }
  }

  lemma NothingLoaded(records: seq<Record>)
    requires records == []
    ensures Picked(records, [], []) && Firsts(records, []) && Covers([], records)
  {
  }

  lemma NothingBounded(cap: nat)
    ensures Bounded([], cap) == []
  {
  }

  lemma FirstHas(before: seq<Record>, t: Table, at: seq<nat>, x: Record)
    requires Picked(before, t, at) && Covers(t, before)
    ensures Has(t, x.id) <==> !First(before + [x], |before|)
  {
    hide Find;
    var all := before + [x];
    if Has(t, x.id) { assert all[at[Find(t, x.id)]].id == x.id; }
    if !First(all, |before|) {
      var j :| 0 <= j < |before| && all[j].id == x.id;
      assert Has(t, before[j].id);
    }
  }

  lemma FirstsMore(before: seq<Record>, t: Table, at: seq<nat>, x: Record)
    requires Picked(before, t, at) && Firsts(before, at)
    ensures Firsts(before + [x], if First(before + [x], |before|) then at + [|before|] else at)
  {
    var all := before + [x];
    var at' := if First(all, |before|) then at + [|before|] else at;
    forall k | 0 <= k < |all| ensures k in at' <==> First(all, k) {
      if k < |before| {
        assert forall j :: 0 <= j <= k ==> all[j] == before[j];
        assert First(all, k) <==> First(before, k);
      }
    }
  }

  lemma CoversMore(before: seq<Record>, t: Table, x: Record)
    requires Covers(t, before)
    ensures Has(t, x.id) ==> Covers(t, before + [x])
    ensures Covers(t + [x], before + [x])
  {
    hide Find;
    forall k | 0 <= k <= |before| ensures Has(t + [x], (before + [x])[k].id) {
      var c := (before + [x])[k].id;
      FoundOrNot(t + [x], c);
      if k < |before| {
        var i := Find(t, before[k].id);
        assert Has(t, before[k].id) && (t + [x])[i] in t + [x];
      } else {
        assert (t + [x])[|t|] in t + [x];
      }
    }
  }

  lemma {:induction false} LoadBound(cap: nat, records: seq<Record>)
    requires records != [] && Load(cap, records[..|records| - 1]) == Bounded(Load(0, records[..|records| - 1]), cap)
    ensures Load(cap, records) == Bounded(Load(0, records), cap)
  {
    hide Find;
    var n := |records| - 1;
    var full, t := Load(0, records[..n]), Load(cap, records[..n]);
  }

  // ---- A fixed bound -----------------------------------------------------------------

  ghost predicate Uncapped(history: seq<Event>) {
    forall i :: 0 <= i < |history| ==> history[i].Wrote?
  }

  /** With a bound that never moves, the table is exactly the clients written last, as many as the bound allows. */
  lemma {:induction false} ExactlyTheMostRecent(history: seq<Event>, cap: nat)
    requires Uncapped(history)
    ensures After([], cap, history) == Bounded(Recent(history), cap) && CapAfter(cap, history) == cap
    decreases |history|
  {
    if history != [] {
      var h, e := history[..|history| - 1], history[|history| - 1];
      assert Uncapped(h);
      ExactlyTheMostRecent(h, cap);
      RecentDistinct(h);
      assert e.Wrote?;
      WrittenBounded(Recent(h), cap, e.id, e.ce);
    }
  }

  lemma {:induction false} WrittenBounded(r: Table, cap: nat, id: Client, ce: Cached)
    requires Distinct(r)
    ensures Written(Bounded(r, cap), cap, id, ce) == Bounded([Record(id, ce)] + Without(r, id), cap)
  {
    hide Distinct, Find;
    var t, i := Bounded(r, cap), Find(r, id);
    if cap > 0 && |r| > cap {
      CutFind(r, cap, id);
      var w := [Record(id, ce)] + Without(r, id);
      if i < cap {
        assert w[..cap] == [Record(id, ce)] + (t[..i] + t[i + 1..]);
      } else {
        assert w[..cap] == ([Record(id, ce)] + t)[..cap];
      }
    }
  }

  lemma {:induction false} CutFind(r: Table, n: nat, id: Client)
    requires n <= |r|
    ensures Find(r[..n], id) == if Find(r, id) < n then Find(r, id) else n
    decreases |r|
  {
    if n > 0 && r[0].id != id {
      assert r[..n][1..] == r[1..][..n - 1];
      CutFind(r[1..], n - 1, id);
    }
  }

  /** When a client was written last; -1 if never. */
  function LastWrite(h: seq<Event>, c: Client): (k: int)
    ensures -1 <= k < |h| && (k >= 0 ==> h[k].Wrote? && h[k].id == c)
    ensures forall j :: k < j < |h| && h[j].Wrote? ==> h[j].id != c
  {
    if h == [] then -1
    else if h[|h| - 1].Wrote? && h[|h| - 1].id == c then |h| - 1
    else LastWrite(h[..|h| - 1], c)
  }

  lemma {:induction false} LastWriteStep(h: seq<Event>, e: Event, c: Client)
    ensures LastWrite(h + [e], c) == if e.Wrote? && e.id == c then |h| else LastWrite(h, c)
  {
    assert (h + [e])[..|h|] == h;
  }

  /** The record is the client's last write. */
  ghost predicate Latest(h: seq<Event>, x: Record) {
    LastWrite(h, x.id) >= 0 && h[LastWrite(h, x.id)] == Wrote(x.id, x.ce)
  }

  /** Everybody ever written is there with what was written last, the latest first. */
  ghost predicate ByLastWrite(h: seq<Event>, r: Table) {
    && (forall i :: 0 <= i < |r| ==> Latest(h, r[i]))
    && (forall i, j :: 0 <= i < j < |r| ==> LastWrite(h, r[i].id) > LastWrite(h, r[j].id))
    && (forall c :: LastWrite(h, c) >= 0 ==> Has(r, c))
  }

  lemma {:induction false} RecentExactly(h: seq<Event>)
    ensures ByLastWrite(h, Recent(h))
    decreases |h|
  {
    hide ByLastWrite, Without;
    if h == [] {
      assert ByLastWrite(h, []) by { NothingWritten(h); }
    } else {
      var before, e := h[..|h| - 1], h[|h| - 1];
      assert h == before + [e];
      RecentExactly(before);
      RecentDistinct(before);
      if e.Wrote? { WriteReorders(before, Recent(before), e); } else { CapReorders(before, Recent(before), e); }
    }
  }

  lemma NothingWritten(h: seq<Event>)
    requires h == []
    ensures ByLastWrite(h, [])
  {
  }

  lemma CapReorders(h: seq<Event>, r: Table, e: Event)
    requires ByLastWrite(h, r) && e.Capped?
    ensures ByLastWrite(h + [e], r)
  {
    hide LastWrite, Has;
    forall c ensures LastWrite(h + [e], c) == LastWrite(h, c) { LastWriteStep(h, e, c); }
  }

  lemma {:induction false} WriteReorders(h: seq<Event>, r: Table, e: Event)
    requires ByLastWrite(h, r) && e.Wrote?
    ensures ByLastWrite(h + [e], [Record(e.id, e.ce)] + Without(r, e.id))
  {
    hide LastWrite, Has, Find, Without;
    var h', w := h + [e], Without(r, e.id);
    var r' := [Record(e.id, e.ce)] + w;
    LastWriteStep(h, e, e.id);
    assert forall i, j :: 0 <= i < j < |r| ==> r[i].id != r[j].id;
    forall i | 0 <= i < |w| ensures Latest(h', w[i]) && LastWrite(h', w[i].id) < |h| {
      WithoutFrom(r, e.id, i);
      LastWriteStep(h, e, w[i].id);
    }
    forall i, j | 0 <= i < j < |w| ensures LastWrite(h', w[i].id) > LastWrite(h', w[j].id) {
      WithoutFrom(r, e.id, i);
      WithoutFrom(r, e.id, j);
      LastWriteStep(h, e, w[i].id);
      LastWriteStep(h, e, w[j].id);
    }
    forall c | LastWrite(h', c) >= 0 ensures Has(r', c) {
      LastWriteStep(h, e, c);
      StillThere(r, e.id, Record(e.id, e.ce), c);
    }
  }

  /** Where a record that stays was before. */
  lemma {:induction false} WithoutFrom(r: Table, id: Client, i: nat)
    requires Distinct(r) && i < |Without(r, id)|
    ensures var k := if i < Find(r, id) then i else i + 1;
      k < |r| && Without(r, id)[i] == r[k] && r[k].id != id
  {
    hide Find;
  }

  lemma StillThere(r: Table, id: Client, x: Record, c: Client)
    requires x.id == id && (c == id || Has(r, c))
    ensures Has([x] + Without(r, id), c)
  {
    hide Find;
    var w, f := Without(r, id), Find(r, id);
    FoundOrNot([x] + w, c);
    if c == id {
      assert ([x] + w)[0] in [x] + w;
    } else {
      var k := Find(r, c);
      assert w[if k < f then k else k - 1] == r[k];
    }
  }
}
