/**
  The exactly-once table: per client the last request and its result, bounded,
  evicting the client written least recently. Reads never change the order.
 */
module ClientTable {

  import opened Wrappers

  type Client = nat
  type Value = nat

  datatype Cached = Cached(seqNum: nat, result: Value)

  datatype Record = Record(id: Client, ce: Cached)

  /** A table is its records, most recently written first. */
  type Table = seq<Record>

  predicate Distinct(t: Table) {
    forall i, j :: 0 <= i < j < |t| ==> t[i].id != t[j].id
  }

  /** Where a client is, |t| when it is not there. */
  function Find(t: Table, id: Client): (i: nat)
    ensures i <= |t| && (i < |t| ==> t[i].id == id)
    ensures forall k :: 0 <= k < i ==> t[k].id != id
  {
    if t == [] then 0
    else if t[0].id == id then 0
    else
      var rest := Find(t[1..], id);
      assert forall k :: 1 <= k < 1 + rest ==> t[k] == t[1..][k - 1];
      1 + rest
  }

  predicate Has(t: Table, id: Client) {
    Find(t, id) < |t|
  }

  function Lookup(t: Table, id: Client): Option<Cached> {
    if Has(t, id) then Some(t[Find(t, id)].ce) else None
  }

  /** The table without one client. */
  function Without(t: Table, id: Client): Table {
    var i := Find(t, id);
    if i < |t| then t[..i] + t[i + 1..] else t
  }

  function Bounded(t: Table, cap: nat): Table {
    if cap > 0 && |t| > cap then t[..cap] else t
  }

  function Written(t: Table, cap: nat, id: Client, ce: Cached): Table {
    var t1 := [Record(id, ce)] + Without(t, id);
    if Has(t, id) then t1 else Bounded(t1, cap)
  }

  function SetCap(t: Table, cap: nat): Table {
    Bounded(t, cap)
  }

  /** The first record of every client, at most `cap` of them. */
  function Load(cap: nat, records: seq<Record>): Table {
    if records == [] then []
    else
      var n := |records| - 1;
      var t := Load(cap, records[..n]);
      if (cap > 0 && |t| >= cap) || Has(t, records[n].id) then t else t + [records[n]]
  }

  lemma {:induction false} FindIs(t: Table, id: Client, i: nat)
    requires Distinct(t) && i < |t| && t[i].id == id
    ensures Find(t, id) == i
  {
  }

  lemma PutDistinct(t: Table, cap: nat, id: Client, ce: Cached)
    requires Distinct(t)
    ensures Distinct(Written(t, cap, id, ce)) && Written(t, cap, id, ce)[..1] == [Record(id, ce)]
  {
    var w := Without(t, id);
    forall k | 0 <= k < |w| ensures w[k].id != id {
      var i := Find(t, id);
      if i < |t| && k >= i { assert w[k] == t[k + 1]; }
    }
  }

  // ---- The order is the order of last writes ------------------------------------

  /** What the table has been told, oldest first. */
  datatype Event = Wrote(id: Client, ce: Cached) | Capped(cap: nat)

  /** Every client ever written, most recently written first: the table without a bound. */
  function Recent(history: seq<Event>): Table {
    if history == [] then []
    else
      var r := Recent(history[..|history| - 1]);
      match history[|history| - 1]
      case Wrote(id, ce) => [Record(id, ce)] + Without(r, id)
      case Capped(_) => r
  }

  function CapAfter(cap: nat, history: seq<Event>): nat {
    if history == [] then cap
    else
      match history[|history| - 1]
      case Wrote(_, _) => CapAfter(cap, history[..|history| - 1])
      case Capped(c) => c
  }

  function After(t: Table, cap: nat, history: seq<Event>): Table {
    if history == [] then t
    else
      var n := |history| - 1;
      var t1 := After(t, cap, history[..n]);
      match history[n]
      case Wrote(id, ce) => Written(t1, CapAfter(cap, history[..n]), id, ce)
      case Capped(c) => SetCap(t1, c)
  }

  ghost predicate IsPrefix(a: Table, b: Table) {
    |a| <= |b| && a == b[..|a|]
  }

  /** Writing a client into a prefix of the unbounded table leaves a prefix of it. */
  lemma PutPrefix(t: Table, r: Table, cap: nat, id: Client, ce: Cached)
    requires IsPrefix(t, r) && Distinct(r)
    ensures IsPrefix(Written(t, cap, id, ce), [Record(id, ce)] + Without(r, id)) && Distinct(Without(r, id))
  {
    var i := Find(r, id);
    var w := Without(r, id);
    if Has(t, id) {
      FindIs(r, id, Find(t, id));
      assert Without(t, id) == w[..|t| - 1];
    } else {
      assert forall k :: 0 <= k < |t| ==> r[k] == t[k] && r[k].id != id;
      assert |t| <= i;
      assert t == w[..|t|];
    }
  }

  lemma {:induction false} RecentDistinct(history: seq<Event>)
    ensures Distinct(Recent(history))
    decreases |history|
  {
    if history != [] {
      var h := history[..|history| - 1];
      RecentDistinct(h);
      match history[|history| - 1]
      case Wrote(id, ce) => PutPrefix(Recent(h), Recent(h), 0, id, ce); PutDistinct(Recent(h), 0, id, ce);
      case Capped(_) =>
    }
  }

  /** Whatever was written and however the bound moved, the table holds the most recently written clients, in that order. */
  lemma {:induction false} TableIsRecent(history: seq<Event>, cap: nat)
    ensures IsPrefix(After([], cap, history), Recent(history))
    decreases |history|
  {
    if history != [] {
      var h := history[..|history| - 1];
      TableIsRecent(h, cap);
      RecentDistinct(h);
      match history[|history| - 1]
      case Wrote(id, ce) => PutPrefix(After([], cap, h), Recent(h), CapAfter(cap, h), id, ce);
      case Capped(c) =>
    }
  }

  // ---- Saving and reloading ---------------------------------------------------------

  ghost predicate Fits(t: Table, cap: nat) {
    cap > 0 ==> |t| <= cap
  }

  lemma NotBefore(t: Table, n: nat)
    requires Distinct(t) && n < |t|
    ensures Distinct(t[..n]) && !Has(t[..n], t[n].id)
  {
    assert forall k :: 0 <= k < n ==> t[..n][k] == t[k];
  }

  lemma {:induction false} LoadSame(t: Table, cap: nat)
    requires Distinct(t) && Fits(t, cap)
    ensures Load(cap, t) == t
    decreases |t|
  {
    hide Has, Distinct;
    if t != [] {
      var n := |t| - 1;
      NotBefore(t, n);
      LoadSame(t[..n], cap);
      assert t == t[..n] + [t[n]];
    }
  }

  lemma {:induction false} AfterFits(t: Table, cap: nat, history: seq<Event>)
    requires Distinct(t) && Fits(t, cap)
    ensures Distinct(After(t, cap, history)) && Fits(After(t, cap, history), CapAfter(cap, history))
    decreases |history|
  {
    if history != [] {
      var h := history[..|history| - 1];
      AfterFits(t, cap, h);
      match history[|history| - 1]
      case Wrote(id, ce) => PutDistinct(After(t, cap, h), CapAfter(cap, h), id, ce);
      case Capped(c) =>
    }
  }

  /** The clients dropped by one event, in the order they are dropped: oldest first. */
  function Dropped(t: Table, cap: nat, e: Event): seq<Client> {
    match e
    case Wrote(id, _) => if !Has(t, id) && cap > 0 && |t| + 1 > cap then Tail([Record(id, e.ce)] + t, cap) else []
    case Capped(c) => Tail(t, c)
  }

  function Tail(t: Table, cap: nat): seq<Client> {
    if cap == 0 || |t| <= cap then [] else [t[|t| - 1].id] + Tail(t[..|t| - 1], cap)
  }

  lemma {:induction false} TailStep(t: Table, n: nat, cap: nat)
    requires n <= |t|
    ensures (cap == 0 || n <= cap) ==> Tail(t[..n], cap) == []
    ensures cap > 0 && n > cap ==> Tail(t[..n], cap) == [t[n - 1].id] + Tail(t[..n - 1], cap)
  {
    if n > 0 { assert t[..n][..n - 1] == t[..n - 1]; }
  }

  /** A write drops at most one client: the last, when a new client exceeds the bound. */
  lemma WriteDrops(t: Table, cap: nat, id: Client, ce: Cached)
    requires Fits(t, cap)
    ensures !Has(t, id) ==> Without(t, id) == t
    ensures var t1 := [Record(id, ce)] + t;
      Dropped(t, cap, Wrote(id, ce)) == if !Has(t, id) && cap > 0 && |t1| > cap then [t1[|t1| - 1].id] else []
  {
    if cap > 0 && |t| == cap {
      var t1 := [Record(id, ce)] + t;
      assert Tail(t1[..|t1| - 1], cap) == [];
    }
  }

  /** Every eviction of a history, in order. */
  function Evictions(t: Table, cap: nat, history: seq<Event>): seq<Client> {
    if history == [] then []
    else
      var n := |history| - 1;
      Evictions(t, cap, history[..n]) + Dropped(After(t, cap, history[..n]), CapAfter(cap, history[..n]), history[n])
  }

  lemma {:induction false} CapSplit(cap: nat, a: seq<Event>, b: seq<Event>)
    ensures CapAfter(cap, a + b) == CapAfter(CapAfter(cap, a), b)
    decreases |b|
  {
    if b == [] {
      assert a + b == a;
    } else {
      var n := |b| - 1;
      CapSplit(cap, a, b[..n]);
      assert (a + b)[..|a + b| - 1] == a + b[..n] && (a + b)[|a + b| - 1] == b[n];
    }
  }

  lemma {:induction false} HistorySplit(t: Table, cap: nat, a: seq<Event>, b: seq<Event>)
    ensures CapAfter(cap, a + b) == CapAfter(CapAfter(cap, a), b)
    ensures After(t, cap, a + b) == After(After(t, cap, a), CapAfter(cap, a), b)
    ensures Evictions(t, cap, a + b) == Evictions(t, cap, a) + Evictions(After(t, cap, a), CapAfter(cap, a), b)
    decreases |b|
  {
    hide Written, SetCap, Dropped, CapAfter;
    CapSplit(cap, a, b);
    if b == [] {
      assert a + b == a;
      CapSplit(cap, a, []);
    } else {
      var n := |b| - 1;
      HistorySplit(t, cap, a, b[..n]);
      assert (a + b)[..|a + b| - 1] == a + b[..n] && (a + b)[|a + b| - 1] == b[n];
    }
  }

  /**
    A table saved at any point of its history and reloaded goes on exactly as
    if it had not been: the same contents, and the same clients dropped in the
    same order.
   */
  lemma {:induction false} ReloadIsInvisible(cap: nat, a: seq<Event>, b: seq<Event>)
    ensures var reloaded := Load(CapAfter(cap, a), After([], cap, a));
      && After(reloaded, CapAfter(cap, a), b) == After([], cap, a + b)
      && Evictions([], cap, a) + Evictions(reloaded, CapAfter(cap, a), b) == Evictions([], cap, a + b)
  {
    AfterFits([], cap, a);
    LoadSame(After([], cap, a), CapAfter(cap, a));
    HistorySplit([], cap, a, b);
  }

  // ---- The linked list and its index ---------------------------------------------

  type Handle = nat

  function IndexOf(order: seq<Handle>, h: Handle): (i: nat)
    ensures i <= |order| && (i < |order| ==> order[i] == h)
    ensures forall k :: 0 <= k < i ==> order[k] != h
  {
    if order == [] then 0
    else if order[0] == h then 0
    else
      var rest := IndexOf(order[1..], h);
      assert forall k :: 1 <= k < 1 + rest ==> order[k] == order[1..][k - 1];
      1 + rest
  }

  predicate InList(order: seq<Handle>, h: Handle) {
    IndexOf(order, h) < |order|
  }

  predicate NoTwice(order: seq<Handle>) {
    forall i, j :: 0 <= i < j < |order| ==> order[i] != order[j]
  }

  lemma {:induction false} IndexOfIs(order: seq<Handle>, i: nat)
    requires NoTwice(order) && i < |order|
    ensures IndexOf(order, order[i]) == i
  {
  }

  predicate ItemOk(items: map<Handle, Record>, index: map<Client, Handle>, unused: Handle, h: Handle) {
    h < unused && h in items && items[h].id in index && index[items[h].id] == h
  }

  predicate IdOk(order: seq<Handle>, items: map<Handle, Record>, index: map<Client, Handle>, id: Client)
    requires id in index
  {
    InList(order, index[id]) && index[id] in items && items[index[id]].id == id
  }

  /** The list holds every element once, and the index finds exactly the elements on it. */
  predicate Linked(order: seq<Handle>, items: map<Handle, Record>, index: map<Client, Handle>, unused: Handle) {
    && NoTwice(order)
    && (forall i :: 0 <= i < |order| ==> ItemOk(items, index, unused, order[i]))
    && (forall id :: id in index ==> IdOk(order, items, index, id))
  }

  function ItemAt(items: map<Handle, Record>, h: Handle): Record {
    if h in items then items[h] else Record(0, Cached(0, 0))
  }

  function ViewOf(order: seq<Handle>, items: map<Handle, Record>): Table {
    seq(|order|, i requires 0 <= i < |order| => ItemAt(items, order[i]))
  }

  lemma {:induction false} ViewFacts(order: seq<Handle>, items: map<Handle, Record>, index: map<Client, Handle>, unused: Handle, id: Client)
    requires Linked(order, items, index, unused)
    ensures Distinct(ViewOf(order, items))
    ensures Has(ViewOf(order, items), id) <==> id in index
    ensures id in index ==> Find(ViewOf(order, items), id) == IndexOf(order, index[id])
  {
    var t := ViewOf(order, items);
    forall i | 0 <= i < |order| ensures t[i] == items[order[i]] && index[t[i].id] == order[i] {
      assert ItemOk(items, index, unused, order[i]);
    }
    if id in index {
      assert IdOk(order, items, index, id);
      FindIs(t, id, IndexOf(order, index[id]));
    }
  }

  function ToFront(order: seq<Handle>, i: nat): seq<Handle>
    requires i < |order|
  {
    [order[i]] + order[..i] + order[i + 1..]
  }

  /** Where the element at position `k` of the reordered list was before. */
  lemma ToFrontAt(order: seq<Handle>, i: nat, k: nat)
    requires i < |order| && k < |order|
    ensures |ToFront(order, i)| == |order|
    ensures ToFront(order, i)[k] == order[if k == 0 then i else if k <= i then k - 1 else k]
  {
  }

  lemma ToFrontNoTwice(order: seq<Handle>, i: nat)
    requires i < |order| && NoTwice(order)
    ensures NoTwice(ToFront(order, i)) && |ToFront(order, i)| == |order|
  {
    forall a, b | 0 <= a < b < |order| ensures ToFront(order, i)[a] != ToFront(order, i)[b] {
      ToFrontAt(order, i, a);
      ToFrontAt(order, i, b);
    }
  }

  lemma {:induction false} MovedToFront(order: seq<Handle>, items: map<Handle, Record>, index: map<Client, Handle>, unused: Handle, id: Client, ce: Cached)
    requires Linked(order, items, index, unused) && id in index
    ensures var i := IndexOf(order, index[id]);
      i < |order| && Linked(ToFront(order, i), items[index[id] := Record(id, ce)], index, unused)
  {
    hide ToFront, IndexOf;
    assert IdOk(order, items, index, id);
    var i, items' := IndexOf(order, index[id]), items[index[id] := Record(id, ce)];
    var order' := ToFront(order, i);
    ToFrontNoTwice(order, i);
    forall x | x in index ensures IdOk(order', items', index, x) {
      assert IdOk(order, items, index, x);
      var k := IndexOf(order, index[x]);
      var k' := if k == i then 0 else if k < i then k + 1 else k;
      ToFrontAt(order, i, k');
      IndexOfIs(order', k');
    }
    forall k | 0 <= k < |order'| ensures ItemOk(items', index, unused, order'[k]) {
      ToFrontAt(order, i, k);
      assert ItemOk(items, index, unused, order[if k == 0 then i else if k <= i then k - 1 else k]);
    }
  }

  lemma ItemsToFront(order: seq<Handle>, items: map<Handle, Record>, i: nat, r: Record)
    requires i < |order| && NoTwice(order)
    ensures var t := ViewOf(order, items);
      ViewOf(ToFront(order, i), items[order[i] := r]) == [r] + (t[..i] + t[i + 1..])
  {
    var t, t' := ViewOf(order, items), ViewOf(ToFront(order, i), items[order[i] := r]);
    forall k | 0 <= k < |order| ensures t'[k] == ([r] + (t[..i] + t[i + 1..]))[k] {
      ToFrontAt(order, i, k);
    }
  }

  lemma {:induction false} ViewToFront(order: seq<Handle>, items: map<Handle, Record>, index: map<Client, Handle>, unused: Handle, id: Client, ce: Cached)
    requires Linked(order, items, index, unused) && id in index
    ensures InList(order, index[id])
    ensures ViewOf(ToFront(order, IndexOf(order, index[id])), items[index[id] := Record(id, ce)])
         == [Record(id, ce)] + Without(ViewOf(order, items), id)
  {
    hide ToFront, IndexOf, ViewOf, Find;
    ViewFacts(order, items, index, unused, id);
    ItemsToFront(order, items, IndexOf(order, index[id]), Record(id, ce));
  }

  lemma {:induction false} PushedFront(order: seq<Handle>, items: map<Handle, Record>, index: map<Client, Handle>, unused: Handle, id: Client, ce: Cached)
    requires Linked(order, items, index, unused) && id !in index
    ensures Linked([unused] + order, items[unused := Record(id, ce)], index[id := unused], unused + 1)
  {
    hide IndexOf;
    var order', items', index' := [unused] + order, items[unused := Record(id, ce)], index[id := unused];
    forall k | 0 <= k < |order'| ensures ItemOk(items', index', unused + 1, order'[k]) {
      if k > 0 { assert order'[k] == order[k - 1] && ItemOk(items, index, unused, order[k - 1]); }
    }
    assert NoTwice(order') by {
      forall a, b | 0 <= a < b < |order'| ensures order'[a] != order'[b] {
        assert order'[b] == order[b - 1] && ItemOk(items, index, unused, order[b - 1]);
      }
    }
    forall x | x in index' ensures IdOk(order', items', index', x) {
      if x != id { assert IdOk(order, items, index, x); }
      var k := if x == id then 0 else IndexOf(order, index[x]) + 1;
      assert order'[k] == index'[x];
      IndexOfIs(order', k);
    }
  }

  lemma ViewSize(order: seq<Handle>, items: map<Handle, Record>)
    ensures |ViewOf(order, items)| == |order|
  {
  }

  lemma ViewPushed(order: seq<Handle>, items: map<Handle, Record>, h: Handle, r: Record)
    requires forall i :: 0 <= i < |order| ==> order[i] < h
    ensures ViewOf([h] + order, items[h := r]) == [r] + ViewOf(order, items)
    ensures ViewOf(order + [h], items[h := r]) == ViewOf(order, items) + [r]
  {
  }

  lemma Unused(order: seq<Handle>, items: map<Handle, Record>, index: map<Client, Handle>, unused: Handle)
    requires Linked(order, items, index, unused)
    ensures forall i :: 0 <= i < |order| ==> order[i] < unused
  {
  }

  lemma {:induction false} BackRemoved(order: seq<Handle>, items: map<Handle, Record>, index: map<Client, Handle>, unused: Handle)
    requires Linked(order, items, index, unused) && order != []
    ensures var n := |order| - 1; var h := order[n];
      && h in items && Linked(order[..n], items - {h}, index - {items[h].id}, unused)
      && ViewOf(order[..n], items - {h}) == ViewOf(order, items)[..n]
  {
    hide IndexOf;
    var n := |order| - 1;
    var h := order[n];
    assert ItemOk(items, index, unused, h);
    var order', items', index' := order[..n], items - {h}, index - {items[h].id};
    forall k | 0 <= k < n ensures ItemOk(items', index', unused, order'[k]) {
      assert ItemOk(items, index, unused, order[k]);
    }
    forall x | x in index' ensures IdOk(order', items', index', x) {
      assert IdOk(order, items, index, x);
      var k := IndexOf(order, index[x]);
      assert order'[k] == index'[x];
      IndexOfIs(order', k);
    }
  }

  lemma {:induction false} PushedBack(order: seq<Handle>, items: map<Handle, Record>, index: map<Client, Handle>, unused: Handle, r: Record)
    requires Linked(order, items, index, unused) && r.id !in index
    ensures Linked(order + [unused], items[unused := r], index[r.id := unused], unused + 1)
  {
    hide IndexOf;
    var order', items', index' := order + [unused], items[unused := r], index[r.id := unused];
    forall k | 0 <= k < |order'| ensures ItemOk(items', index', unused + 1, order'[k]) {
      if k < |order| { assert ItemOk(items, index, unused, order[k]); }
    }
    assert NoTwice(order') by {
      forall a, b | 0 <= a < b < |order'| ensures order'[a] != order'[b] {
        assert ItemOk(items, index, unused, order[a]);
      }
    }
    forall x | x in index' ensures IdOk(order', items', index', x) {
      if x != r.id { assert IdOk(order, items, index, x); }
      var k := if x == r.id then |order| else IndexOf(order, index[x]);
      assert order'[k] == index'[x];
      IndexOfIs(order', k);
    }
  }

  /** The list of `container/list` elements, what each holds, and the index from clients to elements. */
  class ClientLru {
    var order: seq<Handle>
    var items: map<Handle, Record>
    var index: map<Client, Handle>
    var cap: nat
    var unused: Handle

    ghost predicate Valid()
      reads this
    {
      Linked(order, items, index, unused) && (cap > 0 ==> |order| <= cap)
    }

    ghost function View(): Table
      reads this
      requires Valid()
    {
      ViewOf(order, items)
    }

    constructor (maxSize: nat)
      ensures Valid() && View() == [] && cap == maxSize
    {
      order, items, index, cap, unused := [], map[], map[], maxSize, 0;
    }

    method Get(id: Client) returns (r: Option<Cached>)
      requires Valid()
      ensures r == Lookup(View(), id)
    {
      ViewFacts(order, items, index, unused, id);
      if id !in index { return None; }
      return Some(items[index[id]].ce);
    }

    /** Writes a client's latest result and returns the client dropped to make room, if any. */
    method Put(id: Client, ce: Cached) returns (evicted: Option<Client>)
      requires Valid()
      modifies this
      ensures Valid() && cap == old(cap)
      ensures View() == Written(old(View()), cap, id, ce)
      ensures Dropped(old(View()), cap, Wrote(id, ce)) == if evicted.Some? then [evicted.value] else []
    {
      hide Linked, Without, Dropped, Has;
      evicted := None;
      ViewFacts(order, items, index, unused, id);
      WriteDrops(ViewOf(order, items), cap, id, ce);
      ghost var t := ViewOf(order, items);
      if id in index {
        MovedToFront(order, items, index, unused, id, ce);
        ViewToFront(order, items, index, unused, id, ce);
        var h := index[id];
        order, items := ToFront(order, IndexOf(order, h)), items[h := Record(id, ce)];
      } else {
        PushedFront(order, items, index, unused, id, ce);
        assert ViewOf([unused] + order, items[unused := Record(id, ce)]) == [Record(id, ce)] + t by {
          Unused(order, items, index, unused);
          ViewPushed(order, items, unused, Record(id, ce));
        }
        order, items, index, unused := [unused] + order, items[unused := Record(id, ce)], index[id := unused], unused + 1;
        if cap > 0 && |order| > cap {
          var gone := RemoveBack();
          evicted := Some(gone);
        }
      }
    }

    method RemoveBack() returns (id: Client)
      requires Linked(order, items, index, unused) && |order| > 0
      modifies this`order, this`items, this`index
      ensures Linked(order, items, index, unused) && |order| == |old(order)| - 1
      ensures var was := old(ViewOf(order, items)); ViewOf(order, items) == was[..|was| - 1] && id == was[|was| - 1].id
    {
      BackRemoved(order, items, index, unused);
      var h := order[|order| - 1];
      id := items[h].id;
      order, items, index := order[..|order| - 1], items - {h}, index - {id};
    }

    /** Changes the bound, dropping from the tail until the table fits; oldest first. */
    method SetCap(capacity: nat) returns (evicted: seq<Client>)
      requires Valid()
      modifies this
      ensures Valid() && cap == capacity && View() == Bounded(old(View()), capacity)
      ensures evicted == Dropped(old(View()), old(cap), Capped(capacity))
    {
      hide Linked, ViewOf, Tail;
      ghost var was := ViewOf(order, items);
      ViewSize(order, items);
      assert was[..|order|] == was;
      evicted := [];
      cap := capacity;
      while cap > 0 && |order| > cap
        invariant cap == capacity && Linked(order, items, index, unused)
        invariant |order| <= |was| && (|order| < |was| ==> |order| >= cap > 0) && ViewOf(order, items) == was[..|order|]
        invariant evicted + Tail(was[..|order|], cap) == Tail(was, cap)
      {
        TailStep(was, |order|, cap);
        var id := RemoveBack();
        evicted := evicted + [id];
      }
      TailStep(was, |order|, cap);
    }

    /** The table in eviction order, most recently written first. */
    method Records() returns (r: seq<Record>)
      requires Valid()
      ensures r == View()
    {
      r := [];
      for i := 0 to |order|
        invariant r == ViewOf(order, items)[..i]
      {
        r := r + [items[order[i]]];
      }
    }

    /** Replaces the contents with saved records. */
    method LoadFrom(records: seq<Record>)
      modifies this
      ensures Valid() && cap == old(cap) && View() == Load(cap, records)
    {
      order, items, index := [], map[], map[];
      hide Linked, Load, Has, ViewOf;
      assert Linked(order, items, index, unused) && ViewOf(order, items) == Load(cap, records[..0]) by { EmptyLinked(cap, records, unused); }
      for i := 0 to |records|
        invariant Linked(order, items, index, unused) && ViewOf(order, items) == Load(cap, records[..i])
        invariant cap == old(cap) && (cap > 0 ==> |order| <= cap)
      {
        LoadStep(cap, records, i);
        var r := records[i];
        if cap > 0 && |order| >= cap {
          ViewSize(order, items);
          LoadFull(cap, records, i);
          return;
        }
        ViewFacts(order, items, index, unused, r.id);
        ViewSize(order, items);
        if r.id in index { continue; }
        PushBack(r);
      }
      assert records[..|records|] == records;
    }

    method PushBack(r: Record)
      requires Linked(order, items, index, unused) && r.id !in index
      modifies this`order, this`items, this`index, this`unused
      ensures Linked(order, items, index, unused) && |order| == |old(order)| + 1
      ensures ViewOf(order, items) == old(ViewOf(order, items)) + [r]
    {
      hide Linked;
      PushedBack(order, items, index, unused, r);
      Unused(order, items, index, unused);
      ViewPushed(order, items, unused, r);
      order, items, index, unused := order + [unused], items[unused := r], index[r.id := unused], unused + 1;
    }
  }

  lemma {:induction false} EmptyLinked(cap: nat, records: seq<Record>, unused: Handle)
    ensures Linked([], map[], map[], unused) && ViewOf([], map[]) == [] == Load(cap, records[..0])
  {
  }

  lemma {:induction false} LoadStep(cap: nat, records: seq<Record>, i: nat)
    requires i < |records|
    ensures var t := Load(cap, records[..i]);
      Load(cap, records[..i + 1]) == if (cap > 0 && |t| >= cap) || Has(t, records[i].id) then t else t + [records[i]]
  {
    assert records[..i + 1][..i] == records[..i];
  }

  lemma {:induction false} LoadFull(cap: nat, records: seq<Record>, i: nat)
    requires i <= |records| && cap > 0 && |Load(cap, records[..i])| >= cap
    ensures Load(cap, records) == Load(cap, records[..i])
    decreases |records| - i
  {
    if i < |records| {
      assert records[..i + 1][..i] == records[..i];
      LoadFull(cap, records, i + 1);
    } else {
      assert records[..i] == records;
    }
  }
}
