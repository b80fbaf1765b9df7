/**
  Each elementary change of state keeps the role-free part of the invariant: a
  write joins the queue, a reply is held back or sent, a write lands, a completed
  write releases what waited for it, a campaign asks for votes, a crash leaves
  the disk alone. What a node has said before can still be honoured from every
  image its disk may show afterwards, whatever lands and whenever it crashes.
 */
module CoreSteps {
  import opened Wrappers
  import opened Protocol
  import opened Invariant
  import opened Facts

  predicate SameDurable(nd: Node, nd': Node) {
    && nd'.mem == nd.mem && nd'.held == nd.held && nd'.completed == nd.completed
    && nd'.landed == nd.landed && nd'.queue == nd.queue && nd'.disk == nd.disk
  }

  lemma SameImages(nd: Node, nd': Node)
    requires nd'.queue == nd.queue && nd'.disk == nd.disk
    ensures forall k :: 0 <= k <= |nd.queue| ==> Image(nd', k) == Image(nd, k)
  {
  }

  // ---- Frames -------------------------------------------------------------

  /** Nothing new is said; replies held before may have been sent. */
  ghost predicate Quieter(s: State, s': State) {
    && |s'.nodes| == |s.nodes| && s'.hist.logs == s.hist.logs && s'.hist.wins == s.hist.wins
    && s.net <= s'.net && (forall m :: m in s'.net ==> m in s.net || IsReply(m))
    && forall v, m :: 0 <= v < |s.nodes| && Said(s', v, m) ==> Said(s, v, m)
  }

  lemma RecordsFrame(s: State, s': State)
    requires Records(s) && Quieter(s, s')
    ensures Records(s')
  {
    hide BallotsAfterAcks, OneBallot, Ballots, Asks, Wins, WinnersAfterAcks, Slices;
    SaidFrame(s, s');
    BallotsFrame(s, s');
    WinsFrame(s, s');
    AsksFrame(s, s');
  }

  lemma SaidFrame(s: State, s': State)
    requires BallotsAfterAcks(s) && OneBallot(s) && WinnersAfterAcks(s) && Quieter(s, s')
    ensures BallotsAfterAcks(s') && OneBallot(s') && WinnersAfterAcks(s')
  {
    hide BallotAfterAck, SameBallot, WinnerAfterAck;
  }

  lemma BallotsFrame(s: State, s': State)
    requires Ballots(s) && Quieter(s, s')
    ensures Ballots(s')
  {
    hide LogOk, TermsUpTo;
    forall v, b | 0 <= v < |s'.nodes| && Said(s', v, b) ensures BallotOk(s'.hist.logs, s'.net, b) {
      assert BallotOk(s.hist.logs, s.net, b);
    }
  }

  lemma AsksFrame(s: State, s': State)
    requires Asks(s) && Slices(s) && Quieter(s, s')
    ensures Asks(s') && Slices(s')
  {
    forall m | m in s'.net ensures AskBacked(s'.net, m) && SliceOk(s'.hist.logs, m) {
      if m in s.net { assert AskBacked(s.net, m); }
    }
  }

  /** The record of elections only needs its ballots in the network. */
  lemma WinsFrame(s: State, s': State)
    requires Wins(s)
    requires |s'.nodes| == |s.nodes| && s'.hist.logs == s.hist.logs && s'.hist.wins == s.hist.wins
    requires s.net <= s'.net
    ensures Wins(s')
  {
    forall t | t in s'.hist.wins ensures WinOk(s', t, s'.hist.wins[t]) {
      assert WinOk(s, t, s.hist.wins[t]);
    }
    forall t, v | t in s'.hist.wins && v in s'.hist.wins[t].ballots
      ensures WinBallotOk(s', t, s'.hist.wins[t], v)
    {
      assert WinBallotOk(s, t, s.hist.wins[t], v);
    }
  }

  // ---- Queueing a write ---------------------------------------------------

  predicate Enqueues(nd: Node, nd': Node, op: WriteOp) {
    && nd'.queue == nd.queue + [op] && nd'.mem == ApplyOp(nd.mem, op)
    && nd'.disk == nd.disk && nd'.held == nd.held
    && nd'.completed == nd.completed && nd'.landed == nd.landed
  }

  /** Whatever `d` honours, `d'` honours. */
  ghost predicate Evolves(ll: map<nat, Log>, d: Durable, d': Durable) {
    forall m :: Honours(ll, d, m) ==> Honours(ll, d', m)
  }

  lemma EnqueueNode(ll: map<nat, Log>, nd: Node, nd': Node, op: WriteOp)
    requires NodeShape(nd) && NodeImages(ll, nd) && Enqueues(nd, nd', op)
    requires OpFits(nd.mem, op) && ImageOk(ll, nd'.mem)
    ensures NodeShape(nd') && NodeImages(ll, nd')
  {
    ImageEnqueued(nd, nd', op);
    forall k | 0 <= k < |nd'.queue| ensures OpFits(Image(nd', k), nd'.queue[k]) {
      if k < |nd.queue| { assert OpFits(Image(nd, k), nd.queue[k]); }
    }
  }

  lemma EnqueueHonours(ll: map<nat, Log>, nd: Node, nd': Node, op: WriteOp, gate: nat, m: Msg)
    requires NodeShape(nd) && Enqueues(nd, nd', op)
    requires gate <= nd.landed + |nd.queue| && Evolves(ll, nd.mem, nd'.mem)
    requires HeldHonoured(ll, nd, gate, m)
    ensures HeldHonoured(ll, nd', gate, m)
  {
    ImageEnqueued(nd, nd', op);
    forall k | 0 <= k <= |nd'.queue| && gate <= nd'.landed + k ensures Honours(ll, Image(nd', k), m) {
      if k <= |nd.queue| {
        assert Honours(ll, Image(nd, k), m);
      } else {
        assert Honours(ll, Image(nd, |nd.queue|), m);
      }
    }
  }

  lemma SentAsHeld(ll: map<nat, Log>, nd: Node, gate: nat, m: Msg)
    requires gate <= nd.landed
    ensures SentHonoured(ll, nd, m) <==> HeldHonoured(ll, nd, gate, m)
  {
    if SentHonoured(ll, nd, m) {
      forall k | 0 <= k <= |nd.queue| && gate <= nd.landed + k ensures Honours(ll, Image(nd, k), m) {}
    }
    if HeldHonoured(ll, nd, gate, m) {
      forall k | 0 <= k <= |nd.queue| ensures Honours(ll, Image(nd, k), m) {}
    }
  }

  /** The disks when one node changes: what matters of the new node. */
  lemma DisksPut(s: State, n: nat, nd': Node)
    requires Disks(s) && HasNode(s, n)
    requires NodeShape(nd') && NodeImages(s.hist.logs, nd')
    requires forall m :: m in s.net && m.from == n ==> SentHonoured(s.hist.logs, nd', m)
    requires forall g, m :: Held(g, Send(m)) in nd'.held ==>
      m.from == n && IsReply(m) && HeldHonoured(s.hist.logs, nd', g, m)
    ensures Disks(Put(s, n, nd'))
  {
    hide Honours, ImageOk, NodeShape;
    var s' := Put(s, n, nd');
    forall m | m in s'.net ensures HasNode(s', m.from) && SentHonoured(s'.hist.logs, s'.nodes[m.from], m) {
    }
    forall v, g, m | 0 <= v < |s'.nodes| && Held(g, Send(m)) in s'.nodes[v].held
      ensures m.from == v && IsReply(m) && HeldHonoured(s'.hist.logs, s'.nodes[v], g, m)
    {
    }
  }

  lemma CoreEnqueue(s: State, n: nat, nd': Node, op: WriteOp)
    requires Core(s) && HasNode(s, n) && Enqueues(s.nodes[n], nd', op)
    requires OpFits(s.nodes[n].mem, op) && ImageOk(s.hist.logs, nd'.mem)
    requires Evolves(s.hist.logs, s.nodes[n].mem, nd'.mem)
    ensures Core(Put(s, n, nd'))
  {
    hide Records, Honours, ImageOk, Evolves;
    var nd := s.nodes[n];
    var ll := s.hist.logs;
    EnqueueNode(ll, nd, nd', op);
    forall m | m in s.net && m.from == n ensures SentHonoured(ll, nd', m) {
      SentAsHeld(ll, nd, 0, m);
      EnqueueHonours(ll, nd, nd', op, 0, m);
      SentAsHeld(ll, nd', 0, m);
    }
    forall g, m | Held(g, Send(m)) in nd'.held ensures m.from == n && IsReply(m) && HeldHonoured(ll, nd', g, m) {
      EnqueueHonours(ll, nd, nd', op, g, m);
    }
    DisksPut(s, n, nd');
    RecordsFrame(s, Put(s, n, nd'));
  }

  /** Changing what a crash clears anyway keeps the core. */
  lemma CoreVolatile(s: State, n: nat, nd': Node)
    requires Core(s) && HasNode(s, n) && SameDurable(s.nodes[n], nd')
    ensures Core(Put(s, n, nd'))
  {
    hide Records, Honours, ImageOk;
    SameImages(s.nodes[n], nd');
    forall m | m in s.net && m.from == n ensures SentHonoured(s.hist.logs, nd', m) {
      assert SentHonoured(s.hist.logs, s.nodes[n], m);
    }
    forall g, m | Held(g, Send(m)) in nd'.held
      ensures m.from == n && IsReply(m) && HeldHonoured(s.hist.logs, nd', g, m)
    {
      assert HeldHonoured(s.hist.logs, s.nodes[n], g, m);
    }
    DisksPut(s, n, nd');
    RecordsFrame(s, Put(s, n, nd'));
  }

  // ---- What a node may turn into ------------------------------------------

  lemma AckKeptLater(ll: map<nat, Log>, log: Log, u: int, u': int, m: Msg)
    requires IsAck(m) && AckInRange(ll, m) && AckKept(ll, log, u, m) && u <= u'
    ensures AckKept(ll, log, u', m)
  {
    forall j | 0 < j <= m.last ensures Keeps(ll, log, u', m.term, j) {
      assert Keeps(ll, log, u, m.term, j);
    }
  }

  lemma AckKeptLonger(ll: map<nat, Log>, log: Log, log': Log, u: int, m: Msg)
    requires IsAck(m) && AckInRange(ll, m) && AckKept(ll, log, u, m) && log <= log'
    ensures AckKept(ll, log', u, m)
  {
    forall j | 0 < j <= m.last ensures Keeps(ll, log', u, m.term, j) {
      assert Keeps(ll, log, u, m.term, j);
    }
  }

  lemma EvolvesSaved(ll: map<nat, Log>, d: Durable, t: nat, v: Option<nat>)
    requires t > d.term || (t == d.term && (d.vote == None || d.vote == v))
    ensures Evolves(ll, d, d.(term := t, vote := v))
  {
    var d' := d.(term := t, vote := v);
    forall m | Honours(ll, d, m) ensures Honours(ll, d', m) {
      if IsAck(m) { AckKeptLater(ll, d.log, d.term, t, m); }
    }
  }

  lemma EvolvesAppended(ll: map<nat, Log>, d: Durable, es: Log)
    ensures Evolves(ll, d, d.(log := d.log + es))
  {
    var d' := d.(log := d.log + es);
    forall m | Honours(ll, d, m) ensures Honours(ll, d', m) {
      if IsAck(m) { AckKeptLonger(ll, d.log, d'.log, d.term, m); }
    }
  }

  /** Cutting at an entry the leader of the current term disagrees with loses nothing that leader holds. */
  lemma EvolvesCut(ll: map<nat, Log>, d: Durable, keep: nat)
    requires d.term in ll && keep < |d.log| && keep < |ll[d.term]| && ll[d.term][keep] != d.log[keep]
    ensures Evolves(ll, d, d.(log := d.log[..keep]))
  {
    var d' := d.(log := d.log[..keep]);
    forall m | Honours(ll, d, m) ensures Honours(ll, d', m) {
      if IsAck(m) {
        forall j | 0 < j <= m.last ensures Keeps(ll, d'.log, d.term, m.term, j) {
          assert Keeps(ll, d.log, d.term, m.term, j);
          CutKeeps(ll, d, keep, m.term, j);
        }
      }
    }
  }

  lemma CutKeeps(ll: map<nat, Log>, d: Durable, keep: nat, t: nat, j: nat)
    requires d.term in ll && keep < |d.log| && keep < |ll[d.term]| && ll[d.term][keep] != d.log[keep]
    requires t in ll && t <= d.term && j <= |ll[t]| && Keeps(ll, d.log, d.term, t, j)
    ensures Keeps(ll, d.log[..keep], d.term, t, j)
  {
    var p := ll[t][..j];
    if p <= d.log {
      if j <= keep {
        assert p <= d.log[..keep];
      } else {
        assert p[keep] == d.log[keep];
        assert Lacks(ll, d.term, t, j);
      }
    }
  }

  // ---- Saying something ---------------------------------------------------

  /** `m` agrees with everything node `n` has said and with the record. */
  ghost predicate FitsIn(s: State, n: nat, m: Msg)
    requires HasNode(s, n)
  {
    && BallotOk(s.hist.logs, s.net, m) && AskBacked(s.net, m) && SliceOk(s.hist.logs, m)
    && (forall c :: Said(s, n, c) ==>
          && SameBallot(m, c) && SameBallot(c, m)
          && BallotAfterAck(s.hist.logs, m, c) && BallotAfterAck(s.hist.logs, c, m))
    && (forall t :: t in s.hist.wins && n in s.hist.wins[t].ballots ==>
          WinnerAfterAck(s.hist.logs, t, s.hist.wins[t].ballots[n], m))
  }

  /** `s'` says what `s` says, and `m` by node `n`. */
  ghost predicate SaysMore(s: State, s': State, n: nat, m: Msg) {
    && |s'.nodes| == |s.nodes| && s'.hist == s.hist && HasNode(s, n) && m.from == n
    && s.net <= s'.net <= s.net + {m}
    && forall v, x :: 0 <= v < |s.nodes| && Said(s', v, x) ==> Said(s, v, x) || (v == n && x == m)
  }

  lemma RecordsSay(s: State, s': State, n: nat, m: Msg)
    requires Records(s) && SaysMore(s, s', n, m) && FitsIn(s, n, m)
    ensures Records(s')
  {
    hide BallotsAfterAcks, OneBallot, Ballots, Asks, Wins, WinnersAfterAcks, Slices, FitsIn;
    SaidSay(s, s', n, m);
    BallotsSay(s, s', n, m);
    WinsFrame(s, s');
    WinnersSay(s, s', n, m);
    AsksSay(s, s', n, m);
  }

  lemma AsksSay(s: State, s': State, n: nat, m: Msg)
    requires Asks(s) && Slices(s) && SaysMore(s, s', n, m) && FitsIn(s, n, m)
    ensures Asks(s') && Slices(s')
  {
    hide SliceOk, BallotOk, SameBallot, BallotAfterAck, WinnerAfterAck;
    forall x | x in s'.net ensures AskBacked(s'.net, x) && SliceOk(s'.hist.logs, x) {
      assert AskBacked(s.net, x);
    }
  }

  lemma SaidSay(s: State, s': State, n: nat, m: Msg)
    requires BallotsAfterAcks(s) && OneBallot(s) && SaysMore(s, s', n, m) && FitsIn(s, n, m)
    ensures BallotsAfterAcks(s') && OneBallot(s')
  {
    hide WinnerAfterAck, BallotOk, AskBacked, SliceOk, AckKept;
    forall v, b, a | 0 <= v < |s'.nodes| && Said(s', v, b) && Said(s', v, a)
      ensures BallotAfterAck(s'.hist.logs, b, a) && SameBallot(b, a)
    {
      assert Said(s, v, b) || (v == n && b == m);
      assert Said(s, v, a) || (v == n && a == m);
    }
  }

  lemma BallotsSay(s: State, s': State, n: nat, m: Msg)
    requires Ballots(s) && SaysMore(s, s', n, m) && FitsIn(s, n, m)
    ensures Ballots(s')
  {
    forall v, b | 0 <= v < |s'.nodes| && Said(s', v, b) ensures BallotOk(s'.hist.logs, s'.net, b) {
      assert BallotOk(s.hist.logs, s.net, b);
    }
  }

  lemma WinnersSay(s: State, s': State, n: nat, m: Msg)
    requires WinnersAfterAcks(s) && SaysMore(s, s', n, m) && FitsIn(s, n, m)
    ensures WinnersAfterAcks(s')
  {
    hide BallotAfterAck, SameBallot, WinnerAfterAck, BallotOk, AskBacked, SliceOk;
    forall t, v, a | t in s'.hist.wins && v in s'.hist.wins[t].ballots && HasNode(s', v) && Said(s', v, a)
      ensures WinnerAfterAck(s'.hist.logs, t, s'.hist.wins[t].ballots[v], a)
    {
    }
  }

  lemma CoreSay(s: State, n: nat, gate: nat, m: Msg)
    requires Core(s) && HasNode(s, n) && m.from == n && FitsIn(s, n, m)
    requires gate <= s.nodes[n].landed + |s.nodes[n].queue|
    requires gate <= s.nodes[n].completed || IsReply(m)
    requires HeldHonoured(s.hist.logs, s.nodes[n], gate, m)
    ensures Core(Emit(s, n, gate, m))
  {
    hide Records, Honours, ImageOk, FitsIn;
    var s' := Emit(s, n, gate, m);
    var nd := s.nodes[n];
    var ll := s.hist.logs;
    RecordsSay(s, s', n, m);
    if gate <= nd.completed {
      SentAsHeld(ll, nd, gate, m);
      DisksPost(s, {m});
    } else {
      var nd' := s'.nodes[n];
      SameImages(nd, nd');
      forall x | x in s.net && x.from == n ensures SentHonoured(ll, nd', x) {
        assert SentHonoured(ll, nd, x);
      }
      forall g, x | Held(g, Send(x)) in nd'.held
        ensures x.from == n && IsReply(x) && HeldHonoured(ll, nd', g, x)
      {
        assert HeldHonoured(ll, nd, g, x);
      }
      DisksPut(s, n, nd');
    }
  }

  lemma DisksPost(s: State, ms: set<Msg>)
    requires Disks(s)
    requires forall m :: m in ms ==> HasNode(s, m.from) && SentHonoured(s.hist.logs, s.nodes[m.from], m)
    ensures Disks(s.(net := s.net + ms))
  {
    hide Honours, ImageOk, NodeShape;
  }

  // ---- The writer, completions and crashes --------------------------------

  lemma CoreLand(s: State, n: nat)
    requires Core(s) && HasNode(s, n) && s.nodes[n].queue != []
    ensures Core(Do(s, Land(n)))
  {
    hide Records, Honours, ImageOk;
    var nd := s.nodes[n];
    var s' := Do(s, Land(n));
    var nd' := s'.nodes[n];
    var ll := s.hist.logs;
    ImageLanded(nd, nd');
    assert NodeShape(nd') by {
      forall k | 0 <= k < |nd'.queue| ensures OpFits(Image(nd', k), nd'.queue[k]) {
        assert OpFits(Image(nd, k + 1), nd.queue[k + 1]);
      }
    }
    forall m | m in s.net && m.from == n ensures SentHonoured(ll, nd', m) {
      assert SentHonoured(ll, nd, m);
    }
    forall g, m | Held(g, Send(m)) in nd'.held ensures m.from == n && IsReply(m) && HeldHonoured(ll, nd', g, m) {
      assert HeldHonoured(ll, nd, g, m);
    }
    DisksPut(s, n, nd');
    RecordsFrame(s, s');
  }

  /** A completion, up to the campaign it may start. */
  function Progressed(s: State, n: nat): State
    requires HasNode(s, n)
  {
    var nd := s.nodes[n].(completed := s.nodes[n].completed + 1);
    Put(s, n, nd.(held := Kept(nd))).(net := s.net + Released(nd))
  }

  lemma ReleasedFacts(s: State, n: nat, m: Msg)
    requires Core(s) && HasNode(s, n) && s.nodes[n].completed < s.nodes[n].landed
    requires m in Released(s.nodes[n].(completed := s.nodes[n].completed + 1))
    ensures m.from == n && IsReply(m) && Said(s, n, m) && SentHonoured(s.hist.logs, s.nodes[n], m)
  {
    var nd := s.nodes[n];
    var h :| h in nd.held && h.gate <= nd.completed + 1 && h.act == Send(m);
    assert h == Held(h.gate, Send(m));
    SentAsHeld(s.hist.logs, nd, h.gate, m);
  }

  lemma DisksProgress(s: State, n: nat)
    requires Core(s) && HasNode(s, n) && s.nodes[n].completed < s.nodes[n].landed
    ensures Disks(Progressed(s, n))
  {
    hide Records, Honours, ImageOk;
    var nd := s.nodes[n];
    var nd' := Progressed(s, n).nodes[n];
    var ll := s.hist.logs;
    SameImages(nd, nd');
    forall m | m in s.net && m.from == n ensures SentHonoured(ll, nd', m) {
      assert SentHonoured(ll, nd, m);
    }
    forall g, m | Held(g, Send(m)) in nd'.held ensures m.from == n && IsReply(m) && HeldHonoured(ll, nd', g, m) {
      assert HeldHonoured(ll, nd, g, m);
    }
    DisksPut(s, n, nd');
    var out := Released(nd.(completed := nd.completed + 1));
    forall m | m in out ensures m.from == n && SentHonoured(ll, nd', m) {
      ReleasedFacts(s, n, m);
    }
    DisksPost(Put(s, n, nd'), out);
  }

  lemma QuietProgress(s: State, n: nat)
    requires Core(s) && HasNode(s, n) && s.nodes[n].completed < s.nodes[n].landed
    ensures Quieter(s, Progressed(s, n))
  {
    var nd := s.nodes[n].(completed := s.nodes[n].completed + 1);
    var s' := Progressed(s, n);
    forall m | m in Released(nd) ensures IsReply(m) && Said(s, n, m) {
      ReleasedFacts(s, n, m);
    }
    forall v, m | 0 <= v < |s.nodes| && Said(s', v, m) ensures Said(s, v, m) {
      if m !in s'.net {
        var g :| Held(g, Send(m)) in s'.nodes[v].held;
        assert Held(g, Send(m)) in s.nodes[v].held;
      } else if m in Released(nd) {
        ReleasedFacts(s, n, m);
      }
    }
  }

  lemma CoreProgress(s: State, n: nat)
    requires Core(s) && HasNode(s, n) && s.nodes[n].completed < s.nodes[n].landed
    ensures Core(Progressed(s, n))
  {
    DisksProgress(s, n);
    QuietProgress(s, n);
    RecordsFrame(s, Progressed(s, n));
  }

  lemma CoreCrash(s: State, n: nat)
    requires Core(s) && HasNode(s, n)
    ensures Core(Put(s, n, Restarted(s.nodes[n])))
  {
    hide Records, Honours, ImageOk;
    var nd := s.nodes[n];
    var nd' := Restarted(nd);
    assert Image(nd, 0) == nd.disk == Image(nd', 0);
    forall m | m in s.net && m.from == n ensures SentHonoured(s.hist.logs, nd', m) {
      assert SentHonoured(s.hist.logs, nd, m);
      assert Honours(s.hist.logs, Image(nd, 0), m);
    }
    DisksPut(s, n, nd');
    RecordsFrame(s, Put(s, n, nd'));
  }

  /** Holding a campaign back says nothing. */
  lemma CoreCampaign(s: State, n: nat, gate: nat, t: nat, nd': Node)
    requires Core(s) && HasNode(s, n)
    requires s.nodes[n].completed < gate <= s.nodes[n].landed + |s.nodes[n].queue|
    requires SameDurable(s.nodes[n].(held := s.nodes[n].held + {Held(gate, Campaign(t))}), nd')
    ensures Core(Put(s, n, nd'))
  {
    hide Records, Honours, ImageOk;
    var nd := s.nodes[n];
    var ll := s.hist.logs;
    SameImages(nd, nd');
    forall m | m in s.net && m.from == n ensures SentHonoured(ll, nd', m) {
      assert SentHonoured(ll, nd, m);
    }
    forall g, m | Held(g, Send(m)) in nd'.held ensures m.from == n && IsReply(m) && HeldHonoured(ll, nd', g, m) {
      assert HeldHonoured(ll, nd, g, m);
    }
    DisksPut(s, n, nd');
    RecordsFrame(s, Put(s, n, nd'));
  }
}
