/**
  Leaders' logs grow: by a new term's first log, or by entries of a leader's own
  term. Growth of that kind takes nothing back. A log that came from leaders
  still does, an acknowledged range is still in range, a vote still counts for
  what it counted for, and a promise that could be honoured before can be
  honoured after. Both kinds of growth keep the role-free part of the invariant.
 */
module Growth {
  import opened Protocol
  import opened Invariant
  import opened Facts

  ghost predicate Grows(ll: map<nat, Log>, ll': map<nat, Log>) {
    forall t :: t in ll ==>
      && t in ll' && ll[t] <= ll'[t]
      && forall i :: |ll[t]| <= i < |ll'[t]| ==> ll'[t][i].term == t
  }

  lemma LogOkGrows(ll: map<nat, Log>, ll': map<nat, Log>, log: Log)
    requires Grows(ll, ll') && LogOk(ll, log)
    ensures LogOk(ll', log)
  {
    forall i | 0 <= i < |log| ensures log[i].term in ll' && log[..i + 1] <= ll'[log[i].term] {
      assert log[..i + 1] <= ll[log[i].term];
      assert ll[log[i].term] <= ll'[log[i].term];
    }
  }

  /** A leader that lacks an older leader's entries never comes to hold them. */
  lemma LacksGrows(ll: map<nat, Log>, ll': map<nat, Log>, u: nat, t: nat, j: nat)
    requires Grows(ll, ll') && LeaderLogsOk(ll)
    requires t in ll && u in ll && t < u && j <= |ll[t]| && Lacks(ll, u, t, j)
    ensures j <= |ll'[t]| && Lacks(ll', u, t, j)
  {
    var p := ll[t][..j];
    assert ll'[t][..j] == p;
    var i := |ll[u]|;
    if i < j && i < |ll'[u]| {
      assert p[i] == ll[t][i];
      assert p[i] != ll'[u][i];
    }
  }

  lemma AckKeptGrows(ll: map<nat, Log>, ll': map<nat, Log>, log: Log, upto: int, m: Msg)
    requires Grows(ll, ll') && LeaderLogsOk(ll)
    requires IsAck(m) && AckInRange(ll, m) && AckKept(ll, log, upto, m)
    ensures AckInRange(ll', m) && AckKept(ll', log, upto, m)
  {
    var t := m.term;
    assert ll[t] <= ll'[t];
    forall j | 0 < j <= m.last ensures Keeps(ll', log, upto, t, j) {
      assert Keeps(ll, log, upto, t, j);
      assert ll'[t][..j] == ll[t][..j];
      if !(ll[t][..j] <= log) {
        var u :| u in ll && t < u <= upto && Lacks(ll, u, t, j);
        LacksGrows(ll, ll', u, t, j);
      }
    }
  }

  lemma HonoursGrows(ll: map<nat, Log>, ll': map<nat, Log>, d: Durable, m: Msg)
    requires Grows(ll, ll') && LeaderLogsOk(ll) && Honours(ll, d, m)
    ensures Honours(ll', d, m)
  {
    if IsAck(m) { AckKeptGrows(ll, ll', d.log, d.term, m); }
  }

  /** Whatever has been said is an acknowledgement of entries a leader had. */
  lemma SaidInRange(s: State, n: nat, m: Msg)
    requires Disks(s) && HasNode(s, n) && Said(s, n, m)
    ensures AckInRange(s.hist.logs, m)
    ensures Honours(s.hist.logs, s.nodes[n].mem, m)
  {
    var nd := s.nodes[n];
    assert Image(nd, |nd.queue|) == nd.mem;
    if m in s.net {
      assert SentHonoured(s.hist.logs, nd, m);
    } else {
      var g :| Held(g, Send(m)) in nd.held;
      assert HeldHonoured(s.hist.logs, nd, g, m);
    }
  }

  /** `s'` is `s` with longer or more leaders' logs. */
  ghost predicate LogsGrow(s: State, s': State) {
    && s'.nodes == s.nodes && s'.net == s.net
    && Grows(s.hist.logs, s'.hist.logs)
  }

  lemma DisksGrow(s: State, s': State)
    requires Disks(s) && LogsGrow(s, s') && LeaderLogsOk(s'.hist.logs)
    ensures Disks(s')
  {
    var ll := s.hist.logs;
    var ll' := s'.hist.logs;
    forall n | 0 <= n < |s'.nodes| ensures NodeImages(ll', s'.nodes[n]) {
      forall k | 0 <= k <= |s.nodes[n].queue| ensures ImageOk(ll', Image(s'.nodes[n], k)) {
        assert ImageOk(ll, Image(s.nodes[n], k));
        LogOkGrows(ll, ll', Image(s.nodes[n], k).log);
      }
    }
    forall m | m in s'.net ensures HasNode(s', m.from) && SentHonoured(ll', s'.nodes[m.from], m) {
      assert SentHonoured(ll, s.nodes[m.from], m);
      forall k | 0 <= k <= |s.nodes[m.from].queue| ensures Honours(ll', Image(s'.nodes[m.from], k), m) {
        HonoursGrows(ll, ll', Image(s.nodes[m.from], k), m);
      }
    }
    PendingGrow(s, s');
  }

  lemma PendingGrow(s: State, s': State)
    requires Pending(s) && LogsGrow(s, s') && LeaderLogsOk(s.hist.logs)
    ensures Pending(s')
  {
    var ll := s.hist.logs;
    var ll' := s'.hist.logs;
    forall n: nat, g: nat, m | 0 <= n < |s'.nodes| && Held(g, Send(m)) in s'.nodes[n].held
      ensures m.from == n && IsReply(m) && HeldHonoured(ll', s'.nodes[n], g, m)
    {
      var nd := s.nodes[n];
      assert HeldHonoured(ll, nd, g, m);
      forall k | 0 <= k <= |nd.queue| && g <= nd.landed + k ensures Honours(ll', Image(nd, k), m) {
        HonoursGrows(ll, ll', Image(nd, k), m);
      }
    }
  }

  lemma BallotsGrow(s: State, s': State)
    requires Disks(s) && LogsGrow(s, s') && BallotsAfterAcks(s) && OneBallot(s) && Ballots(s)
    ensures BallotsAfterAcks(s') && OneBallot(s') && Ballots(s')
  {
    var ll := s.hist.logs;
    var ll' := s'.hist.logs;
    assert forall n, m :: 0 <= n < |s.nodes| ==> (Said(s', n, m) <==> Said(s, n, m));
    forall n, b, a | 0 <= n < |s'.nodes| && Said(s', n, b) && Said(s', n, a)
      ensures BallotAfterAck(ll', b, a)
    {
      assert BallotAfterAck(ll, b, a);
      SaidInRange(s, n, a);
      if IsBallot(b) && IsAck(a) && a.term < b.term { AckKeptGrows(ll, ll', b.log, b.term, a); }
    }
    forall n, b | 0 <= n < |s'.nodes| && Said(s', n, b) ensures BallotOk(ll', s'.net, b) {
      assert BallotOk(ll, s.net, b);
      if IsBallot(b) { LogOkGrows(ll, ll', b.log); }
    }
  }

  lemma SlicesGrow(s: State, s': State)
    requires LogsGrow(s, s') && Asks(s) && Slices(s)
    ensures Asks(s') && Slices(s')
  {
    forall m | m in s'.net ensures SliceOk(s'.hist.logs, m) {
      assert SliceOk(s.hist.logs, m);
      if m.Append? { assert s.hist.logs[m.term] <= s'.hist.logs[m.term]; }
    }
  }

  lemma WinnersGrow(s: State, s': State, t: nat, v: nat, a: Msg)
    requires Disks(s) && LogsGrow(s, s') && WinnersAfterAcks(s)
    requires t in s.hist.wins && v in s.hist.wins[t].ballots && HasNode(s, v) && Said(s, v, a)
    ensures WinnerAfterAck(s'.hist.logs, t, s.hist.wins[t].ballots[v], a)
  {
    assert WinnerAfterAck(s.hist.logs, t, s.hist.wins[t].ballots[v], a);
    SaidInRange(s, v, a);
    if IsAck(a) && a.term < t { AckKeptGrows(s.hist.logs, s'.hist.logs, s.hist.wins[t].ballots[v], t - 1, a); }
  }

  // ---- A leader extends its log -------------------------------------------

  function Extended(s: State, t: nat, es: Log): State
    requires t in s.hist.logs
  {
    s.(hist := s.hist.(logs := s.hist.logs[t := s.hist.logs[t] + es]))
  }

  lemma ExtendedLogOk(ll: map<nat, Log>, t: nat, es: Log)
    requires LeaderLogsOk(ll) && t in ll && forall i :: 0 <= i < |es| ==> es[i].term == t
    ensures LogOk(ll[t := ll[t] + es], ll[t] + es)
  {
    var log := ll[t] + es;
    var ll' := ll[t := log];
    forall i | 0 <= i < |log| ensures log[i].term in ll' && log[..i + 1] <= ll'[log[i].term] {
      if i < |ll[t]| {
        assert log[i] == ll[t][i] && log[..i + 1] == ll[t][..i + 1];
        assert ll[t][..i + 1] <= ll[log[i].term];
      }
    }
  }

  lemma ExtendedSorted(log: Log, t: nat, es: Log)
    requires Sorted(log) && TermsUpTo(log, t) && forall i :: 0 <= i < |es| ==> es[i].term == t
    ensures Sorted(log + es) && TermsUpTo(log + es, t)
  {
  }

  lemma ExtendedLogsOk(ll: map<nat, Log>, t: nat, es: Log)
    requires LeaderLogsOk(ll) && t in ll && forall i :: 0 <= i < |es| ==> es[i].term == t
    ensures Grows(ll, ll[t := ll[t] + es]) && LeaderLogsOk(ll[t := ll[t] + es])
  {
    var ll' := ll[t := ll[t] + es];
    assert Grows(ll, ll');
    forall u | u in ll' ensures LogOk(ll', ll'[u]) && TermsUpTo(ll'[u], u) && Sorted(ll'[u]) {
      if u == t {
        ExtendedLogOk(ll, t, es);
        ExtendedSorted(ll[t], t, es);
      } else {
        LogOkGrows(ll, ll', ll[u]);
      }
    }
  }

  lemma WinsExtend(s: State, t: nat, es: Log)
    requires Wins(s) && t in s.hist.logs && forall i :: 0 <= i < |es| ==> es[i].term == t
    ensures Wins(Extended(s, t, es))
  {
    hide UpToDate;
    var s' := Extended(s, t, es);
    forall u | u in s'.hist.wins ensures WinOk(s', u, s'.hist.wins[u]) {
      assert WinOk(s, u, s.hist.wins[u]);
    }
    forall u, v | u in s'.hist.wins && v in s'.hist.wins[u].ballots
      ensures WinBallotOk(s', u, s'.hist.wins[u], v)
    {
      assert WinBallotOk(s, u, s.hist.wins[u], v);
    }
  }

  lemma WinnersExtend(s: State, s': State)
    requires Disks(s) && LogsGrow(s, s') && WinnersAfterAcks(s) && s'.hist.wins == s.hist.wins
    ensures WinnersAfterAcks(s')
  {
    forall u, v, a | u in s'.hist.wins && v in s'.hist.wins[u].ballots && HasNode(s', v) && Said(s', v, a)
      ensures WinnerAfterAck(s'.hist.logs, u, s'.hist.wins[u].ballots[v], a)
    {
      WinnersGrow(s, s', u, v, a);
    }
  }

  lemma CoreExtend(s: State, t: nat, es: Log)
    requires Core(s) && t in s.hist.logs && forall i :: 0 <= i < |es| ==> es[i].term == t
    ensures Core(Extended(s, t, es))
  {
    hide Images, Sent, Pending, Shape, BallotsAfterAcks, OneBallot, Ballots, Asks, Wins, WinnersAfterAcks, Slices, Grows;
    var s' := Extended(s, t, es);
    ExtendedLogsOk(s.hist.logs, t, es);
    DisksGrow(s, s');
    BallotsGrow(s, s');
    SlicesGrow(s, s');
    WinsExtend(s, t, es);
    WinnersExtend(s, s');
  }

  // ---- A new term's leader ------------------------------------------------

  function Crowned(s: State, t: nat, w: Win): State {
    s.(hist := s.hist.(logs := s.hist.logs[t := w.start + [Entry(t, "")]], wins := s.hist.wins[t := w]))
  }

  ghost predicate CanCrown(s: State, t: nat, w: Win) {
    && t !in s.hist.logs
    && LogOk(s.hist.logs, w.start) && TermsBelow(w.start, t)
    && HasNode(s, w.leader) && w.leader in w.ballots && w.ballots[w.leader] == w.start
    && 2 * |w.ballots| > |s.nodes|
    && forall v :: v in w.ballots ==> WinBallotOk(s, t, w, v)
  }

  lemma CrownedLogOk(ll: map<nat, Log>, t: nat, start: Log)
    requires t !in ll && LogOk(ll, start)
    ensures LogOk(ll[t := start + [Entry(t, "")]], start + [Entry(t, "")])
  {
    var log := start + [Entry(t, "")];
    var ll' := ll[t := log];
    forall i | 0 <= i < |log| ensures log[i].term in ll' && log[..i + 1] <= ll'[log[i].term] {
      if i < |start| {
        assert log[i] == start[i] && log[..i + 1] == start[..i + 1];
        assert start[..i + 1] <= ll[start[i].term];
      }
    }
  }

  lemma CrownedLogsOk(ll: map<nat, Log>, t: nat, start: Log)
    requires LeaderLogsOk(ll) && t !in ll && LogOk(ll, start) && TermsBelow(start, t)
    ensures Grows(ll, ll[t := start + [Entry(t, "")]]) && LeaderLogsOk(ll[t := start + [Entry(t, "")]])
  {
    var ll' := ll[t := start + [Entry(t, "")]];
    assert Grows(ll, ll');
    LogOkSorted(ll, start);
    CrownedLogOk(ll, t, start);
    forall u | u in ll' ensures LogOk(ll', ll'[u]) && TermsUpTo(ll'[u], u) && Sorted(ll'[u]) {
      if u == t {
        ExtendedSorted(start, t, [Entry(t, "")]);
      } else {
        LogOkGrows(ll, ll', ll[u]);
      }
    }
  }

  lemma WinsCrown(s: State, t: nat, w: Win)
    requires Wins(s) && CanCrown(s, t, w)
    ensures Wins(Crowned(s, t, w))
  {
    hide UpToDate, LogOk;
    var s' := Crowned(s, t, w);
    forall u | u in s'.hist.wins ensures WinOk(s', u, s'.hist.wins[u]) {
      if u != t { assert WinOk(s, u, s.hist.wins[u]); }
    }
    forall u, v | u in s'.hist.wins && v in s'.hist.wins[u].ballots
      ensures WinBallotOk(s', u, s'.hist.wins[u], v)
    {
      if u != t { assert WinBallotOk(s, u, s.hist.wins[u], v); } else { assert WinBallotOk(s, t, w, v); }
    }
  }

  /** The winner's voters kept what they had acknowledged, up to what an earlier leader overwrote. */
  lemma WinnerKept(ll: map<nat, Log>, b: Msg, a: Msg)
    requires BallotAfterAck(ll, b, a) && IsBallot(b) && b.term !in ll
    ensures WinnerAfterAck(ll, b.term, b.log, a)
  {
    var t: int := b.term - 1;
    if IsAck(a) && a.term < b.term && AckInRange(ll, a) {
      forall j | 0 < j <= a.last ensures Keeps(ll, b.log, t, a.term, j) {
        assert Keeps(ll, b.log, b.term, a.term, j);
      }
    }
  }

  lemma WinnersCrown(s: State, t: nat, w: Win)
    requires Disks(s) && BallotsAfterAcks(s) && WinnersAfterAcks(s) && CanCrown(s, t, w)
    requires LogsGrow(s, Crowned(s, t, w))
    ensures WinnersAfterAcks(Crowned(s, t, w))
  {
    hide Disks, BallotsAfterAcks, CanCrown, WinnerAfterAck, Grows;
    var s' := Crowned(s, t, w);
    forall u, v, a | u in s'.hist.wins && v in s'.hist.wins[u].ballots && HasNode(s', v) && Said(s', v, a)
      ensures WinnerAfterAck(s'.hist.logs, u, s'.hist.wins[u].ballots[v], a)
    {
      assert Said(s, v, a);
      if u == t {
        WinnerCrown(s, t, w, v, a);
      } else {
        WinnersGrow(s, s', u, v, a);
      }
    }
  }

  lemma WinnerCrown(s: State, t: nat, w: Win, v: nat, a: Msg)
    requires Disks(s) && BallotsAfterAcks(s) && CanCrown(s, t, w)
    requires LogsGrow(s, Crowned(s, t, w))
    requires v in w.ballots && HasNode(s, v) && Said(s, v, a)
    ensures WinnerAfterAck(Crowned(s, t, w).hist.logs, t, w.ballots[v], a)
  {
    hide Images, Sent, Pending, Shape, UpToDate, LogOk;
    var ll := s.hist.logs;
    var b := Vote(t, v, w.leader, true, w.ballots[v]);
    assert WinBallotOk(s, t, w, v);
    assert Said(s, v, b);
    assert BallotAfterAck(ll, b, a);
    WinnerKept(ll, b, a);
    SaidInRange(s, v, a);
    if IsAck(a) && a.term < t {
      AckKeptGrows(ll, Crowned(s, t, w).hist.logs, w.ballots[v], t - 1, a);
    }
  }

  lemma CoreCrown(s: State, t: nat, w: Win)
    requires Core(s) && CanCrown(s, t, w)
    ensures Core(Crowned(s, t, w))
  {
    hide BallotsAfterAcks, OneBallot, Ballots, Asks, Wins, WinnersAfterAcks, Slices, Grows;
    var s' := Crowned(s, t, w);
    CrownedLogsOk(s.hist.logs, t, w.start);
    DisksGrow(s, s');
    BallotsGrow(s, s');
    SlicesGrow(s, s');
    WinsCrown(s, t, w);
    WinnersCrown(s, t, w);
  }
}
