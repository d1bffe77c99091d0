/** More of all runs, disturbed or not, until the thread is caught: what has been asked for, and what a
    registered transfer has heard. */
module HubRuns {
  import opened Collections
  import opened StreamSpec
  import opened StreamEvents
  import opened RegistrySpec
  import opened StreamHub
  import opened HubEnds

  // ---------------------------------------------------------------- SIDREQUESTs sent

  lemma {:induction false} CancelledAsks(h: Hub, sids: seq<Sid>)
    ensures Cancelled(h, sids).requests == h.requests
    decreases sids
  {
    if sids == [] || h.halted || sids[0] !in h.live {
    } else {
      ReactsAsks(h, sids[0], Lost);
      CancelledAsks(Reacts(h, sids[0], Lost), sids[1..]);
    }
  }

  lemma ReactsAsks(h: Hub, sid: Sid, e: Event)
    ensures Reacts(h, sid, e).requests == h.requests
  {
  }

  lemma StartAsks(h: Hub, n: nat, c: Conn, sid: Sid, ready: bool)
    ensures Started(h, n, c, sid, ready).requests == h.requests + if ready then [Entry(c, sid)] else []
  {
  }

  lemma StepAsks(h: Hub, n: nat, e: HubEvent)
    requires !h.halted
    ensures Step(h, n, e).requests == h.requests + if e.Start? && e.ready then [Entry(e.conn, e.sid)] else []
  {
    match e
    case Start(c, sid, ready) => StartAsks(h, n, c, sid, ready);
    case Receive(_, sid, w) => ReactsAsks(h, sid, Arrive(w));
    case Expire(_, sid) => ReactsAsks(h, sid, Timeout);
    case Lose(c) => CancelledAsks(h, Gathered(h.index, c));
    case Pass =>
  }

  /** A stream is asked for when it is started on a ready connection, on that connection and by its sid, and
      at no other time. */
  lemma RequestsPlus(es: seq<HubEvent>, e: HubEvent)
    requires !Ran(es).halted
    ensures Ran(es + [e]).requests == Ran(es).requests + if e.Start? && e.ready then [Entry(e.conn, e.sid)] else []
  {
    RanPlus(es, e);
    StepAsks(Ran(es), |es|, e);
  }

  /** The ready starts of a run, in order. */
  function AskedFor(es: seq<HubEvent>): seq<Entry>
    decreases |es|
  {
    if es == [] then []
    else
      var e := es[|es| - 1];
      AskedFor(es[..|es| - 1]) + if e.Start? && e.ready then [Entry(e.conn, e.sid)] else []
  }

  /** On every run the SIDREQUESTs sent are exactly its ready starts, in order. */
  lemma {:induction false} RequestsAre(es: seq<HubEvent>)
    requires !Ran(es).halted
    ensures Ran(es).requests == AskedFor(es)
    decreases |es|
  {
    if es == [] {
    } else {
      var before, e := es[..|es| - 1], es[|es| - 1];
      assert before + [e] == es;
      RanPlus(before, e);
      RequestsAre(before);
      RequestsPlus(before, e);
    }
  }

  // ---------------------------------------------------------------- every live transfer has its entry

  lemma RegisterIndexed(t: Tables, c: Conn, sid: Sid)
    requires LiveIndexed(t)
    ensures LiveIndexed(Register(t, c, sid))
  {
    var t', k := Register(t, c, sid), RegistrySpec.After(t.index, c);
    InsertAt(t.index, Entry(c, sid), k);
    forall s
      ensures Indexed(t', s)
    {
      if s == sid {
        assert t'.index[k] == Entry(c, sid);
      } else if s in t.live {
        var i := EntryOf(t, s);
        InsertAt(t.index, Entry(c, sid), if i < k then i else i + 1);
        assert t'.index[if i < k then i else i + 1] == Entry(t'.live[s], s);
      }
    }
  }

  lemma UnregisterIndexed(t: Tables, c: Conn, sid: Sid)
    requires LiveIndexed(t) && Unstuck(t.index, c, sid)
    ensures LiveIndexed(UnregisterLiteral(t, c, sid))
  {
    var t', k := UnregisterLiteral(t, c, sid), First(t.index, c);
    forall s
      ensures Indexed(t', s)
    {
      if s in t'.live {
        var i := EntryOf(t, s);
        if k < |t.index| {
          var i' := if i < k then i else i - 1;
          WithoutAt(t.index, k, i');
          assert t'.index[i'] == Entry(t'.live[s], s);
        } else {
          assert t'.index[i] == Entry(t'.live[s], s);
        }
      }
    }
  }

  lemma ReactsIndexed(h: Hub, sid: Sid, e: Event)
    requires LiveIndexed(TablesOf(h)) && !h.halted && !Reacts(h, sid, e).halted
    ensures LiveIndexed(TablesOf(Reacts(h, sid, e)))
  {
    if sid in h.live {
      var h', c := Reacts(h, sid, e), h.live[sid].conn;
      if React(h.live[sid].recv, e).recv.live {
        assert TablesOf(h').live == TablesOf(h).live;
      } else {
        assert TablesOf(h').live == TablesOf(h).live - {sid};
        UnregisterIndexed(TablesOf(h), c, sid);
      }
    }
  }

  lemma {:induction false} CancelledIndexed(h: Hub, sids: seq<Sid>)
    requires LiveIndexed(TablesOf(h)) && !h.halted && !Cancelled(h, sids).halted
    ensures LiveIndexed(TablesOf(Cancelled(h, sids)))
    decreases sids
  {
    if sids == [] || sids[0] !in h.live {
    } else {
      ReactsIndexed(h, sids[0], Lost);
      CancelledIndexed(Reacts(h, sids[0], Lost), sids[1..]);
    }
  }

  lemma StartIndexed(h: Hub, n: nat, c: Conn, sid: Sid, ready: bool)
    requires LiveIndexed(TablesOf(h)) && !h.halted && !Started(h, n, c, sid, ready).halted
    ensures LiveIndexed(TablesOf(Started(h, n, c, sid, ready)))
  {
    var h' := Started(h, n, c, sid, ready);
    if ready {
      assert TablesOf(h').live == TablesOf(h).live[sid := c];
      RegisterIndexed(TablesOf(h), c, sid);
    } else {
      assert TablesOf(h').live == TablesOf(h).live - {sid};
      UnregisterIndexed(TablesOf(h), c, sid);
    }
  }

  lemma StepIndexed(h: Hub, n: nat, e: HubEvent)
    requires LiveIndexed(TablesOf(h)) && !h.halted && !Step(h, n, e).halted
    ensures LiveIndexed(TablesOf(Step(h, n, e)))
  {
    match e
    case Start(c, sid, ready) => StartIndexed(h, n, c, sid, ready);
    case Receive(_, sid, w) => ReactsIndexed(h, sid, Arrive(w));
    case Expire(i, sid) => if Registered(h, sid, i) { ReactsIndexed(h, sid, Timeout); }
    case Lose(c) => CancelledIndexed(h, Gathered(h.index, c));
    case Pass =>
  }

  // ---------------------------------------------------------------- losing a connection

  /** Whom the teardown gets through to is gone; the others stand as they did. */
  lemma {:induction false} CancelledOut(h: Hub, sids: seq<Sid>, s: Sid)
    requires AllLive(h) && !h.halted && !Cancelled(h, sids).halted
    ensures s in Cancelled(h, sids).live ==> s in h.live && s !in sids && Cancelled(h, sids).live[s] == h.live[s]
    decreases sids
  {
    if sids == [] || sids[0] !in h.live {
    } else {
      LostOne(h, sids[0]);
      CancelledOut(Reacts(h, sids[0], Lost), sids[1..], s);
      assert sids == [sids[0]] + sids[1..];
    }
  }

  lemma {:induction false} CancelledSpares(h: Hub, sids: seq<Sid>, s: Sid, i: nat)
    requires AllLive(h) && !h.halted && !Cancelled(h, sids).halted && OnlyUnder(h, s, i)
    requires Registered(Cancelled(h, sids), s, i)
    ensures CallsOf(i, Cancelled(h, sids).log) == CallsOf(i, h.log)
    decreases sids
  {
    CancelledOut(h, sids, s);
    if sids == [] || sids[0] !in h.live {
    } else {
      var first := sids[0];
      var h' := Reacts(h, first, Lost);
      LostOne(h, first);
      CallsPlus(i, h.log, h.live[first].id, [Cancel]);
      assert Registered(h, first, i) ==> first == s;
      assert forall x :: Registered(h', x, i) ==> Registered(h, x, i);
      CancelledSpares(h', sids[1..], s, i);
      assert CallsOf(i, h.log) + [] == CallsOf(i, h.log);
    }
  }

  /** A transfer of the lost connection is gathered. */
  lemma OwnGathered(h: Hub, s: Sid)
    requires LiveIndexed(TablesOf(h)) && s in h.live
    ensures s in Gathered(h.index, h.live[s].conn)
  {
    var c := h.live[s].conn;
    var i := EntryOf(TablesOf(h), s);
    FirstIs(h.index, c);
    SidsOfAt(h.index[First(h.index, c)..]);
    assert h.index[First(h.index, c)..][i - First(h.index, c)] == h.index[i];
    assert Gathered(h.index, c)[i - First(h.index, c)] == s;
  }

  // ---------------------------------------------------------------- registered means undisturbed so far

  /** Transfer i, if registered, has heard what it would have heard on its own. */
  ghost predicate AsAlone(es: seq<HubEvent>, h: Hub, i: nat) {
    Starts(es, i) && Registered(h, es[i].sid, i) ==>
      CallsOf(i, h.log) == Alone(es, i).calls && h.live[es[i].sid].recv == Alone(es, i).recv
  }

  lemma HeardAlone(es: seq<HubEvent>, h: Hub, h': Hub, e: HubEvent, i: nat, evs: seq<Event>)
    requires Starts(es, i) && Registered(h, es[i].sid, i) && AsAlone(es, h, i) && Registered(h', es[i].sid, i)
    requires evs == Concern(i, es[i], e)
    requires CallsOf(i, h'.log) == CallsOf(i, h.log) + ReactAll(h.live[es[i].sid].recv, evs).calls
    requires h'.live[es[i].sid].recv == ReactAll(h.live[es[i].sid].recv, evs).recv
    ensures AsAlone(es + [e], h', i)
  {
    AlonePlus(es, e, i);
  }

  lemma StayedAlone(es: seq<HubEvent>, h: Hub, h': Hub, e: HubEvent, i: nat)
    requires Starts(es, i) && Registered(h, es[i].sid, i) && AsAlone(es, h, i) && Registered(h', es[i].sid, i)
    requires Concern(i, es[i], e) == [] && CallsOf(i, h'.log) == CallsOf(i, h.log)
    requires h'.live[es[i].sid].recv == h.live[es[i].sid].recv
    ensures AsAlone(es + [e], h', i)
  {
    ReactOne(h.live[es[i].sid].recv, Lost);
    assert CallsOf(i, h.log) + [] == CallsOf(i, h.log);
    HeardAlone(es, h, h', e, i, []);
  }

  lemma ReactsAlone(es: seq<HubEvent>, h: Hub, e: HubEvent, to: Sid, ev: Event, i: nat)
    requires Healthy(es, h) && !h.halted && Starts(es, i) && Registered(h, es[i].sid, i) && AsAlone(es, h, i)
    requires !Reacts(h, to, ev).halted && Registered(Reacts(h, to, ev), es[i].sid, i)
    requires Concern(i, es[i], e) == if to == es[i].sid then [ev] else []
    ensures AsAlone(es + [e], Reacts(h, to, ev), i)
  {
    HealthyMeans(es, h, i);
    ReactsCalls(h, to, ev, i);
    assert Registered(h, to, i) ==> to == es[i].sid;
    if to == es[i].sid {
      ReactOne(h.live[to].recv, ev);
      HeardAlone(es, h, Reacts(h, to, ev), e, i, [ev]);
    } else {
      assert CallsOf(i, h.log) + [] == CallsOf(i, h.log);
      StayedAlone(es, h, Reacts(h, to, ev), e, i);
    }
  }

  lemma LoseAlone(es: seq<HubEvent>, h: Hub, c: Conn, i: nat)
    requires Healthy(es, h) && !h.halted && LiveIndexed(TablesOf(h))
    requires Starts(es, i) && Registered(h, es[i].sid, i) && AsAlone(es, h, i)
    requires var h' := Step(h, |es|, Lose(c)); !h'.halted && Registered(h', es[i].sid, i)
    ensures AsAlone(es + [Lose(c)], Step(h, |es|, Lose(c)), i)
  {
    var gone := Gathered(h.index, c);
    HealthyMeans(es, h, i);
    CancelledOut(h, gone, es[i].sid);
    CancelledSpares(h, gone, es[i].sid, i);
    OwnGathered(h, es[i].sid);
    StayedAlone(es, h, Step(h, |es|, Lose(c)), Lose(c), i);
  }

  lemma StartAlone(es: seq<HubEvent>, h: Hub, e: HubEvent, i: nat)
    requires Healthy(es, h) && !h.halted && e.Start?
    requires Starts(es, i) && Registered(h, es[i].sid, i) && AsAlone(es, h, i)
    requires var h' := Step(h, |es|, e); !h'.halted && Registered(h', es[i].sid, i)
    ensures AsAlone(es + [e], Step(h, |es|, e), i)
  {
    StartCancels(h.log, |es|, i);
    assert CallsOf(i, h.log) + [] == CallsOf(i, h.log);
    StayedAlone(es, h, Step(h, |es|, e), e, i);
  }

  /** Nobody is registered by an event but the transfer it starts. */
  lemma RegisteredBefore(h: Hub, n: nat, e: HubEvent, s: Sid, i: nat)
    requires AllLive(h) && !h.halted && !Step(h, n, e).halted && Registered(Step(h, n, e), s, i) && i != n
    ensures Registered(h, s, i)
  {
    if e.Lose? { CancelledOut(h, Gathered(h.index, e.conn), s); }
  }

  lemma OldAlone(es: seq<HubEvent>, h: Hub, e: HubEvent, i: nat)
    requires Healthy(es, h) && !h.halted && !Step(h, |es|, e).halted && LiveIndexed(TablesOf(h))
    requires Starts(es, i) && AsAlone(es, h, i) && Registered(Step(h, |es|, e), es[i].sid, i)
    ensures AsAlone(es + [e], Step(h, |es|, e), i)
  {
    HealthyLive(es, h);
    RegisteredBefore(h, |es|, e, es[i].sid, i);
    match e
    case Start(_, _, _) => StartAlone(es, h, e, i);
    case Receive(_, to, w) => ReactsAlone(es, h, e, to, Arrive(w), i);
    case Expire(id, to) =>
      if Registered(h, to, id) && (id == i || to != es[i].sid) {
        HealthyMeans(es, h, i);
        assert Registered(h, to, i) ==> to == es[i].sid;
        ReactsAlone(es, h, e, to, Timeout, i);
      } else {
        StayedAlone(es, h, Step(h, |es|, e), e, i);
      }
    case Lose(c) => LoseAlone(es, h, c, i);
    case Pass => StayedAlone(es, h, Step(h, |es|, e), e, i);
  }

  lemma NewAlone(es: seq<HubEvent>, h: Hub, e: HubEvent)
    requires Healthy(es, h) && !h.halted && CallsOf(|es|, h.log) == []
    ensures AsAlone(es + [e], Step(h, |es|, e), |es|)
  {
    if e.Start? {
      AloneFirst(es, e);
      HealthyGone(es, h, |es|);
    }
  }

  lemma {:induction false} RunAlone(es: seq<HubEvent>, i: nat)
    requires !Ran(es).halted
    ensures AsAlone(es, Ran(es), i) && LiveIndexed(TablesOf(Ran(es)))
    decreases |es|
  {
    if es == [] {
    } else {
      var before, e := es[..|es| - 1], es[|es| - 1];
      assert before + [e] == es;
      RanPlus(before, e);
      RunAlone(before, i);
      HealthyNow(before);
      StepIndexed(Ran(before), |before|, e);
      if i == |before| {
        NewAlone(before, Ran(before), e);
      } else if Starts(before, i) && Registered(Ran(es), before[i].sid, i) {
        OldAlone(before, Ran(before), e, i);
      }
    }
  }

  /** On every run, whatever disturbs others or is to come: a transfer that is still registered has made
      exactly the calls of its own run and stands where that leaves it. */
  lemma RegisteredAsAlone(es: seq<HubEvent>, i: nat)
    requires !Ran(es).halted && Starts(es, i) && Registered(Ran(es), es[i].sid, i)
    ensures es[i].ready
    ensures CallsOf(i, Ran(es).log) == Alone(es, i).calls && Ran(es).live[es[i].sid].recv == Alone(es, i).recv
  {
    RunAlone(es, i);
    HealthyNow(es);
    assert HealthyAt(es, Ran(es), es[i].sid);
  }

  // ---------------------------------------------------------------- the headers timer

  /** e brings headers for the sid. */
  predicate BringsHeaders(e: HubEvent, sid: Sid) {
    e.Receive? && e.sid == sid && e.wire.Headers?
  }

  ghost predicate HeadersAt(es: seq<HubEvent>, i: nat, k: nat) {
    i < k < |es| && es[i].Start? && BringsHeaders(es[k], es[i].sid)
  }

  /** Headers for the sid have come since transfer i was started. */
  ghost predicate HadHeaders(es: seq<HubEvent>, i: nat) {
    exists k: nat :: HeadersAt(es, i, k)
  }

  lemma HadHeadersPlus(es: seq<HubEvent>, e: HubEvent, i: nat)
    requires Starts(es, i)
    ensures HadHeaders(es + [e], i) <==> HadHeaders(es, i) || BringsHeaders(e, es[i].sid)
  {
    if k: nat :| HeadersAt(es, i, k) { assert HeadersAt(es + [e], i, k); }
    if BringsHeaders(e, es[i].sid) { assert HeadersAt(es + [e], i, |es|); }
    if k: nat :| HeadersAt(es + [e], i, k) { assert k == |es| || HeadersAt(es, i, k); }
  }

  ghost predicate SomeHeaders(evs: seq<Event>) {
    exists ev :: ev in evs && IsHeaders(ev)
  }

  lemma SomeHeadersJoin(a: seq<Event>, b: seq<Event>)
    ensures SomeHeaders(a + b) <==> SomeHeaders(a) || SomeHeaders(b)
  {
    if ev :| ev in a + b && IsHeaders(ev) { assert ev in a || ev in b; }
    if ev :| ev in a && IsHeaders(ev) { assert ev in a + b; }
    if ev :| ev in b && IsHeaders(ev) { assert ev in a + b; }
  }

  lemma ConcernHeaders(id: nat, start: HubEvent, e: HubEvent)
    requires start.Start?
    ensures SomeHeaders(Concern(id, start, e)) <==> BringsHeaders(e, start.sid)
  {
    if BringsHeaders(e, start.sid) { assert Arrive(e.wire) in Concern(id, start, e); }
  }

  lemma {:induction false} OwnHeaders(es: seq<HubEvent>, i: nat)
    requires Starts(es, i)
    ensures HadHeaders(es, i) <==> SomeHeaders(OwnEvents(es, i))
    decreases |es|
  {
    if |es| == i + 1 {
    } else {
      var before, e := es[..|es| - 1], es[|es| - 1];
      assert before + [e] == es;
      OwnHeaders(before, i);
      HadHeadersPlus(before, e, i);
      ConcernHeaders(i, es[i], e);
      SomeHeadersJoin(OwnEvents(before, i), Concern(i, es[i], e));
    }
  }

  /** The timer of a registered transfer runs exactly while no headers have come for it. */
  lemma TimerRuns(es: seq<HubEvent>, i: nat)
    requires !Ran(es).halted && Starts(es, i) && Registered(Ran(es), es[i].sid, i)
    ensures var r := Ran(es).live[es[i].sid].recv; r.live && (r.armed <==> !HadHeaders(es, i))
  {
    RegisteredAsAlone(es, i);
    HealthyNow(es);
    OwnHeaders(es, i);
    TransferRemembers(OwnEvents(es, i));
  }

  lemma ExpiresCalls(h: Hub, sid: Sid, i: nat)
    requires Registered(h, sid, i) && h.live[sid].recv.live
    ensures CallsOf(i, Expired(h, i, sid).log) == CallsOf(i, h.log) + if h.live[sid].recv.armed then [Cancel] else []
  {
    ReactsCalls(h, sid, Timeout, i);
  }

  /** On every run: when the headers timer of a registered transfer goes off, its adaptor is told to cancel
      if no headers have come for it since it was started, and is told nothing otherwise. */
  lemma TimerCancelsIff(es: seq<HubEvent>, i: nat)
    requires !Ran(es).halted && Starts(es, i) && Registered(Ran(es), es[i].sid, i)
    ensures CallsOf(i, Ran(es + [Expire(i, es[i].sid)]).log)
         == CallsOf(i, Ran(es).log) + if HadHeaders(es, i) then [] else [Cancel]
  {
    TimerRuns(es, i);
    RanPlus(es, Expire(i, es[i].sid));
    ExpiresCalls(Ran(es), es[i].sid, i);
  }
}
