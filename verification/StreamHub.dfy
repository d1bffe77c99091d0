/** All transfers of one peer at once, with the two tables as written, and when each transfer gets what
    it would get on its own. MessageDispatch has message_received, which feeds them. */
module StreamHub {
  import opened Collections
  import opened StreamSpec
  import opened StreamEvents
  import opened RegistrySpec

  /** A registered transfer; id tells apart the transfers of one sid. */
  datatype Transfer = Transfer(id: nat, conn: Conn, recv: Receiver)

  /** A call on the adaptor of transfer id. */
  datatype Made = Made(id: nat, call: Call)

  /** live is m_sid2ss and index m_conn2sid. halted: the one thread is caught in unregister_sidtransfer's
      loop, or connection_terminated has called a transfer that m_sid2ss no longer has. */
  datatype Hub = Hub(
    live: map<Sid, Transfer>, index: seq<Entry>, requests: seq<Entry>, log: seq<Made>, halted: bool)

  datatype HubEvent =
    | Start(conn: Conn, sid: Sid, ready: bool)           // start_reply, the connection ready or gone
    | Receive(conn: Conn, sid: Sid, wire: Wire)          // handle_siddata, handle_sidheaders or handle_sidfail
    | Expire(id: nat, sid: Sid)                          // the headers timer of a transfer
    | Lose(conn: Conn)                                   // connection_terminated
    | Pass                                               // anything that is not for the transfers

  const IDLE := Hub(map[], [], [], [], false)

  function TablesOf(h: Hub): Tables {
    Tables(map s | s in h.live :: h.live[s].conn, h.index)
  }

  function Tag(id: nat, calls: seq<Call>): (r: seq<Made>)
    ensures |r| == |calls|
  {
    seq(|calls|, i requires 0 <= i < |calls| => Made(id, calls[i]))
  }

  /** unregister_sidtransfer as written; see RegistrySpec.LoopEndsIff. */
  function Unregistered(h: Hub, c: Conn, sid: Sid): Hub {
    if Unstuck(h.index, c, sid) then h.(live := h.live - {sid}, index := LoopTurn(h.index, c, sid).index)
    else h.(halted := true)
  }

  /** The registered transfer of sid has reacted as x says. */
  function Noted(h: Hub, sid: Sid, x: Reaction): Hub
    requires sid in h.live
  {
    var t := h.live[sid];
    h.(live := h.live[sid := t.(recv := x.recv.(live := true))], log := h.log + Tag(t.id, x.calls))
  }

  /** If that ended it, it unregisters. */
  function Settle(h: Hub, sid: Sid, x: Reaction): Hub {
    if sid !in h.live then h
    else if x.recv.live then Noted(h, sid, x)
    else Unregistered(Noted(h, sid, x), h.live[sid].conn, sid)
  }

  /** handle_siddata, handle_sidheaders, handle_sidfail: discard unless registered. */
  function Reacts(h: Hub, sid: Sid, e: Event): Hub {
    if sid in h.live then Settle(h, sid, React(h.live[sid].recv, e)) else h
  }

  /** cancel_handler called for each of the sids; a missing one is a null pointer. */
  function Cancelled(h: Hub, sids: seq<Sid>): Hub
    decreases sids
  {
    if sids == [] || h.halted then h
    else if sids[0] !in h.live then h.(halted := true)
    else Cancelled(Reacts(h, sids[0], Lost), sids[1..])
  }

  function Started(h: Hub, id: nat, c: Conn, sid: Sid, ready: bool): Hub {
    if ready then
      h.(live := h.live[sid := Transfer(id, c, STARTED)], index := Insert(h.index, Entry(c, sid)),
         requests := h.requests + [Entry(c, sid)])
    else Unregistered(h.(log := h.log + [Made(id, Cancel)]), c, sid)
  }

  function Expired(h: Hub, id: nat, sid: Sid): Hub {
    if sid in h.live && h.live[sid].id == id then Reacts(h, sid, Timeout) else h
  }

  /** Event e, the id-th so far; a transfer it starts has that id. */
  function Step(h: Hub, id: nat, e: HubEvent): Hub {
    if h.halted then h
    else
      match e
      case Start(c, sid, ready) => Started(h, id, c, sid, ready)
      case Receive(_, sid, w) => Reacts(h, sid, Arrive(w))
      case Expire(i, sid) => Expired(h, i, sid)
      case Lose(c) => Cancelled(h, Gathered(h.index, c))
      case Pass => h
  }

  function Ran(es: seq<HubEvent>): Hub
    decreases |es|
  {
    if es == [] then IDLE else Step(Ran(es[..|es| - 1]), |es| - 1, es[|es| - 1])
  }

  function CallsOf(id: nat, log: seq<Made>): seq<Call> {
    if log == [] then [] else (if log[0].id == id then [log[0].call] else []) + CallsOf(id, log[1..])
  }

  // ---------------------------------------------------------------- one transfer on its own

  predicate Starts(es: seq<HubEvent>, i: nat) {
    i < |es| && es[i].Start?
  }

  /** What e is to the transfer that start began as the id-th event: a message of its sid, its timer,
      the loss of its connection, or nothing. */
  function Concern(id: nat, start: HubEvent, e: HubEvent): seq<Event>
    requires start.Start?
  {
    match e
    case Receive(_, sid, w) => if sid == start.sid then [Arrive(w)] else []
    case Expire(i, sid) => if i == id && sid == start.sid then [Timeout] else []
    case Lose(c) => if c == start.conn then [Lost] else []
    case _ => []
  }

  function OwnEvents(es: seq<HubEvent>, i: nat): seq<Event>
    requires Starts(es, i)
    decreases |es|
  {
    if |es| == i + 1 then []
    else OwnEvents(es[..|es| - 1], i) + Concern(i, es[i], es[|es| - 1])
  }

  /** Transfer i if it were the only one, from its start on. */
  function Alone(es: seq<HubEvent>, i: nat): Reaction
    requires Starts(es, i)
  {
    if es[i].ready then ReactAll(STARTED, OwnEvents(es, i)) else CancelNow(STARTED)
  }

  ghost predicate GetsOwn(es: seq<HubEvent>, i: nat) {
    Starts(es, i) ==> CallsOf(i, Ran(es).log) == Alone(es, i).calls
  }

  // ---------------------------------------------------------------- what disturbs

  /** e ends the registered transfer of sid. */
  predicate EndsNow(h: Hub, sid: Sid, e: Event) {
    sid in h.live && !React(h.live[sid].recv, e).recv.live
  }

  /** The thread is caught in the loop: the transfer that ends is not its connection's first. */
  predicate Stalls(h: Hub, e: HubEvent) {
    match e
    case Start(c, sid, ready) => !ready && !Unstuck(h.index, c, sid)
    case Receive(_, sid, w) => EndsNow(h, sid, Arrive(w)) && !Unstuck(h.index, h.live[sid].conn, sid)
    case Expire(i, sid) =>
      sid in h.live && h.live[sid].id == i && EndsNow(h, sid, Timeout) && !Unstuck(h.index, h.live[sid].conn, sid)
    case _ => false
  }

  /** A transfer is begun while the sid has a live one. */
  predicate Displaces(h: Hub, e: HubEvent) {
    e.Start? && e.sid in h.live
  }

  /** A lost connection has transfers, and so has a connection ordered after it. */
  ghost predicate TakesOthers(h: Hub, e: HubEvent) {
    e.Lose? && Disturbs(TablesOf(h), Terminate(e.conn))
  }

  ghost predicate Disturbing(h: Hub, e: HubEvent) {
    Stalls(h, e) || Displaces(h, e) || TakesOthers(h, e)
  }

  ghost predicate DisturbedAt(es: seq<HubEvent>, k: nat) {
    k < |es| && Disturbing(Ran(es[..k]), es[k])
  }

  /** No event of the run finds one of those three cases. */
  ghost predicate Calm(es: seq<HubEvent>) {
    forall k: nat :: !DisturbedAt(es, k)
  }

  // ---------------------------------------------------------------- calls

  lemma {:induction false} CallsAppend(id: nat, a: seq<Made>, b: seq<Made>)
    ensures CallsOf(id, a + b) == CallsOf(id, a) + CallsOf(id, b)
  {
    if a == [] {
      assert a + b == b;
    } else {
      assert (a + b)[1..] == a[1..] + b;
      CallsAppend(id, a[1..], b);
      Assoc(if a[0].id == id then [a[0].call] else [], CallsOf(id, a[1..]), CallsOf(id, b));
    }
  }

  lemma {:induction false} CallsTagged(id: nat, to: nat, calls: seq<Call>)
    ensures CallsOf(id, Tag(to, calls)) == if id == to then calls else []
  {
    if calls == [] {
    } else {
      assert Tag(to, calls)[1..] == Tag(to, calls[1..]);
      CallsTagged(id, to, calls[1..]);
      assert [calls[0]] + calls[1..] == calls;
    }
  }

  lemma CallsPlus(id: nat, log: seq<Made>, to: nat, calls: seq<Call>)
    ensures CallsOf(id, log + Tag(to, calls)) == CallsOf(id, log) + if id == to then calls else []
  {
    CallsAppend(id, log, Tag(to, calls));
    CallsTagged(id, to, calls);
  }

  lemma StartCancels(log: seq<Made>, id: nat, i: nat)
    ensures CallsOf(i, log + [Made(id, Cancel)]) == CallsOf(i, log) + if i == id then [Cancel] else []
  {
    assert [Made(id, Cancel)] == Tag(id, [Cancel]);
    CallsPlus(i, log, id, [Cancel]);
  }

  // ---------------------------------------------------------------- every run

  ghost predicate OwnId(es: seq<HubEvent>, sid: Sid, t: Transfer) {
    Starts(es, t.id) && es[t.id].sid == sid && es[t.id].conn == t.conn && es[t.id].ready
  }

  /** Registered transfers live, began as their id says, and have had no terminal call. */
  ghost predicate HealthyAt(es: seq<HubEvent>, h: Hub, s: Sid) {
    s in h.live ==>
      h.live[s].recv.live && OwnId(es, s, h.live[s]) && Terminals(CallsOf(h.live[s].id, h.log)) == 0
  }

  ghost predicate Healthy(es: seq<HubEvent>, h: Hub) {
    forall s :: HealthyAt(es, h, s)
  }

  lemma OwnIdFrame(es: seq<HubEvent>, e: HubEvent, sid: Sid, t: Transfer)
    requires OwnId(es, sid, t)
    ensures OwnId(es + [e], sid, t)
  {
  }

  lemma ReactsHealthyAt(es: seq<HubEvent>, h: Hub, sid: Sid, e: Event, s: Sid)
    requires Healthy(es, h) && !Reacts(h, sid, e).halted
    ensures HealthyAt(es, Reacts(h, sid, e), s)
  {
    if sid in h.live && s in h.live {
      var t, x := h.live[sid], React(h.live[sid].recv, e);
      assert HealthyAt(es, h, s) && HealthyAt(es, h, sid);
      ReactEndsOnce(t.recv, e);
      CallsPlus(h.live[s].id, h.log, t.id, x.calls);
      CountAppend(CallsOf(h.live[s].id, h.log), x.calls, Terminal);
      assert CallsOf(h.live[s].id, h.log) + [] == CallsOf(h.live[s].id, h.log);
    }
  }

  lemma ReactsHealthy(es: seq<HubEvent>, h: Hub, sid: Sid, e: Event)
    requires Healthy(es, h)
    ensures Reacts(h, sid, e).halted || Healthy(es, Reacts(h, sid, e))
  {
    if !Reacts(h, sid, e).halted {
      forall s
        ensures HealthyAt(es, Reacts(h, sid, e), s)
      {
        ReactsHealthyAt(es, h, sid, e, s);
      }
    }
  }

  lemma {:induction false} CancelledHealthy(es: seq<HubEvent>, h: Hub, sids: seq<Sid>)
    requires Healthy(es, h)
    ensures Cancelled(h, sids).halted || Healthy(es, Cancelled(h, sids))
    decreases sids
  {
    if sids == [] || h.halted || sids[0] !in h.live {
    } else {
      ReactsHealthy(es, h, sids[0], Lost);
      var h' := Reacts(h, sids[0], Lost);
      if !h'.halted { CancelledHealthy(es, h', sids[1..]); } else { assert Cancelled(h', sids[1..]) == h'; }
    }
  }

  lemma ReactsLog(h: Hub, sid: Sid, e: Event)
    ensures Reacts(h, sid, e).log ==
              if sid in h.live then h.log + Tag(h.live[sid].id, React(h.live[sid].recv, e).calls) else h.log
  {
  }

  /** An event adds calls only to registered transfers and to the one it starts. */
  lemma ReactsCalls(h: Hub, sid: Sid, e: Event, i: nat)
    ensures CallsOf(i, Reacts(h, sid, e).log) == CallsOf(i, h.log) +
              if sid in h.live && h.live[sid].id == i then React(h.live[sid].recv, e).calls else []
  {
    ReactsLog(h, sid, e);
    if sid in h.live {
      CallsPlus(i, h.log, h.live[sid].id, React(h.live[sid].recv, e).calls);
    } else {
      assert CallsOf(i, h.log) + [] == CallsOf(i, h.log);
    }
  }

  /** Transfer i is not registered, so it can hear nothing any more. */
  ghost predicate Gone(h: Hub, i: nat) {
    forall s :: s in h.live ==> h.live[s].id != i
  }

  lemma {:induction false} CancelledGone(h: Hub, sids: seq<Sid>, i: nat)
    requires Gone(h, i)
    ensures Gone(Cancelled(h, sids), i) && CallsOf(i, Cancelled(h, sids).log) == CallsOf(i, h.log)
    decreases sids
  {
    if sids == [] || h.halted || sids[0] !in h.live {
    } else {
      ReactsCalls(h, sids[0], Lost, i);
      CancelledGone(Reacts(h, sids[0], Lost), sids[1..], i);
    }
  }

  lemma StepGone(h: Hub, n: nat, e: HubEvent, i: nat)
    requires Gone(h, i) && n != i
    ensures Gone(Step(h, n, e), i) && CallsOf(i, Step(h, n, e).log) == CallsOf(i, h.log)
  {
    if h.halted {
    } else {
      match e
      case Start(_, _, _) => StartCancels(h.log, n, i);
      case Receive(_, sid, w) => ReactsCalls(h, sid, Arrive(w), i);
      case Expire(_, sid) => ReactsCalls(h, sid, Timeout, i);
      case Lose(c) => CancelledGone(h, Gathered(h.index, c), i);
      case Pass =>
    }
  }

  lemma RanPlus(es: seq<HubEvent>, e: HubEvent)
    ensures Ran(es + [e]) == Step(Ran(es), |es|, e)
  {
    assert (es + [e])[..|es|] == es;
  }

  lemma HealthyGone(es: seq<HubEvent>, h: Hub, n: nat)
    requires Healthy(es, h) && n >= |es|
    ensures Gone(h, n)
  {
    forall s | s in h.live
      ensures h.live[s].id != n
    {
      assert HealthyAt(es, h, s);
    }
  }

  lemma HealthyFrame(es: seq<HubEvent>, e: HubEvent, h: Hub)
    requires Healthy(es, h)
    ensures Healthy(es + [e], h)
  {
    forall s
      ensures HealthyAt(es + [e], h, s)
    {
      assert HealthyAt(es, h, s);
      if s in h.live { OwnIdFrame(es, e, s, h.live[s]); }
    }
  }

  lemma StartHealthyAt(es: seq<HubEvent>, h: Hub, e: HubEvent, s: Sid)
    requires Healthy(es, h) && e.Start? && CallsOf(|es|, h.log) == []
    requires !Started(h, |es|, e.conn, e.sid, e.ready).halted
    ensures HealthyAt(es + [e], Started(h, |es|, e.conn, e.sid, e.ready), s)
  {
    if s in h.live {
      assert HealthyAt(es, h, s);
      OwnIdFrame(es, e, s, h.live[s]);
      StartCancels(h.log, |es|, h.live[s].id);
      assert CallsOf(h.live[s].id, h.log) + [] == CallsOf(h.live[s].id, h.log);
    }
  }

  lemma StartHealthy(es: seq<HubEvent>, h: Hub, e: HubEvent)
    requires Healthy(es, h) && e.Start? && CallsOf(|es|, h.log) == []
    ensures var h' := Started(h, |es|, e.conn, e.sid, e.ready); h'.halted || Healthy(es + [e], h')
  {
    var h' := Started(h, |es|, e.conn, e.sid, e.ready);
    if !h'.halted {
      forall s
        ensures HealthyAt(es + [e], h', s)
      {
        StartHealthyAt(es, h, e, s);
      }
    }
  }

  lemma StepHealthy(es: seq<HubEvent>, h: Hub, e: HubEvent)
    requires Healthy(es, h) && CallsOf(|es|, h.log) == []
    ensures Step(h, |es|, e).halted || Healthy(es + [e], Step(h, |es|, e))
  {
    if h.halted {
    } else {
      match e
      case Start(_, _, _) => StartHealthy(es, h, e);
      case Receive(_, sid, w) => ReactsHealthy(es, h, sid, Arrive(w));
      case Expire(_, sid) => ReactsHealthy(es, h, sid, Timeout);
      case Lose(c) => CancelledHealthy(es, h, Gathered(h.index, c));
      case Pass =>
    }
    var h' := Step(h, |es|, e);
    if !h'.halted && !e.Start? {
      assert Healthy(es, h');
      HealthyFrame(es, e, h');
    }
  }

  /** On every run, whatever disturbs it, until the thread is caught. */
  lemma {:induction false} RunHealthy(es: seq<HubEvent>, n: nat)
    requires n >= |es|
    ensures Ran(es).halted || Healthy(es, Ran(es))
    ensures CallsOf(n, Ran(es).log) == []
    decreases |es|
  {
    if es == [] {
    } else {
      var before, e := es[..|es| - 1], es[|es| - 1];
      assert before + [e] == es;
      RunHealthy(before, |before|);
      RunHealthy(before, n);
      var h := Ran(before);
      if !h.halted {
        StepHealthy(before, h, e);
        HealthyGone(before, h, n);
        StepGone(h, |before|, e, n);
      }
    }
  }

  // ---------------------------------------------------------------- displaced

  lemma UniqueId(es: seq<HubEvent>, h: Hub, s: Sid, s': Sid)
    requires Healthy(es, h) && s in h.live && s' in h.live && h.live[s].id == h.live[s'].id
    ensures s == s'
  {
    assert HealthyAt(es, h, s) && HealthyAt(es, h, s');
  }

  lemma StartDisplaces(es: seq<HubEvent>, h: Hub, e: HubEvent, i: nat)
    requires Healthy(es, h) && !h.halted && e.Start? && e.sid in h.live && h.live[e.sid].id == i
    ensures var h' := Step(h, |es|, e); (h'.halted || Gone(h', i)) && CallsOf(i, h'.log) == CallsOf(i, h.log)
    ensures i < |es| && Terminals(CallsOf(i, h.log)) == 0
  {
    assert HealthyAt(es, h, e.sid);
    StartCancels(h.log, |es|, i);
    forall s | s in h.live && h.live[s].id == i
      ensures s == e.sid
    {
      UniqueId(es, h, s, e.sid);
    }
  }

  lemma {:induction false} StaysSilent(es: seq<HubEvent>, more: seq<HubEvent>, i: nat)
    requires i < |es| && (Ran(es).halted || Gone(Ran(es), i))
    ensures CallsOf(i, Ran(es + more).log) == CallsOf(i, Ran(es).log)
    decreases more
  {
    if more == [] {
      assert es + more == es;
    } else {
      var next := es + [more[0]];
      RanPlus(es, more[0]);
      if !Ran(es).halted { StepGone(Ran(es), |es|, more[0], i); }
      StaysSilent(next, more[1..], i);
      assert next + more[1..] == es + more;
    }
  }

  /** A transfer that is live when another is begun under its sid is never called again, on any run; in
      particular its adaptor is never told to finish or to cancel. */
  lemma DisplacedNeverEnds(es: seq<HubEvent>, e: HubEvent, more: seq<HubEvent>)
    requires e.Start? && !Ran(es).halted && e.sid in Ran(es).live
    ensures var i := Ran(es).live[e.sid].id;
            var calls := CallsOf(i, Ran(es + [e] + more).log);
            calls == CallsOf(i, Ran(es).log) && Terminals(calls) == 0
  {
    var i := Ran(es).live[e.sid].id;
    RunHealthy(es, |es|);
    StartDisplaces(es, Ran(es), e, i);
    RanPlus(es, e);
    StaysSilent(es + [e], more, i);
  }

  // ---------------------------------------------------------------- what an event does to one transfer

  predicate Registered(h: Hub, sid: Sid, i: nat) {
    sid in h.live && h.live[sid].id == i
  }

  /** No other sid has transfer i. */
  ghost predicate OnlyUnder(h: Hub, sid: Sid, i: nat) {
    forall s :: Registered(h, s, i) ==> s == sid
  }

  /** What transfer i, registered under sid, hears when evs happen to it. */
  function Own(h: Hub, sid: Sid, i: nat, evs: seq<Event>): Reaction {
    if Registered(h, sid, i) then ReactAll(h.live[sid].recv, evs) else Reaction(STARTED.(live := false), [])
  }

  /** From h to h', exactly evs happened to it. */
  ghost predicate Felt(h: Hub, h': Hub, sid: Sid, i: nat, evs: seq<Event>) {
    && CallsOf(i, h'.log) == CallsOf(i, h.log) + Own(h, sid, i, evs).calls
    && (Registered(h', sid, i) <==> Own(h, sid, i, evs).recv.live)
    && (Registered(h', sid, i) ==> h'.live[sid].recv == Own(h, sid, i, evs).recv)
  }

  lemma ReactOne(r: Receiver, e: Event)
    ensures ReactAll(r, [e]) == React(r, e) && ReactAll(r, []) == Reaction(r, [])
  {
    var x := React(r, e);
    assert [e][1..] == [] && ReactAll(x.recv, []).calls == [] && x.calls + [] == x.calls;
  }

  ghost predicate AllLive(h: Hub) {
    forall s :: s in h.live ==> h.live[s].recv.live
  }

  lemma ReactsFelt(h: Hub, to: Sid, e: Event, sid: Sid, i: nat)
    requires AllLive(h) && OnlyUnder(h, sid, i)
    requires EndsNow(h, to, e) ==> Unstuck(h.index, h.live[to].conn, to)
    ensures Felt(h, Reacts(h, to, e), sid, i, if to == sid then [e] else [])
  {
    ReactsCalls(h, to, e, i);
    assert Registered(h, to, i) ==> to == sid;
    if Registered(h, sid, i) { ReactOne(h.live[sid].recv, e); }
  }

  lemma RemoveUpdated<K, V>(m: map<K, V>, k: K, v: V)
    ensures m[k := v] - {k} == m - {k}
  {
  }

  lemma LostOne(h: Hub, sid: Sid)
    requires sid in h.live && h.live[sid].recv.live && Unstuck(h.index, h.live[sid].conn, sid)
    ensures Reacts(h, sid, Lost) == h.(live := h.live - {sid}, index := LoopTurn(h.index, h.live[sid].conn, sid).index,
                                       log := h.log + Tag(h.live[sid].id, [Cancel]))
    ensures TablesOf(Reacts(h, sid, Lost)) == UnregisterLiteral(TablesOf(h), h.live[sid].conn, sid)
  {
    RemoveUpdated(h.live, sid, h.live[sid].(recv := React(h.live[sid].recv, Lost).recv.(live := true)));
  }

  lemma DrainOkHead(t: Tables, sids: seq<Sid>)
    requires DrainOk(t, sids) && sids != []
    ensures sids[0] in t.live && Unstuck(t.index, t.live[sids[0]], sids[0])
    ensures var t' := UnregisterLiteral(t, t.live[sids[0]], sids[0]);
            DrainOk(t', sids[1..]) && Drain(t, sids) == Drain(t', sids[1..])
    ensures SetOf(sids) == {sids[0]} + SetOf(sids[1..])
  {
    assert [sids[0]] + sids[1..] == sids;
    SetOfHead(sids[0], sids[1..]);
  }

  /** Cancelling sids that can be drained takes out exactly those, as the tables alone would. */
  lemma {:induction false} CancelledDrains(h: Hub, sids: seq<Sid>)
    requires !h.halted && AllLive(h) && DrainOk(TablesOf(h), sids)
    ensures !Cancelled(h, sids).halted && Cancelled(h, sids).live == h.live - SetOf(sids)
    ensures TablesOf(Cancelled(h, sids)) == Drain(TablesOf(h), sids)
    decreases sids
  {
    if sids == [] {
      assert h.live - SetOf(sids) == h.live;
    } else {
      DrainOkHead(TablesOf(h), sids);
      LostOne(h, sids[0]);
      CancelledDrains(Reacts(h, sids[0], Lost), sids[1..]);
    }
  }

  /** And each of them is cancelled once. */
  lemma {:induction false} CancelledOnce(h: Hub, sids: seq<Sid>, sid: Sid, i: nat)
    requires !h.halted && AllLive(h) && DrainOk(TablesOf(h), sids) && OnlyUnder(h, sid, i)
    ensures CallsOf(i, Cancelled(h, sids).log)
         == CallsOf(i, h.log) + if Registered(h, sid, i) && sid in sids then [Cancel] else []
    decreases sids
  {
    if sids == [] {
    } else {
      var h' := Reacts(h, sids[0], Lost);
      DrainOkHead(TablesOf(h), sids);
      LostOne(h, sids[0]);
      CallsPlus(i, h.log, h.live[sids[0]].id, [Cancel]);
      assert OnlyUnder(h', sid, i) by {
        assert forall s :: Registered(h', s, i) ==> Registered(h, s, i);
      }
      CancelledOnce(h', sids[1..], sid, i);
      assert Registered(h, sids[0], i) ==> sids[0] == sid;
    }
  }

  // ---------------------------------------------------------------- calm runs

  /** Transfer i stands in h as its run on its own says. */
  ghost predicate Separate(es: seq<HubEvent>, h: Hub, i: nat) {
    Starts(es, i) ==>
      var own := Alone(es, i);
      && CallsOf(i, h.log) == own.calls
      && (Registered(h, es[i].sid, i) <==> own.recv.live)
      && (Registered(h, es[i].sid, i) ==> h.live[es[i].sid].recv == own.recv)
  }

  ghost predicate AllSeparate(es: seq<HubEvent>, h: Hub) {
    forall i: nat :: Separate(es, h, i)
  }

  ghost predicate Orderly(es: seq<HubEvent>) {
    var h := Ran(es);
    !h.halted && TwoViews(TablesOf(h)) && Healthy(es, h) && AllSeparate(es, h)
  }

  lemma AlonePlus(es: seq<HubEvent>, e: HubEvent, i: nat)
    requires Starts(es, i)
    ensures Starts(es + [e], i)
    ensures var own := Alone(es, i);
            var now := ReactAll(own.recv, Concern(i, es[i], e));
            Alone(es + [e], i) == Reaction(now.recv, own.calls + now.calls)
  {
    assert (es + [e])[..|es|] == es;
    var evs := Concern(i, es[i], e);
    if es[i].ready {
      ReactAppend(STARTED, OwnEvents(es, i), evs);
    } else {
      DeadHearsNothing(Alone(es, i).recv, evs);
    }
  }

  lemma AloneFirst(es: seq<HubEvent>, e: HubEvent)
    requires e.Start?
    ensures Starts(es + [e], |es|)
    ensures Alone(es + [e], |es|) == if e.ready then Reaction(STARTED, []) else CancelNow(STARTED)
  {
  }

  /** What happens to transfer i in the hub is what its own run says happens to it. */
  lemma FeltSeparate(es: seq<HubEvent>, h: Hub, h': Hub, e: HubEvent, i: nat)
    requires Starts(es, i) && Separate(es, h, i) && Felt(h, h', es[i].sid, i, Concern(i, es[i], e))
    ensures Separate(es + [e], h', i)
  {
    AlonePlus(es, e, i);
    DeadUnmoved(Alone(es, i).recv, Concern(i, es[i], e));
  }

  lemma DeadUnmoved(r: Receiver, evs: seq<Event>)
    ensures !r.live ==> ReactAll(r, evs) == Reaction(r, [])
  {
    if !r.live { DeadHearsNothing(r, evs); }
  }

  lemma HealthyMeans(es: seq<HubEvent>, h: Hub, i: nat)
    requires Healthy(es, h) && Starts(es, i)
    ensures AllLive(h) && OnlyUnder(h, es[i].sid, i)
    ensures Registered(h, es[i].sid, i) ==> h.live[es[i].sid].conn == es[i].conn
  {
    forall s | s in h.live
      ensures h.live[s].recv.live && OwnId(es, s, h.live[s])
    {
      assert HealthyAt(es, h, s);
    }
    forall s | Registered(h, s, i)
      ensures s == es[i].sid
    {
      assert OwnId(es, s, h.live[s]);
    }
  }

  lemma FeltNothing(h: Hub, h': Hub, sid: Sid, i: nat)
    requires AllLive(h) && h'.live == h.live && CallsOf(i, h'.log) == CallsOf(i, h.log)
    ensures Felt(h, h', sid, i, [])
  {
    if Registered(h, sid, i) { assert ReactAll(h.live[sid].recv, []) == Reaction(h.live[sid].recv, []); }
  }

  /** A lost connection's transfers are cancelled and no others, if it takes no others. */
  lemma LoseFelt(es: seq<HubEvent>, h: Hub, c: Conn, i: nat)
    requires Healthy(es, h) && !h.halted && TwoViews(TablesOf(h)) && Starts(es, i) && !TakesOthers(h, Lose(c))
    ensures Felt(h, Step(h, |es|, Lose(c)), es[i].sid, i, Concern(i, es[i], Lose(c)))
  {
    var sid, gone, evs := es[i].sid, Gathered(h.index, c), Concern(i, es[i], Lose(c));
    HealthyMeans(es, h, i);
    TeardownLiteral(TablesOf(h), c);
    CancelledDrains(h, gone);
    CancelledOnce(h, gone, sid, i);
    TeardownRefinesIff(TablesOf(h), c);
    assert Drain(TablesOf(h), gone).live == DoAbstract(TablesOf(h).live, Terminate(c));
    if Registered(h, sid, i) {
      LeftIff(h, gone, c, sid);
      ReactOne(h.live[sid].recv, Lost);
    }
  }

  lemma LeftIff(h: Hub, gone: seq<Sid>, c: Conn, sid: Sid)
    requires sid in h.live
    requires TablesOf(h).live - SetOf(gone) == DoAbstract(TablesOf(h).live, Terminate(c))
    ensures sid in gone <==> h.live[sid].conn == c
  {
    assert sid in TablesOf(h).live - SetOf(gone) <==> sid !in gone;
  }

  /** A transfer not started yet or gone: whatever starts now is another. */
  lemma StartFelt(es: seq<HubEvent>, h: Hub, e: HubEvent, i: nat)
    requires Healthy(es, h) && Starts(es, i) && e.Start? && !Displaces(h, e) && !Stalls(h, e) && !h.halted
    ensures Felt(h, Step(h, |es|, e), es[i].sid, i, Concern(i, es[i], e))
  {
    HealthyMeans(es, h, i);
    StartCancels(h.log, |es|, i);
    if Registered(h, es[i].sid, i) { ReactOne(h.live[es[i].sid].recv, Lost); }
  }

  /** No event that finds none of the three cases makes a transfer differ from its own run. */
  lemma StepFelt(es: seq<HubEvent>, h: Hub, e: HubEvent, i: nat)
    requires Healthy(es, h) && TwoViews(TablesOf(h)) && !h.halted && Starts(es, i) && !Disturbing(h, e)
    ensures Felt(h, Step(h, |es|, e), es[i].sid, i, Concern(i, es[i], e))
  {
    HealthyMeans(es, h, i);
    match e
    case Start(_, _, _) => StartFelt(es, h, e, i);
    case Receive(_, to, w) => ReactsFelt(h, to, Arrive(w), es[i].sid, i);
    case Pass => FeltNothing(h, Step(h, |es|, e), es[i].sid, i);
    case Expire(id, to) =>
      if Registered(h, to, id) {
        if id == i || to != es[i].sid {
          ReactsFelt(h, to, Timeout, es[i].sid, i);
        } else {
          ReactsCalls(h, to, Timeout, i);
          assert !Registered(h, es[i].sid, i);
        }
      } else {
        FeltNothing(h, Step(h, |es|, e), es[i].sid, i);
      }
    case Lose(c) => LoseFelt(es, h, c, i);
  }

  lemma ReactsTables(h: Hub, sid: Sid, e: Event)
    requires TwoViews(TablesOf(h)) && !h.halted
    requires EndsNow(h, sid, e) ==> Unstuck(h.index, h.live[sid].conn, sid)
    ensures !Reacts(h, sid, e).halted && TwoViews(TablesOf(Reacts(h, sid, e)))
  {
    if sid in h.live {
      var t, x, h' := h.live[sid], React(h.live[sid].recv, e), Reacts(h, sid, e);
      if x.recv.live {
        assert TablesOf(h').live == TablesOf(h).live;
      } else {
        assert TablesOf(h').live == TablesOf(h).live - {sid};
        LiteralIsIntended(TablesOf(h), sid);
        UnregisterTwoViews(TablesOf(h), sid);
      }
    }
  }

  lemma StartTables(h: Hub, n: nat, e: HubEvent)
    requires TwoViews(TablesOf(h)) && !h.halted && e.Start? && !Displaces(h, e) && !Stalls(h, e)
    ensures !Step(h, n, e).halted && TwoViews(TablesOf(Step(h, n, e)))
    ensures !e.ready ==> Step(h, n, e).live == h.live && Step(h, n, e).index == h.index
  {
    var t, k := TablesOf(h), First(h.index, e.conn);
    if e.ready {
      RegisterTwoViews(t, e.conn, e.sid);
      assert TablesOf(Step(h, n, e)).live == t.live[e.sid := e.conn];
    } else {
      FirstIs(h.index, e.conn);
      assert EntryLive(t, k);
      assert h.live - {e.sid} == h.live;
    }
  }

  lemma StepTables(h: Hub, n: nat, e: HubEvent)
    requires TwoViews(TablesOf(h)) && AllLive(h) && !h.halted && !Stalls(h, e) && !Displaces(h, e)
    ensures !Step(h, n, e).halted && TwoViews(TablesOf(Step(h, n, e)))
  {
    match e
    case Start(_, _, _) => StartTables(h, n, e);
    case Receive(_, sid, w) => ReactsTables(h, sid, Arrive(w));
    case Expire(i, sid) => if Registered(h, sid, i) { ReactsTables(h, sid, Timeout); }
    case Lose(c) =>
      TeardownLiteral(TablesOf(h), c);
      CancelledDrains(h, Gathered(h.index, c));
    case Pass =>
  }

  lemma HealthyLive(es: seq<HubEvent>, h: Hub)
    requires Healthy(es, h)
    ensures AllLive(h)
  {
    forall s | s in h.live
      ensures h.live[s].recv.live
    {
      assert HealthyAt(es, h, s);
    }
  }

  lemma NewSeparate(es: seq<HubEvent>, h: Hub, e: HubEvent)
    requires Healthy(es, h) && TwoViews(TablesOf(h)) && !h.halted && !Disturbing(h, e) && CallsOf(|es|, h.log) == []
    ensures Separate(es + [e], Step(h, |es|, e), |es|)
  {
    if e.Start? {
      AloneFirst(es, e);
      StartTables(h, |es|, e);
      StartCancels(h.log, |es|, |es|);
      HealthyGone(es, h, |es|);
    }
  }

  lemma StepSeparate(es: seq<HubEvent>, h: Hub, e: HubEvent, i: nat)
    requires Healthy(es, h) && TwoViews(TablesOf(h)) && !h.halted && !Disturbing(h, e) && CallsOf(|es|, h.log) == []
    requires Separate(es, h, i)
    ensures Separate(es + [e], Step(h, |es|, e), i)
  {
    if Starts(es, i) {
      StepFelt(es, h, e, i);
      FeltSeparate(es, h, Step(h, |es|, e), e, i);
    } else if i == |es| {
      NewSeparate(es, h, e);
    }
  }

  lemma StepOrderly(es: seq<HubEvent>, e: HubEvent)
    requires Orderly(es) && !Disturbing(Ran(es), e)
    ensures Orderly(es + [e])
  {
    var h := Ran(es);
    RanPlus(es, e);
    RunHealthy(es, |es|);
    HealthyLive(es, h);
    StepTables(h, |es|, e);
    StepHealthy(es, h, e);
    forall i: nat
      ensures Separate(es + [e], Step(h, |es|, e), i)
    {
      assert Separate(es, h, i);
      StepSeparate(es, h, e, i);
    }
  }

  lemma CalmBefore(es: seq<HubEvent>, k: nat)
    requires Calm(es) && k <= |es|
    ensures Calm(es[..k])
  {
    forall j: nat
      ensures !DisturbedAt(es[..k], j)
    {
      assert !DisturbedAt(es, j);
      if j < k { assert es[..k][..j] == es[..j]; }
    }
  }

  /** On every calm run no thread is caught, the tables are two views of one map, and every transfer has
      made, and stands as after, the calls of its own run. */
  lemma {:induction false} CalmOrderly(es: seq<HubEvent>)
    requires Calm(es)
    ensures Orderly(es)
    decreases |es|
  {
    if es == [] {
      IdleOrderly();
    } else {
      var n := |es| - 1;
      CalmBefore(es, n);
      CalmOrderly(es[..n]);
      assert !DisturbedAt(es, n);
      StepOrderly(es[..n], es[n]);
      assert es[..n] + [es[n]] == es;
    }
  }

  lemma IdleOrderly()
    ensures Orderly([])
  {
    assert Ran([]) == IDLE;
    forall s ensures HealthyAt([], IDLE, s) {}
  }

  // ---------------------------------------------------------------- and no others

  /** A data message that any live transfer of sid would hand on. */
  function Probe(c: Conn, sid: Sid): HubEvent {
    Receive(c, sid, Data("?"))
  }

  lemma ProbeAlone(es: seq<HubEvent>, i: nat, c: Conn)
    requires Starts(es, i) && Alone(es, i).recv.live
    ensures Alone(es + [Probe(c, es[i].sid)], i).calls == Alone(es, i).calls + [Content("?")]
  {
    var m := Probe(c, es[i].sid);
    AlonePlus(es, m, i);
    ReactOne(Alone(es, i).recv, Arrive(Data("?")));
  }

  /** A transfer that is not registered, or whose thread is caught, misses the message. */
  lemma ProbeMissed(es: seq<HubEvent>, i: nat, c: Conn)
    requires Starts(es, i) && (Ran(es).halted || Gone(Ran(es), i))
    ensures CallsOf(i, Ran(es + [Probe(c, es[i].sid)]).log) == CallsOf(i, Ran(es).log)
  {
    RanPlus(es, Probe(c, es[i].sid));
    if !Ran(es).halted { StepGone(Ran(es), |es|, Probe(c, es[i].sid), i); }
  }

  /** i was live and undisturbed before e, e did not concern it, and after e it hears nothing or too much. */
  lemma Differs(es: seq<HubEvent>, e: HubEvent, i: nat, c: Conn)
    requires Orderly(es) && Starts(es, i) && Registered(Ran(es), es[i].sid, i) && Concern(i, es[i], e) == []
    requires Ran(es + [e]).halted || Gone(Ran(es + [e]), i)
    requires var calls := CallsOf(i, Ran(es + [e]).log);
             calls == CallsOf(i, Ran(es).log) || calls == CallsOf(i, Ran(es).log) + [Cancel]
    ensures !GetsOwn(es + [e] + [Probe(c, es[i].sid)], i)
  {
    assert Separate(es, Ran(es), i);
    var own := Alone(es, i);
    AlonePlus(es, e, i);
    assert ReactAll(own.recv, []) == Reaction(own.recv, []) && own.calls + [] == own.calls;
    ProbeAlone(es + [e], i, c);
    ProbeMissed(es + [e], i, c);
    assert own.calls + [Content("?")] != own.calls;
    assert (own.calls + [Content("?")])[|own.calls|] != (own.calls + [Cancel])[|own.calls|];
  }

  /** The connection's first transfer, when another one's unregistering never gets past it. */
  lemma FirstOf(es: seq<HubEvent>, h: Hub, c: Conn, sid: Sid) returns (i: nat)
    requires Healthy(es, h) && TwoViews(TablesOf(h)) && !Unstuck(h.index, c, sid)
    ensures Starts(es, i) && Registered(h, es[i].sid, i) && es[i].sid != sid
  {
    var k := First(h.index, c);
    assert EntryLive(TablesOf(h), k);
    assert HealthyAt(es, h, h.index[k].sid);
    i := h.live[h.index[k].sid].id;
  }

  lemma StallMissed(es: seq<HubEvent>, e: HubEvent) returns (i: nat)
    requires Orderly(es) && Stalls(Ran(es), e)
    ensures Starts(es, i) && !GetsOwn(es + [e] + [Probe(0, es[i].sid)], i)
  {
    var h := Ran(es);
    RanPlus(es, e);
    if e.Start? {
      i := FirstOf(es, h, e.conn, e.sid);
      StartCancels(h.log, |es|, i);
    } else {
      var sid := e.sid;
      i := FirstOf(es, h, h.live[sid].conn, sid);
      if h.live[sid].id == i { UniqueId(es, h, sid, es[i].sid); }
      ReactsCalls(h, sid, if e.Receive? then Arrive(e.wire) else Timeout, i);
    }
    assert CallsOf(i, h.log) + [] == CallsOf(i, h.log);
    Differs(es, e, i, 0);
  }

  lemma DisplacedMissed(es: seq<HubEvent>, e: HubEvent) returns (i: nat)
    requires Orderly(es) && Displaces(Ran(es), e)
    ensures Starts(es, i) && !GetsOwn(es + [e] + [Probe(0, es[i].sid)], i)
  {
    var h := Ran(es);
    i := h.live[e.sid].id;
    RanPlus(es, e);
    assert HealthyAt(es, h, e.sid);
    StartDisplaces(es, h, e, i);
    Differs(es, e, i, 0);
  }

  /** What TakesOthers does to a transfer of a later-ordered connection. */
  lemma OtherCancelled(es: seq<HubEvent>, h: Hub, c: Conn, sid: Sid, i: nat)
    requires Healthy(es, h) && !h.halted && TwoViews(TablesOf(h)) && Registered(h, sid, i)
    requires (exists s :: s in h.live && h.live[s].conn == c) && c < h.live[sid].conn
    ensures var h' := Step(h, |es|, Lose(c));
            Gone(h', i) && CallsOf(i, h'.log) == CallsOf(i, h.log) + [Cancel]
  {
    var t, gone := TablesOf(h), Gathered(h.index, c);
    assert HealthyAt(es, h, sid);
    HealthyMeans(es, h, i);
    assert t.live.Keys == h.live.Keys && forall s :: s in h.live ==> t.live[s] == h.live[s].conn;
    HasFirst(t, c);
    GatheredAre(t, c, sid);
    TeardownLiteral(t, c);
    CancelledDrains(h, gone);
    CancelledOnce(h, gone, sid, i);
    assert sid in SetOf(gone);
    forall s | s in Cancelled(h, gone).live
      ensures Cancelled(h, gone).live[s].id != i
    {
      if h.live[s].id == i { UniqueId(es, h, s, sid); }
    }
  }

  lemma HasFirst(t: Tables, c: Conn)
    requires TwoViews(t) && exists s :: s in t.live && t.live[s] == c
    ensures First(t.index, c) < |t.index|
  {
    var s :| s in t.live && t.live[s] == c;
    var i := EntryOf(t, s);
    FirstIs(t.index, c);
  }

  lemma OthersMissed(es: seq<HubEvent>, e: HubEvent) returns (i: nat)
    requires Orderly(es) && TakesOthers(Ran(es), e)
    ensures Starts(es, i) && !GetsOwn(es + [e] + [Probe(0, es[i].sid)], i)
  {
    var h, t := Ran(es), TablesOf(Ran(es));
    RanPlus(es, e);
    var own :| own in t.live && t.live[own] == e.conn;
    var sid :| sid in t.live && e.conn < t.live[sid];
    assert own in h.live && h.live[own].conn == e.conn;
    i := h.live[sid].id;
    assert HealthyAt(es, h, sid);
    OtherCancelled(es, h, e.conn, sid, i);
    Differs(es, e, i, 0);
  }

  /** Each of the three cases costs some live transfer a message it would hear on its own. */
  lemma Disturbed(es: seq<HubEvent>, e: HubEvent) returns (i: nat)
    requires Orderly(es) && Disturbing(Ran(es), e)
    ensures Starts(es, i) && !GetsOwn(es + [e] + [Probe(0, es[i].sid)], i)
  {
    if Stalls(Ran(es), e) {
      i := StallMissed(es, e);
    } else if Displaces(Ran(es), e) {
      i := DisplacedMissed(es, e);
    } else {
      i := OthersMissed(es, e);
    }
  }

  /** At every moment of the run, and whatever message may come next, every transfer has the calls of
      its own run. */
  ghost predicate Independent(es: seq<HubEvent>) {
    forall k: nat, m: HubEvent, i: nat :: IndependentAt(es, k, m, i)
  }

  ghost predicate IndependentAt(es: seq<HubEvent>, k: nat, m: HubEvent, i: nat) {
    k <= |es| && m.Receive? ==> GetsOwn(es[..k] + [m], i)
  }

  lemma SameReaction(h: Hub, m: HubEvent, sid: Sid, i: nat, own: Receiver, evs: seq<Event>)
    requires m.Receive? && evs == if m.sid == sid then [Arrive(m.wire)] else []
    requires OnlyUnder(h, sid, i) && (Registered(h, sid, i) <==> own.live)
    requires Registered(h, sid, i) ==> h.live[sid].recv == own
    ensures ReactAll(own, evs).calls
         == if Registered(h, m.sid, i) then React(h.live[m.sid].recv, Arrive(m.wire)).calls else []
  {
    ReactOne(own, Arrive(m.wire));
    assert Registered(h, m.sid, i) ==> m.sid == sid;
  }

  /** A message, even one whose end marker catches the thread, makes its own transfer's calls first. */
  lemma MessageHeard(es: seq<HubEvent>, m: HubEvent, i: nat)
    requires Orderly(es) && m.Receive?
    ensures GetsOwn(es + [m], i)
  {
    var h := Ran(es);
    RanPlus(es, m);
    if Starts(es, i) {
      assert Separate(es, h, i);
      HealthyMeans(es, h, i);
      AlonePlus(es, m, i);
      var own, evs := Alone(es, i), Concern(i, es[i], m);
      DeadUnmoved(own.recv, evs);
      ReactsCalls(h, m.sid, Arrive(m.wire), i);
      SameReaction(h, m, es[i].sid, i, own.recv, evs);
    }
  }

  /** The run up to the first event that disturbs. */
  lemma {:induction false} FirstDisturbed(es: seq<HubEvent>) returns (k: nat)
    requires !Calm(es)
    ensures k < |es| && Calm(es[..k]) && Disturbing(Ran(es[..k]), es[k])
    decreases |es|
  {
    var j: nat :| DisturbedAt(es, j);
    if Calm(es[..j]) {
      k := j;
    } else {
      k := FirstDisturbed(es[..j]);
      assert es[..j][..k] == es[..k];
    }
  }

  /** For every run of any number of transfers: at every moment, whatever message comes next, each
      transfer has exactly the calls of a run on its own, if and only if no event finds one of three
      cases: a transfer that ends is not its connection's first, a sid is begun that has a live
      transfer, or a lost connection and a later-ordered one both have transfers. */
  lemma TransfersIndependentIff(es: seq<HubEvent>)
    ensures Independent(es) <==> Calm(es)
  {
    if Calm(es) {
      forall k: nat, m: HubEvent, i: nat
        ensures IndependentAt(es, k, m, i)
      {
        if k <= |es| && m.Receive? {
          CalmBefore(es, k);
          CalmOrderly(es[..k]);
          MessageHeard(es[..k], m, i);
        }
      }
    } else {
      var k := FirstDisturbed(es);
      CalmOrderly(es[..k]);
      var i := Disturbed(es[..k], es[k]);
      assert es[..k] + [es[k]] == es[..k + 1];
      assert !IndependentAt(es, k + 1, Probe(0, es[i].sid), i);
    }
  }
}
