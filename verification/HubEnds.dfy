/** Of all runs, calm or not: when the thread is caught, and which transfers get their one terminal call;
    and runs in which each thing that can go wrong does. */
module HubEnds {
  import opened StreamSpec
  import opened StreamEvents
  import opened RegistrySpec
  import opened StreamHub

  // ---------------------------------------------------------------- when the thread is caught

  /** The transfer that ends is not its connection's first, or a lost connection's transfers cannot be
      cancelled to the end. */
  predicate Caught(h: Hub, e: HubEvent) {
    Stalls(h, e) || (e.Lose? && !DrainOk(TablesOf(h), Gathered(h.index, e.conn)))
  }

  lemma {:induction false} CancelledHaltsIff(h: Hub, sids: seq<Sid>)
    requires AllLive(h) && !h.halted
    ensures Cancelled(h, sids).halted <==> !DrainOk(TablesOf(h), sids)
    decreases sids
  {
    if sids == [] || sids[0] !in h.live {
    } else {
      var h' := Reacts(h, sids[0], Lost);
      if Unstuck(h.index, h.live[sids[0]].conn, sids[0]) {
        LostOne(h, sids[0]);
        CancelledHaltsIff(h', sids[1..]);
      } else {
        assert h'.halted && Cancelled(h', sids[1..]) == h';
      }
    }
  }

  lemma StepHaltsIff(h: Hub, n: nat, e: HubEvent)
    requires AllLive(h) && !h.halted
    ensures Step(h, n, e).halted <==> Caught(h, e)
  {
    if e.Lose? { CancelledHaltsIff(h, Gathered(h.index, e.conn)); }
  }

  ghost predicate DisplacesAt(es: seq<HubEvent>, k: nat) {
    k < |es| && Displaces(Ran(es[..k]), es[k])
  }

  /** No sid is begun while it has a live transfer. */
  ghost predicate NeverDisplaces(es: seq<HubEvent>) {
    forall k: nat :: !DisplacesAt(es, k)
  }

  lemma NeverBefore(es: seq<HubEvent>, n: nat)
    requires NeverDisplaces(es) && n <= |es|
    ensures NeverDisplaces(es[..n])
  {
    forall k: nat
      ensures !DisplacesAt(es[..n], k)
    {
      assert !DisplacesAt(es, k);
      if k < n { assert es[..n][..k] == es[..k]; }
    }
  }

  lemma HealthyNow(es: seq<HubEvent>)
    requires !Ran(es).halted
    ensures Healthy(es, Ran(es)) && AllLive(Ran(es)) && CallsOf(|es|, Ran(es).log) == []
  {
    RunHealthy(es, |es|);
    HealthyLive(es, Ran(es));
  }

  /** Unless a sid is begun twice, the tables stay two views of one map, whatever teardowns take along. */
  lemma {:induction false} TwoViewsKept(es: seq<HubEvent>)
    requires NeverDisplaces(es) && !Ran(es).halted
    ensures TwoViews(TablesOf(Ran(es)))
    decreases |es|
  {
    if es == [] {
      assert TablesOf(IDLE) == NOTHING;
    } else {
      var n := |es| - 1;
      NeverBefore(es, n);
      HealthyNow(es[..n]);
      TwoViewsKept(es[..n]);
      assert !DisplacesAt(es, n);
      StepHaltsIff(Ran(es[..n]), n, es[n]);
      StepTables(Ran(es[..n]), n, es[n]);
    }
  }

  /** On every run the thread is caught by an event exactly under those conditions; and if no sid was
      begun twice, only when a transfer ends that is not its connection's first. */
  lemma HaltsIff(es: seq<HubEvent>, e: HubEvent)
    requires !Ran(es).halted
    ensures Ran(es + [e]).halted <==> Caught(Ran(es), e)
    ensures NeverDisplaces(es) ==> (Ran(es + [e]).halted <==> Stalls(Ran(es), e))
  {
    HealthyNow(es);
    RanPlus(es, e);
    StepHaltsIff(Ran(es), |es|, e);
    if NeverDisplaces(es) && e.Lose? {
      TwoViewsKept(es);
      TeardownLiteral(TablesOf(Ran(es)), e.conn);
    }
  }

  // ---------------------------------------------------------------- one terminal call for each transfer

  /** While transfer i was registered, its sid was begun again. */
  ghost predicate DisplacedBy(es: seq<HubEvent>, i: nat, k: nat) {
    Starts(es, i) && i < k < |es| && Displaces(Ran(es[..k]), es[k]) && !Ran(es[..k]).halted
    && es[k].sid == es[i].sid && Registered(Ran(es[..k]), es[i].sid, i)
  }

  ghost predicate Displaced(es: seq<HubEvent>, i: nat) {
    exists k: nat :: DisplacedBy(es, i, k)
  }

  /** Transfer i's calls so far end once, as h has it registered or not. */
  ghost predicate EndsWell(h: Hub, sid: Sid, i: nat) {
    EndsOnce(Registered(h, sid, i), CallsOf(i, h.log))
  }

  lemma ReactsEnds(h: Hub, to: Sid, e: Event, sid: Sid, i: nat)
    requires AllLive(h) && OnlyUnder(h, sid, i) && Registered(h, sid, i) && EndsWell(h, sid, i)
    requires !Reacts(h, to, e).halted
    ensures EndsWell(Reacts(h, to, e), sid, i)
  {
    ReactsCalls(h, to, e, i);
    if to == sid {
      var x := React(h.live[sid].recv, e);
      ReactEndsOnce(h.live[sid].recv, e);
      EndsOnceJoin(CallsOf(i, h.log), x.recv.live, x.calls);
    } else {
      assert Registered(h, to, i) ==> to == sid;
      assert CallsOf(i, h.log) + [] == CallsOf(i, h.log);
    }
  }

  lemma ReactsKeeps(h: Hub, to: Sid, e: Event, sid: Sid, i: nat)
    requires AllLive(h) && OnlyUnder(h, sid, i) && !Reacts(h, to, e).halted
    ensures AllLive(Reacts(h, to, e)) && OnlyUnder(Reacts(h, to, e), sid, i)
  {
    var h' := Reacts(h, to, e);
    assert forall s :: s in h'.live ==> s in h.live && h'.live[s].id == h.live[s].id;
    forall s | Registered(h', s, i)
      ensures s == sid
    {
      assert Registered(h, s, i);
    }
  }

  lemma {:induction false} CancelledEnds(h: Hub, sids: seq<Sid>, sid: Sid, i: nat)
    requires AllLive(h) && OnlyUnder(h, sid, i) && EndsWell(h, sid, i) && !h.halted && !Cancelled(h, sids).halted
    ensures EndsWell(Cancelled(h, sids), sid, i)
    decreases sids
  {
    if sids == [] || sids[0] !in h.live {
    } else if !Registered(h, sid, i) {
      GoneIf(h, sid, i);
      CancelledGone(h, sids, i);
    } else {
      var h' := Reacts(h, sids[0], Lost);
      ReactsEnds(h, sids[0], Lost, sid, i);
      ReactsKeeps(h, sids[0], Lost, sid, i);
      CancelledEnds(h', sids[1..], sid, i);
    }
  }

  lemma GoneIf(h: Hub, sid: Sid, i: nat)
    requires OnlyUnder(h, sid, i) && !Registered(h, sid, i)
    ensures Gone(h, i)
  {
    forall s | s in h.live
      ensures h.live[s].id != i
    {
      assert Registered(h, s, i) ==> s == sid;
    }
  }

  /** Every event but a start under its sid ends a registered transfer well, or leaves it be. */
  lemma StepEnds(h: Hub, n: nat, e: HubEvent, sid: Sid, i: nat)
    requires AllLive(h) && OnlyUnder(h, sid, i) && Registered(h, sid, i) && EndsWell(h, sid, i) && n != i
    requires !h.halted && !Step(h, n, e).halted && !(e.Start? && e.sid == sid)
    ensures EndsWell(Step(h, n, e), sid, i)
  {
    match e
    case Start(_, _, _) =>
      StartCancels(h.log, n, i);
      assert CallsOf(i, h.log) + [] == CallsOf(i, h.log);
    case Receive(_, to, w) => ReactsEnds(h, to, Arrive(w), sid, i);
    case Expire(_, to) => if Step(h, n, e) != h { ReactsEnds(h, to, Timeout, sid, i); }
    case Lose(c) => CancelledEnds(h, Gathered(h.index, c), sid, i);
    case Pass =>
  }

  lemma StartedEnds(h: Hub, n: nat, e: HubEvent)
    requires Gone(h, n) && CallsOf(n, h.log) == [] && !h.halted && e.Start? && !Step(h, n, e).halted
    ensures EndsWell(Step(h, n, e), e.sid, n)
  {
    if !e.ready {
      StartCancels(h.log, n, n);
      assert CallsOf(n, Step(h, n, e).log) == [Cancel];
      assert [Cancel][1..] == [] && Terminals([Cancel]) == 1;
    }
  }

  lemma NewEnds(es: seq<HubEvent>, e: HubEvent)
    requires !Ran(es).halted && !Ran(es + [e]).halted && e.Start?
    ensures EndsWell(Ran(es + [e]), e.sid, |es|)
  {
    HealthyNow(es);
    HealthyGone(es, Ran(es), |es|);
    RanPlus(es, e);
    StartedEnds(Ran(es), |es|, e);
  }

  /** A transfer that has ended well stays so. */
  lemma EndedStays(h: Hub, n: nat, e: HubEvent, sid: Sid, i: nat)
    requires Gone(h, i) && n != i && EndsWell(h, sid, i)
    ensures EndsWell(Step(h, n, e), sid, i)
  {
    StepGone(h, n, e, i);
  }

  lemma OldEnds(es: seq<HubEvent>, e: HubEvent, i: nat)
    requires !Ran(es).halted && !Ran(es + [e]).halted && Starts(es, i) && EndsWell(Ran(es), es[i].sid, i)
    requires !(e.Start? && e.sid == es[i].sid && Registered(Ran(es), es[i].sid, i))
    ensures EndsWell(Ran(es + [e]), es[i].sid, i)
  {
    var h := Ran(es);
    HealthyNow(es);
    HealthyMeans(es, h, i);
    RanPlus(es, e);
    if Registered(h, es[i].sid, i) {
      StepEnds(h, |es|, e, es[i].sid, i);
    } else {
      GoneIf(h, es[i].sid, i);
      EndedStays(h, |es|, e, es[i].sid, i);
    }
  }

  lemma DisplacedLater(es: seq<HubEvent>, e: HubEvent, i: nat)
    requires Starts(es, i) && Displaced(es, i)
    ensures Displaced(es + [e], i)
  {
    var k: nat :| DisplacedBy(es, i, k);
    assert (es + [e])[..k] == es[..k];
    assert DisplacedBy(es + [e], i, k);
  }

  lemma DisplacedHere(es: seq<HubEvent>, e: HubEvent, i: nat)
    requires !Ran(es).halted && Starts(es, i) && e.Start? && e.sid == es[i].sid && Registered(Ran(es), es[i].sid, i)
    ensures Displaced(es + [e], i)
  {
    assert (es + [e])[..|es|] == es;
    assert DisplacedBy(es + [e], i, |es|);
  }

  lemma {:induction false} UndisplacedEnds(es: seq<HubEvent>, i: nat)
    requires Starts(es, i) && !Ran(es).halted && !Displaced(es, i)
    ensures EndsWell(Ran(es), es[i].sid, i)
    decreases |es|
  {
    var before, e := es[..|es| - 1], es[|es| - 1];
    assert before + [e] == es;
    RanPlus(before, e);
    if i == |before| {
      NewEnds(before, e);
    } else {
      if Displaced(before, i) { DisplacedLater(before, e, i); }
      UndisplacedEnds(before, i);
      if e.Start? && e.sid == es[i].sid && Registered(Ran(before), es[i].sid, i) { DisplacedHere(before, e, i); }
      OldEnds(before, e, i);
    }
  }

  lemma {:induction false} StaysGone(es: seq<HubEvent>, more: seq<HubEvent>, i: nat)
    requires i < |es| && (Ran(es).halted || Gone(Ran(es), i))
    ensures Ran(es + more).halted || Gone(Ran(es + more), i)
    decreases more
  {
    if more == [] {
      assert es + more == es;
    } else {
      RanPlus(es, more[0]);
      if !Ran(es).halted { StepGone(Ran(es), |es|, more[0], i); }
      StaysGone(es + [more[0]], more[1..], i);
      assert es + [more[0]] + more[1..] == es + more;
    }
  }

  /** Whoever is displaced is out for good, without a finish or cancel. */
  lemma DisplacedOut(before: seq<HubEvent>, e: HubEvent, more: seq<HubEvent>, sid: Sid, i: nat)
    requires !Ran(before).halted && e.Start? && e.sid == sid && Registered(Ran(before), sid, i)
    ensures var h := Ran(before + [e] + more); (h.halted || Gone(h, i)) && Terminals(CallsOf(i, h.log)) == 0
  {
    DisplacedNeverEnds(before, e, more);
    HealthyNow(before);
    StartDisplaces(before, Ran(before), e, i);
    RanPlus(before, e);
    StaysGone(before + [e], more, i);
  }

  lemma DisplacedNever(es: seq<HubEvent>, i: nat)
    requires Displaced(es, i) && !Ran(es).halted
    ensures Starts(es, i) && !EndsWell(Ran(es), es[i].sid, i)
  {
    var k: nat :| DisplacedBy(es, i, k);
    assert es[..k] + [es[k]] + es[k + 1..] == es;
    DisplacedOut(es[..k], es[k], es[k + 1..], es[i].sid, i);
  }

  /** For every run and every transfer, until the thread is caught: the adaptor has had no finish or cancel
      while its transfer is registered and exactly one, and last, since, if and only if the sid was not
      begun again while the transfer was registered. */
  lemma EndsOnceIff(es: seq<HubEvent>, i: nat)
    requires Starts(es, i) && !Ran(es).halted
    ensures EndsOnce(Registered(Ran(es), es[i].sid, i), CallsOf(i, Ran(es).log)) <==> !Displaced(es, i)
  {
    if Displaced(es, i) { DisplacedNever(es, i); } else { UndisplacedEnds(es, i); }
  }

  lemma NeverDisplaced(es: seq<HubEvent>, i: nat)
    requires NeverDisplaces(es)
    ensures !Displaced(es, i)
  {
    forall k: nat
      ensures !DisplacedBy(es, i, k)
    {
      assert !DisplacesAt(es, k);
    }
  }

  /** In particular on a calm run. */
  lemma CalmEndsOnce(es: seq<HubEvent>, i: nat)
    requires Calm(es) && Starts(es, i)
    ensures EndsOnce(Registered(Ran(es), es[i].sid, i), CallsOf(i, Ran(es).log))
  {
    CalmOrderly(es);
    forall k: nat
      ensures !DisplacesAt(es, k)
    {
      assert !DisturbedAt(es, k);
    }
    NeverDisplaced(es, i);
    EndsOnceIff(es, i);
  }

  /** At most one live transfer on each connection. */
  ghost predicate OneEach(h: Hub) {
    forall s, s' :: s in h.live && s' in h.live && h.live[s].conn == h.live[s'].conn ==> s == s'
  }

  predicate InUse(h: Hub, c: Conn) {
    exists s :: s in h.live && h.live[s].conn == c
  }

  /** One transfer to a connection, none left on a connection that is gone, no sid begun twice, and no
      connection lost that takes others along. */
  ghost predicate ModestAt(es: seq<HubEvent>, k: nat) {
    k < |es| ==>
      var h, e := Ran(es[..k]), es[k];
      OneEach(h) && !Displaces(h, e) && !TakesOthers(h, e) && (e.Start? && !e.ready ==> !InUse(h, e.conn))
  }

  ghost predicate Modest(es: seq<HubEvent>) {
    forall k: nat :: ModestAt(es, k)
  }

  lemma OneIsFirst(h: Hub, c: Conn, sid: Sid)
    requires TwoViews(TablesOf(h)) && OneEach(h)
    requires (sid in h.live && h.live[sid].conn == c) || !InUse(h, c)
    ensures Unstuck(h.index, c, sid)
  {
    var k := First(h.index, c);
    FirstIs(h.index, c);
    assert EntryLive(TablesOf(h), k);
  }

  lemma ModestUndisturbed(es: seq<HubEvent>, k: nat)
    requires k < |es| && Calm(es[..k]) && ModestAt(es, k)
    ensures !DisturbedAt(es, k)
  {
    var h, e := Ran(es[..k]), es[k];
    CalmOrderly(es[..k]);
    if Stalls(h, e) {
      if e.Start? {
        OneIsFirst(h, e.conn, e.sid);
      } else {
        var sid := e.sid;
        OneIsFirst(h, h.live[sid].conn, sid);
      }
    }
  }

  /** With at most one live transfer to a connection the thread is never caught, and transfers are
      independent. */
  lemma {:induction false} OnePerConnection(es: seq<HubEvent>)
    requires Modest(es)
    ensures Calm(es) && !Ran(es).halted && Independent(es)
    decreases |es|
  {
    if es == [] {
      assert Calm(es);
    } else {
      var n := |es| - 1;
      forall k: nat
        ensures ModestAt(es[..n], k)
      {
        assert ModestAt(es, k);
        if k < n { assert es[..n][..k] == es[..k]; }
      }
      OnePerConnection(es[..n]);
      assert ModestAt(es, n);
      ModestUndisturbed(es, n);
      forall k: nat
        ensures !DisturbedAt(es, k)
      {
        assert !DisturbedAt(es[..n], k);
        if k < n { assert es[..n][..k] == es[..k]; }
      }
    }
    CalmOrderly(es);
    TransfersIndependentIff(es);
  }

  /** The teardown as written: exactly the gathered transfers are cancelled, each once, and both tables
      end as RegistrySpec.TeardownLiteral says. */
  lemma TeardownCancels(h: Hub, c: Conn, sid: Sid, i: nat)
    requires !h.halted && AllLive(h) && TwoViews(TablesOf(h)) && OnlyUnder(h, sid, i)
    ensures var gone, h' := Gathered(h.index, c), Cancelled(h, Gathered(h.index, c));
            && !h'.halted && TwoViews(TablesOf(h'))
            && h'.live == h.live - SetOf(gone) && h'.index == h.index[..First(h.index, c)]
            && CallsOf(i, h'.log) == CallsOf(i, h.log) + if Registered(h, sid, i) && sid in gone then [Cancel] else []
  {
    TeardownLiteral(TablesOf(h), c);
    CancelledDrains(h, Gathered(h.index, c));
    CancelledOnce(h, Gathered(h.index, c), sid, i);
  }

  /** The teardown as its comment means it: the connection's transfers are cancelled once each, and all
      others stay as they are. */
  lemma InRangeCancels(h: Hub, c: Conn, sid: Sid, i: nat)
    requires !h.halted && AllLive(h) && TwoViews(TablesOf(h)) && OnlyUnder(h, sid, i)
    ensures var h' := Cancelled(h, GatheredInRange(h.index, c));
            && !h'.halted && TwoViews(TablesOf(h'))
            && h'.live == (map s | s in h.live && h.live[s].conn != c :: h.live[s])
            && CallsOf(i, h'.log) == CallsOf(i, h.log)
                                     + if Registered(h, sid, i) && h.live[sid].conn == c then [Cancel] else []
  {
    var sids := GatheredInRange(h.index, c);
    TeardownIntended(TablesOf(h), c);
    CancelledDrains(h, sids);
    CancelledOnce(h, sids, sid, i);
    forall s | s in h.live
      ensures s in sids <==> h.live[s].conn == c
    {
      GatheredInRangeAre(TablesOf(h), c, s);
    }
  }

  // ---------------------------------------------------------------- each case arises

  lemma RanOne(e: HubEvent)
    ensures Ran([e]) == Step(IDLE, 0, e)
  {
    assert [e][..0] == [];
  }

  lemma RanTwo(e: HubEvent, f: HubEvent)
    ensures Ran([e, f]) == Step(Step(IDLE, 0, e), 1, f)
  {
    RanOne(e);
    RanPlus([e], f);
    assert [e] + [f] == [e, f];
  }

  lemma TwoStarted(c: Conn, d: Conn)
    requires c <= d
    ensures var es := [Start(c, "a", true), Start(d, "b", true)];
            Calm(es) && Ran(es).index == [Entry(c, "a"), Entry(d, "b")]
            && Ran(es).live == map["a" := Transfer(0, c, STARTED), "b" := Transfer(1, d, STARTED)]
  {
    var es := [Start(c, "a", true), Start(d, "b", true)];
    RanOne(es[0]);
    RanTwo(es[0], es[1]);
    var one := Ran([es[0]]);
    assert "a"[0] != "b"[0];
    assert one.index == [Entry(c, "a")] && RegistrySpec.After(one.index, d) == 1;
    forall k: nat
      ensures !DisturbedAt(es, k)
    {
      assert es[..0] == [] && es[..1] == [es[0]];
      assert Ran([]) == IDLE;
    }
  }

  /** Two transfers on one connection and the later one's end marker first: the thread is caught, and the
      earlier one misses what comes next. */
  lemma SecondCatches()
    ensures var es := [Start(0, "a", true), Start(0, "b", true)];
            var end := Receive(0, "b", Data(""));
            Calm(es) && Ran(es + [end]).halted && !GetsOwn(es + [end] + [Probe(0, "a")], 0)
  {
    var es := [Start(0, "a", true), Start(0, "b", true)];
    var end := Receive(0, "b", Data(""));
    TwoStarted(0, 0);
    CalmOrderly(es);
    HaltsIff(es, end);
    assert Stalls(Ran(es), end);
    assert "a"[0] != "b"[0];
    RanPlus(es, end);
    ReactsCalls(Ran(es), "b", Arrive(Data("")), 0);
    assert CallsOf(0, Ran(es).log) + [] == CallsOf(0, Ran(es).log);
    Differs(es, end, 0, 0);
  }

  /** Transfers on two connections: losing the first cancels the other one too. */
  lemma OtherLost()
    ensures var es := [Start(0, "a", true), Start(1, "b", true)];
            Calm(es) && CallsOf(1, Ran(es + [Lose(0)]).log) == [Cancel] && Alone(es + [Lose(0)], 1).calls == []
  {
    var es := [Start(0, "a", true), Start(1, "b", true)];
    TwoStarted(0, 1);
    CalmOrderly(es);
    RanPlus(es, Lose(0));
    assert Registered(Ran(es), "a", 0);
    OtherCancelled(es, Ran(es), 0, "b", 1);
    assert Separate(es, Ran(es), 1);
    AlonePlus(es, Lose(0), 1);
    assert Alone(es, 1).calls == [];
  }

  /** One sid begun twice: the first transfer is displaced, and whatever happens afterwards its adaptor is
      never told that it is over. */
  lemma FirstDisplaced(more: seq<HubEvent>)
    ensures var es := [Start(0, "a", true), Start(0, "a", true)];
            Calm(es[..1]) && Displaces(Ran(es[..1]), es[1]) && Displaced(es, 0)
            && CallsOf(0, Ran(es + more).log) == []
  {
    var e := Start(0, "a", true);
    RanOne(e);
    assert [e, e][..1] == [e] && [e] + [e] == [e, e];
    forall k: nat
      ensures !DisturbedAt([e], k)
    {
      assert [e][..0] == [] && Ran([]) == IDLE;
    }
    assert Registered(Ran([e]), "a", 0);
    DisplacedHere([e], e, 0);
    DisplacedNeverEnds([e], e, more);
  }
}
