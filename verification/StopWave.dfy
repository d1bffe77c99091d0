/** The stop wave only follows the reply tree downwards, and what it does and does not silence. */
module StopWave {
  import opened Wrappers
  import opened NodeSpec
  import opened Network
  import opened ReplyTree
  import opened FloodBounds
  import opened Coverage

  ghost predicate Stopped(net: Net, i: Peer, q: Guid) {
    i < |net.nodes| && q in net.nodes[i].stopped
  }

  /** A peer stops after the neighbour it had the query from. */
  ghost predicate StopsFollow(net: Net) {
    forall i: Peer, q: Guid :: Stopped(net, i, q) && q in net.nodes[i].origins ==> Stopped(net, Parent(net, i, q), q)
  }

  /** A peer that has a query from elsewhere stops only on a QUERYSTOP its origin sent. */
  lemma StepNewStop(net: Net, s: Step, q: Guid)
    requires Inv(net) && Enabled(net, s) && !s.Connect?
    requires q in StepEffect(net, s).node.stopped && q !in net.nodes[At(net, s)].stopped
    requires q in StepEffect(net, s).node.origins
    ensures q in net.nodes[At(net, s)].origins
    ensures Stopped(net, Parent(net, At(net, s), q), q)
  {
    assert NodeOk(net, At(net, s));
    if s.Deliver? { assert PacketOk(net, net.pool[s.i]); }
  }

  lemma StopFrame(net: Net, net': Net, i: Peer, q: Guid)
    requires Inv(net) && Extends(net, net') && i < |net.nodes| && q in net.nodes[i].origins
    requires Stopped(net, Parent(net, i, q), q)
    ensures q in net'.nodes[i].origins && Stopped(net', Parent(net', i, q), q)
  {
    assert NodeOk(net, i) && Grows(net.nodes[i], net'.nodes[i]);
    OtherExtends(net.links, net'.links, net.nodes[i].origins[q], i);
    var up := Parent(net, i, q);
    assert Grows(net.nodes[up], net'.nodes[up]);
  }

  lemma StepStopsFollow(net: Net, s: Step)
    requires Inv(net) && StopsFollow(net) && Enabled(net, s)
    ensures StopsFollow(Apply(net, s))
  {
    var net' := Apply(net, s);
    StepInv(net, s);
    forall i: Peer, q: Guid | Stopped(net', i, q) && q in net'.nodes[i].origins
      ensures Stopped(net', Parent(net', i, q), q)
    {
      assert NodeOk(net, i) && Grows(net.nodes[i], net'.nodes[i]);
      if !Stopped(net, i, q) { StepNewStop(net, s, q); }
      StopFrame(net, net', i, q);
    }
  }

  lemma {:induction false} RunStopsFollow(net: Net, steps: seq<Step>)
    requires Inv(net) && StopsFollow(net) && CanRun(net, steps)
    ensures Inv(Run(net, steps)) && StopsFollow(Run(net, steps))
    decreases steps
  {
    if steps == [] {
    } else {
      StepInv(net, steps[0]);
      StepStopsFollow(net, steps[0]);
      RunStopsFollow(Apply(net, steps[0]), steps[1..]);
    }
  }

  lemma {:induction false} StopsOnRoute(net: Net, i: Peer, q: Guid, k: nat)
    requires StopsFollow(net) && Stopped(net, i, q) && ReachesIn(net, i, q, k)
    ensures forall j :: 0 <= j <= k ==> Stopped(net, Route(net, i, q, k)[j], q)
    decreases k
  {
    if k == 0 {
    } else {
      var up := Parent(net, i, q);
      StopsOnRoute(net, up, q, k - 1);
      assert forall j :: 1 <= j <= k ==> Route(net, i, q, k)[j] == Route(net, up, q, k - 1)[j - 1];
    }
  }

  /** On every run: whoever sent a QUERYSTOP still under way has stopped, and a stopped peer's whole way
      home has stopped, up to and including the initiator. */
  lemma StopsComeFromInitiator(net: Net, steps: seq<Step>, i: Peer, q: Guid) returns (k: nat)
    requires Init(net) && CanRun(net, steps) && Stopped(Run(net, steps), i, q)
    ensures var end := Run(net, steps);
            && ReachesIn(end, i, q, k) && (forall j :: 0 <= j <= k ==> Stopped(end, Route(end, i, q, k)[j], q))
            && q < |end.issued| && end.issued[q].ForQid? && Stopped(end, end.issued[q].owner, q)
            && (forall p :: p in end.pool && p.msg.QueryStop? ==> Stopped(end, p.src, p.msg.guid))
  {
    var end := Run(net, steps);
    InitInv(net);
    RunStopsFollow(net, steps);
    assert NodeOk(end, i);
    k := RepliesReachInitiator(net, steps, i, q);
    StopsOnRoute(end, i, q, k);
    forall p | p in end.pool && p.msg.QueryStop?
      ensures Stopped(end, p.src, p.msg.guid)
    {
      assert PacketOk(end, p);
    }
  }

  // ---------------------------------------------------------------- how far the wave gets

  ghost predicate KeepsGraph(steps: seq<Step>) {
    forall s :: s in steps ==> !s.Drop? && !s.Connect?
  }

  /** v has heard the stop, from whomever, or a copy is on its way there. */
  ghost predicate Hears(net: Net, v: Peer, q: Guid) {
    (v < |net.nodes| && q in net.nodes[v].seen)
    || exists p :: p in net.pool && p.dst == v && p.msg == QueryStop(q)
  }

  /** A stopped peer has let all its neighbours know, apart from the one it had the query from. */
  ghost predicate StopSpread(net: Net) {
    forall u: Peer, c: Conn, q: Guid ::
      Stopped(net, u, q) && c in net.nodes[u].conns && QueryOrigin(net.nodes[u], q) != Some(c)
      ==> Hears(net, Other(net.links, c, u), q)
  }

  lemma HeardStays(net: Net, s: Step, v: Peer, q: Guid)
    requires Enabled(net, s) && v < |net.nodes| && q in net.nodes[v].seen && Extends(net, Apply(net, s))
    ensures Hears(Apply(net, s), v, q)
  {
    assert Grows(net.nodes[v], Apply(net, s).nodes[v]);
  }

  /** A copy delivered is heard; the others stay on their way. */
  lemma CopyStays(net: Net, s: Step, p: Packet, q: Guid)
    requires Enabled(net, s) && p in net.pool && p.msg == QueryStop(q)
    ensures Hears(Apply(net, s), p.dst, q)
  {
    if s.Deliver? && net.pool[s.i] == p {
      StopSeen(net.nodes[p.dst], p.conn, p.src, q, |net.issued|);
    } else {
      PoolKeeps(net, s, p);
    }
  }

  lemma StopSeen(n: NodeState, c: Conn, name: Peer, q: Guid, uuid: Guid)
    ensures q in MessageReceived(n, c, name, QueryStop(q), uuid).node.seen
  {
  }

  lemma HearsStays(net: Net, s: Step, v: Peer, q: Guid)
    requires Enabled(net, s) && Hears(net, v, q) && Extends(net, Apply(net, s))
    ensures Hears(Apply(net, s), v, q)
  {
    if v < |net.nodes| && q in net.nodes[v].seen {
      HeardStays(net, s, v, q);
    } else {
      var p :| p in net.pool && p.dst == v && p.msg == QueryStop(q);
      CopyStays(net, s, p, q);
    }
  }

  lemma NewlyStopped(net: Net, s: Step, c: Conn, q: Guid)
    requires Inv(net) && Enabled(net, s) && !s.Connect? && !s.Drop?
    requires q in StepEffect(net, s).node.stopped && q !in net.nodes[At(net, s)].stopped
    requires c in net.nodes[At(net, s)].conns && QueryOrigin(net.nodes[At(net, s)], q) != Some(c)
    ensures Send(c, QueryStop(q)) in StepEffect(net, s).sends
  {
    var n := net.nodes[At(net, s)];
    if s.Stop? {
      BroadcastReaches(n.conns, None, QueryStop(q));
    } else {
      var p := net.pool[s.i];
      assert PacketOk(net, p);
      StopApplied(n, p.conn, p.src, q, |net.issued|);
    }
  }

  lemma OriginStays(net: Net, s: Step, q: Guid)
    requires Inv(net) && Enabled(net, s) && !s.Connect? && !s.Drop? && q in net.nodes[At(net, s)].known
    ensures StepEffect(net, s).node.conns == net.nodes[At(net, s)].conns
    ensures QueryOrigin(StepEffect(net, s).node, q) == QueryOrigin(net.nodes[At(net, s)], q)
  {
    StepGrows(net, s);
    if s.Deliver? { assert PacketOk(net, net.pool[s.i]); }
  }

  /** A peer stops only a query it knows already. */
  lemma StopsKnown(net: Net, s: Step, q: Guid)
    requires Inv(net) && Enabled(net, s) && !s.Connect? && q in StepEffect(net, s).node.stopped
    ensures q in net.nodes[At(net, s)].known
  {
    assert NodeOk(net, At(net, s));
  }

  lemma StepStopSpread(net: Net, s: Step)
    requires Inv(net) && StopSpread(net) && Enabled(net, s) && !s.Drop? && !s.Connect?
    ensures StopSpread(Apply(net, s))
  {
    var net' := Apply(net, s);
    StepExtends(net, s);
    forall u: Peer, c: Conn, q: Guid
      | Stopped(net', u, q) && c in net'.nodes[u].conns && QueryOrigin(net'.nodes[u], q) != Some(c)
      ensures Hears(net', Other(net'.links, c, u), q)
    {
      if u == At(net, s) {
        StopsKnown(net, s, q);
        OriginStays(net, s, q);
      }
      if Stopped(net, u, q) {
        HearsStays(net, s, Other(net.links, c, u), q);
      } else {
        NewlyStopped(net, s, c, q);
        SentArrives(net, s, Send(c, QueryStop(q)));
      }
    }
  }

  lemma {:induction false} RunStopSpread(net: Net, steps: seq<Step>)
    requires Inv(net) && StopSpread(net) && CanRun(net, steps) && KeepsGraph(steps)
    ensures StopSpread(Run(net, steps))
    decreases steps
  {
    if steps == [] {
    } else {
      assert !steps[0].Drop? && !steps[0].Connect?;
      StepInv(net, steps[0]);
      StepStopSpread(net, steps[0]);
      RunStopSpread(Apply(net, steps[0]), steps[1..]);
    }
  }

  /** While connections stay as they are: once no copy of the stop is under way, every neighbour of a
      stopped peer, apart from the one it had the query from, has heard the stop. */
  lemma StopReachesNeighbours(net: Net, steps: seq<Step>, u: Peer, c: Conn, q: Guid)
    requires Init(net) && CanRun(net, steps) && KeepsGraph(steps)
    requires var end := Run(net, steps);
             && Stopped(end, u, q) && c in end.nodes[u].conns && QueryOrigin(end.nodes[u], q) != Some(c)
             && forall p :: p in end.pool ==> p.msg != QueryStop(q)
    ensures var end := Run(net, steps);
            Other(end.links, c, u) < |end.nodes| && q in end.nodes[Other(end.links, c, u)].seen
  {
    InitInv(net);
    RunStopSpread(net, steps);
    assert Hears(Run(net, steps), Other(Run(net, steps).links, c, u), q);
  }

  // ---------------------------------------------------------------- what a stop silences

  /** How often a timer at i broadcasts q in the run. */
  ghost function TimerBroadcasts(net: Net, steps: seq<Step>, i: Peer, q: Guid): nat
    requires CanRun(net, steps)
    decreases steps
  {
    if steps == [] then 0
    else (if steps[0].Fire? && SendsQuery(net, steps[0], i, q) then 1 else 0)
         + TimerBroadcasts(Apply(net, steps[0]), steps[1..], i, q)
  }

  /** What still broadcasts q at a peer that has stopped it: only a pending start_resolving, which does
      not look, and that whenever it has a live connection other than the query's origin. */
  lemma StoppedSender(net: Net, s: Step, i: Peer, q: Guid)
    requires Inv(net) && Enabled(net, s) && Stopped(net, i, q)
    ensures SendsQuery(net, s, i, q) <==>
              s == Resolve(i, q) && exists c :: c in net.nodes[i].conns && Some(c) != QueryOrigin(net.nodes[i], q)
  {
    var n := net.nodes[i];
    if i == At(net, s) && !s.Connect? {
      SendsFew(net, s, q);
      if s == Resolve(i, q) {
        BroadcastReaches(n.conns, QueryOrigin(n, q), Query(|net.issued|, q));
        forall c | c in n.conns && Some(c) != QueryOrigin(n, q)
          ensures exists p :: p in Sent(net, s) && IsQuery(q)(p)
        {
          var d := Send(c, Query(|net.issued|, q));
          var k :| 0 <= k < |StepEffect(net, s).sends| && StepEffect(net, s).sends[k] == d;
          assert Sent(net, s)[k] == PacketOf(net.links, i, d);
          assert Sent(net, s)[k] in Sent(net, s);
        }
      }
    }
  }

  /** Once a peer has stopped a query, no timer there ever broadcasts it again, on any run. */
  lemma {:induction false} StoppedTimersSilent(net: Net, steps: seq<Step>, i: Peer, q: Guid)
    requires Inv(net) && CanRun(net, steps) && Stopped(net, i, q)
    ensures TimerBroadcasts(net, steps, i, q) == 0
    decreases steps
  {
    if steps == [] {
    } else {
      StepInv(net, steps[0]);
      StoppedSender(net, steps[0], i, q);
      assert Grows(net.nodes[i], Apply(net, steps[0]).nodes[i]);
      StoppedTimersSilent(Apply(net, steps[0]), steps[1..], i, q);
    }
  }

  /** A seen GUID is never looked at again. */
  lemma SeenStopIgnored(n: NodeState, c: Conn, name: Peer, m: Msg, uuid: Guid, q: Guid)
    requires q in n.seen && q !in n.stopped
    ensures q !in MessageReceived(n, c, name, m, uuid).node.stopped
  {
  }

  lemma StepStopLost(net: Net, s: Step, i: Peer, q: Guid)
    requires Inv(net) && Enabled(net, s) && i < |net.nodes|
    requires q in net.nodes[i].seen && !Stopped(net, i, q) && q < |net.issued|
    requires net.issued[q].ForQid? && net.issued[q].owner != i
    ensures !Stopped(Apply(net, s), i, q)
  {
    assert NodeOk(net, i);
    if s.Deliver? {
      var p := net.pool[s.i];
      SeenStopIgnored(net.nodes[i], p.conn, p.src, p.msg, |net.issued|, q);
    }
  }

  /** A stop that was heard but did not take hold is lost for good: whatever happens afterwards, the
      peer, if it is not the initiator, never stops the query. */
  lemma {:induction false} StopLost(net: Net, steps: seq<Step>, i: Peer, q: Guid)
    requires Inv(net) && CanRun(net, steps) && i < |net.nodes|
    requires q in net.nodes[i].seen && !Stopped(net, i, q) && q < |net.issued|
    requires net.issued[q].ForQid? && net.issued[q].owner != i
    ensures !Stopped(Run(net, steps), i, q)
    decreases steps
  {
    if steps == [] {
    } else {
      var next := Apply(net, steps[0]);
      StepInv(net, steps[0]);
      StepStopLost(net, steps[0], i, q);
      assert Grows(net.nodes[i], next.nodes[i]) && next.issued[q] == net.issued[q];
      StopLost(next, steps[1..], i, q);
    }
  }

  // ---------------------------------------------------------------- exactly who stops

  predicate StopDelivered(net: Net, s: Step, i: Peer, q: Guid)
    requires Enabled(net, s)
  {
    s.Deliver? && At(net, s) == i && net.pool[s.i].msg == QueryStop(q)
  }

  /** The first QUERYSTOP for q delivered to i in the run came over i's live origin for q. */
  ghost predicate FirstStopHolds(net: Net, steps: seq<Step>, i: Peer, q: Guid)
    requires CanRun(net, steps) && i < |net.nodes|
    decreases steps
  {
    if steps == [] then false
    else if StopDelivered(net, steps[0], i, q) then
      QueryOrigin(net.nodes[i], q) == Some(net.pool[steps[0].i].conn)
    else FirstStopHolds(Apply(net, steps[0]), steps[1..], i, q)
  }

  lemma OtherMessage(n: NodeState, c: Conn, name: Peer, m: Msg, uuid: Guid, q: Guid)
    requires m.guid != q
    ensures var n' := MessageReceived(n, c, name, m, uuid).node;
            (q in n'.seen <==> q in n.seen) && (q in n'.stopped <==> q in n.stopped)
  {
  }

  /** Nothing but a QUERYSTOP for q is new under GUID q, or stops q, off the initiator. */
  lemma OtherStepsUnstopped(net: Net, s: Step, i: Peer, q: Guid)
    requires Inv(net) && Enabled(net, s) && i < |net.nodes| && !StopDelivered(net, s, i, q)
    requires q < |net.issued| ==> net.issued[q].ForQid? && net.issued[q].owner != i
    requires q !in net.nodes[i].seen && !Stopped(net, i, q)
    ensures q !in Apply(net, s).nodes[i].seen && !Stopped(Apply(net, s), i, q)
  {
    assert NodeOk(net, i);
    if s.Deliver? && At(net, s) == i {
      var p := net.pool[s.i];
      DeliveredGuids(net, p);
      assert PacketOk(net, p);
      OtherMessage(net.nodes[i], p.conn, p.src, p.msg, |net.issued|, q);
    }
  }

  lemma StopTakesHoldIff(net: Net, s: Step, i: Peer, q: Guid)
    requires Inv(net) && Enabled(net, s) && i < |net.nodes| && StopDelivered(net, s, i, q)
    requires q !in net.nodes[i].seen && !Stopped(net, i, q)
    ensures q in Apply(net, s).nodes[i].seen
    ensures Stopped(Apply(net, s), i, q) <==> QueryOrigin(net.nodes[i], q) == Some(net.pool[s.i].conn)
  {
    var p := net.pool[s.i];
    assert NodeOk(net, i);
    StopApplied(net.nodes[i], p.conn, p.src, q, |net.issued|);
    StopSeen(net.nodes[i], p.conn, p.src, q, |net.issued|);
  }

  lemma SameIssued(net: Net, steps: seq<Step>, q: Guid)
    requires Inv(net) && CanRun(net, steps) && q < |net.issued|
    ensures q < |Run(net, steps).issued| && Run(net, steps).issued[q] == net.issued[q]
  {
    RunInv(net, steps);
  }

  lemma {:induction false} StopsFrom(net: Net, steps: seq<Step>, i: Peer, q: Guid)
    requires Inv(net) && CanRun(net, steps) && i < |net.nodes|
    requires q !in net.nodes[i].seen && !Stopped(net, i, q)
    requires var end := Run(net, steps); q < |end.issued| && end.issued[q].ForQid? && end.issued[q].owner != i
    ensures Stopped(Run(net, steps), i, q) <==> FirstStopHolds(net, steps, i, q)
    decreases steps
  {
    if q < |net.issued| { SameIssued(net, steps, q); }
    if steps == [] {
    } else {
      var s, next := steps[0], Apply(net, steps[0]);
      StepInv(net, s);
      if StopDelivered(net, s, i, q) {
        StopTakesHoldIff(net, s, i, q);
        StopDecided(next, steps[1..], i, q);
      } else {
        OtherStepsUnstopped(net, s, i, q);
        StopsFrom(next, steps[1..], i, q);
      }
    }
  }

  /** Once a peer has seen the stop, it is settled. */
  lemma StopDecided(net: Net, steps: seq<Step>, i: Peer, q: Guid)
    requires Inv(net) && CanRun(net, steps) && i < |net.nodes| && q in net.nodes[i].seen
    requires var end := Run(net, steps); q < |end.issued| && end.issued[q].ForQid? && end.issued[q].owner != i
    ensures Stopped(Run(net, steps), i, q) <==> Stopped(net, i, q)
  {
    assert NodeOk(net, i);
    SameIssued(net, steps, q);
    RunInv(net, steps);
    if Stopped(net, i, q) {
      assert Grows(net.nodes[i], Run(net, steps).nodes[i]);
    } else {
      StopLost(net, steps, i, q);
    }
  }

  /** On every run, a peer other than the initiator has stopped a query if and only if the first
      QUERYSTOP for it that was delivered to the peer came over the peer's live origin for the query. */
  lemma StopsIffFirstStopHolds(net: Net, steps: seq<Step>, i: Peer, q: Guid)
    requires Init(net) && CanRun(net, steps) && i < |net.nodes|
    requires var end := Run(net, steps); q < |end.issued| && end.issued[q].ForQid? && end.issued[q].owner != i
    ensures Stopped(Run(net, steps), i, q) <==> FirstStopHolds(net, steps, i, q)
  {
    InitInv(net);
    assert net.nodes[i] == NewNode(net.nodes[i].conns);
    StopsFrom(net, steps, i, q);
  }
}
