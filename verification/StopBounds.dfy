/** The stop wave ends too: a peer passes a stop on at most once, and there are at most as many copies as
    connection ends. */
module StopBounds {
  import opened Wrappers
  import opened Collections
  import opened NodeSpec
  import opened Network
  import opened FloodBounds
  import opened StopWave

  function IsStop(q: Guid): Packet -> bool {
    (p: Packet) => p.msg == QueryStop(q)
  }

  /** A stop for q that is new to its receiver is delivered. */
  predicate NewStop(net: Net, s: Step, q: Guid)
    requires Enabled(net, s)
  {
    s.Deliver? && net.pool[s.i].msg == QueryStop(q) && q !in net.nodes[At(net, s)].seen
  }

  /** Stops are sent by the initiator when it gives up, and passed on by whoever hears one first. */
  lemma StopsSent(net: Net, s: Step, q: Guid)
    requires Inv(net) && Enabled(net, s) && !s.Connect?
    ensures var sends := StepEffect(net, s).sends;
            && (NewStop(net, s, q) || s == Stop(At(net, s), q) ==> |sends| <= |net.nodes[At(net, s)].conns|)
            && (NewStop(net, s, q) || s == Stop(At(net, s), q) || forall d :: d in sends ==> d.msg != QueryStop(q))
  {
    var n := net.nodes[At(net, s)];
    match s
    case Resolve(_, q') => BroadcastReaches(n.conns, QueryOrigin(n, q'), Query(|net.issued|, q'));
    case Fire(_, t, _) => BroadcastReaches(n.conns, Some(t.conn), Query(t.guid, t.qid));
    case Stop(_, q') => BroadcastReaches(n.conns, None, QueryStop(q'));
    case Deliver(k) =>
      assert PacketOk(net, net.pool[k]);
      if net.pool[k].msg.QueryStop? { BroadcastReaches(n.conns, Some(net.pool[k].conn), net.pool[k].msg); }
    case _ =>
  }

  lemma StopCopiesSent(net: Net, s: Step, q: Guid)
    requires Inv(net) && Enabled(net, s)
    ensures Count(Sent(net, s), IsStop(q))
         <= if NewStop(net, s, q) || s == Stop(At(net, s), q) then |net.nodes[At(net, s)].conns| else 0
  {
    if s.Connect? {
      assert Sent(net, s) == [];
    } else {
      StopsSent(net, s, q);
      if !NewStop(net, s, q) && s != Stop(At(net, s), q) { CountNone(Sent(net, s), IsStop(q)); }
    }
  }

  /** The copies this peer may still pass on. */
  function StopOwed(q: Guid): NodeState -> nat {
    (n: NodeState) => if q in n.seen then 0 else |n.conns|
  }

  lemma StopOwedStep(net: Net, s: Step, q: Guid)
    requires Inv(net) && Enabled(net, s) && !s.Connect?
    ensures StopOwed(q)(StepEffect(net, s).node) + (if NewStop(net, s, q) then |net.nodes[At(net, s)].conns| else 0)
         <= StopOwed(q)(net.nodes[At(net, s)])
  {
    DegreeShrinks(net, s);
    StepGrows(net, s);
    if NewStop(net, s, q) {
      var p := net.pool[s.i];
      StopSeen(net.nodes[p.dst], p.conn, p.src, q, |net.issued|);
    }
  }

  /** Copies passed on come out of what the peer still owed. */
  lemma StepStopCopies(net: Net, s: Step, q: Guid)
    requires Inv(net) && Enabled(net, s)
    ensures Sum(Apply(net, s).nodes, StopOwed(q)) + (if s.Stop? then 0 else Count(Sent(net, s), IsStop(q)))
         <= Sum(net.nodes, StopOwed(q)) + (if s.Connect? then 2 else 0)
  {
    StopCopiesSent(net, s, q);
    if s.Connect? {
      ConnectSum(net, s, StopOwed(q), 1);
    } else {
      StopOwedStep(net, s, q);
      SumStep(net, s, StopOwed(q));
    }
  }

  /** How many copies of the stop are passed on in the run, those of the one who gives up not counted. */
  ghost function PassedOn(net: Net, steps: seq<Step>, q: Guid): nat
    requires CanRun(net, steps)
    decreases steps
  {
    if steps == [] then 0
    else (if steps[0].Stop? then 0 else Count(Sent(net, steps[0]), IsStop(q)))
         + PassedOn(Apply(net, steps[0]), steps[1..], q)
  }

  lemma {:induction false} RunPassedOn(net: Net, steps: seq<Step>, q: Guid)
    requires Inv(net) && CanRun(net, steps)
    ensures PassedOn(net, steps, q) + Sum(Run(net, steps).nodes, StopOwed(q))
         <= Sum(net.nodes, StopOwed(q)) + 2 * Connects(steps)
    decreases steps
  {
    if steps == [] {
    } else {
      StepInv(net, steps[0]);
      StepStopCopies(net, steps[0], q);
      RunPassedOn(Apply(net, steps[0]), steps[1..], q);
    }
  }

  function Degree(n: NodeState): nat {
    |n.conns|
  }

  /** From the start of any run, at most one copy of a stop per connection end is passed on, the ends of
      connections that come up meanwhile included, however often the initiator gives up. */
  lemma StopWaveEnds(net: Net, steps: seq<Step>, q: Guid)
    requires Init(net) && CanRun(net, steps)
    ensures PassedOn(net, steps, q) <= Sum(net.nodes, Degree) + 2 * Connects(steps)
  {
    InitInv(net);
    RunPassedOn(net, steps, q);
    SumSame(net.nodes, net.nodes, StopOwed(q), Degree);
  }

  ghost predicate SendsStop(net: Net, s: Step, i: Peer, q: Guid)
    requires Enabled(net, s)
  {
    i == At(net, s) && exists p :: p in Sent(net, s) && IsStop(q)(p)
  }

  /** How often peer i broadcasts a stop for q in the run. */
  ghost function StopBroadcasts(net: Net, steps: seq<Step>, i: Peer, q: Guid): nat
    requires CanRun(net, steps)
    decreases steps
  {
    if steps == [] then 0
    else (if SendsStop(net, steps[0], i, q) then 1 else 0) + StopBroadcasts(Apply(net, steps[0]), steps[1..], i, q)
  }

  lemma OnlyNewStop(net: Net, s: Step, i: Peer, q: Guid)
    requires Inv(net) && Enabled(net, s) && i < |net.nodes| && SendsStop(net, s, i, q)
    requires q < |net.issued| ==> net.issued[q].ForQid? && net.issued[q].owner != i
    ensures NewStop(net, s, q)
  {
    assert NodeOk(net, i);
    StopsSent(net, s, q);
  }

  /** On every run, even one whose graph grows, a peer that did not ask a query broadcasts a stop for it at
      most once. */
  lemma {:induction false} StopAtMostOnce(net: Net, steps: seq<Step>, i: Peer, q: Guid)
    requires Inv(net) && CanRun(net, steps) && i < |net.nodes|
    requires var end := Run(net, steps); q < |end.issued| && end.issued[q].ForQid? && end.issued[q].owner != i
    ensures StopBroadcasts(net, steps, i, q) <= if q in net.nodes[i].seen then 0 else 1
    decreases steps
  {
    if q < |net.issued| { SameIssued(net, steps, q); }
    if steps == [] {
    } else {
      var s, next := steps[0], Apply(net, steps[0]);
      StepInv(net, s);
      StopAtMostOnce(next, steps[1..], i, q);
      assert Grows(net.nodes[i], next.nodes[i]);
      if SendsStop(net, s, i, q) {
        OnlyNewStop(net, s, i, q);
        StopSeen(net.nodes[i], net.pool[s.i].conn, net.pool[s.i].src, q, |net.issued|);
      }
    }
  }
}
