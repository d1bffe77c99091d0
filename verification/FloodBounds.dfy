/** The flood ends although no TTL is ever checked: each peer has two broadcasts of a query in it,
    one owed by start_resolving and one by the timer, and every query step spends something. */
module FloodBounds {
  import opened Wrappers
  import opened Collections
  import opened NodeSpec
  import opened Network

  ghost predicate HasTimer(n: NodeState, q: Guid) {
    exists t :: t in n.timers && t.qid == q
  }

  /** w for each broadcast of q this peer may still make. */
  ghost function Owed(n: NodeState, q: Guid, w: nat): nat {
    if q !in n.known then 2 * w
    else (if HasTimer(n, q) then w else 0) + (if q in n.pending then w else 0)
  }

  ghost function OwedByDegree(q: Guid): NodeState -> nat {
    (n: NodeState) => Owed(n, q, |n.conns|)
  }

  ghost function OwedAndOne(q: Guid): NodeState -> nat {
    (n: NodeState) => Owed(n, q, |n.conns| + 1)
  }

  function TwiceDegree(n: NodeState): nat {
    2 * |n.conns|
  }

  function TwiceDegreeAndOne(n: NodeState): nat {
    2 * (|n.conns| + 1)
  }

  function IsQuery(q: Guid): Packet -> bool {
    (p: Packet) => p.msg.Query? && p.msg.qid == q
  }

  /** The work left in the flood of q. */
  ghost function Measure(net: Net, q: Guid): nat {
    Sum(net.nodes, OwedAndOne(q)) + Count(net.pool, IsQuery(q))
  }

  /** The step gives up one of the broadcasts of q its peer owes. */
  predicate SpendsSlot(s: Step, q: Guid) {
    match s
    case Resolve(_, q') => q' == q
    case Skip(_, q') => q' == q
    case Fire(_, t, _) => t.qid == q
    case _ => false
  }

  /** A step of q's flood. */
  predicate QueryStep(net: Net, s: Step, q: Guid)
    requires Enabled(net, s)
  {
    SpendsSlot(s, q) || (s.Deliver? && IsQuery(q)(net.pool[s.i]))
  }

  ghost predicate SendsQuery(net: Net, s: Step, i: Peer, q: Guid)
    requires Enabled(net, s)
  {
    i == At(net, s) && exists p :: p in Sent(net, s) && IsQuery(q)(p)
  }

  lemma DegreeShrinks(net: Net, s: Step)
    requires Inv(net) && Enabled(net, s) && !s.Connect?
    ensures |StepEffect(net, s).node.conns| <= |net.nodes[At(net, s)].conns|
  {
    if s.Drop? { LoseConnMember(net.nodes[s.n].conns, s.c); }
    if s.Deliver? { assert PacketOk(net, net.pool[s.i]); }
  }

  /** Learning q takes on two broadcasts, one for the timer and one for start_resolving. */
  lemma OwedHandler(n: NodeState, c: Conn, name: Peer, m: Msg, uuid: Guid, q: Guid, w: nat, w': nat)
    requires LocalOk(n) && w' <= w
    ensures Owed(MessageReceived(n, c, name, m, uuid).node, q, w') <= Owed(n, q, w)
  {
    var n' := MessageReceived(n, c, name, m, uuid).node;
    if HasTimer(n', q) {
      var t :| t in n'.timers && t.qid == q;
      assert t in n.timers || q !in n.known;
    }
  }

  lemma OwedFire(n: NodeState, t: Timer, err: bool, q: Guid, w: nat, w': nat)
    requires LocalOk(n) && t in n.timers && w' <= w
    ensures Owed(FwdSearch(n, t, err).node, q, w') + (if t.qid == q then w else 0) <= Owed(n, q, w)
  {
    var n' := FwdSearch(n, t, err).node;
    assert HasTimer(n, t.qid) && !HasTimer(n', t.qid);
    if HasTimer(n', q) {
      var t' :| t' in n'.timers && t'.qid == q;
      assert t' in n.timers;
    }
  }

  /** Making or forgoing a broadcast gives its weight back; nothing else adds to what is owed. */
  lemma OwedStep(net: Net, s: Step, q: Guid, w: nat, w': nat)
    requires Inv(net) && Enabled(net, s) && !s.Connect? && w' <= w
    ensures Owed(StepEffect(net, s).node, q, w') + (if SpendsSlot(s, q) then w else 0)
         <= Owed(net.nodes[At(net, s)], q, w)
  {
    var n := net.nodes[At(net, s)];
    assert NodeOk(net, At(net, s));
    match s
    case Deliver(k) => OwedHandler(n, net.pool[k].conn, net.pool[k].src, net.pool[k].msg, |net.issued|, q, w, w');
    case Fire(_, t, err) => OwedFire(n, t, err, q, w, w');
    case _ =>
  }

  /** Queries are sent only by start_resolving and by timers, one to a connection at most. */
  lemma QuerySends(net: Net, s: Step)
    requires Inv(net) && Enabled(net, s) && !s.Connect?
    ensures var sends := StepEffect(net, s).sends;
            && (forall d :: d in sends && d.msg.Query? ==> SpendsSlot(s, d.msg.qid))
            && (s.Resolve? || s.Fire? ==> |sends| <= |net.nodes[At(net, s)].conns|)
  {
    var n := net.nodes[At(net, s)];
    match s
    case Resolve(_, q) => BroadcastReaches(n.conns, QueryOrigin(n, q), Query(|net.issued|, q));
    case Fire(_, t, _) => BroadcastReaches(n.conns, Some(t.conn), Query(t.guid, t.qid));
    case Stop(_, q) => BroadcastReaches(n.conns, None, QueryStop(q));
    case Deliver(k) =>
      assert PacketOk(net, net.pool[k]);
      if net.pool[k].msg.QueryStop? {
        BroadcastReaches(n.conns, Some(net.pool[k].conn), net.pool[k].msg);
      }
    case _ =>
  }

  lemma SendsFew(net: Net, s: Step, q: Guid)
    requires Inv(net) && Enabled(net, s)
    ensures Count(Sent(net, s), IsQuery(q)) <= if SpendsSlot(s, q) then |net.nodes[At(net, s)].conns| else 0
    ensures SendsQuery(net, s, At(net, s), q) ==> SpendsSlot(s, q)
  {
    if !s.Connect? {
      QuerySends(net, s);
      if !SpendsSlot(s, q) { CountNone(Sent(net, s), IsQuery(q)); }
    }
  }

  /** How the step moves a sum over the peers. */
  lemma SumStep(net: Net, s: Step, f: NodeState -> nat)
    requires Enabled(net, s) && !s.Connect?
    ensures Sum(Apply(net, s).nodes, f) + f(net.nodes[At(net, s)]) == Sum(net.nodes, f) + f(StepEffect(net, s).node)
  {
    SumUpdate(net.nodes, At(net, s), StepEffect(net, s).node, f);
  }

  /** How the step moves the copies under way. */
  lemma PoolStep(net: Net, s: Step, q: Guid)
    requires Enabled(net, s)
    ensures Count(Apply(net, s).pool, IsQuery(q)) + (if s.Deliver? && IsQuery(q)(net.pool[s.i]) then 1 else 0)
         == Count(net.pool, IsQuery(q)) + Count(Sent(net, s), IsQuery(q))
  {
    CountAppend(Rest(net, s), Sent(net, s), IsQuery(q));
    if s.Deliver? { CountWithout(net.pool, s.i, IsQuery(q)); }
  }

  lemma OwedFalls(net: Net, s: Step, q: Guid)
    requires Inv(net) && Enabled(net, s) && !s.Connect?
    ensures OwedAndOne(q)(StepEffect(net, s).node) + (if SpendsSlot(s, q) then |net.nodes[At(net, s)].conns| + 1 else 0)
         <= OwedAndOne(q)(net.nodes[At(net, s)])
  {
    DegreeShrinks(net, s);
    OwedStep(net, s, q, |net.nodes[At(net, s)].conns| + 1, |StepEffect(net, s).node.conns| + 1);
  }

  /** What the peer's owed broadcasts pay for. */
  lemma OwedPays(net: Net, s: Step, q: Guid)
    requires Inv(net) && Enabled(net, s) && !s.Connect?
    ensures OwedAndOne(q)(StepEffect(net, s).node) + Count(Sent(net, s), IsQuery(q)) + (if SpendsSlot(s, q) then 1 else 0)
         <= OwedAndOne(q)(net.nodes[At(net, s)])
  {
    OwedFalls(net, s, q);
    SendsFew(net, s, q);
  }

  /** A new connection adds to a sum over the peers what its two ends add. */
  lemma ConnectSum(net: Net, s: Step, f: NodeState -> nat, w: nat)
    requires Enabled(net, s) && s.Connect?
    requires f(AddConn(net.nodes[s.u], |net.links|)) <= f(net.nodes[s.u]) + w
    requires f(AddConn(net.nodes[s.v], |net.links|)) <= f(net.nodes[s.v]) + w
    ensures Sum(Apply(net, s).nodes, f) <= Sum(net.nodes, f) + 2 * w
  {
    var u', v' := AddConn(net.nodes[s.u], |net.links|), AddConn(net.nodes[s.v], |net.links|);
    SumUpdate(net.nodes, s.u, u', f);
    SumUpdate(net.nodes[s.u := u'], s.v, v', f);
  }

  lemma ConnectOwed(n: NodeState, c: Conn, q: Guid)
    ensures OwedByDegree(q)(AddConn(n, c)) <= OwedByDegree(q)(n) + 2
    ensures OwedAndOne(q)(AddConn(n, c)) <= OwedAndOne(q)(n) + 2
  {
    assert HasTimer(AddConn(n, c), q) == HasTimer(n, q);
  }

  lemma ConnectMeasure(net: Net, s: Step, q: Guid)
    requires Enabled(net, s) && s.Connect?
    ensures Measure(Apply(net, s), q) <= Measure(net, q) + 4
    ensures Sum(Apply(net, s).nodes, OwedByDegree(q)) <= Sum(net.nodes, OwedByDegree(q)) + 4
  {
    ConnectOwed(net.nodes[s.u], |net.links|, q);
    ConnectOwed(net.nodes[s.v], |net.links|, q);
    ConnectSum(net, s, OwedAndOne(q), 2);
    ConnectSum(net, s, OwedByDegree(q), 2);
    assert Sent(net, s) == [];
    PoolStep(net, s, q);
  }

  /** No step but a new connection, which adds four, adds work to a flood, and every step of q's flood
      takes some away although it may start further copies. */
  lemma StepMeasure(net: Net, s: Step, q: Guid)
    requires Inv(net) && Enabled(net, s)
    ensures Measure(Apply(net, s), q) + (if QueryStep(net, s, q) then 1 else 0)
         <= Measure(net, q) + (if s.Connect? then 4 else 0)
  {
    if s.Connect? {
      ConnectMeasure(net, s, q);
    } else {
      OwedPays(net, s, q);
      SumStep(net, s, OwedAndOne(q));
      PoolStep(net, s, q);
    }
  }

  /** Copies sent come out of what the peer still owed. */
  lemma StepCopies(net: Net, s: Step, q: Guid)
    requires Inv(net) && Enabled(net, s)
    ensures Sum(Apply(net, s).nodes, OwedByDegree(q)) + Count(Sent(net, s), IsQuery(q))
         <= Sum(net.nodes, OwedByDegree(q)) + (if s.Connect? then 4 else 0)
  {
    if s.Connect? {
      ConnectMeasure(net, s, q);
      assert Sent(net, s) == [];
    } else {
      DegreeShrinks(net, s);
      OwedStep(net, s, q, |net.nodes[At(net, s)].conns|, |StepEffect(net, s).node.conns|);
      SendsFew(net, s, q);
      SumStep(net, s, OwedByDegree(q));
    }
  }

  /** How many connections come up in the run. */
  function Connects(steps: seq<Step>): nat {
    if steps == [] then 0 else (if steps[0].Connect? then 1 else 0) + Connects(steps[1..])
  }

  /** How many steps of the run belong to q's flood. */
  ghost function QuerySteps(net: Net, steps: seq<Step>, q: Guid): nat
    requires CanRun(net, steps)
    decreases steps
  {
    if steps == [] then 0
    else (if QueryStep(net, steps[0], q) then 1 else 0) + QuerySteps(Apply(net, steps[0]), steps[1..], q)
  }

  /** How many copies of q the run puts on connections. */
  ghost function Copies(net: Net, steps: seq<Step>, q: Guid): nat
    requires CanRun(net, steps)
    decreases steps
  {
    if steps == [] then 0
    else Count(Sent(net, steps[0]), IsQuery(q)) + Copies(Apply(net, steps[0]), steps[1..], q)
  }

  /** How often peer i broadcasts q, and how often it hands q to playdar, in the run. */
  ghost function Broadcasts(net: Net, steps: seq<Step>, i: Peer, q: Guid): nat
    requires CanRun(net, steps)
    decreases steps
  {
    if steps == [] then 0
    else (if SendsQuery(net, steps[0], i, q) then 1 else 0) + Broadcasts(Apply(net, steps[0]), steps[1..], i, q)
  }

  ghost function Dispatches(net: Net, steps: seq<Step>, i: Peer, q: Guid): nat
    requires CanRun(net, steps)
    decreases steps
  {
    if steps == [] then 0
    else (if !Knows(net, i, q) && Knows(Apply(net, steps[0]), i, q) then 1 else 0)
         + Dispatches(Apply(net, steps[0]), steps[1..], i, q)
  }

  lemma {:induction false} RunMeasure(net: Net, steps: seq<Step>, q: Guid)
    requires Inv(net) && CanRun(net, steps)
    ensures QuerySteps(net, steps, q) + Measure(Run(net, steps), q) <= Measure(net, q) + 4 * Connects(steps)
    ensures Copies(net, steps, q) + Sum(Run(net, steps).nodes, OwedByDegree(q))
         <= Sum(net.nodes, OwedByDegree(q)) + 4 * Connects(steps)
    decreases steps
  {
    if steps == [] {
    } else {
      StepInv(net, steps[0]);
      StepMeasure(net, steps[0], q);
      StepCopies(net, steps[0], q);
      RunMeasure(Apply(net, steps[0]), steps[1..], q);
    }
  }

  lemma InitOwed(net: Net, q: Guid)
    requires Init(net)
    ensures Sum(net.nodes, OwedByDegree(q)) == Sum(net.nodes, TwiceDegree)
    ensures Measure(net, q) == Sum(net.nodes, TwiceDegreeAndOne)
  {
    SumSame(net.nodes, net.nodes, OwedByDegree(q), TwiceDegree);
    SumSame(net.nodes, net.nodes, OwedAndOne(q), TwiceDegreeAndOne);
  }

  /** From the start of any run, the flood of one query takes at most two steps per connection end and
      two per peer, and puts at most two copies per connection end on the wire, the ends of connections
      that come up meanwhile included. */
  lemma FloodEnds(net: Net, steps: seq<Step>, q: Guid)
    requires Init(net) && CanRun(net, steps)
    ensures QuerySteps(net, steps, q) <= Sum(net.nodes, TwiceDegreeAndOne) + 4 * Connects(steps)
    ensures Copies(net, steps, q) <= Sum(net.nodes, TwiceDegree) + 4 * Connects(steps)
  {
    InitInv(net);
    InitOwed(net, q);
    RunMeasure(net, steps, q);
  }

  lemma StepSlots(net: Net, s: Step, i: Peer, q: Guid)
    requires Inv(net) && Enabled(net, s) && i < |net.nodes|
    ensures (if SendsQuery(net, s, i, q) then 1 else 0) + Owed(Apply(net, s).nodes[i], q, 1) <= Owed(net.nodes[i], q, 1)
  {
    SendsFew(net, s, q);
    if !s.Connect? { OwedStep(net, s, q, 1, 1); }
  }

  /** On every run, even one whose graph grows, a peer hands a query to playdar at most once and
      broadcasts it at most twice. */
  lemma {:induction false} AtMostTwice(net: Net, steps: seq<Step>, i: Peer, q: Guid)
    requires Inv(net) && CanRun(net, steps) && i < |net.nodes|
    ensures Broadcasts(net, steps, i, q) <= Owed(net.nodes[i], q, 1) <= 2
    ensures Dispatches(net, steps, i, q) <= if Knows(net, i, q) then 0 else 1
    decreases steps
  {
    if steps == [] {
    } else {
      StepInv(net, steps[0]);
      StepSlots(net, steps[0], i, q);
      assert Grows(net.nodes[i], Apply(net, steps[0]).nodes[i]);
      AtMostTwice(Apply(net, steps[0]), steps[1..], i, q);
    }
  }
}
