/** Dropping duplicates and stopping early never keeps a query from a peer it should reach. */
module Coverage {
  import opened Wrappers
  import opened NodeSpec
  import opened Network
  import opened FloodBounds

  /** The connections stay as they are and no timer reports an error. */
  predicate CalmStep(s: Step) {
    !s.Connect? && !s.Drop? && !(s.Fire? && s.err)
  }

  ghost predicate Calm(steps: seq<Step>) {
    forall s :: s in steps ==> CalmStep(s)
  }

  /** n has run start_resolving for q, or relays q and its timer is past without q being solved or stopped. */
  ghost predicate Relayed(n: NodeState, q: Guid) {
    q in n.asked || (q in n.origins && !HasTimer(n, q) && q !in n.solved && q !in n.stopped)
  }

  ghost predicate Underway(net: Net, v: Peer, q: Guid) {
    exists p :: p in net.pool && p.dst == v && p.msg.Query? && p.msg.qid == q
  }

  ghost predicate Reached(net: Net, v: Peer, q: Guid) {
    Knows(net, v, q) || Underway(net, v, q)
  }

  /** Whoever has relayed a query has reached all its neighbours with it. */
  ghost predicate Spread(net: Net) {
    forall u: Peer, c: Conn, q: Guid ::
      u < |net.nodes| && c in net.nodes[u].conns && Relayed(net.nodes[u], q) ==> Reached(net, Other(net.links, c, u), q)
  }

  lemma CalmEffect(net: Net, s: Step)
    requires Inv(net) && Enabled(net, s) && CalmStep(s)
    ensures StepEffect(net, s).node.conns == net.nodes[At(net, s)].conns
  {
    if s.Deliver? { assert PacketOk(net, net.pool[s.i]); }
  }

  lemma PoolKeeps(net: Net, s: Step, p: Packet)
    requires Enabled(net, s) && p in net.pool && !(s.Deliver? && net.pool[s.i] == p)
    ensures p in Apply(net, s).pool
  {
    if s.Deliver? {
      var k :| 0 <= k < |net.pool| && net.pool[k] == p;
      assert Rest(net, s)[if k < s.i then k else k - 1] == p;
    }
    assert p in Rest(net, s);
  }

  /** The dedup step: a copy that is dropped was not needed. */
  lemma DeliveredQueryKnown(n: NodeState, i: Peer, issued: seq<Purpose>, c: Conn, name: Peer, m: Msg, uuid: Guid)
    requires GuidsOk(n, i, issued) && m.Query? && m.guid < |issued| && issued[m.guid] == ForQuery(m.qid)
    ensures m.qid in MessageReceived(n, c, name, m, uuid).node.known
  {
  }

  lemma ReachedStays(net: Net, s: Step, v: Peer, q: Guid)
    requires Inv(net) && Enabled(net, s) && Reached(net, v, q) && Extends(net, Apply(net, s))
    ensures Reached(Apply(net, s), v, q)
  {
    if Knows(net, v, q) {
      assert Grows(net.nodes[v], Apply(net, s).nodes[v]);
    } else {
      var p :| p in net.pool && p.dst == v && p.msg.Query? && p.msg.qid == q;
      if s.Deliver? && net.pool[s.i] == p {
        assert PacketOk(net, p) && NodeOk(net, v);
        DeliveredQueryKnown(net.nodes[v], v, net.issued, p.conn, p.src, p.msg, |net.issued|);
      } else {
        PoolKeeps(net, s, p);
      }
    }
  }

  /** What a peer sends is on its way. */
  lemma SentArrives(net: Net, s: Step, d: Send)
    requires Enabled(net, s) && !s.Connect? && d in StepEffect(net, s).sends
    ensures PacketOf(net.links, At(net, s), d) in Apply(net, s).pool
  {
    var sends := StepEffect(net, s).sends;
    var k :| 0 <= k < |sends| && sends[k] == d;
    assert Sent(net, s)[k] == PacketOf(net.links, At(net, s), d);
  }

  /** A peer that has just taken a query in has its timer running. */
  lemma HandlerNeverRelays(n: NodeState, c: Conn, name: Peer, m: Msg, uuid: Guid, q: Guid)
    requires LocalOk(n)
    ensures Relayed(MessageReceived(n, c, name, m, uuid).node, q) ==> Relayed(n, q)
  {
    var n' := MessageReceived(n, c, name, m, uuid).node;
    assert m.Query? && q in n'.origins && q !in n.origins ==> Timer(c, m.guid, q) in n'.timers;
    assert HasTimer(n, q) ==> HasTimer(n', q) by {
      if HasTimer(n, q) {
        var t :| t in n.timers && t.qid == q;
        assert t in n'.timers;
      }
    }
  }

  /** Only start_resolving, or a timer that finds the query neither solved nor stopped, relays. */
  lemma RelayedBy(net: Net, s: Step, q: Guid)
    requires Inv(net) && Enabled(net, s) && CalmStep(s)
    ensures Relayed(StepEffect(net, s).node, q) && !Relayed(net.nodes[At(net, s)], q) ==>
              || (s.Resolve? && s.q == q)
              || (s.Fire? && s.t.qid == q && q !in net.nodes[s.n].solved && q !in net.nodes[s.n].stopped)
  {
    var n := net.nodes[At(net, s)];
    assert NodeOk(net, At(net, s));
    if s.Deliver? {
      var p := net.pool[s.i];
      HandlerNeverRelays(n, p.conn, p.src, p.msg, |net.issued|, q);
    } else if s.Fire? && s.t.qid != q && HasTimer(n, q) {
      var t :| t in n.timers && t.qid == q;
      assert t in StepEffect(net, s).node.timers;
    }
  }

  /** A peer that relays in this step reaches everybody at once; its origin knew before. */
  lemma NewlyRelayed(net: Net, s: Step, c: Conn, q: Guid)
    requires Inv(net) && Enabled(net, s) && CalmStep(s)
    requires var n := net.nodes[At(net, s)];
             c in n.conns && Relayed(StepEffect(net, s).node, q) && !Relayed(n, q)
    ensures Reached(Apply(net, s), Other(net.links, c, At(net, s)), q)
  {
    var i := At(net, s);
    var n := net.nodes[i];
    RelayedBy(net, s, q);
    assert NodeOk(net, i);
    if q in n.origins && n.origins[q] == c {
      assert Knows(net, Parent(net, i, q), q);
      StepExtends(net, s);
      ReachedStays(net, s, Other(net.links, c, i), q);
    } else {
      var m := if s.Fire? then Query(s.t.guid, q) else Query(|net.issued|, q);
      BroadcastReaches(n.conns, if s.Fire? then Some(s.t.conn) else QueryOrigin(n, q), m);
      assert Send(c, m) in StepEffect(net, s).sends;
      SentArrives(net, s, Send(c, m));
    }
  }

  lemma StepSpread(net: Net, s: Step)
    requires Inv(net) && Spread(net) && Enabled(net, s) && CalmStep(s)
    ensures Spread(Apply(net, s))
  {
    var net' := Apply(net, s);
    CalmEffect(net, s);
    StepExtends(net, s);
    forall u: Peer, c: Conn, q: Guid | u < |net'.nodes| && c in net'.nodes[u].conns && Relayed(net'.nodes[u], q)
      ensures Reached(net', Other(net'.links, c, u), q)
    {
      if Relayed(net.nodes[u], q) {
        ReachedStays(net, s, Other(net.links, c, u), q);
      } else {
        NewlyRelayed(net, s, c, q);
      }
    }
  }

  lemma {:induction false} RunSpread(net: Net, steps: seq<Step>)
    requires Inv(net) && Spread(net) && CanRun(net, steps) && Calm(steps)
    ensures Inv(Run(net, steps)) && Spread(Run(net, steps))
    decreases steps
  {
    if steps == [] {
    } else {
      assert CalmStep(steps[0]);
      StepInv(net, steps[0]);
      StepSpread(net, steps[0]);
      RunSpread(Apply(net, steps[0]), steps[1..]);
    }
  }

  /** A path of live connections; all but its last peer have relayed q. */
  ghost predicate RelayPath(net: Net, path: seq<Peer>, q: Guid) {
    && path != [] && (forall j :: 0 <= j < |path| ==> path[j] < |net.nodes|)
    && (forall j :: 0 <= j < |path| - 1 ==>
          Relayed(net.nodes[path[j]], q)
          && exists c :: c in net.nodes[path[j]].conns && Other(net.links, c, path[j]) == path[j + 1])
  }

  lemma {:induction false} FollowPath(net: Net, path: seq<Peer>, q: Guid)
    requires Spread(net) && RelayPath(net, path, q) && Knows(net, path[0], q)
    requires forall v :: !Underway(net, v, q)
    ensures Knows(net, path[|path| - 1], q)
  {
    if |path| == 1 {
    } else {
      var c :| c in net.nodes[path[0]].conns && Other(net.links, c, path[0]) == path[1];
      assert Reached(net, path[1], q);
      var rest := path[1..];
      assert forall j :: 0 <= j < |rest| ==> rest[j] == path[j + 1];
      FollowPath(net, rest, q);
    }
  }

  /** Once no copy of q is under way, every peer joined to the initiator by a path of peers that
      relayed q knows it, on any peer graph and for any interleaving. */
  lemma FloodCovers(net: Net, steps: seq<Step>, path: seq<Peer>, q: Guid)
    requires Init(net) && CanRun(net, steps) && Calm(steps)
    requires var end := Run(net, steps);
             && q < |end.issued| && end.issued[q].ForQid? && RelayPath(end, path, q)
             && path[0] == end.issued[q].owner && forall v :: !Underway(end, v, q)
    ensures Knows(Run(net, steps), path[|path| - 1], q)
  {
    InitInv(net);
    RunSpread(net, steps);
    FollowPath(Run(net, steps), path, q);
  }
}
