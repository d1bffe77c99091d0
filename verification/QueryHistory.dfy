/** The query tables of a peer tell exactly which steps it has taken. */
module QueryHistory {
  import opened NodeSpec
  import opened Network
  import opened FloodBounds

  /** playdar has called start_resolving, or never will. */
  predicate Settled(n: NodeState, q: Guid) {
    q in n.known && q !in n.pending
  }

  /** The relay timer of a query that came from elsewhere has fired. */
  ghost predicate Spent(n: NodeState, q: Guid) {
    q in n.origins && !HasTimer(n, q)
  }

  predicate Fires(s: Step, i: Peer, q: Guid) {
    s.Fire? && s.n == i && s.t.qid == q
  }

  lemma TimerFired(n: NodeState, t: Timer, err: bool, q: Guid)
    requires LocalOk(n) && t in n.timers
    ensures HasTimer(FwdSearch(n, t, err).node, q) <==> HasTimer(n, q) && t.qid != q
  {
    var n' := FwdSearch(n, t, err).node;
    if HasTimer(n', q) {
      var t' :| t' in n'.timers && t'.qid == q;
      assert t' in n.timers;
    }
    if HasTimer(n, q) && t.qid != q {
      var t' :| t' in n.timers && t'.qid == q;
      assert t' in n'.timers;
    }
  }

  lemma TimerSet(n: NodeState, c: Conn, name: Peer, m: Msg, uuid: Guid, q: Guid)
    requires LocalOk(n)
    ensures Spent(MessageReceived(n, c, name, m, uuid).node, q) <==> Spent(n, q)
  {
    var n' := MessageReceived(n, c, name, m, uuid).node;
    if HasTimer(n, q) {
      var t :| t in n.timers && t.qid == q;
      assert t in n'.timers;
    }
    if m.Query? && m.qid == q && q !in n.known && m.guid !in n.seen {
      assert Timer(c, m.guid, q) in n'.timers;
    } else if HasTimer(n', q) {
      var t :| t in n'.timers && t.qid == q;
      assert t in n.timers;
    }
  }

  lemma StepSpent(net: Net, s: Step, i: Peer, q: Guid)
    requires Inv(net) && Enabled(net, s) && i < |net.nodes|
    ensures Spent(Apply(net, s).nodes[i], q) <==> Spent(net.nodes[i], q) || Fires(s, i, q)
  {
    var n := net.nodes[i];
    assert NodeOk(net, i);
    if s.Connect? || i != At(net, s) {
      assert HasTimer(Apply(net, s).nodes[i], q) == HasTimer(n, q);
    } else if s.Fire? {
      TimerFired(n, s.t, s.err, q);
    } else if s.Deliver? {
      var p := net.pool[s.i];
      TimerSet(n, p.conn, p.src, p.msg, |net.issued|, q);
    } else {
      assert HasTimer(Apply(net, s).nodes[i], q) == HasTimer(n, q);
    }
  }

  /** No message settles a query, asks it of the neighbours or solves it. */
  lemma MessageSettles(n: NodeState, c: Conn, name: Peer, m: Msg, uuid: Guid, q: Guid)
    requires LocalOk(n)
    ensures var n' := MessageReceived(n, c, name, m, uuid).node;
            (Settled(n', q) <==> Settled(n, q)) && n'.asked == n.asked && n'.solved == n.solved
  {
  }

  lemma StepSettled(net: Net, s: Step, i: Peer, q: Guid)
    requires Inv(net) && Enabled(net, s) && i < |net.nodes|
    ensures Settled(Apply(net, s).nodes[i], q) <==> Settled(net.nodes[i], q) || s == Resolve(i, q) || s == Skip(i, q)
    ensures q in Apply(net, s).nodes[i].asked <==> q in net.nodes[i].asked || s == Resolve(i, q)
    ensures q in Apply(net, s).nodes[i].solved <==> q in net.nodes[i].solved || s == Solve(i, q)
  {
    assert NodeOk(net, i);
    if s.Connect? || i != At(net, s) {
    } else if s.Deliver? {
      var p := net.pool[s.i];
      MessageSettles(net.nodes[i], p.conn, p.src, p.msg, |net.issued|, q);
    } else if s.LocalQuery? {
      assert |net.issued| !in net.nodes[i].known;
    }
  }

  /** Which connections a peer has after a step: those it had, but for the one it loses, and the one that
      comes up. */
  lemma StepConns(net: Net, s: Step, i: Peer, c: Conn)
    requires Inv(net) && Enabled(net, s) && i < |net.nodes|
    ensures c in Apply(net, s).nodes[i].conns
       <==> (c in net.nodes[i].conns && s != Drop(i, c)) || (s.Connect? && c == |net.links| && (i == s.u || i == s.v))
  {
    if s.Drop? { LoseConnMember(net.nodes[s.n].conns, s.c); }
    if s.Deliver? { assert PacketOk(net, net.pool[s.i]); }
  }

  lemma MessageTeaches(n: NodeState, c: Conn, name: Peer, m: Msg, uuid: Guid, q: Guid)
    ensures q in MessageReceived(n, c, name, m, uuid).node.known
       <==> q in n.known || (m.Query? && m.qid == q && m.guid !in n.seen)
  {
  }

  /** A query is known after a step if it was, if it is typed in here, or if a copy under a new GUID arrives. */
  lemma StepKnown(net: Net, s: Step, i: Peer, q: Guid)
    requires Inv(net) && Enabled(net, s) && i < |net.nodes|
    ensures q in Apply(net, s).nodes[i].known
       <==> q in net.nodes[i].known || (s == Step.LocalQuery(i) && q == |net.issued|)
            || (s.Deliver? && At(net, s) == i && net.pool[s.i].msg.Query? && net.pool[s.i].msg.qid == q
                && net.pool[s.i].msg.guid !in net.nodes[i].seen)
  {
    if s.Deliver? && i == At(net, s) {
      var p := net.pool[s.i];
      MessageTeaches(net.nodes[i], p.conn, p.src, p.msg, |net.issued|, q);
    }
  }

  lemma {:induction false} RunHistory(net: Net, steps: seq<Step>, i: Peer, q: Guid)
    requires Inv(net) && CanRun(net, steps) && i < |net.nodes|
    ensures |Run(net, steps).nodes| == |net.nodes|
    ensures var n, n' := net.nodes[i], Run(net, steps).nodes[i];
            && (Settled(n', q) <==> Settled(n, q) || Resolve(i, q) in steps || Skip(i, q) in steps)
            && (q in n'.asked <==> q in n.asked || Resolve(i, q) in steps)
            && (q in n'.solved <==> q in n.solved || Solve(i, q) in steps)
            && (Spent(n', q) <==> Spent(n, q) || exists s :: s in steps && Fires(s, i, q))
    decreases steps
  {
    if steps == [] {
    } else {
      var s, rest := steps[0], steps[1..];
      StepInv(net, s);
      StepSettled(net, s, i, q);
      StepSpent(net, s, i, q);
      RunHistory(Apply(net, s), rest, i, q);
      assert steps == [s] + rest;
    }
  }

  /** On every run: a query a peer knows is still owed to start_resolving unless playdar has called it or
      dropped it; it was asked of the neighbours exactly if playdar has called it; and one that came from
      elsewhere has its timer waiting exactly if that has not fired. */
  lemma OwedOrDone(net: Net, steps: seq<Step>, i: Peer, q: Guid)
    requires Init(net) && CanRun(net, steps) && Knows(Run(net, steps), i, q) && i < |net.nodes|
    ensures var n := Run(net, steps).nodes[i];
            && (q in n.pending <==> Resolve(i, q) !in steps && Skip(i, q) !in steps)
            && (q in n.asked <==> Resolve(i, q) in steps)
            && (q in n.solved <==> Solve(i, q) in steps)
            && (q in n.origins ==> (HasTimer(n, q) <==> !exists s :: s in steps && Fires(s, i, q)))
  {
    InitInv(net);
    assert net.nodes[i] == NewNode(net.nodes[i].conns);
    RunHistory(net, steps, i, q);
  }
}
