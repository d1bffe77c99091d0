/** Recorded origins form a tree rooted at each query's initiator. */
module ReplyTree {
  import opened Collections
  import opened NodeSpec
  import opened Network

  /** Following origins for q from i, k hops lead to a peer that knows q and has no origin for it. */
  ghost predicate ReachesIn(net: Net, i: Peer, q: Guid, k: nat)
    decreases k
  {
    Knows(net, i, q) &&
    if k == 0 then q !in net.nodes[i].origins
    else q in net.nodes[i].origins && ReachesIn(net, Parent(net, i, q), q, k - 1)
  }

  /** The peers met on the way, i first. */
  ghost function Route(net: Net, i: Peer, q: Guid, k: nat): (r: seq<Peer>)
    requires ReachesIn(net, i, q, k)
    ensures |r| == k + 1 && r[0] == i
    decreases k
  {
    if k == 0 then [i] else [i] + Route(net, Parent(net, i, q), q, k - 1)
  }

  ghost predicate RootedAt(net: Net, i: Peer, q: Guid) {
    Knows(net, i, q) ==> exists k: nat :: ReachesIn(net, i, q, k)
  }

  ghost predicate Rooted(net: Net) {
    forall i: Peer, q: Guid :: RootedAt(net, i, q)
  }

  lemma {:induction false} ReachesFrame(net: Net, net': Net, i: Peer, q: Guid, k: nat)
    requires Inv(net) && Extends(net, net') && ReachesIn(net, i, q, k)
    ensures ReachesIn(net', i, q, k)
    decreases k
  {
    if k == 0 {
    } else {
      assert NodeOk(net, i);
      OtherExtends(net.links, net'.links, net.nodes[i].origins[q], i);
      ReachesFrame(net, net', Parent(net, i, q), q, k - 1);
    }
  }

  lemma StepRooted(net: Net, s: Step)
    requires Inv(net) && Rooted(net) && Enabled(net, s)
    ensures Rooted(Apply(net, s))
  {
    var net' := Apply(net, s);
    StepInv(net, s);
    forall i: Peer, q: Guid | Knows(net', i, q)
      ensures RootedAt(net', i, q)
    {
      if Knows(net, i, q) {
        assert RootedAt(net, i, q);
        var k: nat :| ReachesIn(net, i, q, k);
        ReachesFrame(net, net', i, q, k);
      } else if q !in net'.nodes[i].origins {
        assert ReachesIn(net', i, q, 0);
      } else {
        assert i == At(net, s) && NodeOk(net, i);
        StepNewOrigin(net, s, q);
        var up := net.pool[s.i].src;
        assert RootedAt(net, up, q);
        var k: nat :| ReachesIn(net, up, q, k);
        ReachesFrame(net, net', up, q, k);
        assert Parent(net', i, q) == up;
        assert ReachesIn(net', i, q, k + 1);
      }
    }
  }

  lemma InitRooted(net: Net)
    requires Init(net)
    ensures Rooted(net)
  {
    forall i: Peer, q: Guid
      ensures RootedAt(net, i, q)
    {
      if i < |net.nodes| { assert net.nodes[i] == NewNode(net.nodes[i].conns); }
    }
  }

  lemma {:induction false} RunRooted(net: Net, steps: seq<Step>)
    requires Inv(net) && Rooted(net) && CanRun(net, steps)
    ensures Inv(Run(net, steps)) && Rooted(Run(net, steps))
    decreases steps
  {
    if steps == [] {
    } else {
      StepInv(net, steps[0]);
      StepRooted(net, steps[0]);
      RunRooted(Apply(net, steps[0]), steps[1..]);
    }
  }

  lemma {:induction false} DepthUnique(net: Net, i: Peer, q: Guid, k: nat, m: nat)
    requires ReachesIn(net, i, q, k) && ReachesIn(net, i, q, m)
    ensures k == m
    decreases k
  {
    if k == 0 || m == 0 {
    } else {
      DepthUnique(net, Parent(net, i, q), q, k - 1, m - 1);
    }
  }

  lemma {:induction false} RouteDepth(net: Net, i: Peer, q: Guid, k: nat, j: nat)
    requires ReachesIn(net, i, q, k) && j <= k
    ensures ReachesIn(net, Route(net, i, q, k)[j], q, k - j)
    decreases k
  {
    if j == 0 {
    } else {
      RouteDepth(net, Parent(net, i, q), q, k - 1, j - 1);
    }
  }

  lemma {:induction false} RouteEnd(net: Net, i: Peer, q: Guid, k: nat)
    requires Inv(net) && ReachesIn(net, i, q, k)
    ensures q < |net.issued| && net.issued[q].ForQid? && Route(net, i, q, k)[k] == net.issued[q].owner
    decreases k
  {
    assert NodeOk(net, i);
    if k == 0 {
    } else {
      RouteEnd(net, Parent(net, i, q), q, k - 1);
    }
  }

  /** The way home visits nobody twice, so it is shorter than the number of peers. */
  lemma RouteSimple(net: Net, i: Peer, q: Guid, k: nat)
    requires ReachesIn(net, i, q, k)
    ensures forall j, j' :: 0 <= j < j' <= k ==> Route(net, i, q, k)[j] != Route(net, i, q, k)[j']
    ensures k < |net.nodes|
  {
    var r := Route(net, i, q, k);
    forall j, j' | 0 <= j < j' <= k
      ensures r[j] != r[j']
    {
      RouteDepth(net, i, q, k, j);
      RouteDepth(net, i, q, k, j');
      if r[j] == r[j'] { DepthUnique(net, r[j], q, k - j, k - j'); }
    }
    forall j | 0 <= j <= k
      ensures r[j] < |net.nodes|
    {
      RouteDepth(net, i, q, k, j);
    }
    Pigeonhole(r, |net.nodes|);
  }

  /** On every run over any peer graph: from any peer that knows a query, following origins leads to
      the peer that asked it, in fewer hops than there are peers and meeting nobody twice. */
  lemma RepliesReachInitiator(net: Net, steps: seq<Step>, i: Peer, q: Guid) returns (k: nat)
    requires Init(net) && CanRun(net, steps) && Knows(Run(net, steps), i, q)
    ensures var end := Run(net, steps);
            && k < |end.nodes| && ReachesIn(end, i, q, k)
            && q < |end.issued| && end.issued[q].ForQid? && Route(end, i, q, k)[k] == end.issued[q].owner
            && forall j, j' :: 0 <= j < j' <= k ==> Route(end, i, q, k)[j] != Route(end, i, q, k)[j']
  {
    InitInv(net);
    InitRooted(net);
    RunRooted(net, steps);
    var end := Run(net, steps);
    assert RootedAt(end, i, q);
    k :| ReachesIn(end, i, q, k);
    assert NodeOk(end, i);
    RouteSimple(end, i, q, k);
    RouteEnd(end, i, q, k);
  }

  /** On every run: origins are kept for known queries only, an origin once written stays, and no copy
      of a query is ever under way from a peer to the neighbour it had the query from. */
  lemma OriginsSafe(net: Net, steps: seq<Step>, more: seq<Step>, i: Peer)
    requires Init(net) && CanRun(net, steps) && CanRun(Run(net, steps), more) && i < |net.nodes|
    ensures var mid, end := Run(net, steps), Run(Run(net, steps), more);
            && |mid.nodes| == |end.nodes| == |net.nodes|
            && mid.nodes[i].origins.Keys <= mid.nodes[i].known
            && (forall q :: q in mid.nodes[i].origins ==>
                  q in end.nodes[i].origins && end.nodes[i].origins[q] == mid.nodes[i].origins[q])
            && (forall p :: p in mid.pool && p.src == i && p.msg.Query? && p.msg.qid in mid.nodes[i].origins ==>
                  p.conn != mid.nodes[i].origins[p.msg.qid])
  {
    InitInv(net);
    RunInv(net, steps);
    var mid := Run(net, steps);
    RunInv(mid, more);
    assert NodeOk(mid, i);
    assert Grows(mid.nodes[i], Run(mid, more).nodes[i]);
    forall p | p in mid.pool && p.src == i && p.msg.Query?
      ensures PacketOk(mid, p)
    {
    }
  }
}
