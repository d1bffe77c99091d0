/** The mesh: peers joined by connections, packets under way, and the steps peers take.
    A packet may be delivered in any order, so every run over FIFO connections is one of these. */
module Network {
  import opened Wrappers
  import opened Collections
  import opened NodeSpec

  datatype Link = Link(a: Peer, b: Peer)

  datatype Packet = Packet(conn: Conn, src: Peer, dst: Peer, msg: Msg)

  /** What gen_uuid handed a GUID out for. */
  datatype Purpose = ForQid(owner: Peer) | ForQuery(qid: Guid) | ForResult | Unused

  /** Connection c joins the two peers of links[c]; each end holds it among its conns while it lives.
      issued[g] says what GUID g was generated for, so the next fresh GUID is |issued|. */
  datatype Net = Net(nodes: seq<NodeState>, links: seq<Link>, pool: seq<Packet>, issued: seq<Purpose>)

  datatype Step =
    | LocalQuery(n: Peer)                       // a query is typed in at n
    | Resolve(n: Peer, q: Guid)                 // playdar calls start_resolving
    | Skip(n: Peer, q: Guid)                    // playdar never gets round to calling it
    | Fire(n: Peer, t: Timer, err: bool)        // the 100 ms timer calls fwd_search
    | Deliver(i: nat)                           // message_received for packet i
    | LocalResult(n: Peer, q: Guid, sid: nat)   // another resolver at n reports a result
    | Solve(n: Peer, q: Guid)                   // playdar marks the query solved
    | Stop(n: Peer, q: Guid)                    // the initiator gives up and broadcasts a QUERYSTOP
    | Drop(n: Peer, c: Conn)                    // n loses a connection
    | Connect(u: Peer, v: Peer)                 // a new connection comes up

  function Other(links: seq<Link>, c: Conn, n: Peer): Peer {
    if c >= |links| then n else if links[c].a == n then links[c].b else links[c].a
  }

  predicate Joins(links: seq<Link>, c: Conn, n: Peer) {
    c < |links| && (links[c].a == n || links[c].b == n)
  }

  function PacketOf(links: seq<Link>, src: Peer, s: Send): Packet {
    Packet(s.conn, src, Other(links, s.conn, src), s.msg)
  }

  function Post(links: seq<Link>, src: Peer, sends: seq<Send>): (r: seq<Packet>)
    ensures |r| == |sends|
    ensures forall p :: p in r ==> exists s :: s in sends && p == PacketOf(links, src, s)
  {
    seq(|sends|, i requires 0 <= i < |sends| => PacketOf(links, src, sends[i]))
  }

  predicate Enabled(net: Net, s: Step) {
    match s
    case LocalQuery(n) => n < |net.nodes|
    case Resolve(n, q) => n < |net.nodes| && q in net.nodes[n].pending
    case Skip(n, q) => n < |net.nodes| && q in net.nodes[n].pending
    case Fire(n, t, _) => n < |net.nodes| && t in net.nodes[n].timers
    case Deliver(i) => i < |net.pool| && net.pool[i].dst < |net.nodes|
                       && net.pool[i].conn in net.nodes[net.pool[i].dst].conns
    case LocalResult(n, _, _) => n < |net.nodes|
    case Solve(n, q) => n < |net.nodes| && q in net.nodes[n].known
    case Stop(n, q) => n < |net.nodes| && q in net.nodes[n].known && q !in net.nodes[n].origins
    case Drop(n, _) => n < |net.nodes|
    case Connect(u, v) => u < |net.nodes| && v < |net.nodes| && u != v
  }

  /** The peer that takes the step. */
  function At(net: Net, s: Step): (n: Peer)
    requires Enabled(net, s)
    ensures n < |net.nodes|
  {
    match s
    case Deliver(i) => net.pool[i].dst
    case Connect(u, _) => u
    case _ => s.n
  }

  /** What the step does at that peer. */
  function StepEffect(net: Net, s: Step): Effect
    requires Enabled(net, s) && !s.Connect?
  {
    var n := net.nodes[At(net, s)];
    var uuid := |net.issued|;
    match s
    case LocalQuery(_) => Effect(NodeSpec.LocalQuery(n, uuid), [])
    case Resolve(_, q) => StartResolving(n, q, uuid)
    case Skip(_, q) => Effect(n.(pending := n.pending - {q}), [])
    case Fire(_, t, err) => FwdSearch(n, t, err)
    case Deliver(i) => var p := net.pool[i]; MessageReceived(n, p.conn, p.src, p.msg, uuid)
    case LocalResult(_, q, sid) => ReportResult(n, q, Item(sid, LocalUrl), uuid)
    case Solve(_, q) => Effect(n.(solved := n.solved + {q}), [])
    case Stop(_, q) => Effect(n.(stopped := n.stopped + {q}), Broadcast(n.conns, None, QueryStop(q)))
    case Drop(_, c) => Effect(Fin(n, c), [])
  }

  function PurposeOf(s: Step): Purpose {
    match s
    case LocalQuery(n) => ForQid(n)
    case Resolve(_, q) => ForQuery(q)
    case Deliver(_) => ForResult
    case LocalResult(_, _, _) => ForResult
    case _ => Unused
  }

  /** The packets left under way once the step has taken its own. */
  function Rest(net: Net, s: Step): seq<Packet>
    requires Enabled(net, s)
  {
    if s.Deliver? then Without(net.pool, s.i) else net.pool
  }

  /** The packets the step sends. */
  function Sent(net: Net, s: Step): seq<Packet>
    requires Enabled(net, s)
  {
    if s.Connect? then [] else Post(net.links, At(net, s), StepEffect(net, s).sends)
  }

  function AddConn(n: NodeState, c: Conn): NodeState {
    n.(conns := n.conns + [c])
  }

  function Apply(net: Net, s: Step): Net
    requires Enabled(net, s)
  {
    var nodes := match s
      case Connect(u, v) => net.nodes[u := AddConn(net.nodes[u], |net.links|)][v := AddConn(net.nodes[v], |net.links|)]
      case _ => net.nodes[At(net, s) := StepEffect(net, s).node];
    Net(nodes, if s.Connect? then net.links + [Link(s.u, s.v)] else net.links,
        Rest(net, s) + Sent(net, s), net.issued + [PurposeOf(s)])
  }

  predicate CanRun(net: Net, steps: seq<Step>)
    decreases steps
  {
    steps == [] || (Enabled(net, steps[0]) && CanRun(Apply(net, steps[0]), steps[1..]))
  }

  function Run(net: Net, steps: seq<Step>): Net
    requires CanRun(net, steps)
    decreases steps
  {
    if steps == [] then net else Run(Apply(net, steps[0]), steps[1..])
  }

  /** Any finite peer graph, cyclic or not, nobody having asked anything yet. */
  ghost predicate Init(net: Net) {
    && (forall c :: 0 <= c < |net.links| ==>
          net.links[c].a < |net.nodes| && net.links[c].b < |net.nodes| && net.links[c].a != net.links[c].b)
    && (forall n, c :: 0 <= n < |net.nodes| && c in net.nodes[n].conns ==> Joins(net.links, c, n))
    && (forall n :: 0 <= n < |net.nodes| ==> net.nodes[n] == NewNode(net.nodes[n].conns))
    && net.pool == [] && net.issued == []
  }

  // ---------------------------------------------------------------- invariant

  /** Origins, pending queries, and timers all belong to known queries; one timer per query, waiting
      to relay to everybody but that query's origin. */
  ghost predicate LocalOk(n: NodeState) {
    && n.origins.Keys <= n.known && n.pending <= n.known && n.asked <= n.known && n.stopped <= n.known
    && n.pending !! n.asked
    && (forall t :: t in n.timers ==> t.qid in n.origins && n.origins[t.qid] == t.conn)
    && (forall t, t' :: t in n.timers && t' in n.timers && t.qid == t'.qid ==> t == t')
  }

  /** Known queries were issued; the initiator, and nobody else, has no origin for one. Seeing a
      QUERY's GUID means knowing its query. */
  ghost predicate GuidsOk(n: NodeState, i: Peer, issued: seq<Purpose>) {
    && (forall q :: q in n.known ==> q < |issued| && issued[q].ForQid? && (q in n.origins <==> issued[q].owner != i))
    && (forall g :: g in n.seen ==> g < |issued| && (issued[g].ForQuery? ==> issued[g].qid in n.known))
    && (forall t :: t in n.timers ==> t.guid < |issued| && issued[t.guid] == ForQuery(t.qid))
  }

  ghost predicate LinksOk(n: NodeState, i: Peer, links: seq<Link>) {
    && (forall c :: c in n.conns ==> Joins(links, c, i))
    && (forall q :: q in n.origins ==> Joins(links, n.origins[q], i))
  }

  /** The neighbour a query came from. */
  function Parent(net: Net, i: Peer, q: Guid): Peer
    requires i < |net.nodes| && q in net.nodes[i].origins
  {
    Other(net.links, net.nodes[i].origins[q], i)
  }

  ghost predicate Knows(net: Net, i: Peer, q: Guid) {
    i < |net.nodes| && q in net.nodes[i].known
  }

  ghost predicate ParentsOk(net: Net, i: Peer)
    requires i < |net.nodes|
  {
    forall q :: q in net.nodes[i].origins ==> Knows(net, Parent(net, i, q), q)
  }

  /** What an honest peer src may have put on connection c. */
  ghost predicate MsgOk(src: NodeState, issued: seq<Purpose>, c: Conn, m: Msg) {
    match m
    case Query(g, q) => g < |issued| && issued[g] == ForQuery(q) && q in src.known
                        && (q in src.origins ==> src.origins[q] != c)
    case QueryResult(g, q, item) => g < |issued| && issued[g].ForResult? && item.url.NoUrl?
                                    && q in src.known && q in src.origins && src.origins[q] == c
    case QueryStop(q) => q in src.known && q in src.stopped
    case _ => false
  }

  ghost predicate PacketOk(net: Net, p: Packet) {
    && p.src < |net.nodes| && p.dst < |net.nodes|
    && Joins(net.links, p.conn, p.src) && p.dst == Other(net.links, p.conn, p.src)
    && MsgOk(net.nodes[p.src], net.issued, p.conn, p.msg)
  }

  ghost predicate NodeOk(net: Net, i: Peer)
    requires i < |net.nodes|
  {
    && LocalOk(net.nodes[i]) && GuidsOk(net.nodes[i], i, net.issued)
    && LinksOk(net.nodes[i], i, net.links) && ParentsOk(net, i)
  }

  ghost predicate LinkEnds(net: Net) {
    forall c :: 0 <= c < |net.links| ==>
      net.links[c].a < |net.nodes| && net.links[c].b < |net.nodes| && net.links[c].a != net.links[c].b
  }

  /** A query id is known to the peer it was issued for. */
  ghost predicate OwnersOk(net: Net) {
    forall q :: 0 <= q < |net.issued| && net.issued[q].ForQid? ==> Knows(net, net.issued[q].owner, q)
  }

  ghost predicate Inv(net: Net) {
    && LinkEnds(net) && OwnersOk(net)
    && (forall i :: 0 <= i < |net.nodes| ==> NodeOk(net, i))
    && (forall p :: p in net.pool ==> PacketOk(net, p))
  }

  // ---------------------------------------------------------------- what only grows

  /** Nothing known is forgotten and the origin of a known query never changes. */
  ghost predicate Grows(n: NodeState, n': NodeState) {
    && n.known <= n'.known && n.seen <= n'.seen && n.stopped <= n'.stopped && n.solved <= n'.solved
    && n.asked <= n'.asked
    && (forall q :: q in n.known ==> (q in n.origins <==> q in n'.origins))
    && (forall q :: q in n.origins ==> q in n'.origins && n'.origins[q] == n.origins[q])
    && n.reports <= n'.reports
  }

  ghost predicate Extends(net: Net, net': Net) {
    && |net.nodes| == |net'.nodes| && net.links <= net'.links && net.issued <= net'.issued
    && (forall i :: 0 <= i < |net.nodes| ==> Grows(net.nodes[i], net'.nodes[i]))
  }

  lemma HandlerGrows(n: NodeState, c: Conn, name: Peer, m: Msg, uuid: Guid)
    requires LocalOk(n)
    ensures Grows(n, MessageReceived(n, c, name, m, uuid).node)
  {
  }

  lemma StepGrows(net: Net, s: Step)
    requires Inv(net) && Enabled(net, s) && !s.Connect?
    ensures Grows(net.nodes[At(net, s)], StepEffect(net, s).node)
  {
    var n := net.nodes[At(net, s)];
    assert NodeOk(net, At(net, s));
    if s.Deliver? {
      HandlerGrows(n, net.pool[s.i].conn, net.pool[s.i].src, net.pool[s.i].msg, |net.issued|);
    }
  }

  lemma StepExtends(net: Net, s: Step)
    requires Inv(net) && Enabled(net, s)
    ensures Extends(net, Apply(net, s))
  {
    if !s.Connect? { StepGrows(net, s); }
  }

  lemma OtherExtends(links: seq<Link>, links': seq<Link>, c: Conn, i: Peer)
    requires links <= links' && Joins(links, c, i)
    ensures Joins(links', c, i) && Other(links', c, i) == Other(links, c, i)
  {
    assert links'[c] == links[c];
  }

  // ---------------------------------------------------------------- the invariant is kept

  lemma HandlerLocalOk(n: NodeState, c: Conn, name: Peer, m: Msg, uuid: Guid)
    requires LocalOk(n)
    ensures LocalOk(MessageReceived(n, c, name, m, uuid).node)
  {
  }

  lemma StepLocalOk(net: Net, s: Step)
    requires Inv(net) && Enabled(net, s) && !s.Connect?
    ensures LocalOk(StepEffect(net, s).node)
  {
    var n := net.nodes[At(net, s)];
    assert NodeOk(net, At(net, s));
    if s.Deliver? {
      HandlerLocalOk(n, net.pool[s.i].conn, net.pool[s.i].src, net.pool[s.i].msg, |net.issued|);
    } else if s.LocalQuery? {
      assert |net.issued| !in n.known;
    }
  }

  lemma GuidsOkFrame(n: NodeState, i: Peer, issued: seq<Purpose>, issued': seq<Purpose>)
    requires GuidsOk(n, i, issued) && issued <= issued'
    ensures GuidsOk(n, i, issued')
  {
    assert forall g :: 0 <= g < |issued| ==> issued'[g] == issued[g];
  }

  lemma HandlerGuidsOk(n: NodeState, i: Peer, issued: seq<Purpose>, c: Conn, name: Peer, m: Msg, uuid: Guid)
    requires GuidsOk(n, i, issued) && m.guid < |issued|
    requires issued[m.guid].ForQuery? ==> m.Query? && m.qid == issued[m.guid].qid
    requires m.Query? && m.qid !in n.known ==>
               && m.qid < |issued| && issued[m.qid].ForQid? && issued[m.qid].owner != i
               && issued[m.guid] == ForQuery(m.qid)
    ensures GuidsOk(MessageReceived(n, c, name, m, uuid).node, i, issued)
  {
  }

  /** The query in a packet is one its receiver, if new to it, did not ask itself. */
  lemma DeliveredGuids(net: Net, p: Packet)
    requires Inv(net) && p in net.pool
    ensures p.dst < |net.nodes| && p.msg.guid < |net.issued|
    ensures net.issued[p.msg.guid].ForQuery? ==> p.msg.Query? && p.msg.qid == net.issued[p.msg.guid].qid
    ensures net.issued[p.msg.guid].ForResult? ==> p.msg.QueryResult?
    ensures p.msg.Query? ==> net.issued[p.msg.guid] == ForQuery(p.msg.qid)
                             && p.msg.qid < |net.issued| && net.issued[p.msg.qid].ForQid?
    ensures p.msg.Query? && p.msg.qid !in net.nodes[p.dst].known ==> net.issued[p.msg.qid].owner != p.dst
  {
    assert PacketOk(net, p) && NodeOk(net, p.src);
    if p.msg.Query? { assert Knows(net, net.issued[p.msg.qid].owner, p.msg.qid); }
  }

  lemma StepGuidsOk(net: Net, s: Step)
    requires Inv(net) && Enabled(net, s) && !s.Connect?
    ensures GuidsOk(StepEffect(net, s).node, At(net, s), net.issued + [PurposeOf(s)])
  {
    var i := At(net, s);
    var n := net.nodes[i];
    var issued' := net.issued + [PurposeOf(s)];
    assert NodeOk(net, i);
    if s.Deliver? {
      var p := net.pool[s.i];
      DeliveredGuids(net, p);
      HandlerGuidsOk(n, i, net.issued, p.conn, p.src, p.msg, |net.issued|);
      GuidsOkFrame(StepEffect(net, s).node, i, net.issued, issued');
    } else {
      GuidsOkFrame(n, i, net.issued, issued');
    }
  }

  lemma StepLinksOk(net: Net, s: Step)
    requires Inv(net) && Enabled(net, s) && !s.Connect?
    ensures LinksOk(StepEffect(net, s).node, At(net, s), net.links)
  {
    var i := At(net, s);
    assert NodeOk(net, i);
    if s.Drop? {
      LoseConnMember(net.nodes[i].conns, s.c);
    } else if s.Deliver? {
      assert PacketOk(net, net.pool[s.i]);
    }
  }

  lemma ParentsFrame(net: Net, net': Net, i: Peer)
    requires Extends(net, net') && i < |net.nodes|
    requires LinksOk(net.nodes[i], i, net.links) && ParentsOk(net, i)
    ensures forall q :: q in net.nodes[i].origins ==> Knows(net', Parent(net', i, q), q)
  {
    forall q | q in net.nodes[i].origins
      ensures Knows(net', Parent(net', i, q), q)
    {
      OtherExtends(net.links, net'.links, net.nodes[i].origins[q], i);
      assert Knows(net, Parent(net, i, q), q);
    }
  }

  /** The one new origin a step can record is the connection its query came over. */
  lemma StepNewOrigin(net: Net, s: Step, q: Guid)
    requires Inv(net) && Enabled(net, s) && !s.Connect?
    requires q in StepEffect(net, s).node.origins && q !in net.nodes[At(net, s)].origins
    ensures s.Deliver? && net.pool[s.i].msg.Query? && net.pool[s.i].msg.qid == q
    ensures q !in net.nodes[At(net, s)].known
    ensures StepEffect(net, s).node.origins[q] == net.pool[s.i].conn
    ensures Other(net.links, net.pool[s.i].conn, At(net, s)) == net.pool[s.i].src
    ensures Knows(net, net.pool[s.i].src, q)
  {
    assert NodeOk(net, At(net, s));
    if s.Deliver? { assert PacketOk(net, net.pool[s.i]); }
  }

  lemma StepParentsOk(net: Net, s: Step, i: Peer)
    requires Inv(net) && Enabled(net, s) && i < |net.nodes| && Extends(net, Apply(net, s))
    ensures ParentsOk(Apply(net, s), i)
  {
    var net' := Apply(net, s);
    assert NodeOk(net, i);
    ParentsFrame(net, net', i);
    forall q | q in net'.nodes[i].origins && q !in net.nodes[i].origins
      ensures Knows(net', Parent(net', i, q), q)
    {
      StepNewOrigin(net, s, q);
    }
  }

  lemma MsgFrame(n: NodeState, n': NodeState, issued: seq<Purpose>, issued': seq<Purpose>, c: Conn, m: Msg)
    requires MsgOk(n, issued, c, m) && Grows(n, n') && issued <= issued'
    ensures MsgOk(n', issued', c, m)
  {
    if m.guid < |issued| { assert issued'[m.guid] == issued[m.guid]; }
  }

  lemma PacketFrame(net: Net, net': Net, p: Packet)
    requires PacketOk(net, p) && Extends(net, net')
    ensures PacketOk(net', p)
  {
    OtherExtends(net.links, net'.links, p.conn, p.src);
    MsgFrame(net.nodes[p.src], net'.nodes[p.src], net.issued, net'.issued, p.conn, p.msg);
  }

  lemma StepSendsOk(net: Net, s: Step, d: Send)
    requires Inv(net) && Enabled(net, s) && !s.Connect? && d in StepEffect(net, s).sends
    ensures d.conn in net.nodes[At(net, s)].conns
    ensures MsgOk(StepEffect(net, s).node, net.issued + [PurposeOf(s)], d.conn, d.msg)
  {
    var i := At(net, s);
    var n := net.nodes[i];
    var issued' := net.issued + [PurposeOf(s)];
    assert NodeOk(net, i);
    match s
    case Resolve(_, q) =>
      BroadcastReaches(n.conns, QueryOrigin(n, q), Query(|net.issued|, q));
    case Fire(_, t, _) =>
      BroadcastReaches(n.conns, Some(t.conn), Query(t.guid, t.qid));
      assert issued'[t.guid] == net.issued[t.guid];
    case Stop(_, q) =>
      BroadcastReaches(n.conns, None, QueryStop(q));
    case Deliver(k) =>
      var p := net.pool[k];
      assert PacketOk(net, p);
      if p.msg.QueryStop? { BroadcastReaches(n.conns, Some(p.conn), p.msg); }
    case _ =>
  }

  lemma StepPacketsOk(net: Net, s: Step)
    requires Inv(net) && Enabled(net, s)
    ensures forall p :: p in Apply(net, s).pool ==> PacketOk(Apply(net, s), p)
  {
    var net' := Apply(net, s);
    StepExtends(net, s);
    forall p | p in net'.pool
      ensures PacketOk(net', p)
    {
      if p in net.pool {
        PacketFrame(net, net', p);
      } else {
        var d :| d in StepEffect(net, s).sends && p == PacketOf(net.links, At(net, s), d);
        StepSendsOk(net, s, d);
        assert NodeOk(net, At(net, s)) && Joins(net.links, d.conn, At(net, s));
      }
    }
  }

  lemma LinksFrame(n: NodeState, i: Peer, links: seq<Link>, links': seq<Link>)
    requires LinksOk(n, i, links) && links <= links'
    ensures LinksOk(n, i, links')
  {
    assert forall c :: 0 <= c < |links| ==> links'[c] == links[c];
  }

  lemma ConnectLinksOk(net: Net, s: Step, i: Peer)
    requires Inv(net) && Enabled(net, s) && s.Connect? && i < |net.nodes|
    ensures LinksOk(Apply(net, s).nodes[i], i, Apply(net, s).links)
  {
    assert NodeOk(net, i);
    LinksFrame(net.nodes[i], i, net.links, Apply(net, s).links);
  }

  lemma ConnectNodeOk(net: Net, s: Step, i: Peer)
    requires Inv(net) && Enabled(net, s) && s.Connect? && i < |net.nodes|
    ensures var net' := Apply(net, s);
            LocalOk(net'.nodes[i]) && GuidsOk(net'.nodes[i], i, net'.issued) && LinksOk(net'.nodes[i], i, net'.links)
  {
    assert NodeOk(net, i);
    GuidsOkFrame(net.nodes[i], i, net.issued, Apply(net, s).issued);
    ConnectLinksOk(net, s, i);
  }

  lemma StepNodeOk(net: Net, s: Step, i: Peer)
    requires Inv(net) && Enabled(net, s) && i < |net.nodes| && Extends(net, Apply(net, s))
    ensures NodeOk(Apply(net, s), i)
  {
    assert NodeOk(net, i);
    StepParentsOk(net, s, i);
    if s.Connect? {
      ConnectNodeOk(net, s, i);
    } else if i == At(net, s) {
      StepLocalOk(net, s);
      StepGuidsOk(net, s);
      StepLinksOk(net, s);
    } else {
      GuidsOkFrame(net.nodes[i], i, net.issued, Apply(net, s).issued);
    }
  }

  lemma StepOwnersOk(net: Net, s: Step)
    requires Inv(net) && Enabled(net, s) && Extends(net, Apply(net, s))
    ensures OwnersOk(Apply(net, s))
  {
    var net' := Apply(net, s);
    forall q | 0 <= q < |net'.issued| && net'.issued[q].ForQid?
      ensures Knows(net', net'.issued[q].owner, q)
    {
      if q < |net.issued| {
        assert net.issued[q] == net'.issued[q];
        assert Knows(net, net.issued[q].owner, q);
      }
    }
  }

  /** Every step of an honest peer, whatever the interleaving, keeps the invariant. */
  lemma StepInv(net: Net, s: Step)
    requires Inv(net) && Enabled(net, s)
    ensures Inv(Apply(net, s)) && Extends(net, Apply(net, s))
  {
    StepExtends(net, s);
    StepOwnersOk(net, s);
    forall i | 0 <= i < |net.nodes|
      ensures NodeOk(Apply(net, s), i)
    {
      StepNodeOk(net, s, i);
    }
    StepPacketsOk(net, s);
  }

  lemma InitInv(net: Net)
    requires Init(net)
    ensures Inv(net)
  {
  }

  lemma ExtendsTransitive(a: Net, b: Net, c: Net)
    requires Extends(a, b) && Extends(b, c)
    ensures Extends(a, c)
  {
    forall i | 0 <= i < |a.nodes|
      ensures Grows(a.nodes[i], c.nodes[i])
    {
      assert Grows(a.nodes[i], b.nodes[i]) && Grows(b.nodes[i], c.nodes[i]);
    }
  }

  /** Over any run the invariant holds, known queries stay known and their origins never change. */
  lemma {:induction false} RunInv(net: Net, steps: seq<Step>)
    requires Inv(net) && CanRun(net, steps)
    ensures Inv(Run(net, steps)) && Extends(net, Run(net, steps))
    decreases steps
  {
    if steps == [] {
    } else {
      StepInv(net, steps[0]);
      RunInv(Apply(net, steps[0]), steps[1..]);
      ExtendsTransitive(net, Apply(net, steps[0]), Run(net, steps));
    }
  }
}
