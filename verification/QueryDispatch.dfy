/** What each kind of message leaves behind at the peer it reaches, and what it leaves alone. */
module QueryDispatch {
  import opened Wrappers
  import opened NodeSpec

  /** The message is new: dedup lets it through to its handler. */
  predicate Passes(n: NodeState, m: Msg) {
    !m.Stream? && m.guid !in n.seen
  }

  /** A message takes a connection away only if it is that connection's, new, and a QUERY or QUERYRESULT
      whose payload cannot be read. */
  lemma ConnsLeft(n: NodeState, c: Conn, name: Peer, m: Msg, uuid: Guid, d: Conn)
    ensures d in MessageReceived(n, c, name, m, uuid).node.conns
       <==> d in n.conns && !(d == c && (m.BadQuery? || m.BadResult?) && Passes(n, m))
  {
    LoseConnMember(n.conns, c);
  }

  /** Dedup remembers every GUID but those of stream messages, and a second message under one does nothing. */
  lemma SeenOnce(n: NodeState, c: Conn, name: Peer, m: Msg, uuid: Guid, g: Guid)
    ensures var e := MessageReceived(n, c, name, m, uuid);
            && (g in e.node.seen <==> g in n.seen || (g == m.guid && !m.Stream?))
            && (!Passes(n, m) ==> e == Effect(n, []))
  {
  }

  /** PING is answered over the connection it came over; PONG, SIDREQUEST, stream messages and unknown ones
      are none of the query tables' business, and no message but QUERYSTOP, QUERYRESULT and PING makes a
      peer write at once. */
  lemma OnlyAnswers(n: NodeState, c: Conn, name: Peer, m: Msg, uuid: Guid)
    ensures var e := MessageReceived(n, c, name, m, uuid);
            && (m.Ping? && Passes(n, m) ==> e.sends == [Send(c, Pong(uuid))])
            && (!m.Ping? && !m.QueryStop? && !m.QueryResult? ==> e.sends == [])
            && (m.Ping? || m.Pong? || m.SidRequest? || m.Unknown? ==>
                  e.node == if m.guid in n.seen then n else n.(seen := n.seen + {m.guid}))
            && (m.Stream? ==> e.node == n)
            && (m.BadQuery? || m.BadResult? ==> e.node.(conns := n.conns, seen := n.seen) == n)
  {
  }

  /** A query that is new to the peer is afterwards known, owed to start_resolving, has its origin in the
      connection it came over and one timer, with its GUID; one that is known already, and every other
      query, stays as it was. */
  lemma QueryTaken(n: NodeState, c: Conn, name: Peer, guid: Guid, q: Guid, uuid: Guid)
    requires guid !in n.seen
    ensures var n' := MessageReceived(n, c, name, Query(guid, q), uuid).node;
            && n'.known == n.known + {q}
            && (q in n.known ==> n'.(seen := n.seen) == n)
            && (q !in n.known ==>
                  && q in n'.pending && Timer(c, guid, q) in n'.timers && q in n'.origins && n'.origins[q] == c
                  && n'.pending - {q} == n.pending - {q} && n'.timers - {Timer(c, guid, q)} == n.timers - {Timer(c, guid, q)}
                  && n'.origins - {q} == n.origins - {q}
                  && n'.solved == n.solved && n'.stopped == n.stopped && n'.asked == n.asked && n'.reports == n.reports)
  {
  }

  /** A result of a known query is reported once, as to be had from the neighbour it came from, and goes on,
      as to be had from nowhere, under a GUID of its own, to the query's origin and nobody else; a result
      of an unknown one does nothing. */
  lemma ResultTaken(n: NodeState, c: Conn, name: Peer, guid: Guid, q: Guid, item: Item, uuid: Guid)
    requires guid !in n.seen
    ensures var e := MessageReceived(n, c, name, QueryResult(guid, q, item), uuid);
            && e.node.(seen := n.seen, reports := n.reports) == n
            && e.node.reports == n.reports + (if q in n.known then [Report(q, Item(item.sid, PeerUrl(name)))] else [])
            && e.sends == if q in n.known && QueryOrigin(n, q).Some?
                          then [Send(n.origins[q], QueryResult(uuid, q, Item(item.sid, NoUrl)))] else []
  {
  }

  /** A result found here is reported as local and goes the same way. */
  lemma FoundHere(n: NodeState, q: Guid, sid: nat, uuid: Guid)
    ensures var e := ReportResult(n, q, Item(sid, LocalUrl), uuid);
            && e.node.(reports := n.reports) == n
            && e.node.reports == n.reports + (if q in n.known then [Report(q, Item(sid, LocalUrl))] else [])
            && e.sends == if q in n.known && QueryOrigin(n, q).Some?
                          then [Send(n.origins[q], QueryResult(uuid, q, Item(sid, NoUrl)))] else []
  {
  }

  /** start_resolving writes one copy, under the fresh GUID, to every connection but the live origin. */
  lemma ResolvingAsks(n: NodeState, q: Guid, uuid: Guid, d: Send)
    ensures var e := StartResolving(n, q, uuid);
            && (d in e.sends <==> d.msg == Query(uuid, q) && d.conn in n.conns
                                  && !(q in n.origins && n.origins[q] == d.conn))
            && q in e.node.asked && q !in e.node.pending
  {
    BroadcastReaches(n.conns, QueryOrigin(n, q), Query(uuid, q));
  }

  /** A QUERYSTOP touches nothing but the stopped flag of its query, and goes to every connection but the one
      it came over exactly if it is new and came over the query's live origin. */
  lemma StopTaken(n: NodeState, c: Conn, name: Peer, q: Guid, uuid: Guid, d: Send)
    ensures var e := MessageReceived(n, c, name, QueryStop(q), uuid);
            var holds := Passes(n, QueryStop(q)) && q in n.known && q in n.origins && n.origins[q] == c && c in n.conns;
            && e.node.(seen := n.seen, stopped := n.stopped) == n
            && e.node.stopped == n.stopped + (if holds then {q} else {})
            && (d in e.sends <==> holds && d.msg == QueryStop(q) && d.conn in n.conns && d.conn != c)
  {
    BroadcastReaches(n.conns, Some(c), QueryStop(q));
  }
}
