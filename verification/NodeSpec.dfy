/** One peer as a value: the tables greynet keeps for queries, the part of playdar's query table it
    looks at, and what each handler does to them. GUIDs and query ids share one type because
    m_seen_guids and QUERYSTOP mix them. */
module NodeSpec {
  import opened Wrappers

  type Guid = nat
  type Conn = nat
  type Peer = nat

  /** Where a result can be streamed from: nowhere (stripped), this machine, or "greynet://name;sid". */
  datatype Url = NoUrl | LocalUrl | PeerUrl(name: Peer)

  datatype Item = Item(sid: nat, url: Url)

  datatype Report = Report(qid: Guid, item: Item)

  /** BadQuery and BadResult carry a payload that is not the JSON the handler wants; Stream is
      SIDDATA, SIDFAIL or SIDHEADERS, whose guid is the sid. */
  datatype Msg =
    | Ping(guid: Guid)
    | Pong(guid: Guid)
    | Query(guid: Guid, qid: Guid)
    | BadQuery(guid: Guid)
    | QueryResult(guid: Guid, qid: Guid, item: Item)
    | BadResult(guid: Guid)
    | QueryStop(guid: Guid)
    | SidRequest(guid: Guid)
    | Stream(guid: Guid)
    | Unknown(guid: Guid)

  datatype Send = Send(conn: Conn, msg: Msg)

  /** A pending 100 ms timer: relay Query(guid, qid) to everybody but conn. */
  datatype Timer = Timer(conn: Conn, guid: Guid, qid: Guid)

  /** conns: the router's live connections. known, solved, stopped, reports: playdar's query table.
      pending: dispatched queries playdar has not yet given to start_resolving; asked: those it has. */
  datatype NodeState = NodeState(
    conns: seq<Conn>,
    seen: set<Guid>,
    origins: map<Guid, Conn>,
    known: set<Guid>,
    solved: set<Guid>,
    stopped: set<Guid>,
    pending: set<Guid>,
    asked: set<Guid>,
    timers: set<Timer>,
    reports: seq<Report>)

  datatype Effect = Effect(node: NodeState, sends: seq<Send>)

  function NewNode(conns: seq<Conn>): NodeState {
    NodeState(conns, {}, map[], {}, {}, {}, {}, {}, {}, [])
  }

  /** The origin is a weak pointer: it names a connection only while that connection lives. */
  function QueryOrigin(n: NodeState, q: Guid): Option<Conn> {
    if q in n.origins && n.origins[q] in n.conns then Some(n.origins[q]) else None
  }

  function Broadcast(conns: seq<Conn>, except: Option<Conn>, m: Msg): seq<Send> {
    if conns == [] then []
    else (if Some(conns[0]) == except then [] else [Send(conns[0], m)]) + Broadcast(conns[1..], except, m)
  }

  function LoseConn(conns: seq<Conn>, c: Conn): seq<Conn> {
    if conns == [] then []
    else (if conns[0] == c then [] else [conns[0]]) + LoseConn(conns[1..], c)
  }

  /** conn->fin(): the router forgets the connection. */
  function Fin(n: NodeState, c: Conn): NodeState {
    n.(conns := LoseConn(n.conns, c))
  }

  /** playdar's dispatch for a query typed in here. */
  function LocalQuery(n: NodeState, q: Guid): NodeState {
    n.(known := n.known + {q}, pending := n.pending + {q})
  }

  function StartResolving(n: NodeState, q: Guid, uuid: Guid): Effect {
    Effect(n.(pending := n.pending - {q}, asked := n.asked + {q}),
           Broadcast(n.conns, QueryOrigin(n, q), Query(uuid, q)))
  }

  function HandleQuery(n: NodeState, c: Conn, guid: Guid, q: Guid): NodeState {
    if q in n.known then n
    else n.(origins := n.origins[q := c], known := n.known + {q}, pending := n.pending + {q},
            timers := n.timers + {Timer(c, guid, q)})
  }

  function FwdSearch(n: NodeState, t: Timer, err: bool): Effect {
    var n' := n.(timers := n.timers - {t});
    if err || t.qid in n.solved || t.qid in n.stopped then Effect(n', [])
    else Effect(n', Broadcast(n.conns, Some(t.conn), Query(t.guid, t.qid)))
  }

  function HandleQueryStop(n: NodeState, c: Conn, q: Guid): Effect {
    if q !in n.known || QueryOrigin(n, q) != Some(c) then Effect(n, [])
    else Effect(n.(stopped := n.stopped + {q}), Broadcast(n.conns, Some(c), QueryStop(q)))
  }

  function SendResponse(n: NodeState, q: Guid, item: Item, uuid: Guid): seq<Send> {
    match QueryOrigin(n, q)
    case None => []
    case Some(c) => [Send(c, QueryResult(uuid, q, item.(url := NoUrl)))]
  }

  /** playdar's report_results: unknown queries are ignored; a query that came in through
      handle_query carries the send_response callback. */
  function ReportResult(n: NodeState, q: Guid, item: Item, uuid: Guid): Effect {
    if q !in n.known then Effect(n, [])
    else Effect(n.(reports := n.reports + [Report(q, item)]),
                if q in n.origins then SendResponse(n, q, item, uuid) else [])
  }

  function Dispatch(n: NodeState, c: Conn, name: Peer, m: Msg, uuid: Guid): Effect {
    match m
    case Ping(_) => Effect(n, [Send(c, Pong(uuid))])
    case Query(guid, q) => Effect(HandleQuery(n, c, guid, q), [])
    case BadQuery(_) => Effect(Fin(n, c), [])
    case QueryResult(_, q, item) => ReportResult(n, q, item.(url := PeerUrl(name)), uuid)
    case BadResult(_) => Effect(Fin(n, c), [])
    case QueryStop(q) => HandleQueryStop(n, c, q)
    case _ => Effect(n, [])
  }

  /** message_received: drop duplicate GUIDs, except for stream messages, then dispatch. */
  function MessageReceived(n: NodeState, c: Conn, name: Peer, m: Msg, uuid: Guid): Effect {
    if m.Stream? then Effect(n, [])
    else if m.guid in n.seen then Effect(n, [])
    else Dispatch(n.(seen := n.seen + {m.guid}), c, name, m, uuid)
  }

  lemma {:induction false} LoseConnMember(conns: seq<Conn>, c: Conn)
    ensures forall x :: x in LoseConn(conns, c) <==> x in conns && x != c
    ensures |LoseConn(conns, c)| <= |conns|
  {
    if conns == [] {
    } else {
      LoseConnMember(conns[1..], c);
    }
  }

  /** Exactly the live connections other than the excepted one get the message. */
  lemma {:induction false} BroadcastReaches(conns: seq<Conn>, except: Option<Conn>, m: Msg)
    ensures forall s :: s in Broadcast(conns, except, m) <==> s.msg == m && s.conn in conns && Some(s.conn) != except
    ensures |Broadcast(conns, except, m)| <= |conns|
  {
    if conns == [] {
    } else {
      BroadcastReaches(conns[1..], except, m);
    }
  }

  /** A stop takes hold exactly when its GUID is new here and it came over the query's live origin, and
      then, and only then, it goes on at once, to every live connection but that one. */
  lemma StopApplied(n: NodeState, c: Conn, name: Peer, q: Guid, uuid: Guid)
    requires q !in n.stopped
    ensures var e := MessageReceived(n, c, name, QueryStop(q), uuid);
            && (q in e.node.stopped <==> q !in n.seen && q in n.known && QueryOrigin(n, q) == Some(c))
            && forall d :: d in e.sends <==>
                 q in e.node.stopped && d.msg == QueryStop(q) && d.conn in n.conns && d.conn != c
  {
    BroadcastReaches(n.conns, Some(c), QueryStop(q));
  }

  /** A timer relays exactly when it fires cleanly on a query neither solved nor stopped, and then to
      every live connection but the one the query came over, under the GUID it came with. */
  lemma TimerRelays(n: NodeState, t: Timer, err: bool)
    ensures forall d :: d in FwdSearch(n, t, err).sends <==>
              !err && t.qid !in n.solved && t.qid !in n.stopped
              && d.msg == Query(t.guid, t.qid) && d.conn in n.conns && d.conn != t.conn
  {
    BroadcastReaches(n.conns, Some(t.conn), Query(t.guid, t.qid));
  }
}
