/** The query half of class greynet, updating its tables in place; every handler is proved to do what
    NodeSpec says, which is what the network proofs are about. */
module QueryHandlers {
  import opened Wrappers
  import opened NodeSpec

  class Greynet {
    // the router
    var conns: seq<Conn>
    var outbox: seq<Send>             // everything passed to async_write, in order
    // greynet
    var seenGuids: set<Guid>
    var qidOrigins: map<Guid, Conn>
    var timers: set<Timer>
    // playdar's query table, as far as greynet uses it
    var known: set<Guid>
    var solved: set<Guid>
    var stopped: set<Guid>
    var pending: set<Guid>
    var asked: set<Guid>
    var reports: seq<Report>

    ghost function State(): NodeState
      reads this
    {
      NodeState(conns, seenGuids, qidOrigins, known, solved, stopped, pending, asked, timers, reports)
    }

    ghost predicate Valid()
      reads this
    {
      qidOrigins.Keys <= known
    }

    constructor (conns: seq<Conn>)
      ensures Valid() && State() == NewNode(conns) && outbox == []
    {
      this.conns, outbox, seenGuids, qidOrigins, timers := conns, [], {}, map[], {};
      known, solved, stopped, pending, asked, reports := {}, {}, {}, {}, {}, [];
    }

    /** The assertion that nothing is recorded yet is the precondition. */
    method SetQueryOrigin(qid: Guid, conn: Conn)
      requires qid !in qidOrigins
      modifies `qidOrigins
      ensures qidOrigins == old(qidOrigins)[qid := conn]
    {
      qidOrigins := qidOrigins[qid := conn];
    }

    method GetQueryOrigin(qid: Guid) returns (origin: Option<Conn>)
      ensures origin == QueryOrigin(State(), qid)
    {
      if qid !in qidOrigins {
        return None;
      }
      var conn := qidOrigins[qid];
      origin := if conn in conns then Some(conn) else None;
    }

    method AsyncWrite(conn: Conn, m: Msg)
      modifies `outbox
      ensures outbox == old(outbox) + [Send(conn, m)]
    {
      outbox := outbox + [Send(conn, m)];
    }

    method ForeachConnsExcept(m: Msg, except: Option<Conn>)
      modifies `outbox
      ensures outbox == old(outbox) + Broadcast(conns, except, m)
    {
      var i := 0;
      while i < |conns|
        invariant 0 <= i <= |conns|
        invariant outbox + Broadcast(conns[i..], except, m) == old(outbox) + Broadcast(conns, except, m)
      {
        assert conns[i..][1..] == conns[i + 1..];
        if Some(conns[i]) != except {
          AsyncWrite(conns[i], m);
        }
        i := i + 1;
      }
    }

    method StartResolving(qid: Guid, uuid: Guid)
      modifies `pending, `asked, `outbox
      ensures State() == NodeSpec.StartResolving(old(State()), qid, uuid).node
      ensures outbox == old(outbox) + NodeSpec.StartResolving(old(State()), qid, uuid).sends
    {
      pending, asked := pending - {qid}, asked + {qid};
      var qorigin := GetQueryOrigin(qid);
      ForeachConnsExcept(Query(uuid, qid), qorigin);
    }

    method Fin(conn: Conn)
      modifies `conns
      ensures State() == NodeSpec.Fin(old(State()), conn)
    {
      var left: seq<Conn>, i := [], 0;
      while i < |conns|
        invariant 0 <= i <= |conns|
        invariant left + LoseConn(conns[i..], conn) == LoseConn(conns, conn)
      {
        assert conns[i..][1..] == conns[i + 1..];
        if conns[i] != conn {
          left := left + [conns[i]];
        }
        i := i + 1;
      }
      conns := left;
    }

    method HandleQuery(conn: Conn, guid: Guid, qid: Guid)
      requires Valid()
      modifies `qidOrigins, `known, `pending, `timers
      ensures Valid() && State() == NodeSpec.HandleQuery(old(State()), conn, guid, qid)
    {
      if qid in known {
        return;
      }
      SetQueryOrigin(qid, conn);
      known, pending := known + {qid}, pending + {qid};
      timers := timers + {Timer(conn, guid, qid)};
    }

    method HandleQueryStop(conn: Conn, qid: Guid)
      modifies `stopped, `outbox
      ensures State() == NodeSpec.HandleQueryStop(old(State()), conn, qid).node
      ensures outbox == old(outbox) + NodeSpec.HandleQueryStop(old(State()), conn, qid).sends
    {
      if qid !in known {
        return;
      }
      var origin := GetQueryOrigin(qid);
      if origin != Some(conn) {
        return;
      }
      stopped := stopped + {qid};
      ForeachConnsExcept(QueryStop(qid), Some(conn));
    }

    method FwdSearch(t: Timer, err: bool)
      modifies `timers, `outbox
      ensures State() == NodeSpec.FwdSearch(old(State()), t, err).node
      ensures outbox == old(outbox) + NodeSpec.FwdSearch(old(State()), t, err).sends
    {
      timers := timers - {t};
      if err {
        return;
      }
      if t.qid in solved {
        return;
      }
      if t.qid in stopped {
        return;
      }
      ForeachConnsExcept(Query(t.guid, t.qid), Some(t.conn));
    }

    method SendResponse(qid: Guid, item: Item, uuid: Guid)
      modifies `outbox
      ensures outbox == old(outbox) + NodeSpec.SendResponse(State(), qid, item, uuid)
    {
      var originConn := GetQueryOrigin(qid);
      if originConn.Some? {
        var stripped := item.(url := NoUrl);
        AsyncWrite(originConn.value, QueryResult(uuid, qid, stripped));
      }
    }

    method ReportResults(qid: Guid, item: Item, uuid: Guid)
      modifies `reports, `outbox
      ensures State() == ReportResult(old(State()), qid, item, uuid).node
      ensures outbox == old(outbox) + ReportResult(old(State()), qid, item, uuid).sends
    {
      if qid !in known {
        return;
      }
      reports := reports + [Report(qid, item)];
      if qid in qidOrigins {
        SendResponse(qid, item, uuid);
      }
    }

    method HandleQueryResult(name: Peer, qid: Guid, item: Item, uuid: Guid)
      modifies `reports, `outbox
      ensures State() == ReportResult(old(State()), qid, item.(url := PeerUrl(name)), uuid).node
      ensures outbox == old(outbox) + ReportResult(old(State()), qid, item.(url := PeerUrl(name)), uuid).sends
    {
      ReportResults(qid, item.(url := PeerUrl(name)), uuid);
    }

    method MessageReceived(m: Msg, conn: Conn, name: Peer, uuid: Guid)
      requires Valid()
      modifies this
      ensures Valid() && State() == NodeSpec.MessageReceived(old(State()), conn, name, m, uuid).node
      ensures outbox == old(outbox) + NodeSpec.MessageReceived(old(State()), conn, name, m, uuid).sends
    {
      match m {
        case Stream(_) =>
          return;
        case _ =>
          if m.guid in seenGuids {
            return;
          }
          seenGuids := seenGuids + {m.guid};
      }
      match m {
        case Ping(_) => AsyncWrite(conn, Pong(uuid));
        case Query(guid, qid) => HandleQuery(conn, guid, qid);
        case BadQuery(_) => Fin(conn);
        case QueryResult(_, qid, item) => HandleQueryResult(name, qid, item, uuid);
        case BadResult(_) => Fin(conn);
        case QueryStop(qid) => HandleQueryStop(conn, qid);
        case _ =>
      }
    }
  }
}
