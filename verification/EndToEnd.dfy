/** From a search result to the file: each peer on the way answers a SIDREQUEST by asking the peer its own
    stored URL names, and relays what it hears. */
module EndToEnd {
  import opened Wrappers
  import opened NodeSpec
  import opened Network
  import opened ReplyTree
  import opened Results
  import opened StreamSpec
  import opened StreamRelay
  import HubRuns
  import MessageDispatch
  import RegistrySpec
  import StreamHub

  /** pick says which of its reports of the result a peer serves a SIDREQUEST from. */
  ghost predicate Picks(net: Net, q: Guid, sid: nat, pick: Peer -> Report) {
    forall u: Peer :: PicksAt(net, q, sid, pick, u)
  }

  ghost predicate PicksAt(net: Net, q: Guid, sid: nat, pick: Peer -> Report, u: Peer) {
    HasReport(net, u, q, sid) ==> pick(u) in net.nodes[u].reports && ReportOf(q, sid)(pick(u))
  }

  /** Where a peer that uses report r has the stream from, if not from its own disk. */
  lemma NextLeads(net: Net, i: Peer, r: Report, hops: nat, pick: Peer -> Report)
    requires Leads(net, i, r, hops) && Picks(net, r.qid, r.item.sid, pick) && r.item.url.PeerUrl?
    ensures var u := r.item.url.name;
            && hops > 0 && u < |net.nodes| && pick(u) in net.nodes[u].reports
            && pick(u).qid == r.qid && pick(u).item.sid == r.item.sid && Leads(net, u, pick(u), hops - 1)
  {
    assert PicksAt(net, r.qid, r.item.sid, pick, r.item.url.name);
    assert AllLead(net, r.item.url.name, r.qid, r.item.sid, hops - 1);
  }

  /** How many connections a stream crosses when report r is used, and whose disk it comes from then. */
  function Hops(r: Report, pick: Peer -> Report, hops: nat): (k: nat)
    ensures k <= hops && (r.item.url.LocalUrl? ==> k == 0)
    decreases hops
  {
    if r.item.url.PeerUrl? && hops > 0 then 1 + Hops(pick(r.item.url.name), pick, hops - 1) else 0
  }

  function Holder(i: Peer, r: Report, pick: Peer -> Report, hops: nat): Peer
    decreases hops
  {
    if r.item.url.PeerUrl? && hops > 0 then Holder(r.item.url.name, pick(r.item.url.name), pick, hops - 1) else i
  }

  /** The calls the adaptor gets where r is used when the holder's strategy makes the given calls; hop is
      what one connection makes of the calls made at its other end. */
  function Streamed<C>(hop: C -> C, r: Report, pick: Peer -> Report, hops: nat, calls: C): C
    decreases hops
  {
    if r.item.url.PeerUrl? && hops > 0 then hop(Streamed(hop, pick(r.item.url.name), pick, hops - 1, calls)) else calls
  }

  /** What is heard over k connections. */
  function Over<C>(hop: C -> C, k: nat, calls: C): C {
    if k == 0 then calls else hop(Over(hop, k - 1, calls))
  }

  lemma {:induction false} StreamedOver<C>(hop: C -> C, r: Report, pick: Peer -> Report, hops: nat, calls: C)
    ensures Streamed(hop, r, pick, hops, calls) == Over(hop, Hops(r, pick, hops), calls)
    decreases hops
  {
    if !r.item.url.PeerUrl? || hops == 0 {
    } else {
      StreamedOver(hop, pick(r.item.url.name), pick, hops - 1, calls);
    }
  }

  /** The peer asked turns the calls made on its adaptor into wire messages, and the peer asking hears them. */
  function OneHop(calls: seq<Call>): seq<Call> {
    Heard(Wires(calls))
  }

  lemma OneMore(k: nat, calls: seq<Call>, before: seq<Call>)
    requires before == Heard(RelayHops(k, Wires(calls)))
    ensures OneHop(before) == Heard(RelayHops(k + 1, Wires(calls)))
  {
    assert RelayHops(k + 1, Wires(calls)) == Relay(RelayHops(k, Wires(calls)));
  }

  /** That is, over k connections: one wire and k - 1 relays. */
  lemma {:induction false} OverRelays(k: nat, calls: seq<Call>)
    requires k > 0
    ensures Over(OneHop, k, calls) == Heard(RelayHops(k - 1, Wires(calls)))
    decreases k
  {
    if k == 1 {
      assert Over(OneHop, 0, calls) == calls;
    } else {
      OverRelays(k - 1, calls);
      OneMore(k - 2, calls, Over(OneHop, k - 1, calls));
    }
  }

  /** h has found the item itself. */
  ghost predicate FoundAt(net: Net, h: Peer, q: Guid, sid: nat) {
    h < |net.nodes| && exists r :: r in net.nodes[h].reports && LocalReportOf(q, sid)(r)
  }

  lemma OneDown(net: Net, i: Peer, q: Guid, u: Peer, d: nat)
    requires Inv(net) && ReachesIn(net, i, q, d) && u < |net.nodes| && q in net.nodes[u].origins && Parent(net, u, q) == i
    ensures ReachesIn(net, u, q, d + 1)
  {
    assert NodeOk(net, u);
    assert Knows(net, u, q);
  }

  /** The way down the reply tree ends at a peer that found the item itself. */
  lemma {:induction false} HolderHasIt(net: Net, i: Peer, r: Report, hops: nat, pick: Peer -> Report, d: nat)
    requires Inv(net) && i < |net.nodes| && r in net.nodes[i].reports && ReachesIn(net, i, r.qid, d)
    requires Leads(net, i, r, hops) && Picks(net, r.qid, r.item.sid, pick)
    ensures ReachesIn(net, Holder(i, r, pick, hops), r.qid, d + Hops(r, pick, hops))
    ensures FoundAt(net, Holder(i, r, pick, hops), r.qid, r.item.sid)
    ensures Hops(r, pick, hops) == 0 <==> r.item.url.LocalUrl?
    decreases hops
  {
    if r.item.url.LocalUrl? {
      assert LocalReportOf(r.qid, r.item.sid)(r);
    } else {
      NextLeads(net, i, r, hops, pick);
      var u := r.item.url.name;
      OneDown(net, i, r.qid, u, d);
      HolderHasIt(net, u, pick(u), hops - 1, pick, d + 1);
    }
  }

  /** Over k connections the calls are heard as they were made if k is 0 or the stream is a whole one. */
  ghost predicate OverAt<C(!new)>(hop: C -> C, k: nat, calls: C, whole: bool) {
    Over(hop, k, calls) == calls <==> k == 0 || whole
  }

  lemma OverIff(k: nat, calls: seq<Call>, whole: bool)
    requires k > 0 ==> (ArrivesOver(k - 1, calls) <==> whole)
    ensures OverAt(OneHop, k, calls, whole)
  {
    if k > 0 { OverRelays(k, calls); }
  }

  /** i, d hops from the initiator, gets the result's file from a peer that found it itself; got is what its
      adaptor hears, calls what was called there. */
  ghost predicate Delivers<C(!new)>(net: Net, i: Peer, r: Report, pick: Peer -> Report, d: nat,
                                    hop: C -> C, calls: C, whole: bool) {
    && LeadsDown(net, i, r, d)
    && var hops := |net.nodes| - 1 - d;
       var h, k := Holder(i, r, pick, hops), Hops(r, pick, hops);
       && ReachesIn(net, h, r.qid, d + k) && d + k < |net.nodes| && FoundAt(net, h, r.qid, r.item.sid)
       && (k == 0 <==> r.item.url.LocalUrl?)
       && (Streamed(hop, r, pick, hops, calls) == calls <==> r.item.url.LocalUrl? || whole)
  }

  lemma StreamDelivers<C(!new)>(net: Net, i: Peer, r: Report, pick: Peer -> Report, d: nat,
                                hop: C -> C, calls: C, whole: bool)
    requires Inv(net) && LeadsDown(net, i, r, d) && i < |net.nodes| && r in net.nodes[i].reports
    requires Picks(net, r.qid, r.item.sid, pick)
    requires forall k: nat :: OverAt(hop, k, calls, whole)
    ensures Delivers(net, i, r, pick, d, hop, calls, whole)
  {
    var hops := |net.nodes| - 1 - d;
    HolderHasIt(net, i, r, hops, pick, d);
    StreamedOver(hop, r, pick, hops, calls);
    assert OverAt(hop, Hops(r, pick, hops), calls, whole);
  }

  lemma CallsDelivered(net: Net, steps: seq<Step>, i: Peer, r: Report, pick: Peer -> Report,
                       calls: seq<Call>, whole: bool) returns (d: nat)
    requires Init(net) && CanRun(net, steps)
    requires i < |Run(net, steps).nodes| && r in Run(net, steps).nodes[i].reports
    requires Picks(Run(net, steps), r.qid, r.item.sid, pick)
    requires forall k: nat :: ArrivesOver(k, calls) <==> whole
    ensures Delivers(Run(net, steps), i, r, pick, d, OneHop, calls, whole)
  {
    InitInv(net);
    RunInv(net, steps);
    d := UrlsLeadToHolder(net, steps, i, r);
    forall k: nat
      ensures OverAt(OneHop, k, calls, whole)
    {
      OverIff(k, calls, whole);
    }
    StreamDelivers(Run(net, steps), i, r, pick, d, OneHop, calls, whole);
  }

  /** On every run over any peer graph, from any report of a result at any peer, whichever of its reports
      each peer on the way serves it from: the stream comes, over fewer hops than there are peers, from a
      peer that found the item itself, and the asker hears exactly the calls made there, status, mime
      type, length, bytes, chunks and end, if and only if it is the asker's own or the stream is one
      that StreamArrivesIff lets through. */
  lemma FileArrivesIff(net: Net, steps: seq<Step>, i: Peer, r: Report, pick: Peer -> Report,
                       status: int, mime: string, len: int, chunks: seq<string>, end: Call) returns (d: nat)
    requires Init(net) && CanRun(net, steps)
    requires i < |Run(net, steps).nodes| && r in Run(net, steps).nodes[i].reports
    requires Picks(Run(net, steps), r.qid, r.item.sid, pick) && (end.Finish? || end.Cancel?)
    ensures Delivers(Run(net, steps), i, r, pick, d, OneHop,
                     StreamCalls(status, mime, len, chunks, end), Whole(status, mime, chunks, end))
  {
    forall k: nat
      ensures ArrivesOver(k, StreamCalls(status, mime, len, chunks, end)) <==> Whole(status, mime, chunks, end)
    {
      StreamArrivesIff(status, mime, len, chunks, end, k);
    }
    d := CallsDelivered(net, steps, i, r, pick, StreamCalls(status, mime, len, chunks, end),
                        Whole(status, mime, chunks, end));
  }

  // ---------------------------------------------------------------- each hop asks the next

  /** What get_ss finds at a peer that serves a sid from report r: its own strategy for a local URL, for
      "greynet://name;sid" the stream over the connection with that name, or nothing if there is none. */
  function FoundOf(r: Report, connTo: Peer -> Option<Conn>, ready: bool): MessageDispatch.Found {
    match r.item.url
    case NoUrl => MessageDispatch.Nothing
    case LocalUrl => MessageDispatch.Elsewhere
    case PeerUrl(u) => if connTo(u).Some? then MessageDispatch.Relayed(connTo(u).value, ready) else MessageDispatch.Nothing
  }

  /** On the way to a file no peer answers 404 while its connections are up: asked anew for the sid, the one
      that found the item hands the request to its own strategy, and every other sends one SIDREQUEST for
      the sid to the next peer on the way, and nobody else. */
  lemma RequestFollows(net: Net, i: Peer, r: Report, hops: nat, connTo: Peer -> Option<Conn>,
                       xs: seq<MessageDispatch.Input>, c: Conn, guid: string, sid: string)
    requires Leads(net, i, r, hops) && (r.item.url.PeerUrl? ==> connTo(r.item.url.name).Some?)
    requires !MessageDispatch.Taken(xs).hub.halted && !MessageDispatch.Came(xs, guid)
    ensures var x := MessageDispatch.Message(c, guid, MessageDispatch.SidRequest(sid, FoundOf(r, connTo, true)));
            var p, p' := MessageDispatch.Taken(xs), MessageDispatch.Taken(xs + [x]);
            && p'.answers == p.answers
            && p'.handed == p.handed + (if r.item.url.LocalUrl? then [RegistrySpec.Entry(c, sid)] else [])
            && p'.hub.requests == p.hub.requests
               + if r.item.url.PeerUrl? then [RegistrySpec.Entry(connTo(r.item.url.name).value, sid)] else []
  {
    var x := MessageDispatch.Message(c, guid, MessageDispatch.SidRequest(sid, FoundOf(r, connTo, true)));
    if r.item.url.LocalUrl? {
      MessageDispatch.OthersHanded(xs, x);
    } else {
      RelayAsks(xs, c, guid, sid, connTo(r.item.url.name).value);
    }
  }

  lemma RelayAsks(xs: seq<MessageDispatch.Input>, c: Conn, guid: string, sid: string, to: Conn)
    requires !MessageDispatch.Taken(xs).hub.halted && !MessageDispatch.Came(xs, guid)
    ensures var x := MessageDispatch.Message(c, guid, MessageDispatch.SidRequest(sid, MessageDispatch.Relayed(to, true)));
            var p, p' := MessageDispatch.Taken(xs), MessageDispatch.Taken(xs + [x]);
            p'.answers == p.answers && p'.handed == p.handed
            && p'.hub.requests == p.hub.requests + [RegistrySpec.Entry(to, sid)]
  {
    var x := MessageDispatch.Message(c, guid, MessageDispatch.SidRequest(sid, MessageDispatch.Relayed(to, true)));
    MessageDispatch.NothingElseAnswered(xs, x);
    MessageDispatch.RelayStarts(xs, c, guid, sid, to, true);
    MessageDispatch.Dispatched(xs);
    HubRuns.RequestsPlus(MessageDispatch.Events(xs), StreamHub.Start(to, sid, true));
  }
}
