/** Results travel up the reply tree without loss or duplication, and the URLs they leave behind lead
    back down to whoever holds the file. */
module Results {
  import opened Wrappers
  import opened Collections
  import opened NodeSpec
  import opened Network
  import opened ReplyTree

  function ReportOf(q: Guid, sid: nat): Report -> bool {
    (r: Report) => r.qid == q && r.item.sid == sid
  }

  function LocalReportOf(q: Guid, sid: nat): Report -> bool {
    (r: Report) => r.qid == q && r.item.sid == sid && r.item.url.LocalUrl?
  }

  function ReportVia(q: Guid, sid: nat, u: Peer): Report -> bool {
    (r: Report) => r.qid == q && r.item.sid == sid && r.item.url == PeerUrl(u)
  }

  function Carries(q: Guid, sid: nat): Packet -> bool {
    (p: Packet) => p.msg.QueryResult? && p.msg.qid == q && p.msg.item.sid == sid
  }

  function CarriesFrom(q: Guid, sid: nat, u: Peer): Packet -> bool {
    (p: Packet) => p.src == u && p.msg.QueryResult? && p.msg.qid == q && p.msg.item.sid == sid
  }

  ghost predicate HasReport(net: Net, i: Peer, q: Guid, sid: nat) {
    i < |net.nodes| && exists r :: r in net.nodes[i].reports && ReportOf(q, sid)(r)
  }

  // ---------------------------------------------------------------- what one step reports and sends

  /** The results the step reports to playdar. */
  function Added(net: Net, s: Step): seq<Report>
    requires Enabled(net, s)
  {
    if s.LocalResult? && s.q in net.nodes[s.n].known then [Report(s.q, Item(s.sid, LocalUrl))]
    else if s.Deliver? && net.pool[s.i].msg.QueryResult? && net.pool[s.i].msg.guid !in net.nodes[At(net, s)].seen
            && net.pool[s.i].msg.qid in net.nodes[At(net, s)].known then
      [Report(net.pool[s.i].msg.qid, net.pool[s.i].msg.item.(url := PeerUrl(net.pool[s.i].src)))]
    else []
  }

  lemma StepReports(net: Net, s: Step)
    requires Inv(net) && Enabled(net, s) && !s.Connect?
    ensures StepEffect(net, s).node.reports == net.nodes[At(net, s)].reports + Added(net, s)
  {
    if s.Deliver? { assert PacketOk(net, net.pool[s.i]); }
  }

  /** A result reported at a peer that has the query from elsewhere goes on, URL stripped, to the
      query's origin if that is still connected; nothing else sends results. */
  lemma StepForwards(net: Net, s: Step)
    requires Inv(net) && Enabled(net, s) && !s.Connect?
    ensures var n, add := net.nodes[At(net, s)], Added(net, s);
            if add != [] && QueryOrigin(n, add[0].qid).Some? then
              StepEffect(net, s).sends == [Send(n.origins[add[0].qid],
                                           QueryResult(|net.issued|, add[0].qid, add[0].item.(url := NoUrl)))]
            else forall d :: d in StepEffect(net, s).sends ==> !d.msg.QueryResult?
  {
    var n := net.nodes[At(net, s)];
    match s
    case Resolve(_, q) => BroadcastReaches(n.conns, QueryOrigin(n, q), Query(|net.issued|, q));
    case Fire(_, t, _) => BroadcastReaches(n.conns, Some(t.conn), Query(t.guid, t.qid));
    case Stop(_, q) => BroadcastReaches(n.conns, None, QueryStop(q));
    case Deliver(k) =>
      assert PacketOk(net, net.pool[k]);
      if net.pool[k].msg.QueryStop? { BroadcastReaches(n.conns, Some(net.pool[k].conn), net.pool[k].msg); }
    case _ =>
  }

  // ---------------------------------------------------------------- next hops

  /** A report names either this machine or the neighbour it came from, to which this peer is parent
      for the query and which has the same result itself. */
  ghost predicate ReportOk(net: Net, i: Peer, r: Report)
    requires i < |net.nodes|
  {
    r.qid in net.nodes[i].known &&
    match r.item.url
    case NoUrl => false
    case LocalUrl => true
    case PeerUrl(u) => u < |net.nodes| && r.qid in net.nodes[u].origins && Parent(net, u, r.qid) == i
                       && HasReport(net, u, r.qid, r.item.sid)
  }

  ghost predicate ReportOkAt(net: Net, i: Peer, r: Report) {
    i < |net.nodes| && r in net.nodes[i].reports ==> ReportOk(net, i, r)
  }

  ghost predicate HopsOk(net: Net) {
    && (forall i: Peer, r: Report :: ReportOkAt(net, i, r))
    && (forall p :: p in net.pool && p.msg.QueryResult? ==> HasReport(net, p.src, p.msg.qid, p.msg.item.sid))
  }

  lemma HasReportFrame(net: Net, net': Net, i: Peer, q: Guid, sid: nat)
    requires Extends(net, net') && HasReport(net, i, q, sid)
    ensures HasReport(net', i, q, sid)
  {
    var r :| r in net.nodes[i].reports && ReportOf(q, sid)(r);
    assert Grows(net.nodes[i], net'.nodes[i]) && r in net'.nodes[i].reports;
  }

  lemma ReportFrame(net: Net, net': Net, i: Peer, r: Report)
    requires Inv(net) && Extends(net, net') && i < |net.nodes| && ReportOk(net, i, r)
    ensures ReportOk(net', i, r)
  {
    assert Grows(net.nodes[i], net'.nodes[i]);
    if r.item.url.PeerUrl? {
      var u := r.item.url.name;
      assert NodeOk(net, u) && Grows(net.nodes[u], net'.nodes[u]);
      OtherExtends(net.links, net'.links, net.nodes[u].origins[r.qid], u);
      HasReportFrame(net, net', u, r.qid, r.item.sid);
    }
  }

  lemma AddedOk(net: Net, s: Step, r: Report)
    requires Inv(net) && HopsOk(net) && Enabled(net, s) && r in Added(net, s)
    ensures ReportOk(net, At(net, s), r)
  {
    if s.Deliver? { assert PacketOk(net, net.pool[s.i]); }
  }

  lemma StepHopsOk(net: Net, s: Step)
    requires Inv(net) && HopsOk(net) && Enabled(net, s)
    ensures HopsOk(Apply(net, s))
  {
    var net' := Apply(net, s);
    StepInv(net, s);
    if !s.Connect? {
      StepReports(net, s);
      StepForwards(net, s);
    }
    forall i: Peer, r: Report | i < |net'.nodes| && r in net'.nodes[i].reports
      ensures ReportOkAt(net', i, r)
    {
      assert ReportOkAt(net, i, r);
      if r !in net.nodes[i].reports { AddedOk(net, s, r); }
      ReportFrame(net, net', i, r);
    }
    forall p | p in net'.pool && p.msg.QueryResult?
      ensures HasReport(net', p.src, p.msg.qid, p.msg.item.sid)
    {
      if p in net.pool {
        HasReportFrame(net, net', p.src, p.msg.qid, p.msg.item.sid);
      } else {
        var r := Added(net, s)[0];
        assert r in net'.nodes[p.src].reports && ReportOf(p.msg.qid, p.msg.item.sid)(r);
      }
    }
  }

  lemma {:induction false} RunHopsOk(net: Net, steps: seq<Step>)
    requires Inv(net) && HopsOk(net) && CanRun(net, steps)
    ensures HopsOk(Run(net, steps))
    decreases steps
  {
    if steps == [] {
    } else {
      StepInv(net, steps[0]);
      StepHopsOk(net, steps[0]);
      RunHopsOk(Apply(net, steps[0]), steps[1..]);
    }
  }

  /** Whichever of its reports of the result each peer from i on uses, following the URL ends within hops
      hops where the item is local; every hop goes to a peer whose origin for the query is the peer asking. */
  ghost predicate AllLead(net: Net, i: Peer, q: Guid, sid: nat, hops: nat)
    decreases hops
  {
    i < |net.nodes| && forall r :: r in net.nodes[i].reports && ReportOf(q, sid)(r) ==> Leads(net, i, r, hops)
  }

  ghost predicate Leads(net: Net, i: Peer, r: Report, hops: nat)
    decreases hops, 0
  {
    match r.item.url
    case NoUrl => false
    case LocalUrl => true
    case PeerUrl(u) =>
      && u < |net.nodes| && r.qid in net.nodes[u].origins && Parent(net, u, r.qid) == i
      && HasReport(net, u, r.qid, r.item.sid) && hops > 0 && AllLead(net, u, r.qid, r.item.sid, hops - 1)
  }

  lemma {:induction false} ReportsLead(net: Net, i: Peer, q: Guid, sid: nat, d: nat)
    requires Inv(net) && HopsOk(net) && ReachesIn(net, i, q, d)
    ensures d < |net.nodes| && AllLead(net, i, q, sid, |net.nodes| - 1 - d)
    decreases |net.nodes| - d
  {
    RouteSimple(net, i, q, d);
    forall r | r in net.nodes[i].reports && ReportOf(q, sid)(r)
      ensures Leads(net, i, r, |net.nodes| - 1 - d)
    {
      assert ReportOkAt(net, i, r);
      if r.item.url.PeerUrl? {
        var u := r.item.url.name;
        assert Knows(net, u, q) by { assert NodeOk(net, u); }
        assert ReachesIn(net, u, q, d + 1);
        ReportsLead(net, u, q, sid, d + 1);
      }
    }
  }

  /** i is d hops from the initiator, a peer its URL names is d + 1, and URLs lead to the file from here. */
  ghost predicate LeadsDown(net: Net, i: Peer, r: Report, d: nat) {
    && d < |net.nodes| && ReachesIn(net, i, r.qid, d) && Leads(net, i, r, |net.nodes| - 1 - d)
    && (r.item.url.PeerUrl? ==> ReachesIn(net, r.item.url.name, r.qid, d + 1))
  }

  lemma InitHops(net: Net)
    requires Init(net)
    ensures Inv(net) && HopsOk(net) && Rooted(net)
  {
    InitInv(net);
    InitRooted(net);
    forall i: Peer, r: Report
      ensures ReportOkAt(net, i, r)
    {
      if i < |net.nodes| { assert net.nodes[i] == NewNode(net.nodes[i].conns); }
    }
  }

  lemma ReportLeads(net: Net, i: Peer, r: Report) returns (d: nat)
    requires Inv(net) && HopsOk(net) && Rooted(net) && i < |net.nodes| && r in net.nodes[i].reports
    ensures LeadsDown(net, i, r, d)
  {
    assert ReportOkAt(net, i, r) && ReportOf(r.qid, r.item.sid)(r);
    assert RootedAt(net, i, r.qid);
    d :| ReachesIn(net, i, r.qid, d);
    ReportsLead(net, i, r.qid, r.item.sid, d);
    if r.item.url.PeerUrl? { assert NodeOk(net, r.item.url.name); }
  }

  /** On every run over any peer graph: whatever report of a result a peer uses, and whatever report of
      it each peer asked then uses, the URL is local or names a neighbour one step deeper in the reply
      tree that has the result too, and so following URLs always ends, in fewer hops than there are
      peers, where the file is. */
  lemma UrlsLeadToHolder(net: Net, steps: seq<Step>, i: Peer, r: Report) returns (d: nat)
    requires Init(net) && CanRun(net, steps)
    requires i < |Run(net, steps).nodes| && r in Run(net, steps).nodes[i].reports
    ensures LeadsDown(Run(net, steps), i, r, d)
  {
    InitHops(net);
    RunHopsOk(net, steps);
    RunRooted(net, steps);
    d := ReportLeads(Run(net, steps), i, r);
  }

  // ---------------------------------------------------------------- conservation

  /** Every origin recorded for q is still connected. */
  ghost predicate Alive(net: Net, q: Guid) {
    forall i :: 0 <= i < |net.nodes| && q in net.nodes[i].origins ==> net.nodes[i].origins[q] in net.nodes[i].conns
  }

  /** Results under way carry distinct GUIDs nobody has seen, so dedup cannot drop one. */
  ghost predicate ResultsFresh(net: Net) {
    && DistinctResults(net.pool)
    && (forall a, v :: 0 <= a < |net.pool| && net.pool[a].msg.QueryResult? && 0 <= v < |net.nodes| ==>
          net.pool[a].msg.guid !in net.nodes[v].seen)
  }

  lemma ConnsShrink(net: Net, s: Step)
    requires Inv(net) && Enabled(net, s) && !s.Connect?
    ensures forall c :: c in StepEffect(net, s).node.conns ==> c in net.nodes[At(net, s)].conns
  {
    if s.Drop? { LoseConnMember(net.nodes[s.n].conns, s.c); }
    if s.Deliver? { assert PacketOk(net, net.pool[s.i]); }
  }

  /** The connections of a peer after a step: old ones, or the one that has just come up. */
  lemma ConnsFrom(net: Net, s: Step, i: Peer, c: Conn)
    requires Inv(net) && Enabled(net, s) && i < |net.nodes| && c in Apply(net, s).nodes[i].conns && c < |net.links|
    ensures c in net.nodes[i].conns
  {
    if s.Connect? {
    } else if i == At(net, s) {
      ConnsShrink(net, s);
    }
  }

  /** A lost connection never comes back, so an origin alive now was alive before. */
  lemma AliveBefore(net: Net, s: Step, q: Guid)
    requires Inv(net) && Enabled(net, s) && Extends(net, Apply(net, s)) && Alive(Apply(net, s), q)
    ensures Alive(net, q)
  {
    forall i | 0 <= i < |net.nodes| && q in net.nodes[i].origins
      ensures net.nodes[i].origins[q] in net.nodes[i].conns
    {
      assert NodeOk(net, i) && Grows(net.nodes[i], Apply(net, s).nodes[i]);
      ConnsFrom(net, s, i, net.nodes[i].origins[q]);
    }
  }

  lemma {:induction false} AliveEarlier(net: Net, steps: seq<Step>, q: Guid)
    requires Inv(net) && CanRun(net, steps) && Alive(Run(net, steps), q)
    ensures Alive(net, q)
    decreases steps
  {
    if steps == [] {
    } else {
      StepInv(net, steps[0]);
      AliveEarlier(Apply(net, steps[0]), steps[1..], q);
      AliveBefore(net, steps[0], q);
    }
  }

  lemma StepSeen(net: Net, s: Step)
    requires Inv(net) && Enabled(net, s) && !s.Connect?
    ensures StepEffect(net, s).node.seen ==
            net.nodes[At(net, s)].seen + if s.Deliver? then {net.pool[s.i].msg.guid} else {}
  {
    if s.Deliver? { assert PacketOk(net, net.pool[s.i]); }
  }

  ghost predicate DistinctResults(pool: seq<Packet>) {
    forall a, b :: 0 <= a < b < |pool| && pool[a].msg.QueryResult? && pool[b].msg.QueryResult? ==>
      pool[a].msg.guid != pool[b].msg.guid
  }

  /** A message just delivered carries no GUID of a result still under way. */
  lemma RestFresh(net: Net, s: Step, p: Packet)
    requires Inv(net) && DistinctResults(net.pool) && Enabled(net, s)
    requires p in Rest(net, s) && p.msg.QueryResult?
    ensures p in net.pool && p.msg.guid < |net.issued|
    ensures s.Deliver? ==> p.msg.guid != net.pool[s.i].msg.guid
  {
    assert PacketOk(net, p);
    if s.Deliver? {
      var k :| 0 <= k < |Rest(net, s)| && Rest(net, s)[k] == p;
      RestAt(net, s, k);
      DeliveredGuids(net, net.pool[s.i]);
    }
  }

  lemma RestAt(net: Net, s: Step, k: nat)
    requires Enabled(net, s) && s.Deliver? && k < |Rest(net, s)|
    ensures Rest(net, s)[k] == net.pool[if k >= s.i then k + 1 else k]
  {
  }

  lemma RestDistinct(net: Net, s: Step)
    requires DistinctResults(net.pool) && Enabled(net, s)
    ensures DistinctResults(Rest(net, s))
  {
    assert forall k :: 0 <= k < |Rest(net, s)| ==>
        Rest(net, s)[k] == net.pool[if s.Deliver? && k >= s.i then k + 1 else k];
  }

  /** At most one result is sent, under the GUID generated in this step. */
  lemma SentFresh(net: Net, s: Step)
    requires Inv(net) && Enabled(net, s)
    ensures forall p :: p in Sent(net, s) && p.msg.QueryResult? ==> |Sent(net, s)| == 1 && p.msg.guid == |net.issued|
  {
    if !s.Connect? { StepForwards(net, s); }
  }

  lemma StaysUnseen(net: Net, s: Step, g: Guid, v: Peer)
    requires Inv(net) && Enabled(net, s) && v < |net.nodes|
    requires g == |net.issued| || (g !in net.nodes[v].seen && (s.Deliver? ==> g != net.pool[s.i].msg.guid))
    ensures g !in Apply(net, s).nodes[v].seen
  {
    assert NodeOk(net, v) && |net.issued| !in net.nodes[v].seen;
    if !s.Connect? {
      StepSeen(net, s);
      if s.Deliver? { DeliveredGuids(net, net.pool[s.i]); }
    }
  }

  lemma StepResultsFresh(net: Net, s: Step)
    requires Inv(net) && ResultsFresh(net) && Enabled(net, s)
    ensures ResultsFresh(Apply(net, s))
  {
    var net' := Apply(net, s);
    var rest, sent := Rest(net, s), Sent(net, s);
    RestDistinct(net, s);
    SentFresh(net, s);
    forall p | p in rest && p.msg.QueryResult?
      ensures p in net.pool && p.msg.guid < |net.issued|
      ensures s.Deliver? ==> p.msg.guid != net.pool[s.i].msg.guid
    {
      RestFresh(net, s, p);
    }
    assert DistinctResults(rest + sent);
    forall a, v | 0 <= a < |net'.pool| && net'.pool[a].msg.QueryResult? && 0 <= v < |net.nodes|
      ensures net'.pool[a].msg.guid !in net'.nodes[v].seen
    {
      assert net'.pool[a] in rest || net'.pool[a] in sent;
      StaysUnseen(net, s, net'.pool[a].msg.guid, v);
    }
  }

  /** What a peer knows from its parent's point of view: reports here, packets to the parent, and
      reports there that came from here. */
  ghost predicate HopBalance(net: Net, u: Peer, q: Guid, sid: nat)
    requires u < |net.nodes| && q in net.nodes[u].origins && Parent(net, u, q) < |net.nodes|
  {
    Count(net.nodes[u].reports, ReportOf(q, sid))
      == Count(net.pool, CarriesFrom(q, sid, u)) + Count(net.nodes[Parent(net, u, q)].reports, ReportVia(q, sid, u))
  }

  ghost predicate Balanced(net: Net, q: Guid, sid: nat) {
    forall u :: 0 <= u < |net.nodes| && q in net.nodes[u].origins ==>
      Parent(net, u, q) < |net.nodes| && HopBalance(net, u, q, sid)
  }

  /** How the step moves the number of packets p counts. */
  lemma PoolCount(net: Net, s: Step, p: Packet -> bool)
    requires Enabled(net, s)
    ensures Count(Apply(net, s).pool, p) + (if s.Deliver? && p(net.pool[s.i]) then 1 else 0)
         == Count(net.pool, p) + Count(Sent(net, s), p)
  {
    CountAppend(Rest(net, s), Sent(net, s), p);
    if s.Deliver? { CountWithout(net.pool, s.i, p); }
  }

  /** How it moves the number of reports at peer i that p counts. */
  lemma ReportCount(net: Net, s: Step, i: Peer, p: Report -> bool)
    requires Inv(net) && Enabled(net, s) && i < |net.nodes|
    ensures Count(Apply(net, s).nodes[i].reports, p)
         == Count(net.nodes[i].reports, p) + if !s.Connect? && i == At(net, s) then Count(Added(net, s), p) else 0
  {
    if !s.Connect? {
      StepReports(net, s);
      CountAppend(net.nodes[At(net, s)].reports, Added(net, s), p);
    }
  }

  /** The results the step sends are the ones it reports and has somebody to pass on to. */
  lemma SentCount(net: Net, s: Step, u: Peer, q: Guid, sid: nat)
    requires Inv(net) && Alive(net, q) && Enabled(net, s)
    ensures Count(Sent(net, s), CarriesFrom(q, sid, u))
         == if !s.Connect? && u == At(net, s) && q in net.nodes[u].origins
            then Count(Added(net, s), ReportOf(q, sid)) else 0
    ensures Count(Sent(net, s), Carries(q, sid))
         == if !s.Connect? && q in net.nodes[At(net, s)].origins then Count(Added(net, s), ReportOf(q, sid)) else 0
  {
    if s.Connect? {
      assert Sent(net, s) == [];
    } else {
      var n, add := net.nodes[At(net, s)], Added(net, s);
      StepForwards(net, s);
      if add != [] && QueryOrigin(n, add[0].qid).Some? {
        assert Sent(net, s)[1..] == [] && add[1..] == [];
      } else {
        CountNone(Sent(net, s), CarriesFrom(q, sid, u));
        CountNone(Sent(net, s), Carries(q, sid));
        assert add == [] || (add[1..] == [] && (add[0].qid != q || q !in n.origins));
      }
    }
  }

  /** Delivering a result takes one packet off the way and reports it once, as coming from its sender. */
  lemma DeliveredOnce(net: Net, s: Step)
    requires Inv(net) && ResultsFresh(net) && Enabled(net, s) && s.Deliver? && net.pool[s.i].msg.QueryResult?
    ensures var p := net.pool[s.i];
            && Added(net, s) == [Report(p.msg.qid, p.msg.item.(url := PeerUrl(p.src)))]
            && p.src < |net.nodes| && p.msg.qid in net.nodes[p.src].origins
            && At(net, s) == Parent(net, p.src, p.msg.qid)
            && At(net, s) != p.src
  {
    var p := net.pool[s.i];
    assert PacketOk(net, p) && NodeOk(net, p.src);
    assert Knows(net, Parent(net, p.src, p.msg.qid), p.msg.qid);
  }

  /** A peer that does not know a query has no report of it, nor has anybody from it. */
  lemma NothingYet(net: Net, u: Peer, q: Guid, sid: nat, v: Peer)
    requires Inv(net) && HopsOk(net) && u < |net.nodes| && v < |net.nodes| && q !in net.nodes[u].known
    ensures Count(net.nodes[u].reports, ReportOf(q, sid)) == 0
    ensures Count(net.pool, CarriesFrom(q, sid, u)) == 0
    ensures Count(net.nodes[v].reports, ReportVia(q, sid, u)) == 0
  {
    forall r | r in net.nodes[u].reports
      ensures !ReportOf(q, sid)(r)
    {
      assert ReportOkAt(net, u, r);
    }
    forall p | p in net.pool
      ensures !CarriesFrom(q, sid, u)(p)
    {
      assert PacketOk(net, p);
    }
    forall r | r in net.nodes[v].reports
      ensures !ReportVia(q, sid, u)(r)
    {
      assert ReportOkAt(net, v, r) && NodeOk(net, u);
    }
    CountNone(net.nodes[u].reports, ReportOf(q, sid));
    CountNone(net.pool, CarriesFrom(q, sid, u));
    CountNone(net.nodes[v].reports, ReportVia(q, sid, u));
  }

  ghost predicate Sound(net: Net) {
    Inv(net) && HopsOk(net) && ResultsFresh(net)
  }

  /** A packet from u delivered is a report that came from u, made at u's parent. */
  lemma ViaCount(net: Net, s: Step, u: Peer, q: Guid, sid: nat)
    requires Sound(net) && Enabled(net, s) && u < |net.nodes| && q in net.nodes[u].origins
    ensures (if s.Deliver? && CarriesFrom(q, sid, u)(net.pool[s.i]) then 1 else 0)
         == if !s.Connect? && At(net, s) == Parent(net, u, q) then Count(Added(net, s), ReportVia(q, sid, u)) else 0
  {
    var add := Added(net, s);
    if s.Deliver? && net.pool[s.i].msg.QueryResult? {
      DeliveredOnce(net, s);
      assert add[1..] == [];
    } else {
      CountNone(add, ReportVia(q, sid, u));
    }
  }

  /** What is reported is either a packet delivered or a local find. */
  lemma KindCount(net: Net, s: Step, q: Guid, sid: nat)
    requires Sound(net) && Enabled(net, s)
    ensures Count(Added(net, s), ReportOf(q, sid))
         == (if s.Deliver? && Carries(q, sid)(net.pool[s.i]) then 1 else 0)
            + Count(Added(net, s), LocalReportOf(q, sid))
    ensures q !in net.nodes[At(net, s)].known ==> Count(Added(net, s), ReportOf(q, sid)) == 0
  {
    var add := Added(net, s);
    if s.Deliver? && net.pool[s.i].msg.QueryResult? { DeliveredOnce(net, s); }
    if add != [] { assert add[1..] == []; }
  }

  lemma StepHopBalance(net: Net, s: Step, u: Peer, q: Guid, sid: nat)
    requires Sound(net) && Alive(net, q) && Balanced(net, q, sid) && Enabled(net, s) && Extends(net, Apply(net, s))
    requires u < |net.nodes| && q in net.nodes[u].origins
    ensures q in Apply(net, s).nodes[u].origins && Parent(Apply(net, s), u, q) < |net.nodes|
    ensures HopBalance(Apply(net, s), u, q, sid)
  {
    assert NodeOk(net, u) && Grows(net.nodes[u], Apply(net, s).nodes[u]);
    OtherExtends(net.links, Apply(net, s).links, net.nodes[u].origins[q], u);
    var v := Parent(net, u, q);
    assert v < |net.nodes| && HopBalance(net, u, q, sid);
    PoolCount(net, s, CarriesFrom(q, sid, u));
    SentCount(net, s, u, q, sid);
    ReportCount(net, s, u, ReportOf(q, sid));
    ReportCount(net, s, v, ReportVia(q, sid, u));
    ViaCount(net, s, u, q, sid);
  }

  lemma StepBalanced(net: Net, s: Step, q: Guid, sid: nat)
    requires Sound(net) && Alive(net, q) && Balanced(net, q, sid) && Enabled(net, s)
    ensures Sound(Apply(net, s)) && Balanced(Apply(net, s), q, sid)
  {
    var net' := Apply(net, s);
    StepInv(net, s);
    StepHopsOk(net, s);
    StepResultsFresh(net, s);
    forall u | 0 <= u < |net'.nodes| && q in net'.nodes[u].origins
      ensures Parent(net', u, q) < |net'.nodes| && HopBalance(net', u, q, sid)
    {
      if q in net.nodes[u].origins {
        StepHopBalance(net, s, u, q, sid);
      } else {
        assert u == At(net, s);
        StepNewOrigin(net, s, q);
        var v := net.pool[s.i].src;
        NothingYet(net, u, q, sid, v);
        SentCount(net, s, u, q, sid);
        PoolCount(net, s, CarriesFrom(q, sid, u));
        ReportCount(net, s, u, ReportOf(q, sid));
        ReportCount(net, s, v, ReportVia(q, sid, u));
      }
    }
  }

  function LocalCount(q: Guid, sid: nat): NodeState -> nat {
    (n: NodeState) => Count(n.reports, LocalReportOf(q, sid))
  }

  /** o holds, or has on its way, as many reports of the result as all peers together found locally. */
  ghost predicate Conserved(net: Net, o: Peer, q: Guid, sid: nat) {
    o < |net.nodes| &&
    Count(net.nodes[o].reports, ReportOf(q, sid)) + Count(net.pool, Carries(q, sid))
      == Sum(net.nodes, LocalCount(q, sid))
  }

  /** o is the initiator of q, if q has been asked yet. */
  ghost predicate OwnedBy(net: Net, q: Guid, o: Peer) {
    q < |net.issued| && net.issued[q].ForQid? ==> net.issued[q].owner == o
  }

  /** How the step moves the number of local finds. */
  lemma LocalSum(net: Net, s: Step, q: Guid, sid: nat)
    requires Inv(net) && Enabled(net, s)
    ensures Sum(Apply(net, s).nodes, LocalCount(q, sid))
         == Sum(net.nodes, LocalCount(q, sid)) + Count(Added(net, s), LocalReportOf(q, sid))
  {
    var net' := Apply(net, s);
    if s.Connect? {
      SumSame(net.nodes, net'.nodes, LocalCount(q, sid), LocalCount(q, sid));
      assert Added(net, s) == [];
    } else {
      var i := At(net, s);
      ReportCount(net, s, i, LocalReportOf(q, sid));
      SumUpdate(net.nodes, i, net'.nodes[i], LocalCount(q, sid));
    }
  }

  lemma SameNodes(net: Net, s: Step)
    requires Enabled(net, s)
    ensures |Apply(net, s).nodes| == |net.nodes|
  {
  }

  lemma StepConserved(net: Net, s: Step, o: Peer, q: Guid, sid: nat)
    requires Sound(net) && Alive(net, q) && Enabled(net, s)
    requires Conserved(net, o, q, sid) && OwnedBy(net, q, o)
    ensures Conserved(Apply(net, s), o, q, sid)
  {
    SameNodes(net, s);
    PoolCount(net, s, Carries(q, sid));
    SentCount(net, s, o, q, sid);
    ReportCount(net, s, o, ReportOf(q, sid));
    KindCount(net, s, q, sid);
    LocalSum(net, s, q, sid);
    assert NodeOk(net, At(net, s));
    if s.Connect? { assert Added(net, s) == []; }
  }

  lemma StepKeepsAll(net: Net, s: Step, o: Peer, q: Guid, sid: nat)
    requires Sound(net) && Alive(net, q) && Balanced(net, q, sid) && Enabled(net, s)
    requires Conserved(net, o, q, sid) && OwnedBy(net, q, o)
    ensures Sound(Apply(net, s)) && Balanced(Apply(net, s), q, sid)
    ensures Conserved(Apply(net, s), o, q, sid)
  {
    StepBalanced(net, s, q, sid);
    StepConserved(net, s, o, q, sid);
  }

  lemma OwnedEarlier(net: Net, steps: seq<Step>, o: Peer, q: Guid)
    requires Inv(net) && CanRun(net, steps) && OwnedBy(Run(net, steps), q, o)
    ensures OwnedBy(net, q, o)
  {
    RunInv(net, steps);
    if q < |net.issued| { assert Run(net, steps).issued[q] == net.issued[q]; }
  }

  lemma {:induction false} RunConserved(net: Net, steps: seq<Step>, o: Peer, q: Guid, sid: nat)
    requires Sound(net) && Balanced(net, q, sid) && Conserved(net, o, q, sid)
    requires CanRun(net, steps) && Alive(Run(net, steps), q) && OwnedBy(Run(net, steps), q, o)
    ensures Sound(Run(net, steps)) && Balanced(Run(net, steps), q, sid)
    ensures Conserved(Run(net, steps), o, q, sid)
    decreases steps
  {
    if steps == [] {
    } else {
      AliveEarlier(net, steps, q);
      OwnedEarlier(net, steps, o, q);
      StepKeepsAll(net, steps[0], o, q, sid);
      RunConserved(Apply(net, steps[0]), steps[1..], o, q, sid);
    }
  }

  lemma {:induction false} NobodyHas(nodes: seq<NodeState>, q: Guid, sid: nat)
    requires forall i :: 0 <= i < |nodes| ==> nodes[i].reports == []
    ensures Sum(nodes, LocalCount(q, sid)) == 0
  {
    if nodes == [] {
    } else {
      NobodyHas(nodes[1..], q, sid);
    }
  }

  lemma InitSound(net: Net, o: Peer, q: Guid, sid: nat)
    requires Init(net) && o < |net.nodes|
    ensures Sound(net) && Balanced(net, q, sid) && Conserved(net, o, q, sid)
  {
    InitHops(net);
    NobodyHas(net.nodes, q, sid);
    assert net.nodes[o].reports == [];
  }

  /** While the connections the query came over last, on any run, whatever others are lost: each result
      reported at a peer that has the query from elsewhere is, counted exactly once, on its way to that
      peer's origin or reported there; and the initiator holds or has on its way exactly the results
      found locally anywhere. */
  lemma ResultsConserved(net: Net, steps: seq<Step>, q: Guid, sid: nat)
    requires Init(net) && CanRun(net, steps) && Alive(Run(net, steps), q)
    requires var end := Run(net, steps); q < |end.issued| && end.issued[q].ForQid?
    ensures var end := Run(net, steps);
            && Balanced(end, q, sid)
            && Conserved(end, end.issued[q].owner, q, sid)
  {
    InitInv(net);
    RunInv(net, steps);
    var o := Run(net, steps).issued[q].owner;
    assert Knows(Run(net, steps), o, q);
    InitSound(net, o, q, sid);
    RunConserved(net, steps, o, q, sid);
  }

  /** Once no copy of the result is on its way, the initiator has every local find of it exactly once. */
  lemma InitiatorHasAll(net: Net, steps: seq<Step>, q: Guid, sid: nat)
    requires Init(net) && CanRun(net, steps) && Alive(Run(net, steps), q)
    requires var end := Run(net, steps);
             q < |end.issued| && end.issued[q].ForQid? && Count(end.pool, Carries(q, sid)) == 0
    ensures var end := Run(net, steps);
            && end.issued[q].owner < |end.nodes|
            && Count(end.nodes[end.issued[q].owner].reports, ReportOf(q, sid)) == Sum(end.nodes, LocalCount(q, sid))
  {
    ResultsConserved(net, steps, q, sid);
  }

  // ---------------------------------------------------------------- nothing twice

  /** o holds, or has on its way, no more reports of the result than all peers together found locally. */
  ghost predicate NoneTwice(net: Net, o: Peer, q: Guid, sid: nat) {
    o < |net.nodes| &&
    Count(net.nodes[o].reports, ReportOf(q, sid)) + Count(net.pool, Carries(q, sid))
      <= Sum(net.nodes, LocalCount(q, sid))
  }

  /** Whatever is reported was delivered or found locally. */
  lemma KindAtMost(net: Net, s: Step, q: Guid, sid: nat)
    requires Inv(net) && Enabled(net, s)
    ensures Count(Added(net, s), ReportOf(q, sid))
         <= (if s.Deliver? && Carries(q, sid)(net.pool[s.i]) then 1 else 0)
            + Count(Added(net, s), LocalReportOf(q, sid))
    ensures q !in net.nodes[At(net, s)].known ==> Count(Added(net, s), ReportOf(q, sid)) == 0
  {
    var add := Added(net, s);
    if add != [] { assert add[1..] == []; }
  }

  /** Whatever is sent was reported by a peer that is not the initiator. */
  lemma SentAtMost(net: Net, s: Step, q: Guid, sid: nat)
    requires Inv(net) && Enabled(net, s)
    ensures Count(Sent(net, s), Carries(q, sid))
         <= if !s.Connect? && q in net.nodes[At(net, s)].origins then Count(Added(net, s), ReportOf(q, sid)) else 0
  {
    if s.Connect? {
      assert Sent(net, s) == [];
    } else {
      var n, add := net.nodes[At(net, s)], Added(net, s);
      StepForwards(net, s);
      if add != [] && QueryOrigin(n, add[0].qid).Some? {
        assert Sent(net, s)[1..] == [] && add[1..] == [];
      } else {
        CountNone(Sent(net, s), Carries(q, sid));
      }
    }
  }

  lemma StepNoneTwice(net: Net, s: Step, o: Peer, q: Guid, sid: nat)
    requires Inv(net) && Enabled(net, s) && NoneTwice(net, o, q, sid) && OwnedBy(net, q, o)
    ensures NoneTwice(Apply(net, s), o, q, sid)
  {
    SameNodes(net, s);
    PoolCount(net, s, Carries(q, sid));
    SentAtMost(net, s, q, sid);
    ReportCount(net, s, o, ReportOf(q, sid));
    KindAtMost(net, s, q, sid);
    LocalSum(net, s, q, sid);
    assert NodeOk(net, At(net, s));
  }

  lemma {:induction false} RunNoneTwice(net: Net, steps: seq<Step>, o: Peer, q: Guid, sid: nat)
    requires Inv(net) && NoneTwice(net, o, q, sid) && CanRun(net, steps) && OwnedBy(Run(net, steps), q, o)
    ensures NoneTwice(Run(net, steps), o, q, sid)
    decreases steps
  {
    if steps == [] {
    } else {
      OwnedEarlier(net, steps, o, q);
      StepInv(net, steps[0]);
      StepNoneTwice(net, steps[0], o, q, sid);
      RunNoneTwice(Apply(net, steps[0]), steps[1..], o, q, sid);
    }
  }

  /** On every run, whatever connections are lost, no result is ever duplicated on its way: the initiator
      holds or has coming at most what was found locally anywhere. */
  lemma NothingDuplicated(net: Net, steps: seq<Step>, q: Guid, sid: nat)
    requires Init(net) && CanRun(net, steps)
    requires var end := Run(net, steps); q < |end.issued| && end.issued[q].ForQid?
    ensures NoneTwice(Run(net, steps), Run(net, steps).issued[q].owner, q, sid)
  {
    InitInv(net);
    RunInv(net, steps);
    var o := Run(net, steps).issued[q].owner;
    assert Knows(Run(net, steps), o, q);
    InitSound(net, o, q, sid);
    RunNoneTwice(net, steps, o, q, sid);
  }
}
