/** The stream half of class greynet, class ss_greynet and class greynet_asyncadaptor, updating their
    fields in place; every method is proved to do what StreamHub says, which is what the proofs about
    all runs are about. Where the unregister loop as written would not end, hung says so. */
module Transfers {
  import opened Collections
  import opened StreamSpec
  import opened RegistrySpec
  import opened StreamHub
  import opened MessageDispatch
  import Text

  /** An adaptor that sends what it is told over a connection. */
  class GreynetAsyncAdaptor {
    var sentFirst: bool
    var status: int
    var mimeType: string
    var contentLength: int
    var wire: seq<Wire>     // everything written to the connection for this sid

    ghost function State(): Sender
      reads this
    {
      Sender(sentFirst, status, mimeType, contentLength)
    }

    constructor ()
      ensures State() == NEW_SENDER && wire == []
    {
      sentFirst, status, mimeType, contentLength, wire := false, 200, "application/binary", 0, [];
    }

    method SetStatusCode(code: int)
      modifies `status
      ensures State() == Emit(old(State()), SetStatus(code)).sender
    {
      status := code;
    }

    method SetMimeType(mime: string)
      modifies `mimeType
      ensures State() == Emit(old(State()), SetMime(mime)).sender
    {
      mimeType := mime;
    }

    method SetContentLength(len: int)
      modifies `contentLength
      ensures State() == Emit(old(State()), SetLength(len)).sender
    {
      contentLength := len;
    }

    method SendHeaders()
      modifies `wire
      ensures wire == old(wire) + [Headers(HeaderBlock(State()))]
    {
      var block := Line("status", Text.Decimal(status)) + "\n"
                   + (Line("mime-type", mimeType) + "\n"
                      + (Line("content-length", Text.Decimal(contentLength)) + "\n"));
      wire := wire + [Headers(block)];
    }

    method WriteContent(bytes: string)
      modifies `sentFirst, `wire
      ensures State() == StreamSpec.WriteContent(old(State()), bytes).sender
      ensures wire == old(wire) + StreamSpec.WriteContent(old(State()), bytes).wires
    {
      if !sentFirst {
        SendHeaders();
        sentFirst := true;
      }
      wire := wire + [Data(bytes)];
    }

    method WriteFinish()
      modifies `sentFirst, `wire
      ensures State() == Emit(old(State()), Finish).sender
      ensures wire == old(wire) + Emit(old(State()), Finish).wires
    {
      WriteContent("");
    }

    method WriteCancel()
      modifies `wire
      ensures wire == old(wire) + Emit(State(), Cancel).wires
    {
      wire := wire + [Fail];
    }
  }

  lemma MapKept<K, V>(m: map<K, V>, k: K, v: V)
    requires k in m && m[k] == v
    ensures m[k := v] == m
  {
  }

  lemma NothingMade(log: seq<Made>, id: nat)
    ensures log + Tag(id, []) == log
  {
  }

  lemma OneMade(id: nat, c: Call)
    ensures Tag(id, [c]) == [Made(id, c)]
  {
  }

  /** What cancel_handler does to a live registered transfer. */
  lemma SettleLost(h: Hub, sid: Sid)
    requires sid in h.live && h.live[sid].recv.live
    ensures Reacts(h, sid, Lost)
         == Unregistered(h.(log := h.log + Tag(h.live[sid].id, [Cancel])), h.live[sid].conn, sid)
  {
    var t := h.live[sid];
    assert t.(recv := t.recv.(live := false).(live := true)) == t;
    MapKept(h.live, sid, t);
  }

  /** Reacting goes on where it stood. */
  lemma SettleOn(h: Hub, sid: Sid, x: Reaction, y: Reaction)
    requires sid in h.live && x.recv.live
    ensures Settle(Settle(h, sid, x), sid, y) == Settle(h, sid, Reaction(y.recv, x.calls + y.calls))
  {
    var id := h.live[sid].id;
    assert Tag(id, x.calls) + Tag(id, y.calls) == Tag(id, x.calls + y.calls);
    Assoc(h.log, Tag(id, x.calls), Tag(id, y.calls));
    var t := h.live[sid].(recv := x.recv.(live := true));
    var t' := t.(recv := y.recv.(live := true));
    assert h.live[sid := t][sid := t'] == h.live[sid := t'];
  }

  /** One transfer, from one start_reply on. */
  class SsGreynet {
    const greynet: Greynet
    const id: nat
    const conn: Conn
    const sid: Sid
    var bytesTransferred: nat
    var contentLength: nat
    var finished: bool
    var timerArmed: bool

    ghost function Recv(): Receiver
      reads this
    {
      Receiver(true, timerArmed, bytesTransferred, contentLength, finished)
    }

    constructor (greynet: Greynet, id: nat, conn: Conn, sid: Sid)
      ensures this.greynet == greynet && this.id == id && this.conn == conn && this.sid == sid
    {
      this.greynet, this.id, this.conn, this.sid := greynet, id, conn, sid;
      bytesTransferred, contentLength, finished, timerArmed := 0, 0, false, false;
    }

    ghost predicate Registered()
      reads this, greynet
    {
      sid in greynet.sid2ss && greynet.sid2ss[sid] == this
    }

    method Reset()
      modifies `finished, `contentLength, `bytesTransferred
      ensures !finished && contentLength == 0 && bytesTransferred == 0
    {
      finished, contentLength, bytesTransferred := false, 0, 0;
    }

    /** A call on the adaptor m_aa. */
    method Make(c: Call)
      modifies greynet`made
      ensures greynet.made == old(greynet.made) + [Made(id, c)]
      ensures greynet.State() == old(greynet.State()).(log := greynet.made)
    {
      greynet.made := greynet.made + [Made(id, c)];
    }

    /** Register, ask for the stream, and start the headers timer. */
    method RequestStream()
      requires greynet.Wired() && !greynet.hung && forall s :: s in greynet.sid2ss ==> greynet.sid2ss[s] != this
      requires !finished && contentLength == 0 && bytesTransferred == 0
      modifies this, greynet`sid2ss, greynet`conn2sid, greynet`made, greynet`hung, greynet`requests
      ensures greynet.Wired()
      ensures greynet.State() == Started(old(greynet.State()), id, conn, sid, true)
    {
      greynet.StartSidRequest(conn, sid, this);
      timerArmed := true;
      assert greynet.Live() == old(greynet.Live())[sid := Transfer(id, conn, STARTED)];
    }

    method StartReply(ready: bool)
      requires greynet.Wired() && !greynet.hung && forall s :: s in greynet.sid2ss ==> greynet.sid2ss[s] != this
      modifies this, greynet`sid2ss, greynet`conn2sid, greynet`made, greynet`hung, greynet`requests
      ensures greynet.Wired()
      ensures greynet.State() == Started(old(greynet.State()), id, conn, sid, ready)
    {
      Reset();
      assert greynet.State() == old(greynet.State());
      if !ready {
        CancelHandler();
        return;
      }
      RequestStream();
    }

    method TimeoutCb(err: bool)
      requires greynet.Wired() && !greynet.hung && Registered() && (!err ==> timerArmed)
      modifies greynet`sid2ss, greynet`conn2sid, greynet`made, greynet`hung
      ensures greynet.Wired()
      ensures greynet.State() == if err then old(greynet.State()) else Expired(old(greynet.State()), id, sid)
    {
      if err {
        return;
      }
      OneMade(id, Cancel);
      CancelHandler();
    }

    method CancelHandler()
      requires greynet.Wired() && !greynet.hung
      modifies greynet`made, greynet`sid2ss, greynet`conn2sid, greynet`hung
      ensures greynet.Wired() && greynet.sid2ss.Keys <= old(greynet.sid2ss).Keys
      ensures forall s :: s in greynet.sid2ss ==> greynet.sid2ss[s] == old(greynet.sid2ss)[s]
      ensures greynet.State() ==
                Unregistered(old(greynet.State()).(log := old(greynet.made) + [Made(id, Cancel)]), conn, sid)
    {
      Make(Cancel);
      greynet.UnregisterSidTransfer(conn, sid);
    }

    /** What reaction x has done so far to this transfer, and to nothing else. */
    twostate lemma OnlyThis(x: Reaction)
      requires old(greynet.Wired()) && old(Registered()) && greynet.sid2ss == old(greynet.sid2ss)
      requires forall s :: s in greynet.sid2ss && s != sid ==> unchanged(greynet.sid2ss[s])
      requires Recv() == x.recv.(live := true) && greynet.made == old(greynet.made) + Tag(id, x.calls)
      requires unchanged(greynet`conn2sid) && unchanged(greynet`requests) && unchanged(greynet`hung)
      ensures greynet.State() == Noted(old(greynet.State()), sid, x)
    {
      var live := old(greynet.Live())[sid := old(greynet.Live())[sid].(recv := Recv())];
      forall s | s in greynet.sid2ss
        ensures greynet.Live()[s] == live[s]
      {
        if s != sid { assert greynet.sid2ss[s].Recv() == old(greynet.sid2ss[s].Recv()); }
      }
      assert greynet.Live() == live;
    }

    method SidDataHandler(payload: string)
      requires greynet.Wired() && !greynet.hung && Registered()
      modifies this, greynet`sid2ss, greynet`conn2sid, greynet`made, greynet`hung
      ensures greynet.Wired()
      ensures greynet.State() == Reacts(old(greynet.State()), sid, Arrive(Data(payload)))
    {
      if payload == "" {
        finished := true;
        Make(Finish);
        OneMade(id, Finish);
        OnlyThis(React(old(Recv()), Arrive(Data(payload))));
        greynet.UnregisterSidTransfer(conn, sid);
      } else {
        bytesTransferred := bytesTransferred + |payload|;
        Make(Content(payload));
        OneMade(id, Content(payload));
        OnlyThis(React(old(Recv()), Arrive(Data(payload))));
      }
    }

    /** A status line; false if it cancelled the transfer. */
    method StatusHandler(code: int, ghost x: Reaction) returns (more: bool)
      requires greynet.Wired() && !greynet.hung && Registered()
      requires x == if code != 200 then Reaction(Recv().(live := false), [SetStatus(code), Cancel])
                    else Reaction(Recv(), [SetStatus(code)])
      modifies greynet`sid2ss, greynet`conn2sid, greynet`made, greynet`hung
      ensures greynet.Wired() && greynet.State() == Settle(old(greynet.State()), sid, x)
      ensures more == x.recv.live && (more ==> Registered() && !greynet.hung)
    {
      Make(SetStatus(code));
      more := code == 200;
      if more {
        OneMade(id, SetStatus(code));
        OnlyThis(x);
      } else {
        OneMade(id, SetStatus(code));
        OnlyThis(Reaction(Recv(), [SetStatus(code)]));
        assert Tag(id, [SetStatus(code), Cancel]) == [Made(id, SetStatus(code))] + [Made(id, Cancel)];
        CancelHandler();
      }
    }

    /** One header line; false if it cancelled the transfer. */
    method HeaderLineHandler(line: string) returns (more: bool)
      requires greynet.Wired() && !greynet.hung && Registered()
      modifies this, greynet`sid2ss, greynet`conn2sid, greynet`made, greynet`hung
      ensures greynet.Wired()
      ensures greynet.State() == Settle(old(greynet.State()), sid, HeaderLine(old(Recv()), line))
      ensures Recv() == HeaderLine(old(Recv()), line).recv.(live := true)
      ensures more == HeaderLine(old(Recv()), line).recv.live
      ensures more ==> Registered() && !greynet.hung
    {
      more := true;
      ghost var x := HeaderLine(Recv(), line);
      var parts := Text.Split(line, '\t');
      if |parts| == 2 && parts[0] == "status" {
        var code := Text.Atoi(parts[1]);
        more := StatusHandler(code, x);
        return;
      }
      if |parts| == 2 && parts[0] == "mime-type" {
        Make(SetMime(parts[1]));
        OneMade(id, SetMime(parts[1]));
      } else if |parts| == 2 && parts[0] == "content-length" {
        var len := Text.Atoi(parts[1]);
        Make(SetLength(len));
        OneMade(id, SetLength(len));
        contentLength := AsSizeT(len);
      } else {
        NothingMade(greynet.made, id);
      }
      OnlyThis(x);
    }

    /** The loop over header lines stands before line i, having come as far as at. */
    ghost predicate AtLine(start: Hub, x: Reaction, lines: seq<string>, i: nat, at: Reaction)
      reads this, greynet, set s | s in greynet.sid2ss :: greynet.sid2ss[s]
    {
      && sid in start.live && greynet.State() == Settle(start, sid, at) && Scanning(x, at.recv, lines, i, at.calls)
      && Recv() == at.recv.(live := true) && (at.recv.live ==> Registered() && !greynet.hung)
    }

    method NextLine(lines: seq<string>, i: nat, ghost start: Hub, ghost x: Reaction, ghost at: Reaction)
        returns (more: bool, ghost at': Reaction)
      requires greynet.Wired() && AtLine(start, x, lines, i, at) && at.recv.live && i < |lines|
      modifies this, greynet`sid2ss, greynet`conn2sid, greynet`made, greynet`hung
      ensures greynet.Wired() && AtLine(start, x, lines, i + 1, at') && more == at'.recv.live
    {
      ghost var now := HeaderLine(at.recv, lines[i]);
      ScanningTurn(x, at.recv, lines, i, at.calls);
      SettleOn(start, sid, at, now);
      more := HeaderLineHandler(lines[i]);
      at' := Reaction(now.recv, at.calls + now.calls);
    }

    method SidHeadersHandler(block: string)
      requires greynet.Wired() && !greynet.hung && Registered()
      modifies this, greynet`sid2ss, greynet`conn2sid, greynet`made, greynet`hung
      ensures greynet.Wired()
      ensures greynet.State() == Reacts(old(greynet.State()), sid, Arrive(Headers(block)))
    {
      timerArmed := false;
      ghost var start, at := old(greynet.State()), Reaction(Recv(), []);
      NothingMade(greynet.made, id);
      OnlyThis(at);
      var lines := Text.Split(block, '\n');
      ghost var x := ScanLines(Recv(), lines);
      assert lines[0..] == lines && [] + x.calls == x.calls;
      var more, i := true, 0;
      while more && i < |lines|
        invariant greynet.Wired() && i <= |lines| && AtLine(start, x, lines, i, at) && more == at.recv.live
      {
        more, at := NextLine(lines, i, start, x, at);
        i := i + 1;
      }
      assert at.calls + [] == at.calls;
    }
  }

  class Greynet {
    var sid2ss: map<Sid, SsGreynet>
    var conn2sid: seq<Entry>
    var seenGuids: set<Guid>
    var requests: seq<Entry>      // SIDREQUESTs sent
    var answers: seq<(Entry, Wire)>   // what handle_sidrequest writes itself
    var handed: seq<Entry>        // what it has handed to strategies that are not another peer's stream
    var made: seq<Made>           // every call made on an adaptor
    var hung: bool                // the thread will not come back

    ghost function Live(): map<Sid, Transfer>
      reads this, set s | s in sid2ss :: sid2ss[s]
    {
      map s | s in sid2ss :: Transfer(sid2ss[s].id, sid2ss[s].conn, sid2ss[s].Recv())
    }

    ghost function State(): Hub
      reads this, set s | s in sid2ss :: sid2ss[s]
    {
      Hub(Live(), conn2sid, requests, made, hung)
    }

    ghost function PeerState(): Peer
      reads this, set s | s in sid2ss :: sid2ss[s]
    {
      Peer(seenGuids, answers, handed, State())
    }

    ghost predicate Wired()
      reads this
    {
      forall s :: s in sid2ss ==> sid2ss[s].sid == s && sid2ss[s].greynet == this
    }

    constructor ()
      ensures Wired() && PeerState() == QUIET
    {
      sid2ss, conn2sid, seenGuids, requests, answers, handed := map[], [], {}, [], [], [];
      made, hung := [], false;
    }

    method RegisterSidTransfer(conn: Conn, sid: Sid, ss: SsGreynet)
      requires Wired() && ss.conn == conn && ss.sid == sid && ss.greynet == this
      modifies `sid2ss, `conn2sid
      ensures Wired() && sid2ss == old(sid2ss)[sid := ss]
      ensures State() == old(State()).(live := old(Live())[sid := Transfer(ss.id, conn, ss.Recv())],
                                       index := Insert(old(conn2sid), Entry(conn, sid)))
    {
      sid2ss := sid2ss[sid := ss];
      conn2sid := Insert(conn2sid, Entry(conn, sid));
    }

    /** When the loop would come round to the same entry for ever, hung. */
    method UnregisterSidTransfer(conn: Conn, sid: Sid)
      requires Wired() && !hung
      modifies `sid2ss, `conn2sid, `hung
      ensures Wired() && sid2ss == if hung then old(sid2ss) else old(sid2ss) - {sid}
      ensures State() == Unregistered(old(State()), conn, sid)
    {
      var looking := true;
      while looking
        invariant sid2ss == old(sid2ss) && !hung
        invariant looking ==> conn2sid == old(conn2sid)
        invariant !looking ==> Unstuck(old(conn2sid), conn, sid) && conn2sid == LoopTurn(old(conn2sid), conn, sid).index
        decreases looking
      {
        var it := First(conn2sid, conn);
        if it == |conn2sid| {
          looking := false;
        } else if conn2sid[it].sid == sid {
          conn2sid := Without(conn2sid, it);
          looking := false;
        } else {
          hung := true;
          return;
        }
      }
      sid2ss := sid2ss - {sid};
    }

    method StartSidRequest(conn: Conn, sid: Sid, ss: SsGreynet)
      requires Wired() && ss.conn == conn && ss.sid == sid && ss.greynet == this
      modifies `sid2ss, `conn2sid, `requests
      ensures Wired() && sid2ss == old(sid2ss)[sid := ss]
      ensures State() == old(State()).(live := old(Live())[sid := Transfer(ss.id, conn, ss.Recv())],
                                       index := Insert(old(conn2sid), Entry(conn, sid)),
                                       requests := old(requests) + [Entry(conn, sid)])
    {
      RegisterSidTransfer(conn, sid, ss);
      requests := requests + [Entry(conn, sid)];
    }

    /** ss is the stream playdar's get_ss has found, if it is another peer's. */
    ghost predicate Fits(found: Found, sid: Sid, id: nat, ss: SsGreynet?)
      reads this
    {
      && (ss != null <==> found.Relayed?)
      && (ss != null ==> ss.greynet == this && ss.conn == found.conn && ss.sid == sid && ss.id == id
                         && forall s :: s in sid2ss ==> sid2ss[s] != ss)
    }

    method HandleSidRequest(conn: Conn, sid: Sid, found: Found, ss: SsGreynet?, ghost id: nat)
      requires Wired() && !hung && Fits(found, sid, id, ss)
      modifies this, if ss != null then {ss} else {}
      ensures Wired() && PeerState() == MessageDispatch.HandleSidRequest(old(PeerState()), id, conn, sid, found)
    {
      match found {
        case Nothing => answers := answers + [(Entry(conn, sid), Headers("status\t404\n"))];
        case Elsewhere => handed := handed + [Entry(conn, sid)];
        case Relayed(_, ready) => ss.StartReply(ready);
      }
    }

    method HandleSidData(sid: Sid, payload: string)
      requires Wired() && !hung
      modifies `sid2ss, `conn2sid, `made, `hung, set s | s in sid2ss :: sid2ss[s]
      ensures Wired() && State() == Reacts(old(State()), sid, Arrive(Data(payload)))
    {
      if sid !in sid2ss {
        return;
      }
      sid2ss[sid].SidDataHandler(payload);
    }

    method HandleSidHeaders(sid: Sid, block: string)
      requires Wired() && !hung
      modifies `sid2ss, `conn2sid, `made, `hung, set s | s in sid2ss :: sid2ss[s]
      ensures Wired() && State() == Reacts(old(State()), sid, Arrive(Headers(block)))
    {
      if sid !in sid2ss {
        return;
      }
      sid2ss[sid].SidHeadersHandler(block);
    }

    method HandleSidFail(sid: Sid)
      requires Wired() && !hung
      modifies `sid2ss, `conn2sid, `made, `hung, set s | s in sid2ss :: sid2ss[s]
      ensures Wired() && State() == Reacts(old(State()), sid, Arrive(Fail))
    {
      if sid !in sid2ss {
        return;
      }
      OneMade(sid2ss[sid].id, Cancel);
      sid2ss[sid].CancelHandler();
    }

    method HandleStream(sid: Sid, w: Wire)
      requires Wired() && !hung
      modifies `sid2ss, `conn2sid, `made, `hung, set s | s in sid2ss :: sid2ss[s]
      ensures Wired() && State() == Reacts(old(State()), sid, Arrive(w))
    {
      match w {
        case Data(bytes) => HandleSidData(sid, bytes);
        case Headers(block) => HandleSidHeaders(sid, block);
        case Fail => HandleSidFail(sid);
      }
    }

    /** Messages other than stream messages: each GUID counts once. */
    method HandleOnce(conn: Conn, guid: Guid, payload: Payload, ss: SsGreynet?, ghost id: nat)
      requires Wired() && !hung && !payload.Stream? && (payload.SidRequest? ==> Fits(payload.found, payload.sid, id, ss))
      modifies this, if ss != null then {ss} else {}
      ensures Wired() && PeerState() == MessageDispatch.MessageReceived(old(PeerState()), id, conn, guid, payload)
    {
      if guid in seenGuids {
        return;
      }
      seenGuids := seenGuids + {guid};
      assert PeerState() == old(PeerState()).(seen := seenGuids);
      if payload.SidRequest? {
        HandleSidRequest(conn, payload.sid, payload.found, ss, id);
      }
    }

    /** message_received, as far as transfers go. */
    method MessageReceived(conn: Conn, guid: Guid, payload: Payload, ss: SsGreynet?, ghost id: nat)
      requires Wired() && !hung && (payload.SidRequest? ==> Fits(payload.found, payload.sid, id, ss))
      modifies this, (set s | s in sid2ss :: sid2ss[s]) + if ss != null then {ss} else {}
      ensures Wired() && PeerState() == MessageDispatch.MessageReceived(old(PeerState()), id, conn, guid, payload)
    {
      if payload.Stream? {
        HandleStream(guid, payload.wire);
      } else {
        HandleOnce(conn, guid, payload, ss, id);
      }
    }

    /** connection_terminated's turn for one sid. */
    method CancelNext(sids: seq<Sid>, i: nat)
      requires Wired() && !hung && i < |sids|
      modifies `sid2ss, `conn2sid, `made, `hung
      ensures Wired() && Cancelled(State(), sids[i + 1..]) == Cancelled(old(State()), sids[i..])
      ensures sid2ss.Keys <= old(sid2ss).Keys && forall s :: s in sid2ss ==> sid2ss[s] == old(sid2ss)[s]
    {
      ghost var was := State();
      TailFrom(sids, i);
      if sids[i] !in sid2ss {
        hung := true;
        return;
      }
      OneMade(sid2ss[sids[i]].id, Cancel);
      SettleLost(was, sids[i]);
      sid2ss[sids[i]].CancelHandler();
    }

    /** Cancel the transfers gathered, one after the other; each unregisters itself meanwhile. */
    method CancelAll(sids: seq<Sid>)
      requires Wired() && !hung
      modifies `sid2ss, `conn2sid, `made, `hung, set s | s in sid2ss :: sid2ss[s]
      ensures Wired() && State() == Cancelled(old(State()), sids)
    {
      ghost var was := State();
      var i := 0;
      assert sids[0..] == sids;
      while i < |sids| && !hung
        invariant Wired() && i <= |sids|
        invariant Cancelled(State(), sids[i..]) == Cancelled(was, sids)
      {
        CancelNext(sids, i);
        i := i + 1;
      }
    }

    /** Everything from the connection's first entry to the end of the table. */
    method GatherSids(conn: Conn) returns (sids: seq<Sid>)
      ensures sids == Gathered(conn2sid, conn)
    {
      sids := [];
      var it := First(conn2sid, conn);
      while it != |conn2sid|
        invariant First(conn2sid, conn) <= it <= |conn2sid|
        invariant sids + SidsOf(conn2sid[it..]) == Gathered(conn2sid, conn)
      {
        ToEnd(conn2sid, it);
        ToEnd(conn2sid, it + 1);
        SidsOfHead(conn2sid, it, |conn2sid|);
        sids := sids + [conn2sid[it].sid];
        it := it + 1;
      }
    }

    /** The connection's own entries. */
    method GatherSidsInRange(conn: Conn) returns (sids: seq<Sid>)
      requires Sorted(conn2sid)
      ensures sids == GatheredInRange(conn2sid, conn)
    {
      sids := [];
      var it := First(conn2sid, conn);
      if it == |conn2sid| {
        return;
      }
      ghost var lo, hi := it, RegistrySpec.After(conn2sid, conn);
      ghost var all := GatheredInRange(conn2sid, conn);
      InRangeStart(conn2sid, conn);
      while it < |conn2sid| && conn2sid[it].conn == conn
        invariant lo <= it <= hi
        invariant sids + SidsOf(conn2sid[it..hi]) == all
      {
        BucketIs(conn2sid, conn, it);
        SidsOfHead(conn2sid, it, hi);
        Assoc(sids, [conn2sid[it].sid], SidsOf(conn2sid[it + 1..hi]));
        sids := sids + [conn2sid[it].sid];
        it := it + 1;
      }
      if it < |conn2sid| { BucketIs(conn2sid, conn, it); }
    }

    /** As written: the transfers of later-ordered connections go too. */
    method ConnectionTerminated(conn: Conn)
      requires Wired() && !hung
      modifies `sid2ss, `conn2sid, `made, `hung, set s | s in sid2ss :: sid2ss[s]
      ensures Wired() && State() == Cancelled(old(State()), Gathered(old(conn2sid), conn))
    {
      var sids := GatherSids(conn);
      if |sids| == 0 {
        return;
      }
      CancelAll(sids);
    }

    /** As meant: only the connection's own transfers are gathered. */
    method ConnectionTerminatedInRange(conn: Conn)
      requires Wired() && !hung && Sorted(conn2sid)
      modifies `sid2ss, `conn2sid, `made, `hung, set s | s in sid2ss :: sid2ss[s]
      ensures Wired() && State() == Cancelled(old(State()), GatheredInRange(old(conn2sid), conn))
    {
      var sids := GatherSidsInRange(conn);
      if |sids| == 0 {
        return;
      }
      CancelAll(sids);
    }
  }
}
