/** message_received in front of the transfers: what is dropped as a duplicate, what goes to which
    handler, and so which events the transfers see. */
module MessageDispatch {
  import opened Collections
  import opened StreamSpec
  import opened RegistrySpec
  import opened StreamHub
  import opened StreamRelay

  type Guid = string

  /** What playdar's get_ss gives for a sid: nothing, a strategy that is none of ours, or another peer's
      stream over that peer's connection, ready or gone. */
  datatype Found = Nothing | Elsewhere | Relayed(conn: Conn, ready: bool)

  /** SIDHEADERS, SIDDATA or SIDFAIL, whose GUID is the sid; SIDREQUEST; any other message. */
  datatype Payload = Stream(wire: Wire) | SidRequest(sid: Sid, found: Found) | Other

  datatype Input =
    | Play(conn: Conn, sid: Sid, ready: bool)                // somebody at this peer has start_reply called
    | Message(conn: Conn, guid: Guid, payload: Payload)
    | Timer(id: nat, sid: Sid)
    | Terminated(conn: Conn)

  /** answers: what handle_sidrequest writes itself; handed: whom it has handed to other strategies. */
  datatype Peer = Peer(seen: set<Guid>, answers: seq<(Entry, Wire)>, handed: seq<Entry>, hub: Hub)

  const QUIET := Peer({}, [], [], IDLE)

  function HandleSidRequest(p: Peer, id: nat, c: Conn, sid: Sid, found: Found): Peer {
    match found
    case Nothing => p.(answers := p.answers + [(Entry(c, sid), NOT_FOUND)])
    case Elsewhere => p.(handed := p.handed + [Entry(c, sid)])
    case Relayed(to, ready) => p.(hub := Started(p.hub, id, to, sid, ready))
  }

  /** Stream messages pass although all of one stream have the same GUID; any other GUID counts once. */
  function MessageReceived(p: Peer, id: nat, c: Conn, guid: Guid, payload: Payload): Peer {
    match payload
    case Stream(w) => p.(hub := Reacts(p.hub, guid, Arrive(w)))
    case SidRequest(sid, found) =>
      if guid in p.seen then p else HandleSidRequest(p.(seen := p.seen + {guid}), id, c, sid, found)
    case Other => p.(seen := p.seen + {guid})
  }

  /** The id-th input; nothing happens any more once the thread is caught. */
  function Take(p: Peer, id: nat, x: Input): Peer {
    if p.hub.halted then p
    else
      match x
      case Play(c, sid, ready) => p.(hub := Started(p.hub, id, c, sid, ready))
      case Message(c, guid, payload) => MessageReceived(p, id, c, guid, payload)
      case Timer(i, sid) => p.(hub := Expired(p.hub, i, sid))
      case Terminated(c) => p.(hub := Cancelled(p.hub, Gathered(p.hub.index, c)))
  }

  function Taken(xs: seq<Input>): Peer
    decreases |xs|
  {
    if xs == [] then QUIET else Take(Taken(xs[..|xs| - 1]), |xs| - 1, xs[|xs| - 1])
  }

  /** What the input is to the transfers. */
  function EventOf(seen: set<Guid>, x: Input): HubEvent {
    match x
    case Play(c, sid, ready) => Start(c, sid, ready)
    case Message(c, guid, Stream(w)) => Receive(c, guid, w)
    case Message(_, guid, SidRequest(sid, Relayed(to, ready))) => if guid in seen then Pass else Start(to, sid, ready)
    case Message(_, _, _) => Pass
    case Timer(i, sid) => Expire(i, sid)
    case Terminated(c) => Lose(c)
  }

  function Events(xs: seq<Input>): (es: seq<HubEvent>)
    ensures |es| == |xs|
    decreases |xs|
  {
    if xs == [] then []
    else Events(xs[..|xs| - 1]) + [EventOf(Taken(xs[..|xs| - 1]).seen, xs[|xs| - 1])]
  }

  lemma TakeIsStep(p: Peer, id: nat, x: Input)
    ensures Take(p, id, x).hub == Step(p.hub, id, EventOf(p.seen, x))
  {
  }

  /** The transfers of a peer, on every sequence of inputs, are those of the hub on the events that pass. */
  lemma {:induction false} Dispatched(xs: seq<Input>)
    ensures Taken(xs).hub == Ran(Events(xs))
    decreases |xs|
  {
    if xs == [] {
    } else {
      var before, x := xs[..|xs| - 1], xs[|xs| - 1];
      Dispatched(before);
      TakeIsStep(Taken(before), |before|, x);
      RanPlus(Events(before), EventOf(Taken(before).seen, x));
    }
  }

  lemma EventsPlus(xs: seq<Input>, x: Input)
    ensures Events(xs + [x]) == Events(xs) + [EventOf(Taken(xs).seen, x)]
  {
    assert (xs + [x])[..|xs|] == xs;
  }

  lemma {:induction false} EventsBefore(xs: seq<Input>, k: nat)
    requires k <= |xs|
    ensures Events(xs)[..k] == Events(xs[..k])
    decreases |xs|
  {
    if k == |xs| {
      assert xs[..k] == xs && Events(xs)[..k] == Events(xs);
    } else {
      var before := xs[..|xs| - 1];
      EventsBefore(before, k);
      assert before[..k] == xs[..k];
      assert Events(xs)[..k] == Events(before)[..k];
    }
  }

  lemma {:induction false} EventAt(xs: seq<Input>, k: nat)
    requires k < |xs|
    ensures Events(xs)[k] == EventOf(Taken(xs[..k]).seen, xs[k])
    decreases |xs|
  {
    var n := |xs| - 1;
    if k == n {
    } else {
      EventAt(xs[..n], k);
      assert xs[..n][..k] == xs[..k];
    }
  }

  /** The k-th input is a message with this GUID, and not a stream message. */
  predicate CountsOnce(xs: seq<Input>, k: nat, g: Guid) {
    k < |xs| && xs[k].Message? && !xs[k].payload.Stream? && xs[k].guid == g
  }

  /** g has come in a message other than a stream message. */
  ghost predicate Came(xs: seq<Input>, g: Guid) {
    exists k: nat :: CountsOnce(xs, k, g)
  }

  lemma CamePlus(xs: seq<Input>, x: Input, g: Guid)
    ensures Came(xs + [x], g) <==> Came(xs, g) || (x.Message? && !x.payload.Stream? && x.guid == g)
  {
    if k: nat :| CountsOnce(xs, k, g) { assert CountsOnce(xs + [x], k, g); }
    if x.Message? && !x.payload.Stream? && x.guid == g { assert CountsOnce(xs + [x], |xs|, g); }
    if k: nat :| CountsOnce(xs + [x], k, g) { assert k == |xs| || CountsOnce(xs, k, g); }
  }

  /** The GUIDs dedup knows are those of all messages so far but stream messages. */
  lemma {:induction false} SeenIff(xs: seq<Input>, g: Guid)
    requires !Taken(xs).hub.halted
    ensures g in Taken(xs).seen <==> Came(xs, g)
    decreases |xs|
  {
    if xs == [] {
    } else {
      var before, x := xs[..|xs| - 1], xs[|xs| - 1];
      assert before + [x] == xs;
      SeenIff(before, g);
      CamePlus(before, x, g);
    }
  }

  /** On every run: each stream message reaches its handler with its sid and wire form; a SIDREQUEST for
      another peer's stream starts that stream, over that peer's connection, if and only if no message
      but a stream message had its GUID before; and timers, lost connections and starts asked for here
      always get through. */
  lemma HandledIff(xs: seq<Input>, k: nat)
    requires k < |xs| && !Taken(xs[..k]).hub.halted
    ensures var x, e := xs[k], Events(xs)[k];
            match x
            case Play(c, sid, ready) => e == Start(c, sid, ready)
            case Message(c, guid, Stream(w)) => e == Receive(c, guid, w)
            case Message(_, guid, SidRequest(sid, Relayed(to, ready))) =>
              e == if Came(xs[..k], guid) then Pass else Start(to, sid, ready)
            case Message(_, _, _) => e == Pass
            case Timer(i, sid) => e == Expire(i, sid)
            case Terminated(c) => e == Lose(c)
  {
    EventAt(xs, k);
    if xs[k].Message? { SeenIff(xs[..k], xs[k].guid); }
  }

  /** x is a SIDREQUEST whose GUID is new. */
  ghost predicate NewRequest(xs: seq<Input>, x: Input) {
    x.Message? && x.payload.SidRequest? && !Came(xs, x.guid)
  }

  lemma TakenPlus(xs: seq<Input>, x: Input)
    ensures Taken(xs + [x]) == Take(Taken(xs), |xs|, x)
  {
    assert (xs + [x])[..|xs|] == xs;
  }

  /** A new SIDREQUEST for another peer's stream is one start to the transfers. */
  lemma RelayStarts(xs: seq<Input>, c: Conn, guid: Guid, sid: Sid, to: Conn, ready: bool)
    requires !Taken(xs).hub.halted && !Came(xs, guid)
    ensures Taken(xs + [Message(c, guid, SidRequest(sid, Relayed(to, ready)))]).hub
         == Ran(Events(xs) + [Start(to, sid, ready)])
  {
    var x := Message(c, guid, SidRequest(sid, Relayed(to, ready)));
    SeenIff(xs, guid);
    EventsPlus(xs, x);
    Dispatched(xs + [x]);
  }

  /** On every run: a new SIDREQUEST for a sid playdar cannot serve is answered, once and to the connection it
      came over, with what is heard there as status 404 and a cancel, and starts nothing. */
  lemma UnknownAnswered(xs: seq<Input>, x: Input)
    requires !Taken(xs).hub.halted && NewRequest(xs, x) && x.payload.found.Nothing?
    ensures var p, p' := Taken(xs), Taken(xs + [x]);
            && |p'.answers| == |p.answers| + 1 && p.answers <= p'.answers
            && p'.answers[|p.answers|].0 == Entry(x.conn, x.payload.sid)
            && Heard([p'.answers[|p.answers|].1]) == [SetStatus(404), Cancel]
            && p'.handed == p.handed && p'.hub == p.hub
  {
    SeenIff(xs, x.guid);
    TakenPlus(xs, x);
    NotFoundHeard(0);
  }

  /** One that another strategy serves is handed to that, once and for that connection, is not answered here,
      and touches no transfer. */
  lemma OthersHanded(xs: seq<Input>, x: Input)
    requires !Taken(xs).hub.halted && NewRequest(xs, x) && x.payload.found.Elsewhere?
    ensures var p, p' := Taken(xs), Taken(xs + [x]);
            p'.handed == p.handed + [Entry(x.conn, x.payload.sid)] && p'.answers == p.answers && p'.hub == p.hub
  {
    SeenIff(xs, x.guid);
    TakenPlus(xs, x);
  }

  /** Nothing else is answered or handed on; and a SIDREQUEST whose GUID came before does nothing at all. */
  lemma NothingElseAnswered(xs: seq<Input>, x: Input)
    requires !NewRequest(xs, x) || x.payload.found.Relayed?
    ensures Taken(xs + [x]).answers == Taken(xs).answers && Taken(xs + [x]).handed == Taken(xs).handed
    ensures x.Message? && x.payload.SidRequest? && !NewRequest(xs, x) ==> Taken(xs + [x]) == Taken(xs)
  {
    TakenPlus(xs, x);
    if !Taken(xs).hub.halted && x.Message? { SeenIff(xs, x.guid); }
  }

  /** With m next after the first k inputs, transfer i has the calls of its own run. */
  ghost predicate HeardAlone(xs: seq<Input>, k: nat, m: Input, i: nat) {
    k <= |xs| && m.Message? && m.payload.Stream? ==>
      var ys := xs[..k] + [m];
      Starts(Events(ys), i) ==> CallsOf(i, Taken(ys).hub.log) == Alone(Events(ys), i).calls
  }

  lemma HeardIs(xs: seq<Input>, k: nat, m: Input, i: nat)
    requires k <= |xs| && m.Message? && m.payload.Stream?
    ensures HeardAlone(xs, k, m, i) <==> IndependentAt(Events(xs), k, Receive(m.conn, m.guid, m.payload.wire), i)
  {
    EventsBefore(xs, k);
    EventsPlus(xs[..k], m);
    Dispatched(xs[..k] + [m]);
  }

  /** For every sequence of inputs to a peer, SIDREQUESTs and duplicates included: at every moment and
      whatever stream message comes next, each transfer has the calls of its own run, if and only if no
      event that passes finds one of the three cases. */
  lemma PeerIndependentIff(xs: seq<Input>)
    ensures (forall k: nat, m: Input, i: nat :: HeardAlone(xs, k, m, i)) <==> Calm(Events(xs))
  {
    var es := Events(xs);
    TransfersIndependentIff(es);
    if Calm(es) {
      forall k: nat, m: Input, i: nat
        ensures HeardAlone(xs, k, m, i)
      {
        if k <= |xs| && m.Message? && m.payload.Stream? {
          HeardIs(xs, k, m, i);
          assert IndependentAt(es, k, Receive(m.conn, m.guid, m.payload.wire), i);
        }
      }
    } else {
      var k: nat, m: HubEvent, i: nat :| !IndependentAt(es, k, m, i);
      HeardIs(xs, k, Message(m.conn, m.sid, Stream(m.wire)), i);
      assert !HeardAlone(xs, k, Message(m.conn, m.sid, Stream(m.wire)), i);
    }
  }

  // ---------------------------------------------------------------- what the exemption is for

  /** message_received if stream messages were deduplicated like all others. */
  function Deduplicated(p: Peer, id: nat, c: Conn, guid: Guid, payload: Payload): Peer {
    if guid in p.seen then p
    else if payload.Stream? then MessageReceived(p.(seen := p.seen + {guid}), id, c, guid, payload)
    else MessageReceived(p, id, c, guid, payload)
  }

  /** Then of all messages with one GUID, at most the first would do anything. */
  lemma {:induction false} OnlyFirst(p: Peer, id: nat, c: Conn, guid: Guid, first: Payload, second: Payload)
    ensures var p' := Deduplicated(p, id, c, guid, first); Deduplicated(p', id, c, guid, second) == p'
  {
  }

  lemma ContentHeard(p: Peer, id: nat, c: Conn, sid: Sid, bytes: string)
    requires sid in p.hub.live && p.hub.live[sid].recv.live && bytes != ""
    ensures var p' := MessageReceived(p, id, c, sid, Stream(Data(bytes)));
            var t := p.hub.live[sid];
            && p'.hub.log == p.hub.log + [Made(t.id, Content(bytes))]
            && sid in p'.hub.live && p'.hub.live[sid].id == t.id && p'.hub.live[sid].recv.live
            && p'.seen == p.seen
  {
    assert Tag(p.hub.live[sid].id, [Content(bytes)]) == [Made(p.hub.live[sid].id, Content(bytes))];
  }

  /** A live transfer hears both of two chunks; deduplicated, it would hear only the first, and not even
      that if any other message had its sid for a GUID. */
  lemma ExemptionNeeded(p: Peer, id: nat, c: Conn, sid: Sid, a: string, b: string)
    requires sid in p.hub.live && p.hub.live[sid].recv.live && a != "" && b != ""
    ensures var t := p.hub.live[sid].id;
            var one, other := Stream(Data(a)), Stream(Data(b));
            && MessageReceived(MessageReceived(p, id, c, sid, one), id, c, sid, other).hub.log
               == p.hub.log + [Made(t, Content(a)), Made(t, Content(b))]
            && Deduplicated(Deduplicated(p, id, c, sid, one), id, c, sid, other).hub.log
               == p.hub.log + if sid in p.seen then [] else [Made(t, Content(a))]
  {
    var one, other := Stream(Data(a)), Stream(Data(b));
    var t := p.hub.live[sid].id;
    ContentHeard(p, id, c, sid, a);
    ContentHeard(MessageReceived(p, id, c, sid, one), id, c, sid, b);
    assert [Made(t, Content(a))] + [Made(t, Content(b))] == [Made(t, Content(a)), Made(t, Content(b))];
    Assoc(p.hub.log, [Made(t, Content(a))], [Made(t, Content(b))]);
    ContentHeard(p.(seen := p.seen + {sid}), id, c, sid, a);
    OnlyFirst(p, id, c, sid, one, other);
    assert p.hub.log + [] == p.hub.log;
  }
}
