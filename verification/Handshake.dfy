/** The IDENT handshake: each new connection gets a handler that expects IDENT and a watchdog; only a
    connection that identified itself hands messages to message_received. */
module Handshake {
  import opened Wrappers

  type Conn = nat

  /** The payload of an IDENT: not a JSON object, or its name and cookie fields where they are strings. */
  datatype Ident = NotAnObject | Fields(name: Option<string>, cookie: Option<string>)

  datatype Msg = IdentMsg(body: Ident) | OtherMsg(payload: string)

  datatype Handler = ExpectIdent(incoming: bool)

  /** handlers are the callbacks pushed over message_received; cookie is the connection's property. */
  datatype Connection = Connection(
    incoming: bool, open: bool, ready: bool, name: string, cookie: string, handlers: seq<Handler>)

  datatype Event =
    | IssueCookie(cookie: string, jid: string)   // jabber_new_peer advertises us to jid
    | Incoming(c: Conn)
    | Outgoing(c: Conn, cookie: string)
    | Arrives(c: Conn, msg: Msg)
    | Timeout(c: Conn)                    // the two second watchdog
    | Terminated(c: Conn)

  /** cookies is m_peer_cookies, from cookie to the jid it was issued to. sent: IDENTs written, with the
      cookie they carry; passed: messages that reached message_received. */
  datatype Hub = Hub(
    conns: map<Conn, Connection>, cookies: map<string, string>, sent: seq<(Conn, string)>, passed: seq<(Conn, Msg)>)

  predicate CanHappen(h: Hub, e: Event) {
    match e
    case IssueCookie(_, _) => true
    case Incoming(c) => c !in h.conns
    case Outgoing(c, _) => c !in h.conns
    case Arrives(c, _) => c in h.conns && h.conns[c].open
    case Timeout(c) => c in h.conns
    case Terminated(c) => c in h.conns
  }

  /** get_connection_by_name: names are set when a connection becomes ready. */
  predicate NameTaken(h: Hub, name: string) {
    exists c :: c in h.conns && h.conns[c].open && h.conns[c].ready && h.conns[c].name == name
  }

  function Closed(h: Hub, c: Conn): Hub
    requires c in h.conns
  {
    h.(conns := h.conns[c := h.conns[c].(open := false)])
  }

  function IdentSent(h: Hub, c: Conn): Hub
    requires c in h.conns
  {
    h.(sent := h.sent + [(c, h.conns[c].cookie)])
  }

  function Readied(h: Hub, c: Conn, name: string): Hub
    requires c in h.conns && h.conns[c].handlers != []
  {
    h.(conns := h.conns[c := h.conns[c].(ready := true, name := name, handlers := h.conns[c].handlers[1..])])
  }

  /** The IDENT is acceptable on this connection. */
  predicate Accepts(h: Hub, msg: Msg, incoming: bool) {
    && msg.IdentMsg? && msg.body.Fields? && msg.body.name.Some? && !NameTaken(h, msg.body.name.value)
    && (incoming ==> msg.body.cookie.Some? && msg.body.cookie.value != "" && msg.body.cookie.value in h.cookies)
  }

  function ExpectIdentDoes(h: Hub, c: Conn, msg: Msg, incoming: bool): Hub
    requires c in h.conns && h.conns[c].handlers != []
  {
    if !Accepts(h, msg, incoming) then Closed(h, c)
    else
      var h1 := if incoming then IdentSent(h.(conns := h.conns[c := h.conns[c].(cookie := "")]), c) else h;
      Readied(h1, c, msg.body.name.value)
  }

  function Happen(h: Hub, e: Event): Hub
    requires CanHappen(h, e)
  {
    match e
    case IssueCookie(cookie, jid) => h.(cookies := h.cookies[cookie := jid])
    case Incoming(c) => h.(conns := h.conns[c := Connection(true, true, false, "", "", [ExpectIdent(true)])])
    case Outgoing(c, cookie) =>
      IdentSent(h.(conns := h.conns[c := Connection(false, true, false, "", cookie, [ExpectIdent(false)])]), c)
    case Arrives(c, msg) =>
      if h.conns[c].handlers != [] then ExpectIdentDoes(h, c, msg, h.conns[c].handlers[0].incoming)
      else h.(passed := h.passed + [(c, msg)])
    case Timeout(c) => if h.conns[c].ready then h else Closed(h, c)
    case Terminated(c) => Closed(h, c)
  }

  predicate CanRun(h: Hub, es: seq<Event>)
    decreases es
  {
    es == [] || (CanHappen(h, es[0]) && CanRun(Happen(h, es[0]), es[1..]))
  }

  function Run(h: Hub, es: seq<Event>): Hub
    requires CanRun(h, es)
    decreases es
  {
    if es == [] then h else Run(Happen(h, es[0]), es[1..])
  }

  const EMPTY := Hub(map[], map[], [], [])

  // ---------------------------------------------------------------- invariant

  /** A connection that is not ready expects IDENT and nothing else; a ready one goes straight through. */
  ghost predicate StackOk(x: Connection) {
    x.handlers == if x.ready then [] else [ExpectIdent(x.incoming)]
  }

  ghost predicate Named(h: Hub, c: Conn, name: string) {
    c in h.conns && h.conns[c].open && h.conns[c].ready && h.conns[c].name == name
  }

  ghost predicate Inv(h: Hub) {
    && (forall c :: c in h.conns ==> StackOk(h.conns[c]))
    && (forall c, d, name :: Named(h, c, name) && Named(h, d, name) ==> c == d)
  }

  lemma HappenInv(h: Hub, e: Event)
    requires Inv(h) && CanHappen(h, e)
    ensures Inv(Happen(h, e))
  {
    var h' := Happen(h, e);
    forall c, d, name | Named(h', c, name) && Named(h', d, name)
      ensures c == d
    {
      assert Named(h, c, name) || (e.Arrives? && c == e.c && !NameTaken(h, name));
      assert Named(h, d, name) || (e.Arrives? && d == e.c && !NameTaken(h, name));
    }
  }

  lemma {:induction false} RunSplits(h: Hub, a: seq<Event>, b: seq<Event>)
    ensures CanRun(h, a + b) <==> CanRun(h, a) && CanRun(Run(h, a), b)
    ensures CanRun(h, a + b) ==> Run(h, a + b) == Run(Run(h, a), b)
    decreases a
  {
    if a == [] {
      assert a + b == b;
    } else {
      assert (a + b)[0] == a[0] && (a + b)[1..] == a[1..] + b;
      if CanHappen(h, a[0]) { RunSplits(Happen(h, a[0]), a[1..], b); }
    }
  }

  lemma {:induction false} RunInv(h: Hub, es: seq<Event>)
    requires Inv(h) && CanRun(h, es)
    ensures Inv(Run(h, es))
    decreases es
  {
    if es == [] {
    } else {
      HappenInv(h, es[0]);
      RunInv(Happen(h, es[0]), es[1..]);
    }
  }

  /** On every interleaving: live ready connections have pairwise distinct names. */
  lemma NamesDistinct(es: seq<Event>, c: Conn, d: Conn)
    requires CanRun(EMPTY, es)
    requires var h := Run(EMPTY, es);
             && c in h.conns && d in h.conns && c != d && h.conns[c].open && h.conns[d].open
             && h.conns[c].ready && h.conns[d].ready
    ensures Run(EMPTY, es).conns[c].name != Run(EMPTY, es).conns[d].name
  {
    RunInv(EMPTY, es);
    var h := Run(EMPTY, es);
    assert Named(h, c, h.conns[c].name) && Named(h, d, h.conns[d].name);
  }

  /** On every interleaving: a message reaches message_received exactly when it arrives on a connection
      that is ready. */
  lemma PassedOnlyWhenReady(es: seq<Event>, c: Conn, msg: Msg)
    requires CanRun(EMPTY, es + [Arrives(c, msg)])
    ensures CanRun(EMPTY, es) && c in Run(EMPTY, es).conns
    ensures var h, h' := Run(EMPTY, es), Run(EMPTY, es + [Arrives(c, msg)]);
            h'.passed == h.passed + if h.conns[c].ready then [(c, msg)] else []
  {
    RunSplits(EMPTY, es, [Arrives(c, msg)]);
    RunInv(EMPTY, es);
    var h := Run(EMPTY, es);
    assert Run(h, [Arrives(c, msg)]) == Happen(h, Arrives(c, msg));
    assert StackOk(h.conns[c]);
  }

  // ---------------------------------------------------------------- history

  /** Event i of the run was an IDENT on c with this name and a cookie issued before. */
  ghost predicate Identified(h: Hub, es: seq<Event>, i: nat, c: Conn, name: string)
    requires CanRun(h, es)
  {
    i < |es| && es[i].Arrives? && es[i].c == c && es[i].msg.IdentMsg? && es[i].msg.body.Fields?
    && es[i].msg.body.name == Some(name) && es[i].msg.body.cookie.Some? && es[i].msg.body.cookie.value != ""
    && CanRun(h, es[..i]) && es[i].msg.body.cookie.value in Run(h, es[..i]).cookies
  }

  lemma ReadyStep(h: Hub, e: Event, c: Conn)
    requires Inv(h) && CanHappen(h, e) && c in Happen(h, e).conns && Happen(h, e).conns[c].ready
    requires Happen(h, e).conns[c].incoming
    ensures (c in h.conns && h.conns[c].ready && h.conns[c].name == Happen(h, e).conns[c].name && h.conns[c].incoming)
         || (e.Arrives? && e.c == c && Accepts(h, e.msg, true) && e.msg.body.name.value == Happen(h, e).conns[c].name)
  {
    if e.Arrives? { assert StackOk(h.conns[e.c]); }
  }

  ghost predicate ReadyIn(h: Hub, c: Conn) {
    c in h.conns && h.conns[c].ready
  }

  /** On every interleaving: each ready incoming connection presented, under the name it has, a cookie
      that had been issued by then, and became ready with that. */
  lemma {:induction false} ReadyPresentedCookie(es: seq<Event>, c: Conn) returns (i: nat)
    requires CanRun(EMPTY, es)
    requires var h := Run(EMPTY, es); c in h.conns && h.conns[c].ready && h.conns[c].incoming
    ensures Identified(EMPTY, es, i, c, Run(EMPTY, es).conns[c].name)
    ensures !ReadyIn(Run(EMPTY, es[..i]), c)
    decreases |es|
  {
    assert es != [];
    var before, e := es[..|es| - 1], es[|es| - 1];
    assert es == before + [e];
    RunSplits(EMPTY, before, [e]);
    RunInv(EMPTY, before);
    var h := Run(EMPTY, before);
    assert Run(h, [e]) == Happen(h, e);
    ReadyStep(h, e, c);
    if c in h.conns && h.conns[c].ready {
      i := ReadyPresentedCookie(before, c);
      assert before[..i] == es[..i];
    } else {
      i := |es| - 1;
    }
  }

  lemma {:induction false} IssuedBefore(es: seq<Event>, cookie: string) returns (j: nat)
    requires CanRun(EMPTY, es) && cookie in Run(EMPTY, es).cookies
    ensures j < |es| && es[j] == IssueCookie(cookie, Run(EMPTY, es).cookies[cookie])
    decreases |es|
  {
    assert es != [];
    var before, e := es[..|es| - 1], es[|es| - 1];
    assert es == before + [e];
    RunSplits(EMPTY, before, [e]);
    assert Run(Run(EMPTY, before), [e]) == Happen(Run(EMPTY, before), e);
    if e.IssueCookie? && e.cookie == cookie {
      j := |es| - 1;
    } else {
      j := IssuedBefore(before, cookie);
    }
  }

  /** On every interleaving, for every ready incoming connection: event j issued a cookie to somebody, and
      event i presented that cookie and got the connection in; and the connection's name is not that
      somebody's jid if and only if event i gave another name. */
  lemma ReadyUnderOtherNameIff(es: seq<Event>, c: Conn) returns (j: nat, i: nat)
    requires CanRun(EMPTY, es)
    requires var h := Run(EMPTY, es); c in h.conns && h.conns[c].ready && h.conns[c].incoming
    ensures j < i && Identified(EMPTY, es, i, c, Run(EMPTY, es).conns[c].name)
    ensures es[j].IssueCookie? && es[i].msg.body.cookie == Some(es[j].cookie) && !ReadyIn(Run(EMPTY, es[..i]), c)
    ensures Run(EMPTY, es).conns[c].name != es[j].jid <==> es[i].msg.body.name != Some(es[j].jid)
  {
    i := ReadyPresentedCookie(es, c);
    j := IssuedBefore(es[..i], es[i].msg.body.cookie.value);
  }

  /** An IDENT on a connection somebody opened to us. */
  function Presents(c: Conn, name: string, cookie: string): Event {
    Arrives(c, IdentMsg(Fields(Some(name), Some(cookie))))
  }

  /** On every interleaving: whoever presents a name nobody has and a non-empty cookie issued to anybody
      gets in, under the name presented; so the connection is ready under a name other than the jid the
      cookie was issued to exactly when that is what was presented. */
  lemma NameNeedNotMatch(es: seq<Event>, c: Conn, name: string, cookie: string)
    requires CanRun(EMPTY, es + [Presents(c, name, cookie)])
    ensures CanRun(EMPTY, es) && c in Run(EMPTY, es).conns
    ensures var h, h' := Run(EMPTY, es), Run(EMPTY, es + [Presents(c, name, cookie)]);
            !h.conns[c].ready && h.conns[c].incoming ==>
              var admitted := !NameTaken(h, name) && cookie != "" && cookie in h.cookies;
              && c in h'.conns && (h'.conns[c].ready <==> admitted)
              && ((h'.conns[c].ready && cookie in h.cookies && h'.conns[c].name != h.cookies[cookie])
                  <==> admitted && name != h.cookies[cookie])
  {
    var e := Presents(c, name, cookie);
    RunSplits(EMPTY, es, [e]);
    RunInv(EMPTY, es);
    var h := Run(EMPTY, es);
    assert Run(h, [e]) == Happen(h, e);
    assert StackOk(h.conns[c]);
  }

  /** It happens: bob gets in with the cookie issued to alice. */
  lemma OtherNameAdmitted()
    ensures var es := [IssueCookie("k", "alice"), Incoming(0), Presents(0, "bob", "k")];
            && CanRun(EMPTY, es)
            && var h := Run(EMPTY, es);
               h.cookies == map["k" := "alice"] && 0 in h.conns && h.conns[0].open && h.conns[0].ready
               && h.conns[0].name == "bob" && h.conns[0].name != "alice"
  {
    var e0, e1, e2 := IssueCookie("k", "alice"), Incoming(0), Presents(0, "bob", "k");
    var h1 := Happen(EMPTY, e0);
    var h2 := Happen(h1, e1);
    assert CanHappen(h2, e2) && Accepts(h2, e2.msg, true);
    assert [e0, e1, e2][1..] == [e1, e2] && [e1, e2][1..] == [e2] && [e2][1..] == [];
    assert Run(h2, [e2]) == Happen(h2, e2);
    assert Run(h1, [e1, e2]) == Run(h2, [e2]);
    assert "bob"[0] != "alice"[0];
  }

  lemma {:induction false} SettledStays(h: Hub, es: seq<Event>, c: Conn)
    requires CanRun(h, es) && c in h.conns && (h.conns[c].ready || !h.conns[c].open)
    ensures c in Run(h, es).conns && (Run(h, es).conns[c].ready || !Run(h, es).conns[c].open)
    decreases es
  {
    if es == [] {
    } else {
      SettledStays(Happen(h, es[0]), es[1..], c);
    }
  }

  /** On every interleaving: from the moment its watchdog has fired, a connection is ready or closed. */
  lemma WatchdogSettles(before: seq<Event>, c: Conn, after: seq<Event>)
    requires CanRun(EMPTY, before + [Timeout(c)] + after)
    ensures var h := Run(EMPTY, before + [Timeout(c)] + after); c in h.conns && (h.conns[c].ready || !h.conns[c].open)
  {
    RunSplits(EMPTY, before + [Timeout(c)], after);
    RunSplits(EMPTY, before, [Timeout(c)]);
    var h := Run(EMPTY, before);
    assert Run(h, [Timeout(c)]) == Happen(h, Timeout(c));
    SettledStays(Happen(h, Timeout(c)), after, c);
  }

  // ---------------------------------------------------------------- what the run shows of the state

  lemma RunPlus(es: seq<Event>, e: Event)
    requires CanRun(EMPTY, es + [e])
    ensures CanRun(EMPTY, es) && CanHappen(Run(EMPTY, es), e) && Inv(Run(EMPTY, es))
    ensures Run(EMPTY, es + [e]) == Happen(Run(EMPTY, es), e)
  {
    RunSplits(EMPTY, es, [e]);
    RunInv(EMPTY, es);
    assert Run(Run(EMPTY, es), [e]) == Happen(Run(EMPTY, es), e);
  }

  ghost predicate WentOut(es: seq<Event>, c: Conn) {
    exists cookie :: Outgoing(c, cookie) in es
  }

  ghost predicate IssuedIn(es: seq<Event>, cookie: string) {
    exists jid :: IssueCookie(cookie, jid) in es
  }

  lemma HistoryPlus(es: seq<Event>, e: Event, c: Conn, cookie: string)
    ensures WentOut(es + [e], c) <==> WentOut(es, c) || (e.Outgoing? && e.c == c)
    ensures IssuedIn(es + [e], cookie) <==> IssuedIn(es, cookie) || (e.IssueCookie? && e.cookie == cookie)
  {
    if k :| Outgoing(c, k) in es { assert Outgoing(c, k) in es + [e]; }
    if e.Outgoing? && e.c == c { assert Outgoing(c, e.cookie) in es + [e]; }
    if j :| IssueCookie(cookie, j) in es { assert IssueCookie(cookie, j) in es + [e]; }
    if e.IssueCookie? && e.cookie == cookie { assert IssueCookie(cookie, e.jid) in es + [e]; }
  }

  /** On every interleaving: there is a connection if one was opened by either side, it is incoming exactly
      if the other side opened it, it holds the cookie it was opened with, and a cookie is good exactly if
      it was issued. */
  lemma {:induction false} Opened(es: seq<Event>, c: Conn, cookie: string)
    requires CanRun(EMPTY, es)
    ensures var h := Run(EMPTY, es);
            && (c in h.conns <==> Incoming(c) in es || WentOut(es, c))
            && (c in h.conns ==> (h.conns[c].incoming <==> Incoming(c) in es))
            && (Outgoing(c, cookie) in es ==> c in h.conns && !h.conns[c].incoming && h.conns[c].cookie == cookie)
            && (c in h.conns && h.conns[c].incoming ==> h.conns[c].cookie == "")
            && (cookie in h.cookies <==> IssuedIn(es, cookie))
    decreases |es|
  {
    if es == [] {
    } else {
      var before, e := es[..|es| - 1], es[|es| - 1];
      assert es == before + [e];
      RunPlus(before, e);
      Opened(before, c, cookie);
      HistoryPlus(before, e, c, cookie);
      OpenedStep(Run(EMPTY, before), e, c);
    }
  }

  lemma OpenedStep(h: Hub, e: Event, c: Conn)
    requires Inv(h) && CanHappen(h, e)
    requires c in h.conns && h.conns[c].incoming ==> h.conns[c].cookie == ""
    ensures var h' := Happen(h, e);
            if e == Incoming(c) then c in h'.conns && h'.conns[c].incoming && h'.conns[c].cookie == ""
            else if e.Outgoing? && e.c == c then c in h'.conns && !h'.conns[c].incoming && h'.conns[c].cookie == e.cookie
            else (c in h'.conns <==> c in h.conns)
                 && (c in h.conns ==> h'.conns[c].incoming == h.conns[c].incoming && h'.conns[c].cookie == h.conns[c].cookie)
  {
    if e.Arrives? { assert StackOk(h.conns[e.c]); }
  }

  // ---------------------------------------------------------------- our IDENT

  /** The IDENTs the last event of a run has us send. */
  ghost function SentBy(es: seq<Event>, e: Event): seq<(Conn, string)>
    requires CanRun(EMPTY, es + [e]) && CanRun(EMPTY, es)
  {
    match e
    case Outgoing(c, cookie) => [(c, cookie)]
    case Arrives(c, _) =>
      if Incoming(c) in es && !ReadyIn(Run(EMPTY, es), c) && ReadyIn(Run(EMPTY, es + [e]), c) then [(c, "")] else []
    case _ => []
  }

  lemma SentStep(h: Hub, e: Event)
    requires Inv(h) && CanHappen(h, e)
    requires e.Arrives? && h.conns[e.c].incoming ==> h.conns[e.c].cookie == ""
    ensures Happen(h, e).sent == h.sent +
              match e
              case Outgoing(c, cookie) => [(c, cookie)]
              case Arrives(c, _) =>
                if h.conns[c].incoming && !ReadyIn(h, c) && ReadyIn(Happen(h, e), c) then [(c, "")] else []
              case _ => []
  {
    if e.Arrives? { assert StackOk(h.conns[e.c]); }
  }

  /** A connection we open gets our IDENT with its cookie at once, one that was opened to us gets it, without
      a cookie, when it becomes ready, and no other IDENT is ever sent. */
  lemma IdentSentWhen(es: seq<Event>, e: Event)
    requires CanRun(EMPTY, es + [e]) && CanRun(EMPTY, es)
    ensures Run(EMPTY, es + [e]).sent == Run(EMPTY, es).sent + SentBy(es, e)
  {
    RunPlus(es, e);
    if e.Arrives? { Opened(es, e.c, ""); }
    SentStep(Run(EMPTY, es), e);
  }

  ghost function AllSent(es: seq<Event>): seq<(Conn, string)>
    requires CanRun(EMPTY, es)
    decreases |es|
  {
    if es == [] then []
    else
      var before, e := es[..|es| - 1], es[|es| - 1];
      assert es == before + [e];
      RunPlus(before, e);
      AllSent(before) + SentBy(before, e)
  }

  /** On every interleaving the IDENTs sent are exactly those, in order. */
  lemma {:induction false} IdentsSent(es: seq<Event>)
    requires CanRun(EMPTY, es)
    ensures Run(EMPTY, es).sent == AllSent(es)
    decreases |es|
  {
    if es == [] {
    } else {
      var before, e := es[..|es| - 1], es[|es| - 1];
      assert es == before + [e];
      RunPlus(before, e);
      IdentsSent(before);
      IdentSentWhen(before, e);
    }
  }

  // ---------------------------------------------------------------- who gets in, and what closes

  /** What an IDENT has to bring: a name no live ready connection has, and to get in from outside a
      non-empty cookie that was issued to somebody. */
  ghost predicate Acceptable(es: seq<Event>, c: Conn, msg: Msg)
    requires CanRun(EMPTY, es)
  {
    && msg.IdentMsg? && msg.body.Fields? && msg.body.name.Some?
    && (forall d :: d in Run(EMPTY, es).conns && Run(EMPTY, es).conns[d].open && Run(EMPTY, es).conns[d].ready ==>
          Run(EMPTY, es).conns[d].name != msg.body.name.value)
    && (Incoming(c) in es ==>
          msg.body.cookie.Some? && msg.body.cookie.value != "" && IssuedIn(es, msg.body.cookie.value))
  }

  /** On every interleaving, whatever arrives on a connection that is not ready: if it is an acceptable IDENT
      the connection is ready under the name it gives and stays open, and otherwise it is closed; every
      other connection stays as it was. */
  lemma AdmittedIff(es: seq<Event>, c: Conn, msg: Msg)
    requires CanRun(EMPTY, es + [Arrives(c, msg)]) && CanRun(EMPTY, es) && !ReadyIn(Run(EMPTY, es), c)
    ensures var h, h' := Run(EMPTY, es), Run(EMPTY, es + [Arrives(c, msg)]);
            && c in h'.conns && h'.conns - {c} == h.conns - {c} && h'.passed == h.passed && h'.cookies == h.cookies
            && (h'.conns[c].ready <==> Acceptable(es, c, msg)) && (h'.conns[c].open <==> Acceptable(es, c, msg))
            && (Acceptable(es, c, msg) ==> h'.conns[c].name == msg.body.name.value)
  {
    RunPlus(es, Arrives(c, msg));
    var h := Run(EMPTY, es);
    assert StackOk(h.conns[c]);
    Opened(es, c, if msg.IdentMsg? && msg.body.Fields? && msg.body.cookie.Some? then msg.body.cookie.value else "");
    assert Acceptable(es, c, msg) <==> Accepts(h, msg, h.conns[c].incoming);
  }

  /** An open connection is closed by its termination, by its watchdog while it is not ready, and by a message
      that does not make it ready while it is not; by nothing else, and a closed one stays closed. */
  lemma ClosesIff(es: seq<Event>, e: Event, c: Conn)
    requires CanRun(EMPTY, es + [e]) && CanRun(EMPTY, es) && c in Run(EMPTY, es).conns
    ensures var h, h' := Run(EMPTY, es), Run(EMPTY, es + [e]);
            && c in h'.conns
            && (h'.conns[c].open <==>
                  h.conns[c].open && e != Terminated(c) && !(e == Timeout(c) && !h.conns[c].ready)
                  && !(e.Arrives? && e.c == c && !h'.conns[c].ready))
            && (h.conns[c].ready ==> h'.conns[c].ready && h'.conns[c].name == h.conns[c].name)
  {
    RunPlus(es, e);
    assert StackOk(Run(EMPTY, es).conns[c]);
    if e.Arrives? { assert StackOk(Run(EMPTY, es).conns[e.c]); }
  }

  /** A new connection is open and not ready. */
  lemma OpensUnready(es: seq<Event>, e: Event)
    requires CanRun(EMPTY, es + [e]) && CanRun(EMPTY, es) && (e.Incoming? || e.Outgoing?)
    ensures var h' := Run(EMPTY, es + [e]);
            e.c in h'.conns && h'.conns[e.c].open && !h'.conns[e.c].ready && h'.conns - {e.c} == Run(EMPTY, es).conns - {e.c}
  {
    RunPlus(es, e);
  }

  // ---------------------------------------------------------------- the methods

  class Greynet {
    var conns: map<Conn, Connection>
    var peerCookies: map<string, string>
    var sent: seq<(Conn, string)>
    var passed: seq<(Conn, Msg)>

    ghost function State(): Hub
      reads this
    {
      Hub(conns, peerCookies, sent, passed)
    }

    constructor ()
      ensures State() == EMPTY
    {
      conns, peerCookies, sent, passed := map[], map[], [], [];
    }

    method SendIdent(c: Conn)
      requires c in conns
      modifies `sent
      ensures State() == IdentSent(old(State()), c)
    {
      sent := sent + [(c, conns[c].cookie)];
    }

    method NewIncomingConnection(c: Conn)
      requires c !in conns
      modifies `conns
      ensures State() == Happen(old(State()), Incoming(c))
    {
      conns := conns[c := Connection(true, true, false, "", "", [ExpectIdent(true)])];
    }

    method NewOutgoingConnection(c: Conn, cookie: string)
      requires c !in conns
      modifies `conns, `sent
      ensures State() == Happen(old(State()), Outgoing(c, cookie))
    {
      conns := conns[c := Connection(false, true, false, "", cookie, [ExpectIdent(false)])];
      SendIdent(c);
    }

    method Fin(c: Conn)
      requires c in conns
      modifies `conns
      ensures State() == Closed(old(State()), c)
    {
      conns := conns[c := conns[c].(open := false)];
    }

    method NewConnectionTimeout(c: Conn)
      requires c in conns
      modifies `conns
      ensures State() == Happen(old(State()), Timeout(c))
    {
      if !conns[c].ready {
        Fin(c);
      }
    }

    /** Pop the handler, then set ready and name. */
    method SetReady(c: Conn, name: string)
      requires c in conns && conns[c].handlers != []
      modifies `conns
      ensures State() == Readied(old(State()), c, name)
    {
      conns := conns[c := conns[c].(handlers := conns[c].handlers[1..])];
      conns := conns[c := conns[c].(ready := true)];
      conns := conns[c := conns[c].(name := name)];
    }

    method ExpectIdentHandler(msg: Msg, c: Conn, incoming: bool)
      requires c in conns && conns[c].handlers != []
      modifies `conns, `sent
      ensures State() == ExpectIdentDoes(old(State()), c, msg, incoming)
    {
      if !msg.IdentMsg? {
        Fin(c);
        return;
      }
      if msg.body.NotAnObject? {
        Fin(c);
        return;
      }
      if msg.body.name.None? {
        Fin(c);
        return;
      }
      var name := msg.body.name.value;
      if NameTaken(Hub(conns, peerCookies, sent, passed), name) {
        Fin(c);
        return;
      }
      if incoming {
        if msg.body.cookie.None? {
          Fin(c);
          return;
        }
        var cookie := msg.body.cookie.value;
        if cookie == "" || cookie !in peerCookies {
          Fin(c);
          return;
        }
        conns := conns[c := conns[c].(cookie := "")];
        SendIdent(c);
      }
      SetReady(c, name);
    }

    /** The router calls the topmost handler, or message_received if there is none. */
    method Receive(msg: Msg, c: Conn)
      requires c in conns && conns[c].open
      modifies this
      ensures State() == Happen(old(State()), Arrives(c, msg))
    {
      if conns[c].handlers != [] {
        ExpectIdentHandler(msg, c, conns[c].handlers[0].incoming);
      } else {
        passed := passed + [(c, msg)];
      }
    }
  }
}
