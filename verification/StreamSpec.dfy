/** Both halves of a stream as values: greynet_asyncadaptor turns calls into wire messages, ss_greynet
    turns wire messages into calls on the next adaptor. */
module StreamSpec {
  import opened Collections
  import opened Text

  /** SIDHEADERS, SIDDATA and SIDFAIL of one sid. */
  datatype Wire = Headers(block: string) | Data(bytes: string) | Fail

  /** What handle_sidrequest answers for a sid it cannot serve. */
  const NOT_FOUND := Headers("status\t404\n")

  /** Calls on an AsyncAdaptor. */
  datatype Call =
    | SetStatus(code: int)
    | SetMime(mime: string)
    | SetLength(len: int)
    | Content(bytes: string)
    | Finish
    | Cancel

  // ---------------------------------------------------------------- sending half

  datatype Sender = Sender(sentFirst: bool, status: int, mime: string, length: int)

  const NEW_SENDER := Sender(false, 200, "application/binary", 0)

  datatype Emission = Emission(sender: Sender, wires: seq<Wire>)

  function Line(key: string, value: string): string {
    key + "\t" + value
  }

  function HeaderBlock(s: Sender): string {
    Line("status", Decimal(s.status)) + "\n"
    + (Line("mime-type", s.mime) + "\n"
       + (Line("content-length", Decimal(s.length)) + "\n"))
  }

  function WriteContent(s: Sender, bytes: string): Emission {
    Emission(s.(sentFirst := true), (if s.sentFirst then [] else [Headers(HeaderBlock(s))]) + [Data(bytes)])
  }

  function Emit(s: Sender, c: Call): Emission {
    match c
    case SetStatus(code) => Emission(s.(status := code), [])
    case SetMime(mime) => Emission(s.(mime := mime), [])
    case SetLength(len) => Emission(s.(length := len), [])
    case Content(bytes) => WriteContent(s, bytes)
    case Finish => WriteContent(s, "")
    case Cancel => Emission(s, [Fail])
  }

  function EmitAll(s: Sender, calls: seq<Call>): Emission
    decreases calls
  {
    if calls == [] then Emission(s, [])
    else
      var e := Emit(s, calls[0]);
      var rest := EmitAll(e.sender, calls[1..]);
      Emission(rest.sender, e.wires + rest.wires)
  }

  // ---------------------------------------------------------------- receiving half

  /** live: registered with greynet; armed: the five second headers timer is running. */
  datatype Receiver = Receiver(live: bool, armed: bool, bytes: nat, length: nat, finished: bool)

  const STARTED := Receiver(true, true, 0, 0, false)

  datatype Event = Arrive(wire: Wire) | Timeout | Lost

  datatype Reaction = Reaction(recv: Receiver, calls: seq<Call>)

  /** int to size_t. */
  function AsSizeT(n: int): nat {
    n % 0x1_0000_0000_0000_0000
  }

  /** cancel_handler. */
  function CancelNow(r: Receiver): Reaction {
    Reaction(r.(live := false), [Cancel])
  }

  /** One header line; a status other than 200 cancels. */
  function HeaderLine(r: Receiver, line: string): Reaction {
    var parts := Split(line, '\t');
    if |parts| != 2 then Reaction(r, [])
    else if parts[0] == "status" then
      var code := Atoi(parts[1]);
      if code != 200 then Reaction(r.(live := false), [SetStatus(code), Cancel]) else Reaction(r, [SetStatus(code)])
    else if parts[0] == "mime-type" then Reaction(r, [SetMime(parts[1])])
    else if parts[0] == "content-length" then
      var len := Atoi(parts[1]);
      Reaction(r.(length := AsSizeT(len)), [SetLength(len)])
    else Reaction(r, [])
  }

  /** The loop over header lines, which a cancel ends. */
  function ScanLines(r: Receiver, lines: seq<string>): Reaction
    decreases lines
  {
    if lines == [] then Reaction(r, [])
    else
      var x := HeaderLine(r, lines[0]);
      if !x.recv.live then x
      else
        var rest := ScanLines(x.recv, lines[1..]);
        Reaction(rest.recv, x.calls + rest.calls)
  }

  /** Where the loop stands before line i, having made the given calls: more lines to come, or cancelled. */
  ghost predicate Scanning(x: Reaction, r: Receiver, lines: seq<string>, i: nat, made: seq<Call>) {
    i <= |lines| &&
    if r.live then x == Reaction(ScanLines(r, lines[i..]).recv, made + ScanLines(r, lines[i..]).calls)
    else x == Reaction(r, made)
  }

  lemma ScanningTurn(x: Reaction, r: Receiver, lines: seq<string>, i: nat, made: seq<Call>)
    requires r.live && i < |lines| && Scanning(x, r, lines, i, made)
    ensures var now := HeaderLine(r, lines[i]); Scanning(x, now.recv, lines, i + 1, made + now.calls)
  {
    var now := HeaderLine(r, lines[i]);
    assert lines[i..][1..] == lines[i + 1..];
    Assoc(made, now.calls, ScanLines(now.recv, lines[i + 1..]).calls);
  }

  /** A registered transfer reacts to what arrives for it; an unregistered one hears nothing. */
  function React(r: Receiver, e: Event): Reaction {
    if !r.live then Reaction(r, [])
    else
      match e
      case Arrive(Headers(block)) => ScanLines(r.(armed := false), Split(block, '\n'))
      case Arrive(Data(bytes)) =>
        if bytes == "" then Reaction(r.(finished := true, live := false), [Finish])
        else Reaction(r.(bytes := r.bytes + |bytes|), [Content(bytes)])
      case Arrive(Fail) => CancelNow(r)
      case Timeout => if r.armed then CancelNow(r) else Reaction(r, [])
      case Lost => CancelNow(r)
  }

  function ReactAll(r: Receiver, es: seq<Event>): Reaction
    decreases es
  {
    if es == [] then Reaction(r, [])
    else
      var first := React(r, es[0]);
      var rest := ReactAll(first.recv, es[1..]);
      Reaction(rest.recv, first.calls + rest.calls)
  }

  function Arrivals(ws: seq<Wire>): seq<Event> {
    if ws == [] then [] else [Arrive(ws[0])] + Arrivals(ws[1..])
  }

  /** What a peer's adaptor puts on the wire, what the next peer's consumer hears, and what a relay,
      which plugs the one into the other, sends on. */
  function Wires(calls: seq<Call>): seq<Wire> {
    EmitAll(NEW_SENDER, calls).wires
  }

  function Heard(ws: seq<Wire>): seq<Call> {
    ReactAll(STARTED, Arrivals(ws)).calls
  }

  function Relay(ws: seq<Wire>): seq<Wire> {
    Wires(Heard(ws))
  }

  function RelayHops(k: nat, ws: seq<Wire>): seq<Wire> {
    if k == 0 then ws else Relay(RelayHops(k - 1, ws))
  }

  // ---------------------------------------------------------------- joining runs

  lemma {:induction false} EmitAppend(s: Sender, a: seq<Call>, b: seq<Call>)
    ensures var first := EmitAll(s, a);
            var rest := EmitAll(first.sender, b);
            EmitAll(s, a + b) == Emission(rest.sender, first.wires + rest.wires)
    decreases a
  {
    if a == [] {
      assert a + b == b;
    } else {
      assert (a + b)[1..] == a[1..] + b;
      var e := Emit(s, a[0]);
      EmitAppend(e.sender, a[1..], b);
      var first := EmitAll(e.sender, a[1..]);
      var rest := EmitAll(first.sender, b);
      Assoc(e.wires, first.wires, rest.wires);
    }
  }

  lemma {:induction false} ReactAppend(r: Receiver, a: seq<Event>, b: seq<Event>)
    ensures var first := ReactAll(r, a);
            var rest := ReactAll(first.recv, b);
            ReactAll(r, a + b) == Reaction(rest.recv, first.calls + rest.calls)
    decreases a
  {
    if a == [] {
      assert a + b == b;
    } else {
      assert (a + b)[1..] == a[1..] + b;
      var x := React(r, a[0]);
      ReactAppend(x.recv, a[1..], b);
      var first := ReactAll(x.recv, a[1..]);
      var rest := ReactAll(first.recv, b);
      Assoc(x.calls, first.calls, rest.calls);
    }
  }

  lemma {:induction false} ArrivalsAppend(a: seq<Wire>, b: seq<Wire>)
    ensures Arrivals(a + b) == Arrivals(a) + Arrivals(b)
  {
    if a == [] {
      assert a + b == b;
    } else {
      assert (a + b)[1..] == a[1..] + b;
      ArrivalsAppend(a[1..], b);
      Assoc([Arrive(a[0])], Arrivals(a[1..]), Arrivals(b));
    }
  }

  lemma {:induction false} DeadHearsNothing(r: Receiver, es: seq<Event>)
    requires !r.live
    ensures ReactAll(r, es) == Reaction(r, [])
    decreases es
  {
    if es == [] {
    } else {
      DeadHearsNothing(r, es[1..]);
    }
  }
}
