/** Any number of relays is as good as one, and one leaves a well-formed stream as it is. */
module StreamRelay {
  import opened Collections
  import opened Text
  import opened StreamSpec

  /** No character the header block uses itself. */
  predicate Clean(mime: string) {
    '\t' !in mime && '\n' !in mime
  }

  // ---------------------------------------------------------------- header block

  lemma TwoParts(key: string, value: string)
    requires '\t' !in key && '\t' !in value
    ensures Split(Line(key, value), '\t') == [key, value]
  {
    SplitFirst(key, '\t', value);
    SplitWhole(value, '\t');
  }

  function StatusLine(s: Sender): string { Line("status", Decimal(s.status)) }

  function MimeLine(s: Sender): string { Line("mime-type", s.mime) }

  function LengthLine(s: Sender): string { Line("content-length", Decimal(s.length)) }

  lemma BlockLines(s: Sender)
    requires Clean(s.mime)
    ensures Split(HeaderBlock(s), '\n') == [StatusLine(s)] + ([MimeLine(s)] + [LengthLine(s), ""])
  {
    SplitTerminated(LengthLine(s), '\n');
    SplitFirst(MimeLine(s), '\n', LengthLine(s) + "\n");
    SplitFirst(StatusLine(s), '\n', MimeLine(s) + "\n" + (LengthLine(s) + "\n"));
  }

  lemma StatusRead(r: Receiver, s: Sender, more: seq<string>)
    requires r.live
    ensures ScanLines(r, [StatusLine(s)] + more)
         == if s.status == 200 then Reaction(ScanLines(r, more).recv, [SetStatus(200)] + ScanLines(r, more).calls)
            else Reaction(r.(live := false), [SetStatus(s.status), Cancel])
  {
    TwoParts("status", Decimal(s.status));
    AtoiPrinted(s.status);
    assert ([StatusLine(s)] + more)[1..] == more;
  }

  lemma MimeRead(r: Receiver, s: Sender, more: seq<string>)
    requires r.live && Clean(s.mime)
    ensures ScanLines(r, [MimeLine(s)] + more)
         == Reaction(ScanLines(r, more).recv, [SetMime(s.mime)] + ScanLines(r, more).calls)
  {
    TwoParts("mime-type", s.mime);
    assert ([MimeLine(s)] + more)[1..] == more;
  }

  lemma LengthRead(r: Receiver, s: Sender)
    requires r.live
    ensures ScanLines(r, [LengthLine(s), ""]) == Reaction(r.(length := AsSizeT(s.length)), [SetLength(s.length)])
  {
    TwoParts("content-length", Decimal(s.length));
    AtoiPrinted(s.length);
    assert Split("", '\t') == [""] && [LengthLine(s), ""][1..] == [""];
    var r' := r.(length := AsSizeT(s.length));
    assert ScanLines(r', [""]) == Reaction(r', []);
  }

  /** The block read back: all three fields when the status is 200, else the status and a cancel, and
      then the mime type may hold anything. */
  lemma HeadersRead(r: Receiver, s: Sender)
    requires r.live && (s.status == 200 ==> Clean(s.mime))
    ensures React(r, Arrive(Headers(HeaderBlock(s))))
         == if s.status == 200 then
              Reaction(r.(armed := false, length := AsSizeT(s.length)),
                       [SetStatus(200), SetMime(s.mime), SetLength(s.length)])
            else Reaction(r.(armed := false, live := false), [SetStatus(s.status), Cancel])
  {
    var r' := r.(armed := false);
    if s.status == 200 {
      BlockLines(s);
      StatusRead(r', s, [MimeLine(s)] + [LengthLine(s), ""]);
      MimeRead(r', s, [LengthLine(s), ""]);
      LengthRead(r', s);
    } else {
      var rest := MimeLine(s) + "\n" + (LengthLine(s) + "\n");
      SplitFirst(StatusLine(s), '\n', rest);
      StatusRead(r', s, Split(rest, '\n'));
    }
  }

  // ---------------------------------------------------------------- what a consumer can hear

  /** Set-calls with status 200 and clean mime types and non-empty chunks, then at most one finish or
      cancel, and that last; another status is followed by the cancel at once. */
  ghost predicate Good(calls: seq<Call>)
    decreases calls
  {
    calls == [] ||
    match calls[0]
    case SetStatus(code) => if code == 200 then Good(calls[1..]) else calls[1..] == [Cancel]
    case SetMime(mime) => Clean(mime) && Good(calls[1..])
    case SetLength(_) => Good(calls[1..])
    case Content(bytes) => bytes != "" && Good(calls[1..])
    case _ => calls[1..] == []
  }

  lemma LineGood(r: Receiver, line: string, after: seq<Call>)
    requires r.live && '\n' !in line && HeaderLine(r, line).recv.live && Good(after)
    ensures Good(HeaderLine(r, line).calls + after)
  {
    var parts, calls := Split(line, '\t'), HeaderLine(r, line).calls;
    SplitParts(line, '\t');
    assert |parts| == 2 ==> parts[1] in parts;
    if calls == [] { assert calls + after == after; } else { assert (calls + after)[1..] == after; }
  }

  lemma {:induction false} ScanGood(r: Receiver, lines: seq<string>, after: seq<Call>)
    requires r.live && Good(after) && forall l :: l in lines ==> '\n' !in l
    requires !ScanLines(r, lines).recv.live ==> after == []
    ensures Good(ScanLines(r, lines).calls + after)
    decreases lines
  {
    if lines == [] {
      assert [] + after == after;
    } else {
      SplitParts(lines[0], '\t');
      var x := HeaderLine(r, lines[0]);
      if x.recv.live {
        ScanGood(x.recv, lines[1..], after);
        var rest := ScanLines(x.recv, lines[1..]).calls;
        Assoc(x.calls, rest, after);
        LineGood(r, lines[0], rest + after);
      } else {
        assert x.calls[1..] == [Cancel] && x.calls + [] == x.calls;
      }
    }
  }

  /** Whatever arrives, in whatever order, a consumer hears a good sequence of calls. */
  lemma {:induction false} HeardGood(r: Receiver, es: seq<Event>)
    ensures Good(ReactAll(r, es).calls)
    decreases es
  {
    if es == [] {
    } else if r.live {
      var first := React(r, es[0]);
      var rest := ReactAll(first.recv, es[1..]);
      HeardGood(first.recv, es[1..]);
      if !first.recv.live { DeadHearsNothing(first.recv, es[1..]); }
      match es[0] {
        case Arrive(Headers(block)) =>
          SplitParts(block, '\n');
          ScanGood(r.(armed := false), Split(block, '\n'), rest.calls);
        case Arrive(Data(bytes)) =>
          assert (first.calls + rest.calls)[1..] == rest.calls;
        case _ =>
          assert first.calls == [] || (first.calls + rest.calls)[1..] == rest.calls;
      }
      assert [] + rest.calls == rest.calls;
    } else {
      DeadHearsNothing(r, es);
    }
  }

  // ---------------------------------------------------------------- transparency

  /** The next hop while its headers are still owed, and afterwards. */
  ghost predicate InStep(s: Sender, r: Receiver, s2: Sender) {
    r.live && if s.sentFirst then s2.sentFirst else s2 == NEW_SENDER && s.status == 200 && Clean(s.mime)
  }

  lemma SetsEmitNothing(status: int, mime: string, len: int)
    ensures EmitAll(NEW_SENDER, [SetStatus(status), SetMime(mime), SetLength(len)])
         == Emission(Sender(false, status, mime, len), [])
  {
    var s1 := NEW_SENDER.(status := status);
    assert [SetStatus(status), SetMime(mime), SetLength(len)][1..] == [SetMime(mime), SetLength(len)];
    assert [SetMime(mime), SetLength(len)][1..] == [SetLength(len)];
    assert EmitAll(s1.(mime := mime), [SetLength(len)]) == Emission(Sender(false, status, mime, len), []);
    assert EmitAll(s1, [SetMime(mime), SetLength(len)]) == Emission(Sender(false, status, mime, len), []);
  }

  /** Data that goes out first, with its headers, makes the next hop send the same. */
  lemma FirstDataRelayed(s: Sender, r: Receiver, s2: Sender, bytes: string)
    requires InStep(s, r, s2) && !s.sentFirst
    ensures var w := WriteContent(s, bytes);
            var heard := ReactAll(r, Arrivals(w.wires));
            var out := EmitAll(s2, heard.calls);
            out.wires == w.wires && out.sender.sentFirst
            && heard.recv.live == (bytes != "")
  {
    var h := Headers(HeaderBlock(s));
    HeadersRead(r, s);
    var sets := [SetStatus(200), SetMime(s.mime), SetLength(s.length)];
    var last := if bytes == "" then Finish else Content(bytes);
    var r1 := React(r, Arrive(h)).recv;
    assert Arrivals([Data(bytes)]) == [Arrive(Data(bytes))] && [h, Data(bytes)][1..] == [Data(bytes)];
    assert Arrivals([h, Data(bytes)]) == [Arrive(h), Arrive(Data(bytes))];
    assert ReactAll(r1, [Arrive(Data(bytes))]).calls == [last];
    assert ReactAll(r, [Arrive(h), Arrive(Data(bytes))]).calls == sets + [last];
    EmitAppend(s2, sets, [last]);
    SetsEmitNothing(200, s.mime, s.length);
    assert s == Sender(false, 200, s.mime, s.length);
    assert EmitAll(s, [last]).wires == WriteContent(s, bytes).wires;
  }

  lemma LaterDataRelayed(s: Sender, r: Receiver, s2: Sender, bytes: string)
    requires InStep(s, r, s2) && s.sentFirst
    ensures var w := WriteContent(s, bytes);
            var heard := ReactAll(r, Arrivals(w.wires));
            var out := EmitAll(s2, heard.calls);
            out.wires == w.wires && out.sender.sentFirst
            && heard.recv.live == (bytes != "")
  {
    var last := if bytes == "" then Finish else Content(bytes);
    assert Arrivals([Data(bytes)]) == [Arrive(Data(bytes))];
    assert ReactAll(r, [Arrive(Data(bytes))]).calls == [last];
    assert EmitAll(s2, [last]).wires == [Data(bytes)];
  }

  /** From hops in step, the next hop sends what this one sends. */
  lemma {:induction false} RelaysSame(s: Sender, r: Receiver, s2: Sender, calls: seq<Call>)
    requires InStep(s, r, s2) && Good(calls)
    ensures EmitAll(s2, ReactAll(r, Arrivals(EmitAll(s, calls).wires)).calls).wires == EmitAll(s, calls).wires
    decreases calls
  {
    if calls == [] {
    } else {
      var c, rest := calls[0], calls[1..];
      var e := Emit(s, c);
      if c.SetStatus? && c.code != 200 {
        CancelRelayed(r, s2);
        assert EmitAll(e.sender, rest).wires == [Fail];
        assert EmitAll(s, calls).wires == [Fail];
      } else if c.SetStatus? || c.SetMime? || c.SetLength? {
        RelaysSame(e.sender, r, s2, rest);
        assert EmitAll(s, calls).wires == EmitAll(e.sender, rest).wires;
      } else if c.Cancel? {
        CancelRelayed(r, s2);
        assert EmitAll(s, calls).wires == [Fail];
      } else {
        var bytes := if c.Finish? then "" else c.bytes;
        if s.sentFirst { LaterDataRelayed(s, r, s2, bytes); } else { FirstDataRelayed(s, r, s2, bytes); }
        var more := EmitAll(e.sender, rest).wires;
        ArrivalsAppend(e.wires, more);
        ReactAppend(r, Arrivals(e.wires), Arrivals(more));
        var heard := ReactAll(r, Arrivals(e.wires));
        var later := ReactAll(heard.recv, Arrivals(more));
        EmitAppend(s2, heard.calls, later.calls);
        if c.Finish? {
          assert more == [];
        } else {
          RelaysSame(e.sender, heard.recv, EmitAll(s2, heard.calls).sender, rest);
        }
      }
    }
  }

  lemma CancelRelayed(r: Receiver, s2: Sender)
    requires r.live
    ensures EmitAll(s2, ReactAll(r, Arrivals([Fail])).calls).wires == [Fail]
  {
    assert Arrivals([Fail]) == [Arrive(Fail)];
    assert ReactAll(r, [Arrive(Fail)]).calls == [Cancel];
  }

  /** A relay passes on unchanged whatever an adaptor sends for good calls. */
  lemma GoodWiresUnchanged(calls: seq<Call>)
    requires Good(calls)
    ensures Relay(Wires(calls)) == Wires(calls)
  {
    RelaysSame(NEW_SENDER, STARTED, NEW_SENDER, calls);
  }

  /** For every sequence of wire messages, however ill-formed or cut short, and any number of relays
      after the first: they send, and so the last consumer hears, what the first relay sent. */
  lemma {:induction false} RelaysTransparent(ws: seq<Wire>, k: nat)
    ensures RelayHops(k + 1, ws) == Relay(ws)
    ensures Heard(RelayHops(k + 1, ws)) == Heard(Relay(ws))
    decreases k
  {
    if k == 0 {
    } else {
      RelaysTransparent(ws, k - 1);
      HeardGood(STARTED, Arrivals(ws));
      GoodWiresUnchanged(Heard(ws));
    }
  }

  // ---------------------------------------------------------------- a whole stream

  function Contents(chunks: seq<string>): (r: seq<Call>)
    ensures |r| == |chunks| && forall i :: 0 <= i < |r| ==> r[i] == Content(chunks[i])
  {
    seq(|chunks|, i requires 0 <= i < |chunks| => Content(chunks[i]))
  }

  /** What a source does with its adaptor: status, mime type, length, chunks, and finish or cancel. */
  function StreamCalls(status: int, mime: string, len: int, chunks: seq<string>, end: Call): seq<Call> {
    [SetStatus(status), SetMime(mime), SetLength(len)] + Contents(chunks) + [end]
  }

  /** Hearing one wire message, then the rest. */
  lemma HeardFirst(r: Receiver, w: Wire, more: seq<Wire>)
    ensures var x := React(r, Arrive(w));
            ReactAll(r, Arrivals([w] + more)).calls == x.calls + ReactAll(x.recv, Arrivals(more)).calls
  {
    assert ([w] + more)[1..] == more;
    var es := Arrivals([w] + more);
    assert es[1..] == Arrivals(more);
  }

  lemma {:induction false} LaterHeard(s: Sender, r: Receiver, chunks: seq<string>, end: Call)
    requires s.sentFirst && r.live && (end.Finish? || end.Cancel?)
    requires forall i :: 0 <= i < |chunks| ==> chunks[i] != ""
    ensures ReactAll(r, Arrivals(EmitAll(s, Contents(chunks) + [end]).wires)).calls == Contents(chunks) + [end]
    decreases chunks
  {
    var calls := Contents(chunks) + [end];
    if chunks == [] {
      var w := if end.Finish? then Data("") else Fail;
      assert calls == [end];
      assert EmitAll(s, [end]).wires == [w] + [];
      HeardFirst(r, w, []);
    } else {
      var later := Contents(chunks[1..]) + [end];
      assert calls == [Content(chunks[0])] + later && calls[1..] == later;
      var r' := React(r, Arrive(Data(chunks[0]))).recv;
      LaterHeard(s, r', chunks[1..], end);
      HeardFirst(r, Data(chunks[0]), EmitAll(s, later).wires);
    }
  }

  lemma StreamEmitted(status: int, mime: string, len: int, chunks: seq<string>, end: Call)
    ensures Wires(StreamCalls(status, mime, len, chunks, end))
         == EmitAll(Sender(false, status, mime, len), Contents(chunks) + [end]).wires
  {
    var sets := [SetStatus(status), SetMime(mime), SetLength(len)];
    Assoc(sets, Contents(chunks), [end]);
    SetsEmitNothing(status, mime, len);
    EmitAppend(NEW_SENDER, sets, Contents(chunks) + [end]);
  }

  /** A source sends something other than a bare cancel. */
  predicate SendsHeaders(chunks: seq<string>, end: Call) {
    chunks != [] || end.Finish?
  }

  /** How a stream that sends headers looks on the wire. */
  lemma StreamStarts(s: Sender, chunks: seq<string>, end: Call)
    requires !s.sentFirst && SendsHeaders(chunks, end) && (end.Finish? || end.Cancel?)
    ensures EmitAll(s, Contents(chunks) + [end]).wires
         == [Headers(HeaderBlock(s))] + EmitAll(s.(sentFirst := true), Contents(chunks) + [end]).wires
  {
    var calls := Contents(chunks) + [end];
    assert calls[0] == if chunks == [] then Finish else Content(chunks[0]);
    var bytes := if chunks == [] then "" else chunks[0];
    assert Emit(s, calls[0]).wires == [Headers(HeaderBlock(s))] + Emit(s.(sentFirst := true), calls[0]).wires;
  }

  lemma StreamHeard(s: Sender, chunks: seq<string>, end: Call)
    requires !s.sentFirst && s.status == 200 && Clean(s.mime) && SendsHeaders(chunks, end)
    requires end.Finish? || end.Cancel?
    requires forall i :: 0 <= i < |chunks| ==> chunks[i] != ""
    ensures Heard(EmitAll(s, Contents(chunks) + [end]).wires) == StreamCalls(200, s.mime, s.length, chunks, end)
  {
    var calls := Contents(chunks) + [end];
    var h := Headers(HeaderBlock(s));
    StreamStarts(s, chunks, end);
    HeadersRead(STARTED, s);
    HeardFirst(STARTED, h, EmitAll(s.(sentFirst := true), calls).wires);
    LaterHeard(s.(sentFirst := true), React(STARTED, Arrive(h)).recv, chunks, end);
    Assoc([SetStatus(200), SetMime(s.mime), SetLength(s.length)], Contents(chunks), [end]);
  }

  /** Good calls hold no empty chunk, no unclean mime type, and a status other than 200 only right
      before a final cancel. */
  lemma {:induction false} GoodEverywhere(calls: seq<Call>)
    requires Good(calls)
    ensures forall i :: 0 <= i < |calls| && calls[i].Content? ==> calls[i].bytes != ""
    ensures forall i :: 0 <= i < |calls| && calls[i].SetMime? ==> Clean(calls[i].mime)
    ensures forall i :: 0 <= i < |calls| && calls[i].SetStatus? && calls[i].code != 200 ==> i == |calls| - 2
    ensures forall i :: 0 <= i < |calls| && (calls[i].Finish? || calls[i].Cancel?) ==> i == |calls| - 1
    decreases calls
  {
    if calls == [] {
    } else {
      if calls[0].SetStatus? && calls[0].code != 200 {
        assert calls == [calls[0], Cancel];
      } else if !calls[0].Finish? && !calls[0].Cancel? {
        GoodEverywhere(calls[1..]);
        assert forall i :: 1 <= i < |calls| ==> calls[i] == calls[1..][i - 1];
      }
    }
  }

  lemma BareCancel(s: Sender, k: nat)
    ensures EmitAll(s, [Cancel]).wires == [Fail]
    ensures RelayHops(k, [Fail]) == [Fail] && Heard([Fail]) == [Cancel]
  {
    assert Arrivals([Fail]) == [Arrive(Fail)];
    assert ReactAll(STARTED, [Arrive(Fail)]).calls == [Cancel];
    CancelRelayed(STARTED, NEW_SENDER);
    if k == 0 {
    } else {
      BareCancel(s, k - 1);
    }
  }

  /** A cancel before anything was sent hides what was set. */
  lemma BareCancelHeard(status: int, mime: string, len: int, k: nat)
    ensures Heard(RelayHops(k, Wires(StreamCalls(status, mime, len, [], Cancel)))) == [Cancel]
  {
    StreamEmitted(status, mime, len, [], Cancel);
    BareCancel(Sender(false, status, mime, len), k);
    assert Contents([]) + [Cancel] == [Cancel];
  }

  lemma GoodStream(status: int, mime: string, len: int, chunks: seq<string>, end: Call)
    requires Good(StreamCalls(status, mime, len, chunks, end))
    ensures status == 200 && Clean(mime) && forall i :: 0 <= i < |chunks| ==> chunks[i] != ""
  {
    var calls := StreamCalls(status, mime, len, chunks, end);
    GoodEverywhere(calls);
    assert calls[0] == SetStatus(status) && calls[1] == SetMime(mime);
    assert forall i :: 0 <= i < |chunks| ==> calls[3 + i] == Content(chunks[i]);
  }

  lemma ArrivesOnlyIf(status: int, mime: string, len: int, chunks: seq<string>, end: Call, k: nat)
    requires end.Finish? || end.Cancel?
    requires var calls := StreamCalls(status, mime, len, chunks, end); Heard(RelayHops(k, Wires(calls))) == calls
    ensures status == 200 && Clean(mime) && SendsHeaders(chunks, end)
    ensures forall i :: 0 <= i < |chunks| ==> chunks[i] != ""
  {
    var calls := StreamCalls(status, mime, len, chunks, end);
    HeardGood(STARTED, Arrivals(RelayHops(k, Wires(calls))));
    GoodStream(status, mime, len, chunks, end);
    BareCancelHeard(status, mime, len, k);
  }

  predicate Whole(status: int, mime: string, chunks: seq<string>, end: Call) {
    status == 200 && Clean(mime) && SendsHeaders(chunks, end) && forall i :: 0 <= i < |chunks| ==> chunks[i] != ""
  }

  /** Over k relays the calls are heard as they were made. */
  predicate ArrivesOver(k: nat, calls: seq<Call>) {
    Heard(RelayHops(k, Wires(calls))) == calls
  }

  /** The consumer hears exactly the calls the source made, status, mime type, length, bytes, chunk
      boundaries and end, over any number of relays, if and only if the status is 200, the mime type
      has no tab or newline, no chunk is empty, and it is not a cancel before anything was sent. */
  lemma StreamArrivesIff(status: int, mime: string, len: int, chunks: seq<string>, end: Call, k: nat)
    requires end.Finish? || end.Cancel?
    ensures ArrivesOver(k, StreamCalls(status, mime, len, chunks, end)) <==> Whole(status, mime, chunks, end)
  {
    var calls := StreamCalls(status, mime, len, chunks, end);
    if Whole(status, mime, chunks, end) {
      StreamEmitted(status, mime, len, chunks, end);
      StreamHeard(Sender(false, status, mime, len), chunks, end);
      HeardGood(STARTED, Arrivals(Wires(calls)));
      GoodWiresUnchanged(calls);
      if k > 0 { RelaysTransparent(Wires(calls), k - 1); }
    }
    if Heard(RelayHops(k, Wires(calls))) == calls { ArrivesOnlyIf(status, mime, len, chunks, end, k); }
  }

  // ---------------------------------------------------------------- what a source need not set

  /** The values last set, or the given ones if nothing sets them. */
  function LastStatus(sets: seq<Call>, code: int): int {
    if sets == [] then code
    else if sets[|sets| - 1].SetStatus? then sets[|sets| - 1].code
    else LastStatus(sets[..|sets| - 1], code)
  }

  function LastMime(sets: seq<Call>, mime: string): string
    decreases sets
  {
    if sets == [] then mime
    else if sets[|sets| - 1].SetMime? then sets[|sets| - 1].mime
    else LastMime(sets[..|sets| - 1], mime)
  }

  function LastLength(sets: seq<Call>, len: int): int {
    if sets == [] then len
    else if sets[|sets| - 1].SetLength? then sets[|sets| - 1].len
    else LastLength(sets[..|sets| - 1], len)
  }

  predicate SetsOnly(sets: seq<Call>) {
    forall i :: 0 <= i < |sets| ==> sets[i].SetStatus? || sets[i].SetMime? || sets[i].SetLength?
  }

  lemma {:induction false} SetsKept(s: Sender, sets: seq<Call>)
    requires SetsOnly(sets)
    ensures EmitAll(s, sets) == Emission(Sender(s.sentFirst, LastStatus(sets, s.status), LastMime(sets, s.mime),
                                                LastLength(sets, s.length)), [])
    decreases sets
  {
    if sets == [] {
    } else {
      var before, c := sets[..|sets| - 1], sets[|sets| - 1];
      assert before + [c] == sets;
      SetsKept(s, before);
      EmitAppend(s, before, [c]);
      assert EmitAll(EmitAll(s, before).sender, [c]).wires == [];
    }
  }

  /** Setting fields in any order and as often as one likes leads to what setting the last values does, with
      200, "application/binary" and 0 for what is never set. */
  lemma SetsAsWires(sets: seq<Call>, chunks: seq<string>, end: Call)
    requires SetsOnly(sets)
    ensures Wires(sets + (Contents(chunks) + [end]))
         == Wires(StreamCalls(LastStatus(sets, 200), LastMime(sets, "application/binary"), LastLength(sets, 0), chunks, end))
  {
    SetsKept(NEW_SENDER, sets);
    EmitAppend(NEW_SENDER, sets, Contents(chunks) + [end]);
    StreamEmitted(LastStatus(sets, 200), LastMime(sets, "application/binary"), LastLength(sets, 0), chunks, end);
  }

  /** What the consumer hears of such a source over any number of relays: the last values set or those
      defaults, and then the chunks and the end, if and only if that is a whole stream. */
  lemma SourceHeardIff(sets: seq<Call>, chunks: seq<string>, end: Call, k: nat)
    requires SetsOnly(sets) && (end.Finish? || end.Cancel?)
    ensures var status, mime := LastStatus(sets, 200), LastMime(sets, "application/binary");
            (Heard(RelayHops(k, Wires(sets + (Contents(chunks) + [end]))))
             == StreamCalls(status, mime, LastLength(sets, 0), chunks, end)) <==> Whole(status, mime, chunks, end)
  {
    SetsAsWires(sets, chunks, end);
    StreamArrivesIff(LastStatus(sets, 200), LastMime(sets, "application/binary"), LastLength(sets, 0), chunks, end, k);
  }

  /** A source that sets another status and sends something is heard as that status and a cancel one
      hop away, and as a bare cancel from then on. */
  lemma OtherStatusHeard(status: int, mime: string, len: int, chunks: seq<string>, end: Call, k: nat)
    requires status != 200 && SendsHeaders(chunks, end) && (end.Finish? || end.Cancel?)
    ensures var ws := Wires(StreamCalls(status, mime, len, chunks, end));
            Heard(ws) == [SetStatus(status), Cancel] && Heard(RelayHops(k + 1, ws)) == [Cancel]
  {
    var ws := Wires(StreamCalls(status, mime, len, chunks, end));
    var s := Sender(false, status, mime, len);
    var h := Headers(HeaderBlock(s));
    var more := EmitAll(s.(sentFirst := true), Contents(chunks) + [end]).wires;
    StreamEmitted(status, mime, len, chunks, end);
    StreamStarts(s, chunks, end);
    HeadersRead(STARTED, s);
    HeardFirst(STARTED, h, more);
    DeadHearsNothing(React(STARTED, Arrive(h)).recv, Arrivals(more));
    StatusThenCancel(status);
    RelaysTransparent(ws, k);
    BareCancel(NEW_SENDER, 0);
  }

  lemma StatusThenCancel(code: int)
    ensures Wires([SetStatus(code), Cancel]) == [Fail]
  {
    assert [SetStatus(code), Cancel][1..] == [Cancel];
    BareCancel(NEW_SENDER.(status := code), 0);
  }

  lemma NotFoundIsStatusLine()
    ensures NOT_FOUND.block == StatusLine(NEW_SENDER.(status := 404)) + "\n"
  {
    assert Digits(4) == "4" && Digits(40) == "40";
    assert Decimal(404) == "404";
    assert "status" + "\t" + "404" == "status\t404";
  }

  lemma StatusOnlyHeard(s: Sender, k: nat)
    requires s.status != 200
    ensures var ws := [Headers(StatusLine(s) + "\n")];
            Heard(ws) == [SetStatus(s.status), Cancel] && Heard(RelayHops(k + 1, ws)) == [Cancel]
  {
    var w := Headers(StatusLine(s) + "\n");
    SplitTerminated(StatusLine(s), '\n');
    StatusRead(STARTED.(armed := false), s, [""]);
    assert [StatusLine(s)] + [""] == [StatusLine(s), ""];
    HeardFirst(STARTED, w, []);
    assert [w] + [] == [w];
    assert ReactAll(React(STARTED, Arrive(w)).recv, []).calls == [];
    StatusThenCancel(s.status);
    RelaysTransparent([w], k);
    BareCancel(NEW_SENDER, 0);
  }

  /** A missing sid is heard as 404 and a cancel one hop away, and as a bare cancel from then on. */
  lemma NotFoundHeard(k: nat)
    ensures Heard([NOT_FOUND]) == [SetStatus(404), Cancel]
    ensures Heard(RelayHops(k + 1, [NOT_FOUND])) == [Cancel]
  {
    NotFoundIsStatusLine();
    StatusOnlyHeard(NEW_SENDER.(status := 404), k);
  }

  /** The header block comes back whole exactly when the mime type has no tab or newline. */
  lemma HeaderBlockRoundTrip(r: Receiver, s: Sender)
    requires r.live && s.status == 200
    ensures (React(r, Arrive(Headers(HeaderBlock(s)))).calls == [SetStatus(200), SetMime(s.mime), SetLength(s.length)])
            <==> Clean(s.mime)
  {
    var es := [Arrive(Headers(HeaderBlock(s)))];
    var calls := React(r, es[0]).calls;
    HeardGood(r, es);
    assert ReactAll(r, es).calls == calls;
    GoodEverywhere(calls);
    assert [SetStatus(200), SetMime(s.mime), SetLength(s.length)][1] == SetMime(s.mime);
    if Clean(s.mime) { HeadersRead(r, s); }
  }
}
