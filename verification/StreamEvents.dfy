/** One transfer under every interleaving of arrivals, timeout and connection loss. */
module StreamEvents {
  import opened Collections
  import opened StreamSpec
  import Text

  predicate Terminal(c: Call) {
    c.Finish? || c.Cancel?
  }

  function Terminals(calls: seq<Call>): nat {
    Count(calls, Terminal)
  }

  /** The bytes handed on. */
  function BytesIn(calls: seq<Call>): nat {
    if calls == [] then 0 else (if calls[0].Content? then |calls[0].bytes| else 0) + BytesIn(calls[1..])
  }

  lemma {:induction false} BytesAppend(a: seq<Call>, b: seq<Call>)
    ensures BytesIn(a + b) == BytesIn(a) + BytesIn(b)
  {
    if a == [] {
      assert a + b == b;
    } else {
      assert (a + b)[1..] == a[1..] + b;
      BytesAppend(a[1..], b);
    }
  }

  /** Calls of a transfer: live with no terminal call made, or over with one, made last. */
  ghost predicate EndsOnce(live: bool, calls: seq<Call>) {
    if live then Terminals(calls) == 0
    else calls != [] && Terminal(calls[|calls| - 1]) && Terminals(calls) == 1
  }

  lemma EndsOnceJoin(calls: seq<Call>, live: bool, more: seq<Call>)
    requires Terminals(calls) == 0 && EndsOnce(live, more)
    ensures EndsOnce(live, calls + more)
  {
    CountAppend(calls, more, Terminal);
  }

  lemma LineEndsOnce(r: Receiver, line: string)
    requires r.live
    ensures EndsOnce(HeaderLine(r, line).recv.live, HeaderLine(r, line).calls)
    ensures HeaderLine(r, line).recv.bytes == r.bytes && BytesIn(HeaderLine(r, line).calls) == 0
  {
    var calls := HeaderLine(r, line).calls;
    if |calls| == 2 {
      assert calls[1..] == [Cancel] && Terminals([Cancel]) == 1 && BytesIn([Cancel]) == 0;
    } else if |calls| == 1 {
      assert calls[1..] == [];
    }
  }

  lemma {:induction false} ScanEndsOnce(r: Receiver, lines: seq<string>)
    requires r.live
    ensures EndsOnce(ScanLines(r, lines).recv.live, ScanLines(r, lines).calls)
    ensures ScanLines(r, lines).recv.bytes == r.bytes && BytesIn(ScanLines(r, lines).calls) == 0
    decreases lines
  {
    if lines == [] {
    } else {
      var x := HeaderLine(r, lines[0]);
      LineEndsOnce(r, lines[0]);
      if x.recv.live {
        ScanEndsOnce(x.recv, lines[1..]);
        var rest := ScanLines(x.recv, lines[1..]);
        EndsOnceJoin(x.calls, rest.recv.live, rest.calls);
        BytesAppend(x.calls, rest.calls);
      }
    }
  }

  lemma ReactEndsOnce(r: Receiver, e: Event)
    requires r.live
    ensures var x := React(r, e);
            && EndsOnce(x.recv.live, x.calls)
            && x.recv.bytes == r.bytes + BytesIn(x.calls)
  {
    var x := React(r, e);
    if e.Arrive? && e.wire.Headers? {
      ScanEndsOnce(r.(armed := false), Text.Split(e.wire.block, '\n'));
    } else if x.calls != [] {
      assert x.calls[1..] == [];
    }
  }

  /** The block has a status line that says something other than 200. */
  ghost predicate RefusesIn(lines: seq<string>) {
    exists l :: l in lines && Text.Split(l, '\t')[0] == "status"
                && |Text.Split(l, '\t')| == 2 && Text.Atoi(Text.Split(l, '\t')[1]) != 200
  }

  lemma {:induction false} ScanLiveIff(r: Receiver, lines: seq<string>)
    requires r.live
    ensures ScanLines(r, lines).recv.live <==> !RefusesIn(lines)
    decreases lines
  {
    if lines == [] {
    } else {
      var x := HeaderLine(r, lines[0]);
      assert !x.recv.live ==> RefusesIn(lines);
      if x.recv.live {
        ScanLiveIff(x.recv, lines[1..]);
        assert lines == [lines[0]] + lines[1..];
        assert RefusesIn(lines[1..]) ==> RefusesIn(lines) by {
          if RefusesIn(lines[1..]) {
            var l :| l in lines[1..] && Text.Split(l, '\t')[0] == "status"
                     && |Text.Split(l, '\t')| == 2 && Text.Atoi(Text.Split(l, '\t')[1]) != 200;
            assert l in lines;
          }
        }
      }
    }
  }

  /** The events that end a transfer: the empty data message, SIDFAIL, headers that refuse, losing the
      connection, and the timeout while no headers have come. */
  ghost predicate Ends(r: Receiver, e: Event) {
    match e
    case Arrive(Headers(block)) => RefusesIn(Text.Split(block, '\n'))
    case Arrive(w) => w == Data("") || w == Fail
    case Timeout => r.armed
    case Lost => true
  }

  /** Those events end it and no others do. */
  lemma EndsIff(r: Receiver, e: Event)
    requires r.live
    ensures !React(r, e).recv.live <==> Ends(r, e)
  {
    if e.Arrive? && e.wire.Headers? { ScanLiveIff(r.(armed := false), Text.Split(e.wire.block, '\n')); }
  }

  /** For every interleaving, a transfer's adaptor gets no terminal call while the transfer lives and
      exactly one, after which nothing more, once it is over; the byte count is the bytes handed on. */
  lemma {:induction false} OneTerminalCall(r: Receiver, es: seq<Event>)
    requires r.live
    ensures var x := ReactAll(r, es);
            EndsOnce(x.recv.live, x.calls) && x.recv.bytes == r.bytes + BytesIn(x.calls)
    decreases es
  {
    if es == [] {
    } else {
      var first := React(r, es[0]);
      var rest := ReactAll(first.recv, es[1..]);
      ReactEndsOnce(r, es[0]);
      BytesAppend(first.calls, rest.calls);
      if first.recv.live {
        OneTerminalCall(first.recv, es[1..]);
        EndsOnceJoin(first.calls, rest.recv.live, rest.calls);
      } else {
        DeadHearsNothing(first.recv, es[1..]);
        assert first.calls + rest.calls == first.calls;
      }
    }
  }

  lemma {:induction false} StaysDead(r: Receiver, a: seq<Event>, b: seq<Event>)
    ensures ReactAll(r, a + b).recv == ReactAll(ReactAll(r, a).recv, b).recv
    ensures !ReactAll(r, a).recv.live ==> !ReactAll(r, a + b).recv.live
  {
    ReactAppend(r, a, b);
    if !ReactAll(r, a).recv.live { DeadHearsNothing(ReactAll(r, a).recv, b); }
  }

  /** Once any ending event has happened, the transfer is over: exactly one terminal call was made. */
  lemma EndedExactlyOnce(before: seq<Event>, e: Event, after: seq<Event>)
    requires Ends(ReactAll(STARTED, before).recv, e)
    ensures var x := ReactAll(STARTED, before + [e] + after);
            !x.recv.live && Terminals(x.calls) == 1 && Terminal(x.calls[|x.calls| - 1])
  {
    var r := ReactAll(STARTED, before).recv;
    ReactAppend(STARTED, before, [e]);
    assert ReactAll(r, [e]).recv == React(r, e).recv;
    if r.live { EndsIff(r, e); }
    StaysDead(STARTED, before + [e], after);
    OneTerminalCall(STARTED, before + [e] + after);
  }

  // ---------------------------------------------------------------- what the transfer remembers

  predicate IsHeaders(e: Event) {
    e.Arrive? && e.wire.Headers?
  }

  /** A length that fits is remembered as it is, and a negative one, as size_t has it, counted from 2^64. */
  lemma SizeTKept(n: int)
    ensures 0 <= n < 0x1_0000_0000_0000_0000 ==> AsSizeT(n) == n
    ensures -0x8000_0000 <= n < 0 ==> AsSizeT(n) == n + 0x1_0000_0000_0000_0000
  {
  }

  /** The length last set in calls, len if none is. */
  function LengthAfter(len: nat, calls: seq<Call>): nat
    decreases calls
  {
    if calls == [] then len
    else LengthAfter(if calls[0].SetLength? then AsSizeT(calls[0].len) else len, calls[1..])
  }

  lemma {:induction false} LengthAppend(len: nat, a: seq<Call>, b: seq<Call>)
    ensures LengthAfter(len, a + b) == LengthAfter(LengthAfter(len, a), b)
    decreases a
  {
    if a == [] {
      assert a + b == b;
    } else {
      assert (a + b)[1..] == a[1..] + b;
      LengthAppend(if a[0].SetLength? then AsSizeT(a[0].len) else len, a[1..], b);
    }
  }

  lemma LineRemembers(r: Receiver, line: string)
    requires r.live
    ensures var x := HeaderLine(r, line);
            && x.recv.length == LengthAfter(r.length, x.calls) && Finish !in x.calls
            && x.recv.finished == r.finished && x.recv.armed == r.armed
  {
    var calls := HeaderLine(r, line).calls;
    if |calls| == 2 {
      assert calls[1..] == [Cancel] && [Cancel][1..] == [];
    } else if |calls| == 1 {
      assert calls[1..] == [];
    }
  }

  lemma {:induction false} ScanRemembers(r: Receiver, lines: seq<string>)
    requires r.live
    ensures var x := ScanLines(r, lines);
            && x.recv.length == LengthAfter(r.length, x.calls) && Finish !in x.calls
            && x.recv.finished == r.finished && x.recv.armed == r.armed
    decreases lines
  {
    if lines == [] {
    } else {
      var x := HeaderLine(r, lines[0]);
      LineRemembers(r, lines[0]);
      if x.recv.live {
        ScanRemembers(x.recv, lines[1..]);
        LengthAppend(r.length, x.calls, ScanLines(x.recv, lines[1..]).calls);
      }
    }
  }

  lemma ReactRemembers(r: Receiver, e: Event)
    requires r.live
    ensures var x := React(r, e);
            && x.recv.length == LengthAfter(r.length, x.calls)
            && (x.recv.finished <==> r.finished || Finish in x.calls)
            && (x.recv.armed <==> r.armed && !IsHeaders(e))
  {
    var x := React(r, e);
    if IsHeaders(e) {
      ScanRemembers(r.(armed := false), Text.Split(e.wire.block, '\n'));
    } else if x.calls != [] {
      assert x.calls[1..] == [];
    }
  }

  lemma {:induction false} RunRemembers(r: Receiver, es: seq<Event>)
    requires r.live
    ensures var x := ReactAll(r, es);
            && x.recv.length == LengthAfter(r.length, x.calls)
            && (x.recv.finished <==> r.finished || Finish in x.calls)
            && (x.recv.live ==> (x.recv.armed <==> r.armed && forall e :: e in es ==> !IsHeaders(e)))
    decreases es
  {
    if es == [] {
    } else {
      var first := React(r, es[0]);
      var rest := ReactAll(first.recv, es[1..]);
      ReactRemembers(r, es[0]);
      LengthAppend(r.length, first.calls, rest.calls);
      assert es == [es[0]] + es[1..];
      if first.recv.live {
        RunRemembers(first.recv, es[1..]);
      } else {
        DeadHearsNothing(first.recv, es[1..]);
        assert LengthAfter(first.recv.length, []) == first.recv.length;
      }
    }
  }

  /** For every interleaving from start_reply on: the transfer has counted exactly the bytes it handed on,
      knows the length it set last, is finished exactly if it said so, and its headers timer runs, while
      it lives, exactly as long as no headers have come. */
  lemma TransferRemembers(es: seq<Event>)
    ensures var x := ReactAll(STARTED, es);
            && x.recv.bytes == BytesIn(x.calls) && x.recv.length == LengthAfter(0, x.calls)
            && (x.recv.finished <==> Finish in x.calls)
            && (x.recv.live ==> (x.recv.armed <==> forall e :: e in es ==> !IsHeaders(e)))
  {
    OneTerminalCall(STARTED, es);
    RunRemembers(STARTED, es);
  }

  /** So a timeout cancels a live transfer if no headers have come, and does nothing otherwise. */
  lemma TimeoutCancelsIff(es: seq<Event>)
    requires ReactAll(STARTED, es).recv.live
    ensures var silent := forall e :: e in es ==> !IsHeaders(e);
            && React(ReactAll(STARTED, es).recv, Timeout).calls == (if silent then [Cancel] else [])
            && (React(ReactAll(STARTED, es).recv, Timeout).recv.live <==> !silent)
  {
    TransferRemembers(es);
  }

  /** What is called for one header line: a status, mime type or length exactly if the line has that key,
      one tab, and nothing more than the value after it; a cancel exactly for a status other than 200;
      and nothing else. */
  lemma LineCalls(r: Receiver, line: string, c: Call)
    requires r.live
    ensures var parts := Text.Split(line, '\t');
            c in HeaderLine(r, line).calls <==>
              (|parts| == 2 &&
               match c
               case SetStatus(code) => parts[0] == "status" && code == Text.Atoi(parts[1])
               case SetMime(mime) => parts[0] == "mime-type" && mime == parts[1]
               case SetLength(len) => parts[0] == "content-length" && len == Text.Atoi(parts[1])
               case Cancel => parts[0] == "status" && Text.Atoi(parts[1]) != 200
               case _ => false)
  {
    assert "status"[0] != "mime-type"[0] && "status"[0] != "content-length"[0] && "mime-type"[0] != "content-length"[0];
  }

  /** Lines are read in order, up to the one that cancels. */
  lemma {:induction false} ScanAppend(r: Receiver, a: seq<string>, b: seq<string>)
    requires r.live
    ensures var x := ScanLines(r, a);
            ScanLines(r, a + b) == if !x.recv.live then x
                                   else Reaction(ScanLines(x.recv, b).recv, x.calls + ScanLines(x.recv, b).calls)
    decreases a
  {
    if a == [] {
      assert a + b == b;
      assert [] + ScanLines(r, b).calls == ScanLines(r, b).calls;
    } else {
      assert (a + b)[1..] == a[1..] + b;
      var x := HeaderLine(r, a[0]);
      if x.recv.live {
        ScanAppend(x.recv, a[1..], b);
        var y := ScanLines(x.recv, a[1..]);
        if y.recv.live { Assoc(x.calls, y.calls, ScanLines(y.recv, b).calls); }
      }
    }
  }
}
