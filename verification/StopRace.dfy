/** A run in which a peer loses the stop: a triangle, and the copies of the query and of the stop that
    race round it, every connection delivering in the order it was written to. */
module StopRace {
  import opened Wrappers
  import opened NodeSpec
  import opened Network
  import opened StopWave

  const LINKS := [Link(0, 1), Link(1, 2), Link(0, 2)]

  function Triangle(a: NodeState, b: NodeState, c: NodeState, pool: seq<Packet>, issued: seq<Purpose>): Net {
    Net([a, b, c], LINKS, pool, issued)
  }

  // Peer 0 asks query 0 and lets playdar resolve it under GUID 1; peer 1 learns it and relays it; peer 2
  // learns it from peer 1; peer 0 stops it; its own copy of the query, then its stop, reach peer 2.

  const A0 := NewNode([0, 2])
  const A1 := A0.(known := {0}, pending := {0})
  const A2 := A1.(pending := {}, asked := {0})
  const A3 := A2.(stopped := {0})

  const B0 := NewNode([0, 1])
  const B1 := B0.(seen := {1}, origins := map[0 := 0], known := {0}, pending := {0}, timers := {Timer(0, 1, 0)})
  const B2 := B1.(timers := {})

  const C0 := NewNode([1, 2])
  const C1 := C0.(seen := {1}, origins := map[0 := 1], known := {0}, pending := {0}, timers := {Timer(1, 1, 0)})
  const C2 := C1.(seen := {0, 1})

  const DIRECT := Packet(2, 0, 2, Query(1, 0))
  const RELAYED := Packet(1, 1, 2, Query(1, 0))

  const I1 := [ForQid(0)]
  const I2 := I1 + [ForQuery(0)]
  const I3 := I2 + [ForResult]
  const I4 := I3 + [Unused]
  const I5 := I4 + [ForResult]
  const I6 := I5 + [Unused]
  const I7 := I6 + [ForResult]
  const I8 := I7 + [ForResult]

  const START := Triangle(A0, B0, C0, [], [])
  const ASKED := Triangle(A1, B0, C0, [], I1)
  const SENT := Triangle(A2, B0, C0, [Packet(0, 0, 1, Query(1, 0)), DIRECT], I2)
  const LEARNT := Triangle(A2, B1, C0, [DIRECT], I3)
  const RELAYS := Triangle(A2, B2, C0, [DIRECT, RELAYED], I4)
  const BOTH := Triangle(A2, B2, C1, [DIRECT], I5)
  const STOPS := Triangle(A3, B2, C1, [DIRECT, Packet(0, 0, 1, QueryStop(0)), Packet(2, 0, 2, QueryStop(0))], I6)
  const DROPPED := Triangle(A3, B2, C1, [Packet(0, 0, 1, QueryStop(0)), Packet(2, 0, 2, QueryStop(0))], I7)
  const LOST := Triangle(A3, B2, C2, [Packet(0, 0, 1, QueryStop(0))], I8)

  const T7 := [Deliver(1)] + []
  const T6 := [Deliver(0)] + T7
  const T5 := [Stop(0, 0)] + T6
  const T4 := [Deliver(1)] + T5
  const T3 := [Fire(1, Timer(0, 1, 0), false)] + T4
  const T2 := [Deliver(0)] + T3
  const T1 := [Resolve(0, 0)] + T2
  const RACE := [LocalQuery(0)] + T1

  /** Packets are kept in the order they were sent: no earlier one of this sender waits on the connection. */
  predicate Oldest(net: Net, i: nat) {
    i < |net.pool| && forall j :: 0 <= j < i ==> net.pool[j].conn != net.pool[i].conn || net.pool[j].src != net.pool[i].src
  }

  /** The run delivers first in, first out on every connection in each direction. */
  predicate Fifo(net: Net, steps: seq<Step>)
    requires CanRun(net, steps)
    decreases steps
  {
    steps == [] || ((steps[0].Deliver? ==> Oldest(net, steps[0].i)) && Fifo(Apply(net, steps[0]), steps[1..]))
  }

  lemma BroadcastTwo(c: Conn, d: Conn, except: Option<Conn>, m: Msg)
    ensures Broadcast([c, d], except, m)
         == (if Some(c) == except then [] else [Send(c, m)]) + (if Some(d) == except then [] else [Send(d, m)])
  {
    assert [c, d][1..] == [d] && [d][1..] == [];
    assert Broadcast([d], except, m) == if Some(d) == except then [] else [Send(d, m)];
  }

  lemma Asked()
    ensures Enabled(START, LocalQuery(0)) && Apply(START, LocalQuery(0)) == ASKED
  {
    assert Apply(START, LocalQuery(0)).nodes[0] == A1;
  }

  lemma AskedSent()
    ensures Enabled(ASKED, Resolve(0, 0)) && Apply(ASKED, Resolve(0, 0)) == SENT
  {
    BroadcastTwo(0, 2, None, Query(1, 0));
    assert Apply(ASKED, Resolve(0, 0)).nodes[0] == A2;
  }

  lemma SentLearnt()
    ensures Enabled(SENT, Deliver(0)) && Apply(SENT, Deliver(0)) == LEARNT
  {
    assert Apply(SENT, Deliver(0)).nodes[1] == B1;
  }

  lemma LearntRelays()
    ensures var t := Timer(0, 1, 0);
            Enabled(LEARNT, Fire(1, t, false)) && Apply(LEARNT, Fire(1, t, false)) == RELAYS
  {
    BroadcastTwo(0, 1, Some(0), Query(1, 0));
    assert Apply(LEARNT, Fire(1, Timer(0, 1, 0), false)).nodes[1] == B2;
  }

  lemma RelaysBoth()
    ensures Enabled(RELAYS, Deliver(1)) && Apply(RELAYS, Deliver(1)) == BOTH
  {
    assert Apply(RELAYS, Deliver(1)).nodes[2] == C1;
  }

  lemma BothStops()
    ensures Enabled(BOTH, Stop(0, 0)) && Apply(BOTH, Stop(0, 0)) == STOPS
  {
    BroadcastTwo(0, 2, None, QueryStop(0));
    assert Apply(BOTH, Stop(0, 0)).nodes[0] == A3;
  }

  /** Peer 2 has seen the GUID already. */
  lemma StopsDropped()
    ensures Enabled(STOPS, Deliver(0)) && Apply(STOPS, Deliver(0)) == DROPPED
  {
    assert Apply(STOPS, Deliver(0)).nodes[2] == C1;
  }

  lemma DroppedLost()
    ensures Enabled(DROPPED, Deliver(1)) && Apply(DROPPED, Deliver(1)) == LOST
  {
    assert Apply(DROPPED, Deliver(1)).nodes[2] == C2;
  }

  lemma RunStep(net: Net, s: Step, rest: seq<Step>, next: Net)
    requires Enabled(net, s) && Apply(net, s) == next && CanRun(next, rest) && Fifo(next, rest)
    requires s.Deliver? ==> Oldest(net, s.i)
    ensures CanRun(net, [s] + rest) && Run(net, [s] + rest) == Run(next, rest) && Fifo(net, [s] + rest)
  {
    assert ([s] + rest)[1..] == rest;
  }

  lemma RaceStarts()
    ensures Init(START)
  {
  }

  lemma RaceMiddle()
    ensures CanRun(RELAYS, T4) && Run(RELAYS, T4) == LOST && Fifo(RELAYS, T4)
  {
    RelaysBoth();
    BothStops();
    StopsDropped();
    DroppedLost();
    RunStep(DROPPED, Deliver(1), [], LOST);
    RunStep(STOPS, Deliver(0), T7, DROPPED);
    RunStep(BOTH, Stop(0, 0), T6, STOPS);
    RunStep(RELAYS, Deliver(1), T5, BOTH);
  }

  lemma RaceEnds()
    ensures CanRun(START, RACE) && Run(START, RACE) == LOST && Fifo(START, RACE)
  {
    Asked();
    AskedSent();
    SentLearnt();
    LearntRelays();
    RaceMiddle();
    RunStep(LEARNT, Fire(1, Timer(0, 1, 0), false), T4, RELAYS);
    RunStep(SENT, Deliver(0), T3, LEARNT);
    RunStep(ASKED, Resolve(0, 0), T2, SENT);
    RunStep(START, LocalQuery(0), T1, ASKED);
  }

  /** Every connection delivering first in, first out: the stop of the initiator reaches peer 2 directly and
      before the copy of peer 1, from whom peer 2 has the query, so it does not take hold, and it never
      will, whatever happens then. */
  lemma StopLostInRace(more: seq<Step>)
    requires CanRun(LOST, more)
    ensures Init(START) && CanRun(START, RACE) && Fifo(START, RACE) && Run(START, RACE) == LOST
    ensures Stopped(LOST, 0, 0) && 0 in LOST.nodes[2].seen && !Stopped(Run(LOST, more), 2, 0)
  {
    RaceStarts();
    RaceEnds();
    InitInv(START);
    RunInv(START, RACE);
    StopLost(LOST, more, 2, 0);
  }
}
