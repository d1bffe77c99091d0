/** The two transfer tables as values. live is m_sid2ss, each sid with its strategy's own connection;
    index is m_conn2sid in iteration order, sorted by connection, where find gives the first entry of
    an equal range and insert adds at its end. */
module RegistrySpec {
  import opened Wrappers
  import opened Collections

  type Conn = nat
  type Sid = string

  datatype Entry = Entry(conn: Conn, sid: Sid)

  datatype Tables = Tables(live: map<Sid, Conn>, index: seq<Entry>)

  predicate InOrder(index: seq<Entry>, i: nat, j: nat) {
    i < j < |index| ==> index[i].conn <= index[j].conn
  }

  ghost predicate Sorted(index: seq<Entry>) {
    forall i: nat, j: nat :: InOrder(index, i, j)
  }

  /** multimap::find: the first entry for c, or the end. */
  function First(index: seq<Entry>, c: Conn): (k: nat)
    ensures k <= |index|
  {
    if index == [] || index[0].conn == c then 0 else 1 + First(index[1..], c)
  }

  /** multimap::upper_bound: the first entry ordered after c, or the end. */
  function After(index: seq<Entry>, c: Conn): (k: nat)
    ensures k <= |index|
  {
    if index == [] || c < index[0].conn then 0 else 1 + After(index[1..], c)
  }

  lemma {:induction false} FirstIs(index: seq<Entry>, c: Conn)
    ensures First(index, c) < |index| ==> index[First(index, c)].conn == c
    ensures forall i :: 0 <= i < First(index, c) ==> index[i].conn != c
  {
    if index == [] || index[0].conn == c {
    } else {
      FirstIs(index[1..], c);
      assert forall i :: 1 <= i < |index| ==> index[i] == index[1..][i - 1];
    }
  }

  lemma {:induction false} AfterIs(index: seq<Entry>, c: Conn)
    ensures After(index, c) < |index| ==> c < index[After(index, c)].conn
    ensures forall i :: 0 <= i < After(index, c) ==> index[i].conn <= c
  {
    if index == [] || c < index[0].conn {
    } else {
      AfterIs(index[1..], c);
      assert forall i :: 1 <= i < |index| ==> index[i] == index[1..][i - 1];
    }
  }

  function Insert(index: seq<Entry>, e: Entry): seq<Entry> {
    index[..After(index, e.conn)] + [e] + index[After(index, e.conn)..]
  }

  function Register(t: Tables, c: Conn, sid: Sid): Tables {
    Tables(t.live[sid := c], Insert(t.index, Entry(c, sid)))
  }

  /** What unregistering is for: that entry, and that sid. */
  function Unregister(t: Tables, c: Conn, sid: Sid): Tables {
    Tables(t.live - {sid}, Erase(t.index, Entry(c, sid)))
  }

  function Erase(index: seq<Entry>, e: Entry): seq<Entry> {
    if index == [] then []
    else if index[0] == e then index[1..]
    else [index[0]] + Erase(index[1..], e)
  }

  // ---------------------------------------------------------------- the literal loop

  /** One turn of unregister_sidtransfer's loop, which looks the connection up again every time. */
  datatype Turn = Ended(index: seq<Entry>) | Again(index: seq<Entry>)

  function LoopTurn(index: seq<Entry>, c: Conn, sid: Sid): Turn {
    var k := First(index, c);
    if k == |index| then Ended(index)
    else if index[k].sid == sid then Ended(Without(index, k))
    else Again(index)
  }

  ghost predicate EndsWithin(index: seq<Entry>, c: Conn, sid: Sid, turns: nat) {
    turns > 0 &&
    match LoopTurn(index, c, sid)
    case Ended(_) => true
    case Again(index') => EndsWithin(index', c, sid, turns - 1)
  }

  /** The connection has no transfers, or the wanted one is its first. */
  predicate Unstuck(index: seq<Entry>, c: Conn, sid: Sid) {
    First(index, c) < |index| ==> index[First(index, c)].sid == sid
  }

  /** The loop as written ends, and then in one turn, if and only if the connection has no transfers or
      the wanted one is its first; otherwise every turn finds the same entry again. */
  lemma LoopEndsIff(index: seq<Entry>, c: Conn, sid: Sid)
    ensures Unstuck(index, c, sid) ==> EndsWithin(index, c, sid, 1)
    ensures !Unstuck(index, c, sid) ==> forall turns: nat :: !EndsWithin(index, c, sid, turns)
  {
    forall turns: nat | !Unstuck(index, c, sid)
      ensures !EndsWithin(index, c, sid, turns)
    {
      NeverEnds(index, c, sid, turns);
    }
  }

  lemma {:induction false} NeverEnds(index: seq<Entry>, c: Conn, sid: Sid, turns: nat)
    requires !Unstuck(index, c, sid)
    ensures !EndsWithin(index, c, sid, turns)
    decreases turns
  {
    if turns == 0 {
    } else {
      NeverEnds(index, c, sid, turns - 1);
    }
  }

  /** What unregister_sidtransfer as written leaves when its loop ends. */
  function UnregisterLiteral(t: Tables, c: Conn, sid: Sid): Tables {
    Tables(t.live - {sid}, LoopTurn(t.index, c, sid).index)
  }

  // ---------------------------------------------------------------- two views of one map

  predicate Apart(index: seq<Entry>, i: nat, j: nat) {
    i < j < |index| ==> index[i].sid != index[j].sid
  }

  ghost predicate DistinctSids(index: seq<Entry>) {
    forall i: nat, j: nat :: Apart(index, i, j)
  }

  predicate EntryLive(t: Tables, i: nat) {
    i < |t.index| ==> t.index[i].sid in t.live && t.live[t.index[i].sid] == t.index[i].conn
  }

  ghost predicate EntriesLive(t: Tables) {
    forall i: nat :: EntryLive(t, i)
  }

  ghost predicate Indexed(t: Tables, sid: Sid) {
    sid in t.live ==> exists i: nat :: i < |t.index| && t.index[i] == Entry(t.live[sid], sid)
  }

  ghost predicate LiveIndexed(t: Tables) {
    forall sid :: Indexed(t, sid)
  }

  /** Each live sid has exactly one entry, under its strategy's connection, and no other entries exist. */
  ghost predicate TwoViews(t: Tables) {
    Sorted(t.index) && DistinctSids(t.index) && EntriesLive(t) && LiveIndexed(t)
  }

  lemma EntryOf(t: Tables, s: Sid) returns (i: nat)
    requires LiveIndexed(t) && s in t.live
    ensures i < |t.index| && t.index[i] == Entry(t.live[s], s)
  {
    assert Indexed(t, s);
    i :| i < |t.index| && t.index[i] == Entry(t.live[s], s);
  }

  lemma InsertAt(index: seq<Entry>, e: Entry, i: nat)
    requires i <= |index|
    ensures |Insert(index, e)| == |index| + 1
    ensures var k := After(index, e.conn);
            Insert(index, e)[i] == if i < k then index[i] else if i == k then e else index[i - 1]
  {
  }

  lemma AfterBounds(index: seq<Entry>, c: Conn, i: nat)
    requires Sorted(index) && After(index, c) <= i < |index|
    ensures c < index[i].conn
  {
    AfterIs(index, c);
    assert InOrder(index, After(index, c), i);
  }

  /** An entry with a new sid, inserted, keeps the order and the sids distinct. */
  lemma InsertKeepsOrder(index: seq<Entry>, e: Entry)
    requires Sorted(index) && DistinctSids(index) && forall i :: 0 <= i < |index| ==> index[i].sid != e.sid
    ensures Sorted(Insert(index, e)) && DistinctSids(Insert(index, e))
  {
    var k := After(index, e.conn);
    AfterIs(index, e.conn);
    forall i: nat, j: nat | i < j < |Insert(index, e)|
      ensures InOrder(Insert(index, e), i, j) && Apart(Insert(index, e), i, j)
    {
      InsertAt(index, e, i);
      InsertAt(index, e, j);
      var i', j' := if i < k then i else i - 1, if j < k then j else j - 1;
      if i != k && j != k {
        assert InOrder(index, i', j') && Apart(index, i', j');
      } else if i == k {
        AfterBounds(index, e.conn, j');
      }
    }
  }

  lemma RegisterTwoViews(t: Tables, c: Conn, sid: Sid)
    requires TwoViews(t) && sid !in t.live
    ensures TwoViews(Register(t, c, sid))
  {
    var t', e, k := Register(t, c, sid), Entry(c, sid), After(t.index, c);
    forall i: nat | i < |t.index|
      ensures t.index[i].sid in t.live && t.live[t.index[i].sid] == t.index[i].conn
    {
      assert EntryLive(t, i);
    }
    InsertKeepsOrder(t.index, e);
    forall i: nat
      ensures EntryLive(t', i)
    {
      if i < |t'.index| { InsertAt(t.index, e, i); }
    }
    forall s | s in t'.live
      ensures Indexed(t', s)
    {
      InsertAt(t.index, e, k);
      if s != sid {
        var i := EntryOf(t, s);
        InsertAt(t.index, e, if i < k then i else i + 1);
        assert t'.index[if i < k then i else i + 1] == Entry(t'.live[s], s);
      } else {
        assert t'.index[k] == Entry(t'.live[s], s);
      }
    }
  }

  /** Registering keeps the tables two views of one map if and only if the sid is not live yet. */
  lemma RegisterTwoViewsIff(t: Tables, c: Conn, sid: Sid)
    requires TwoViews(t)
    ensures TwoViews(Register(t, c, sid)) <==> sid !in t.live
  {
    if sid !in t.live {
      RegisterTwoViews(t, c, sid);
    } else {
      var k := After(t.index, c);
      var i := EntryOf(t, sid);
      var i' := if i < k then i else i + 1;
      InsertAt(t.index, Entry(c, sid), k);
      InsertAt(t.index, Entry(c, sid), i');
      assert !Apart(Register(t, c, sid).index, if i' < k then i' else k, if i' < k then k else i');
    }
  }

  lemma {:induction false} EraseAt(index: seq<Entry>, k: nat)
    requires k < |index| && forall i :: 0 <= i < k ==> index[i] != index[k]
    ensures Erase(index, index[k]) == Without(index, k)
    decreases index
  {
    if k == 0 {
      assert Without(index, 0) == index[1..];
    } else {
      assert index[1..][k - 1] == index[k];
      EraseAt(index[1..], k - 1);
      assert Without(index, k) == [index[0]] + Without(index[1..], k - 1);
    }
  }

  lemma EraseOnly(index: seq<Entry>, k: nat)
    requires DistinctSids(index) && k < |index|
    ensures Erase(index, index[k]) == Without(index, k)
  {
    forall i: nat | i < k
      ensures index[i] != index[k]
    {
      assert Apart(index, i, k);
    }
    EraseAt(index, k);
  }

  lemma WithoutAt(index: seq<Entry>, k: nat, i: nat)
    requires k < |index| && i < |index| - 1
    ensures Without(index, k)[i] == index[if i < k then i else i + 1]
  {
  }

  lemma WithoutKeepsOrder(index: seq<Entry>, k: nat)
    requires Sorted(index) && DistinctSids(index) && k < |index|
    ensures Sorted(Without(index, k)) && DistinctSids(Without(index, k))
  {
    forall i: nat, j: nat | i < j < |index| - 1
      ensures InOrder(Without(index, k), i, j) && Apart(Without(index, k), i, j)
    {
      WithoutAt(index, k, i);
      WithoutAt(index, k, j);
      var i', j' := if i < k then i else i + 1, if j < k then j else j + 1;
      assert InOrder(index, i', j') && Apart(index, i', j');
    }
  }

  lemma WithoutTwoViews(t: Tables, k: nat)
    requires TwoViews(t) && k < |t.index|
    ensures TwoViews(Tables(t.live - {t.index[k].sid}, Without(t.index, k)))
  {
    var t' := Tables(t.live - {t.index[k].sid}, Without(t.index, k));
    WithoutKeepsOrder(t.index, k);
    forall i: nat
      ensures EntryLive(t', i)
    {
      if i < |t'.index| {
        WithoutAt(t.index, k, i);
        var i' := if i < k then i else i + 1;
        assert EntryLive(t, i') && Apart(t.index, i', k) && Apart(t.index, k, i');
      }
    }
    forall s | s in t'.live
      ensures Indexed(t', s)
    {
      var i := EntryOf(t, s);
      var i' := if i < k then i else i - 1;
      WithoutAt(t.index, k, i');
      assert t'.index[i'] == Entry(t'.live[s], s);
    }
  }

  lemma UnregisterTwoViews(t: Tables, sid: Sid)
    requires TwoViews(t) && sid in t.live
    ensures TwoViews(Unregister(t, t.live[sid], sid))
  {
    var k := EntryOf(t, sid);
    EraseOnly(t.index, k);
    WithoutTwoViews(t, k);
  }

  /** Where the literal loop ends it does what it is for. */
  lemma LiteralIsIntended(t: Tables, sid: Sid)
    requires TwoViews(t) && sid in t.live && Unstuck(t.index, t.live[sid], sid)
    ensures UnregisterLiteral(t, t.live[sid], sid) == Unregister(t, t.live[sid], sid)
    ensures First(t.index, t.live[sid]) < |t.index|
  {
    var k := EntryOf(t, sid);
    FirstIs(t.index, t.live[sid]);
    assert First(t.index, t.live[sid]) <= k;
    EraseOnly(t.index, First(t.index, t.live[sid]));
  }

  // ---------------------------------------------------------------- teardown

  /** Cancelling transfers one after the other: each must be registered, and its unregistering must end. */
  predicate DrainOk(t: Tables, sids: seq<Sid>)
    decreases sids
  {
    sids == [] ||
    (sids[0] in t.live && Unstuck(t.index, t.live[sids[0]], sids[0])
     && DrainOk(UnregisterLiteral(t, t.live[sids[0]], sids[0]), sids[1..]))
  }

  function Drain(t: Tables, sids: seq<Sid>): Tables
    decreases sids
  {
    if sids == [] then t
    else if sids[0] !in t.live then t
    else Drain(UnregisterLiteral(t, t.live[sids[0]], sids[0]), sids[1..])
  }

  function SidsOf(entries: seq<Entry>): seq<Sid> {
    if entries == [] then [] else [entries[0].sid] + SidsOf(entries[1..])
  }

  lemma {:induction false} SidsOfAt(entries: seq<Entry>)
    ensures |SidsOf(entries)| == |entries|
    ensures forall i :: 0 <= i < |entries| ==> SidsOf(entries)[i] == entries[i].sid
  {
    if entries == [] {
    } else {
      SidsOfAt(entries[1..]);
    }
  }

  lemma SidsOfHead(index: seq<Entry>, lo: nat, hi: nat)
    requires lo < hi <= |index|
    ensures SidsOf(index[lo..hi]) == [index[lo].sid] + SidsOf(index[lo + 1..hi])
  {
    assert index[lo..hi][1..] == index[lo + 1..hi];
  }

  /** No entry before lo has lo's connection. */
  ghost predicate BucketStart(index: seq<Entry>, lo: nat) {
    lo <= |index| && (0 < lo < |index| ==> index[lo - 1].conn != index[lo].conn)
  }

  lemma FirstAtBucketStart(index: seq<Entry>, lo: nat)
    requires Sorted(index) && BucketStart(index, lo) && lo < |index|
    ensures First(index, index[lo].conn) == lo
  {
    FirstIs(index, index[lo].conn);
    forall i | 0 <= i < lo
      ensures index[i].conn != index[lo].conn
    {
      assert InOrder(index, i, lo - 1) && InOrder(index, lo - 1, lo);
    }
  }

  lemma BucketStartKept(index: seq<Entry>, lo: nat)
    requires Sorted(index) && BucketStart(index, lo) && lo < |index|
    ensures BucketStart(Without(index, lo), lo)
  {
    if 0 < lo < |index| - 1 {
      WithoutAt(index, lo, lo);
      WithoutAt(index, lo, lo - 1);
      assert InOrder(index, lo - 1, lo) && InOrder(index, lo, lo + 1);
    }
  }

  /** An entry's sid is in a stretch exactly when its position is. */
  lemma StretchHolds(index: seq<Entry>, lo: nat, hi: nat, i: nat)
    requires DistinctSids(index) && lo <= hi <= |index| && i < |index|
    ensures index[i].sid in SidsOf(index[lo..hi]) <==> lo <= i < hi
  {
    var sids := SidsOf(index[lo..hi]);
    SidsOfAt(index[lo..hi]);
    if lo <= i < hi { assert sids[i - lo] == index[i].sid; }
    if index[i].sid in sids {
      var k :| 0 <= k < |sids| && sids[k] == index[i].sid;
      assert Apart(index, lo + k, i) && Apart(index, i, lo + k);
    }
  }

  function SetOf(sids: seq<Sid>): set<Sid> {
    set s | s in sids
  }

  lemma SetOfHead(s: Sid, sids: seq<Sid>)
    ensures SetOf([s] + sids) == {s} + SetOf(sids)
  {
  }

  lemma StretchHead(index: seq<Entry>, lo: nat, hi: nat)
    requires lo < hi <= |index|
    ensures SidsOf(index[lo..hi]) == [index[lo].sid] + SidsOf(Without(index, lo)[lo..hi - 1])
    ensures Without(index, lo)[..lo] + Without(index, lo)[hi - 1..] == index[..lo] + index[hi..]
  {
    SidsOfHead(index, lo, hi);
    assert Without(index, lo)[lo..hi - 1] == index[lo + 1..hi];
    assert Without(index, lo)[hi - 1..] == index[hi..];
  }

  /** Removing the entry at a bucket's start, as its transfer's cancel does. */
  lemma DrainTurn(t: Tables, lo: nat)
    requires TwoViews(t) && BucketStart(t.index, lo) && lo < |t.index|
    ensures var e := t.index[lo];
            var t' := UnregisterLiteral(t, e.conn, e.sid);
            && e.sid in t.live && t.live[e.sid] == e.conn && Unstuck(t.index, e.conn, e.sid)
            && t' == Tables(t.live - {e.sid}, Without(t.index, lo))
            && TwoViews(t') && BucketStart(t'.index, lo)
  {
    assert EntryLive(t, lo);
    FirstAtBucketStart(t.index, lo);
    WithoutTwoViews(t, lo);
    BucketStartKept(t.index, lo);
  }

  lemma DrainHead(t: Tables, t': Tables, sid: Sid, rest: seq<Sid>)
    requires sid in t.live && Unstuck(t.index, t.live[sid], sid) && t' == UnregisterLiteral(t, t.live[sid], sid)
    ensures Drain(t, [sid] + rest) == Drain(t', rest)
    ensures DrainOk(t', rest) ==> DrainOk(t, [sid] + rest)
  {
    assert ([sid] + rest)[0] == sid && ([sid] + rest)[1..] == rest;
  }

  lemma RemovedInTurn(live: map<Sid, Conn>, sid: Sid, rest: seq<Sid>)
    ensures (live - {sid}) - SetOf(rest) == live - SetOf([sid] + rest)
  {
    SetOfHead(sid, rest);
  }

  /** The sids can be drained, and that ends in end, without them and with the views kept. */
  ghost predicate DrainsTo(t: Tables, sids: seq<Sid>, end: Tables) {
    DrainOk(t, sids) && Drain(t, sids) == end && TwoViews(end) && end.live == t.live - SetOf(sids)
  }

  lemma DrainJoins(t: Tables, t': Tables, sid: Sid, rest: seq<Sid>, end: Tables)
    requires sid in t.live && Unstuck(t.index, t.live[sid], sid) && t' == UnregisterLiteral(t, t.live[sid], sid)
    requires DrainsTo(t', rest, end)
    ensures DrainsTo(t, [sid] + rest, end)
  {
    DrainHead(t, t', sid, rest);
    RemovedInTurn(t.live, sid, rest);
  }

  /** Removing n entries one by one, all at position lo, and their sids in that order. */
  function Cut(index: seq<Entry>, lo: nat, n: nat): seq<Entry>
    requires lo + n <= |index|
    decreases n
  {
    if n == 0 then index else Cut(Without(index, lo), lo, n - 1)
  }

  function CutSids(index: seq<Entry>, lo: nat, n: nat): seq<Sid>
    requires lo + n <= |index|
    decreases n
  {
    if n == 0 then [] else [index[lo].sid] + CutSids(Without(index, lo), lo, n - 1)
  }

  lemma {:induction false} CutIsStretch(index: seq<Entry>, lo: nat, hi: nat)
    requires lo <= hi <= |index|
    ensures Cut(index, lo, hi - lo) == index[..lo] + index[hi..]
    ensures CutSids(index, lo, hi - lo) == SidsOf(index[lo..hi])
    decreases hi
  {
    if lo == hi {
      assert index[..lo] + index[lo..] == index;
    } else {
      StretchHead(index, lo, hi);
      CutIsStretch(Without(index, lo), lo, hi - 1);
    }
  }

  function CutEnd(t: Tables, lo: nat, n: nat): Tables
    requires lo + n <= |t.index|
  {
    Tables(t.live - SetOf(CutSids(t.index, lo, n)), Cut(t.index, lo, n))
  }

  lemma CutEndSame(t: Tables, lo: nat, n: nat)
    requires 0 < n && lo + n <= |t.index|
    ensures CutEnd(Tables(t.live - {t.index[lo].sid}, Without(t.index, lo)), lo, n - 1) == CutEnd(t, lo, n)
  {
    RemovedInTurn(t.live, t.index[lo].sid, CutSids(Without(t.index, lo), lo, n - 1));
  }

  lemma {:induction false} DrainCut(t: Tables, lo: nat, n: nat)
    requires TwoViews(t) && BucketStart(t.index, lo) && lo + n <= |t.index|
    ensures DrainsTo(t, CutSids(t.index, lo, n), CutEnd(t, lo, n))
    decreases n
  {
    if n == 0 {
      DrainNothing(t);
    } else {
      var e := t.index[lo];
      var t' := Tables(t.live - {e.sid}, Without(t.index, lo));
      DrainTurn(t, lo);
      DrainCut(t', lo, n - 1);
      CutEndSame(t, lo, n);
      DrainJoins(t, t', e.sid, CutSids(t'.index, lo, n - 1), CutEnd(t, lo, n));
    }
  }

  /** Cancelling a stretch of entries in gather order, starting where a connection's entries start:
      the loop as written ends every time, no entry is missing, and exactly the stretch is removed. */
  lemma DrainStretch(t: Tables, lo: nat, hi: nat)
    requires TwoViews(t) && BucketStart(t.index, lo) && lo <= hi <= |t.index|
    ensures var sids := SidsOf(t.index[lo..hi]);
            && DrainOk(t, sids) && TwoViews(Drain(t, sids))
            && Drain(t, sids).live == t.live - SetOf(sids) && Drain(t, sids).index == t.index[..lo] + t.index[hi..]
  {
    CutIsStretch(t.index, lo, hi);
    DrainCut(t, lo, hi - lo);
    assert CutSids(t.index, lo, hi - lo) == SidsOf(t.index[lo..hi]);
  }

  /** What connection_terminated gathers: everything from the connection's first entry on. */
  function Gathered(index: seq<Entry>, c: Conn): seq<Sid> {
    SidsOf(index[First(index, c)..])
  }

  /** What it is meant to gather: the connection's own entries. */
  function GatheredInRange(index: seq<Entry>, c: Conn): seq<Sid> {
    SidsOf(if First(index, c) <= After(index, c) then index[First(index, c)..After(index, c)] else [])
  }

  /** Between the ends of an equal range: what has been gathered up to it, and what is left. */
  lemma InRangeStart(index: seq<Entry>, c: Conn)
    requires Sorted(index) && First(index, c) < |index|
    ensures First(index, c) <= After(index, c)
    ensures GatheredInRange(index, c) == [] + SidsOf(index[First(index, c)..After(index, c)])
  {
    FirstStartsBucket(index, c);
  }

  lemma FirstStartsBucket(index: seq<Entry>, c: Conn)
    requires Sorted(index)
    ensures BucketStart(index, First(index, c))
    ensures First(index, c) < |index| ==> First(index, c) <= After(index, c)
  {
    var lo, hi := First(index, c), After(index, c);
    FirstIs(index, c);
    AfterIs(index, c);
    assert lo < |index| && hi < |index| ==> InOrder(index, hi, lo);
  }

  /** The connection's entries are those from its first up to the first ordered after it. */
  lemma BucketIs(index: seq<Entry>, c: Conn, i: nat)
    requires Sorted(index) && i < |index| && First(index, c) < |index|
    ensures index[i].conn == c <==> First(index, c) <= i < After(index, c)
  {
    FirstIs(index, c);
    AfterIs(index, c);
    assert InOrder(index, First(index, c), i) && InOrder(index, After(index, c), i);
  }

  /** connection_terminated as written always completes, and removes exactly what it gathered, the
      transfers of the connection and of every connection ordered after it. */
  lemma TeardownLiteral(t: Tables, c: Conn)
    requires TwoViews(t)
    ensures DrainOk(t, Gathered(t.index, c))
    ensures Drain(t, Gathered(t.index, c)) == Tables(t.live - SetOf(Gathered(t.index, c)), t.index[..First(t.index, c)])
    ensures TwoViews(Drain(t, Gathered(t.index, c)))
  {
    var k := First(t.index, c);
    FirstStartsBucket(t.index, c);
    ToEnd(t.index, k);
    DrainStretch(t, k, |t.index|);
  }

  lemma ToEnd(index: seq<Entry>, k: nat)
    requires k <= |index|
    ensures index[k..|index|] == index[k..] && index[..k] + index[|index|..] == index[..k]
  {
  }

  lemma GatheredInRangeAre(t: Tables, c: Conn, s: Sid)
    requires TwoViews(t) && s in t.live
    ensures s in GatheredInRange(t.index, c) <==> t.live[s] == c
  {
    var lo, hi := First(t.index, c), After(t.index, c);
    FirstStartsBucket(t.index, c);
    FirstIs(t.index, c);
    var i := EntryOf(t, s);
    if lo < |t.index| {
      BucketIs(t.index, c, i);
      StretchHolds(t.index, lo, hi, i);
    }
  }

  /** Gathering only the connection's own entries completes too, and leaves exactly the transfers of
      the other connections. */
  lemma TeardownIntended(t: Tables, c: Conn)
    requires TwoViews(t)
    ensures DrainOk(t, GatheredInRange(t.index, c))
    ensures TwoViews(Drain(t, GatheredInRange(t.index, c)))
    ensures Drain(t, GatheredInRange(t.index, c)).live == map s | s in t.live && t.live[s] != c :: t.live[s]
  {
    var lo, hi := First(t.index, c), After(t.index, c);
    var sids := GatheredInRange(t.index, c);
    FirstStartsBucket(t.index, c);
    if lo < |t.index| { DrainStretch(t, lo, hi); } else { DrainNothing(t); }
    forall s | s in t.live
      ensures s in sids <==> t.live[s] == c
    {
      GatheredInRangeAre(t, c, s);
    }
    OthersLeft(t.live, c, sids);
  }

  lemma DrainNothing(t: Tables)
    ensures DrainOk(t, []) && Drain(t, []) == t && t.live - SetOf([]) == t.live
  {
  }

  lemma OthersLeft(live: map<Sid, Conn>, c: Conn, sids: seq<Sid>)
    requires forall s :: s in live ==> (s in sids <==> live[s] == c)
    ensures live - SetOf(sids) == map s | s in live && live[s] != c :: live[s]
  {
  }

  lemma GatheredAre(t: Tables, c: Conn, s: Sid)
    requires TwoViews(t) && First(t.index, c) < |t.index| && s in t.live
    ensures s in Gathered(t.index, c) <==> c <= t.live[s]
  {
    var lo := First(t.index, c);
    var i := EntryOf(t, s);
    assert t.index[lo..|t.index|] == t.index[lo..];
    StretchHolds(t.index, lo, |t.index|, i);
    BucketIs(t.index, c, i);
    FirstIs(t.index, c);
    assert InOrder(t.index, lo, i) && InOrder(t.index, i, lo);
  }

  /** The teardown as written takes other connections' transfers with it exactly when the lost
      connection has some itself and a connection ordered after it has some too. */
  lemma LiteralTakesOthersIff(t: Tables, c: Conn)
    requires TwoViews(t)
    ensures (exists s :: s in t.live && t.live[s] != c && s !in Drain(t, Gathered(t.index, c)).live)
        <==> (exists s :: s in t.live && t.live[s] == c) && (exists s :: s in t.live && c < t.live[s])
  {
    TeardownLiteral(t, c);
    FirstIs(t.index, c);
    var lo := First(t.index, c);
    if lo < |t.index| {
      var own := t.index[lo].sid;
      assert EntryLive(t, lo) && own in t.live && t.live[own] == c;
      forall s | s in t.live
        ensures s !in Drain(t, Gathered(t.index, c)).live <==> c <= t.live[s]
      {
        GatheredAre(t, c, s);
      }
    } else {
      assert Gathered(t.index, c) == [];
      forall s | s in t.live
        ensures t.live[s] != c
      {
        var i := EntryOf(t, s);
      }
    }
  }

  // ---------------------------------------------------------------- runs

  datatype Op =
    | Begin(conn: Conn, sid: Sid)   // start_reply registers a transfer
    | End(sid: Sid)                 // it finishes, fails or times out
    | Terminate(conn: Conn)         // its connection is lost

  /** One operation as written; nothing if its loop never ends. */
  function Do(t: Tables, op: Op): Option<Tables> {
    match op
    case Begin(c, sid) => Some(Register(t, c, sid))
    case End(sid) =>
      if sid !in t.live then Some(t)
      else if Unstuck(t.index, t.live[sid], sid) then Some(UnregisterLiteral(t, t.live[sid], sid))
      else None
    case Terminate(c) =>
      if DrainOk(t, Gathered(t.index, c)) then Some(Drain(t, Gathered(t.index, c))) else None
  }

  /** The same on the one map both tables stand for. */
  function DoAbstract(m: map<Sid, Conn>, op: Op): map<Sid, Conn> {
    match op
    case Begin(c, sid) => m[sid := c]
    case End(sid) => m - {sid}
    case Terminate(c) => map s | s in m && m[s] != c :: m[s]
  }

  /** The cases the tables are not made for: a sid begun while it is live, a transfer ending that is not
      its connection's first, a lost connection with transfers while a later-ordered one has some. */
  ghost predicate Disturbs(t: Tables, op: Op) {
    match op
    case Begin(_, sid) => sid in t.live
    case End(sid) => sid in t.live && !Unstuck(t.index, t.live[sid], sid)
    case Terminate(c) => (exists s :: s in t.live && t.live[s] == c) && (exists s :: s in t.live && c < t.live[s])
  }

  /** The tables are two views of m, now and after every operation as written. */
  ghost predicate Tracks(t: Tables, m: map<Sid, Conn>, ops: seq<Op>)
    decreases ops
  {
    && TwoViews(t) && t.live == m
    && (ops == [] || (Do(t, ops[0]).Some? && Tracks(Do(t, ops[0]).value, DoAbstract(m, ops[0]), ops[1..])))
  }

  ghost predicate Undisturbed(t: Tables, ops: seq<Op>)
    decreases ops
  {
    ops == [] || (!Disturbs(t, ops[0]) && (Do(t, ops[0]).Some? ==> Undisturbed(Do(t, ops[0]).value, ops[1..])))
  }

  lemma TeardownRefinesIff(t: Tables, c: Conn)
    requires TwoViews(t)
    ensures Drain(t, Gathered(t.index, c)).live == DoAbstract(t.live, Terminate(c)) <==> !Disturbs(t, Terminate(c))
  {
    TeardownLiteral(t, c);
    LiteralTakesOthersIff(t, c);
    FirstIs(t.index, c);
    var left := Drain(t, Gathered(t.index, c)).live;
    var lo := First(t.index, c);
    forall s | s in t.live
      ensures t.live[s] == c ==> s !in left
    {
      var i := EntryOf(t, s);
      if lo < |t.index| { GatheredAre(t, c, s); }
    }
  }

  /** An operation as written leaves both tables views of what a single map would be, if and only if it
      is none of those cases. */
  lemma DoRefinesIff(t: Tables, op: Op)
    requires TwoViews(t)
    ensures (Do(t, op).Some? && TwoViews(Do(t, op).value) && Do(t, op).value.live == DoAbstract(t.live, op))
       <==> !Disturbs(t, op)
  {
    match op
    case Begin(c, sid) =>
      RegisterTwoViewsIff(t, c, sid);
    case End(sid) =>
      if sid !in t.live {
        assert t.live - {sid} == t.live;
      } else if Unstuck(t.index, t.live[sid], sid) {
        LiteralIsIntended(t, sid);
        UnregisterTwoViews(t, sid);
      }
    case Terminate(c) =>
      TeardownLiteral(t, c);
      TeardownRefinesIff(t, c);
  }

  /** On every run of the code as written the two tables stay two views of one map from sid to connection
      that does what a single map would do, if and only if no operation is one of those cases. */
  lemma {:induction false} RunsRefineIff(t: Tables, ops: seq<Op>)
    requires TwoViews(t)
    ensures Tracks(t, t.live, ops) <==> Undisturbed(t, ops)
    decreases ops
  {
    if ops == [] {
    } else {
      DoRefinesIff(t, ops[0]);
      if !Disturbs(t, ops[0]) { RunsRefineIff(Do(t, ops[0]).value, ops[1..]); }
    }
  }

  // ---------------------------------------------------------------- such cases arise

  const NOTHING := Tables(map[], [])

  /** Two transfers begun on one connection: the later one's unregistering never ends. */
  lemma SecondStuck()
    ensures var t := Register(Register(NOTHING, 0, "a"), 0, "b");
            TwoViews(t) && "b" in t.live && !Unstuck(t.index, t.live["b"], "b") && Do(t, End("b")).None?
  {
    var t1 := Register(NOTHING, 0, "a");
    RegisterTwoViews(NOTHING, 0, "a");
    RegisterTwoViews(t1, 0, "b");
    assert t1.index == [Entry(0, "a")] && After(t1.index, 0) == 1;
    assert Register(t1, 0, "b").index == [Entry(0, "a"), Entry(0, "b")];
    assert "a"[0] != "b"[0];
  }

  /** Transfers on two connections: losing the first ends the other's too. */
  lemma OtherTaken()
    ensures var t := Register(Register(NOTHING, 0, "a"), 1, "b");
            TwoViews(t) && "b" in t.live && t.live["b"] == 1
            && Do(t, Terminate(0)).Some? && "b" !in Do(t, Terminate(0)).value.live
  {
    var t1 := Register(NOTHING, 0, "a");
    RegisterTwoViews(NOTHING, 0, "a");
    RegisterTwoViews(t1, 1, "b");
    assert "a"[0] != "b"[0];
    var t := Register(t1, 1, "b");
    assert t1.index == [Entry(0, "a")] && After(t1.index, 1) == 1;
    assert t.index == [Entry(0, "a"), Entry(1, "b")];
    assert First(t.index, 0) == 0;
    TeardownLiteral(t, 0);
    GatheredAre(t, 0, "b");
  }
}
