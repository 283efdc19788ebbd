/** Streams over forward-only cursors, and the iterators that lazily read from them.

    A stream reads blocks of rows; each iterator has a position in rows.  Only when an iterator is
    looked at does the stream read on, up to that position, and serves all its iterators that it
    comes by on the way.  The stream finds its iterators through a doubly linked list. */
module CursorStreams {
  import opened Basics
  import opened SqlCursors

  /** The block of rows at a position; past the end of the rows it is empty. */
  function Block<T>(rows: seq<T>, pos: nat, stride: nat): (r: seq<T>)
    ensures |r| == Min(pos + stride, |rows|) - Min(pos, |rows|)
    ensures forall k :: 0 <= k < |r| ==> r[k] == rows[pos + k]
  {
    rows[Min(pos, |rows|)..Min(pos + stride, |rows|)]
  }

  /** The position after a number of whole strides. */
  function Strides(k: nat, stride: nat): (pos: nat)
    ensures k > 0 ==> pos >= stride
  {
    Monotone(0, k, stride);
    if k > 0 then Monotone(1, k, stride); k * stride else 0
  }

  lemma Monotone(k: nat, l: nat, stride: nat)
    requires k <= l
    ensures 0 <= k * stride <= l * stride
  {
  }

  ghost predicate Aligned(pos: nat, stride: nat) {
    exists k: nat :: pos == Strides(k, stride)
  }

  lemma AlignedApart(a: nat, b: nat, stride: nat)
    requires Aligned(a, stride) && Aligned(b, stride) && a < b
    ensures a + stride <= b
  {
    var k: nat :| a == Strides(k, stride);
    var l: nat :| b == Strides(l, stride);
    if k < l {
      Monotone(k + 1, l, stride);
      assert (k + 1) * stride == k * stride + stride;
    } else {
      Monotone(l, k, stride);
    }
  }

  /** From an aligned position, moving on by whole strides leads to another one. */
  lemma AlignedBeyond(a: nat, n: nat, stride: nat)
    requires Aligned(a, stride)
    ensures Aligned(a + Strides(n, stride), stride)
  {
    var k: nat :| a == Strides(k, stride);
    assert (k + n) * stride == k * stride + n * stride;
    assert a + Strides(n, stride) == Strides(k + n, stride);
  }

  // ---------- The roster of streams and iterators ----------

  /** What there is to say of an iterator, and of a stream. */
  datatype Mark<S, T> = Mark(stream: Option<S>, pos: nat, here: seq<T>)
  datatype Flow<I, T> = Flow(rows: seq<T>, stride: nat, realpos: nat, reqpos: nat, list: seq<I>, fetched: seq<nat>)

  datatype Roster<I, S, T> = Roster(iters: map<I, Mark<S, T>>, flows: map<S, Flow<I, T>>)

  /** Row numbers below a bound, in ascending order, so that there is none twice. */
  ghost predicate Ascending(log: seq<nat>, bound: nat) {
    && (forall k :: 0 <= k < |log| ==> log[k] < bound)
    && (forall j, k :: 0 <= j < k < |log| ==> log[j] < log[k])
  }

  /** A stream's position is between blocks, or at the end; at most one block beyond what was requested.
      The rows fetched lie before it. */
  ghost predicate Paced<I, T>(f: Flow<I, T>) {
    && f.stride > 0 && Aligned(f.reqpos, f.stride)
    && f.realpos <= |f.rows| && (Aligned(f.realpos, f.stride) || f.realpos == |f.rows|)
    && f.realpos <= f.reqpos + f.stride
    && Ascending(f.fetched, f.realpos)
  }

  /** An iterator that has data has those of its position. */
  ghost predicate Placed<I, S, T>(m: Mark<S, T>, f: Flow<I, T>) {
    && Aligned(m.pos, f.stride) && m.pos <= f.reqpos
    && (m.here == [] || m.here == Block(f.rows, m.pos, f.stride))
  }

  /** Each stream lists exactly the live iterators on it, once each. */
  ghost predicate Listed<I, S, T>(r: Roster<I, S, T>) {
    && (forall i :: i in r.iters && r.iters[i].stream.Some? ==>
          r.iters[i].stream.value in r.flows && i in r.flows[r.iters[i].stream.value].list)
    && (forall s, i :: s in r.flows && i in r.flows[s].list ==> i in r.iters && r.iters[i].stream == Some(s))
    && (forall s :: s in r.flows ==> Distinct(r.flows[s].list))
  }

  /** The rules that a roster keeps to. */
  datatype Rule = Lists | Pace | Place | Blanks

  ghost predicate Keeps<I, S, T>(rule: Rule, r: Roster<I, S, T>) {
    match rule
    case Lists => Listed(r)
    case Pace => forall s :: s in r.flows ==> Paced(r.flows[s])
    case Place =>
      forall i :: i in r.iters && r.iters[i].stream.Some? && r.iters[i].stream.value in r.flows ==>
        Placed(r.iters[i], r.flows[r.iters[i].stream.value])
    case Blanks => forall i :: i in r.iters && r.iters[i].stream.None? ==> r.iters[i].here == []
  }

  ghost predicate Orderly<I, S, T>(r: Roster<I, S, T>) {
    forall rule: Rule :: Keeps(rule, r)
  }

  lemma OrderlyMeans<I, S, T>(r: Roster<I, S, T>)
    ensures Orderly(r) <==> Keeps(Lists, r) && Keeps(Pace, r) && Keeps(Place, r) && Keeps(Blanks, r)
  {
  }

  function Opened<I, S, T>(r: Roster<I, S, T>, s: S, rows: seq<T>, stride: nat): Roster<I, S, T> {
    r.(flows := r.flows[s := Flow(rows, stride, 0, 0, [], [])])
  }

  function WithList<I, S, T>(r: Roster<I, S, T>, s: S, list: seq<I>): Roster<I, S, T> {
    if s in r.flows then r.(flows := r.flows[s := r.flows[s].(list := list)]) else r
  }

  function ListOf<I, S, T>(r: Roster<I, S, T>, s: S): seq<I> {
    if s in r.flows then r.flows[s].list else []
  }

  function StreamOf<I, S, T>(r: Roster<I, S, T>, i: I): Option<S> {
    if i in r.iters then r.iters[i].stream else None
  }

  function OwnStream<I, S, T>(r: Roster<I, S, T>, i: I): set<S> {
    if StreamOf(r, i).Some? then {StreamOf(r, i).value} else {}
  }

  function OwnList<I, S, T>(r: Roster<I, S, T>, i: I): seq<I> {
    if StreamOf(r, i).Some? then ListOf(r, StreamOf(r, i).value) else []
  }

  /** An iterator is made, or given a new value, and put into the list of its stream. */
  function Entered<I, S, T>(r: Roster<I, S, T>, i: I, m: Mark<S, T>): Roster<I, S, T> {
    var r' := r.(iters := r.iters[i := m]);
    if m.stream.None? then r' else WithList(r', m.stream.value, [i] + ListOf(r, m.stream.value))
  }

  /** An iterator is taken out of the list of its stream. */
  function Withdrawn<I(==), S, T>(r: Roster<I, S, T>, i: I): Roster<I, S, T> {
    var r' := r.(iters := r.iters - {i});
    var s := StreamOf(r, i);
    if s.None? || i !in ListOf(r, s.value) then r'
    else WithList(r', s.value, Remove(ListOf(r, s.value), IndexOf(ListOf(r, s.value), i)))
  }

  lemma OpenedOrderly<I, S, T>(r: Roster<I, S, T>, s: S, rows: seq<T>, stride: nat)
    requires Orderly(r) && s !in r.flows && stride > 0
    ensures Orderly(Opened(r, s, rows, stride))
  {
    OrderlyMeans(r);
    OrderlyMeans(Opened(r, s, rows, stride));
    assert 0 == Strides(0, stride);
  }

  lemma EnteredOrderly<I, S, T>(r: Roster<I, S, T>, i: I, m: Mark<S, T>)
    requires Orderly(r) && i !in r.iters
    requires match m.stream case None => m.here == [] case Some(s) => s in r.flows && Placed(m, r.flows[s])
    ensures Orderly(Entered(r, i, m))
  {
    OrderlyMeans(r);
    OrderlyMeans(Entered(r, i, m));
    EnteredListed(r, i, m);
    var r' := Entered(r, i, m);
    assert forall s :: s in r'.flows ==> s in r.flows && r'.flows[s] == r.flows[s].(list := r'.flows[s].list);
    assert forall j :: j in r'.iters ==> r'.iters[j] == if j == i then m else r.iters[j];
  }

  lemma EnteredListed<I, S, T>(r: Roster<I, S, T>, i: I, m: Mark<S, T>)
    requires Listed(r) && i !in r.iters && (m.stream.Some? ==> m.stream.value in r.flows)
    ensures Listed(Entered(r, i, m))
  {
    var r' := Entered(r, i, m);
    if m.stream.Some? {
      var s := m.stream.value;
      assert r'.flows[s].list == [i] + r.flows[s].list;
      assert i !in r.flows[s].list;
    }
  }

  lemma WithdrawnOrderly<I, S, T>(r: Roster<I, S, T>, i: I)
    requires Orderly(r) && i in r.iters
    ensures Orderly(Withdrawn(r, i))
  {
    OrderlyMeans(r);
    OrderlyMeans(Withdrawn(r, i));
    WithdrawnListed(r, i);
    var r' := Withdrawn(r, i);
    assert forall s :: s in r'.flows ==> s in r.flows && r'.flows[s] == r.flows[s].(list := r'.flows[s].list);
    assert forall j :: j in r'.iters ==> j in r.iters && r'.iters[j] == r.iters[j];
  }

  lemma WithdrawnListed<I, S, T>(r: Roster<I, S, T>, i: I)
    requires Listed(r) && i in r.iters
    ensures Listed(Withdrawn(r, i))
  {
    var r' := Withdrawn(r, i);
    if r.iters[i].stream.Some? {
      var s := r.iters[i].stream.value;
      var list := r.flows[s].list;
      RemoveMembers(list, IndexOf(list, i));
      ShorterListed(r, i, s, Remove(list, IndexOf(list, i)));
    }
  }

  lemma ShorterListed<I, S, T>(r: Roster<I, S, T>, i: I, s: S, rest: seq<I>)
    requires Listed(r) && i in r.iters && r.iters[i].stream == Some(s) && Distinct(rest)
    requires forall j :: j in rest <==> j in r.flows[s].list && j != i
    ensures Listed(WithList(r.(iters := r.iters - {i}), s, rest))
  {
  }

  // ---------- Serving ----------

  /** The furthest of the positions that lie between two bounds, or else -1. */
  function Furthest(positions: seq<nat>, from: nat, to: int): (last: int)
    ensures last == -1 || (from <= last <= to && last in positions)
    ensures forall p :: p in positions && from <= p <= to ==> p <= last
  {
    if positions == [] then -1
    else
      var p, last := positions[0], Furthest(positions[1..], from, to);
      assert forall q :: q in positions ==> q == p || q in positions[1..];
      if from <= p <= to && p > last then p else last
  }

  /** Where a stream is after it has served the positions that it came by. */
  function Reached(realpos: nat, last: int, stride: nat, n: nat): nat {
    if last < 0 then realpos else Min(last + stride, n)
  }

  /** The numbers of some consecutive rows. */
  function Numbers(from: nat, n: nat): (r: seq<nat>)
    ensures |r| == n && forall k :: 0 <= k < n ==> r[k] == from + k
  {
    seq(n, k => from + k)
  }

  /** Those of the block at a position, of n rows in all. */
  function BlockNumbers(pos: nat, stride: nat, n: nat): seq<nat> {
    Numbers(Min(pos, n), Min(pos + stride, n) - Min(pos, n))
  }

  /** The rows of the blocks at the positions that lie between two bounds. */
  function RowsRead(positions: seq<nat>, from: nat, to: int, stride: nat, n: nat): seq<nat>
    decreases if from <= to then to - from + 1 else 0
  {
    if from > to then []
    else (if from in positions then BlockNumbers(from, stride, n) else []) + RowsRead(positions, from + 1, to, stride, n)
  }

  /** The row is in one of these blocks. */
  ghost predicate Wanted(x: nat, positions: seq<nat>, from: nat, to: int, stride: nat, n: nat) {
    x < n && exists q :: q in positions && from <= q <= to && q <= x < q + stride
  }

  lemma WantedLater(x: nat, positions: seq<nat>, from: nat, to: int, stride: nat, n: nat)
    requires Wanted(x, positions, from + 1, to, stride, n) && forall q :: q in positions ==> Aligned(q, stride)
    ensures Wanted(x, positions, from, to, stride, n) && (from in positions ==> x >= from + stride)
  {
    var q :| q in positions && from + 1 <= q <= to && q <= x < q + stride;
    if from in positions { AlignedApart(from, q, stride); }
  }

  ghost predicate InOrder(rows: seq<nat>, positions: seq<nat>, from: nat, to: int, stride: nat, n: nat) {
    && (forall j, k :: 0 <= j < k < |rows| ==> rows[j] < rows[k])
    && (forall k :: 0 <= k < |rows| ==> Wanted(rows[k], positions, from, to, stride, n))
  }

  /** No row is in two of these blocks; and they are in order. */
  lemma {:induction false} RowsReadAscend(positions: seq<nat>, from: nat, to: int, stride: nat, n: nat)
    requires forall q :: q in positions ==> Aligned(q, stride)
    ensures InOrder(RowsRead(positions, from, to, stride, n), positions, from, to, stride, n)
    decreases if from <= to then to - from + 1 else 0
  {
    if from <= to {
      RowsReadAscend(positions, from + 1, to, stride, n);
      InOrderBehind(positions, from, to, stride, n, RowsRead(positions, from + 1, to, stride, n));
    }
  }

  lemma InOrderBehind(positions: seq<nat>, from: nat, to: int, stride: nat, n: nat, rest: seq<nat>)
    requires from <= to && InOrder(rest, positions, from + 1, to, stride, n)
    requires forall q :: q in positions ==> Aligned(q, stride)
    ensures InOrder(rest, positions, from, to, stride, n)
    ensures from in positions ==> InOrder(BlockNumbers(from, stride, n) + rest, positions, from, to, stride, n)
  {
    forall k | 0 <= k < |rest|
      ensures Wanted(rest[k], positions, from, to, stride, n) && (from in positions ==> rest[k] >= from + stride)
    {
      WantedLater(rest[k], positions, from, to, stride, n);
    }
  }

  /** The next of the positions, behind all before. */
  lemma {:induction false} RowsReadNext(positions: seq<nat>, from: nat, last: int, next: nat, stride: nat, n: nat)
    requires last < next && from <= next && next in positions
    requires forall q :: q in positions && from <= q <= next && q > last ==> q == next
    ensures RowsRead(positions, from, next, stride, n)
            == RowsRead(positions, from, last, stride, n) + BlockNumbers(next, stride, n)
    decreases next - from
  {
    if from < next {
      RowsReadNext(positions, from + 1, last, next, stride, n);
      assert from <= last ==>
          var first := if from in positions then BlockNumbers(from, stride, n) else [];
          first + (RowsRead(positions, from + 1, last, stride, n) + BlockNumbers(next, stride, n))
          == RowsRead(positions, from, last, stride, n) + BlockNumbers(next, stride, n);
    } else {
      assert RowsRead(positions, from + 1, next, stride, n) == [];
    }
  }

  /** Behind the last of them there is nothing more to read. */
  lemma {:induction false} RowsReadAll(positions: seq<nat>, from: nat, last: int, to: int, stride: nat, n: nat)
    requires last <= to && forall q :: q in positions && from <= q <= to ==> q <= last
    ensures RowsRead(positions, from, to, stride, n) == RowsRead(positions, from, last, stride, n)
    decreases if from <= to then to - from + 1 else 0
  {
    if from <= to {
      RowsReadAll(positions, from + 1, last, to, stride, n);
    }
  }

  function Positions<I, S, T>(r: Roster<I, S, T>, list: seq<I>): seq<nat>
    requires forall i :: i in list ==> i in r.iters
  {
    seq(|list|, k requires 0 <= k < |list| => r.iters[list[k]].pos)
  }

  /** An iterator gets its block if its position is where the stream comes by. */
  function Served<I, S, T>(m: Mark<S, T>, f: Flow<I, T>, to: nat): Mark<S, T> {
    if f.realpos <= m.pos <= to then m.(here := Block(f.rows, m.pos, f.stride)) else m
  }

  ghost predicate ListKnown<I, S, T>(r: Roster<I, S, T>, s: S) {
    s in r.flows && forall i :: i in r.flows[s].list ==> i in r.iters
  }

  /** The stream has served the positions up to some bound. */
  function Behind<I, T>(f: Flow<I, T>, positions: seq<nat>, to: nat): Flow<I, T> {
    f.(realpos := Reached(f.realpos, Furthest(positions, f.realpos, to), f.stride, |f.rows|),
       fetched := f.fetched + RowsRead(positions, f.realpos, to, f.stride, |f.rows|))
  }

  function FlowBehind<I, S, T>(r: Roster<I, S, T>, s: S, to: nat): Flow<I, T>
    requires ListKnown(r, s)
  {
    var f := r.flows[s];
    Behind(f, Positions(r, f.list), to)
  }

  /** The stream serves its iterators up to some position. */
  ghost function Serviced<I, S, T>(r: Roster<I, S, T>, s: S, to: nat): Roster<I, S, T>
    requires ListKnown(r, s)
  {
    Roster(map i | i in r.iters :: if i in r.flows[s].list then Served(r.iters[i], r.flows[s], to) else r.iters[i],
           r.flows[s := FlowBehind(r, s, to)])
  }

  lemma ServicedOrderly<I, S, T>(r: Roster<I, S, T>, s: S, to: nat)
    requires Orderly(r) && Listed(r) && s in r.flows
    ensures Orderly(Serviced(r, s, to))
  {
    OrderlyMeans(r);
    OrderlyMeans(Serviced(r, s, to));
    var f' := FlowBehind(r, s, to);
    ReachedPaced(r, s, to);
    ServicedListed(r, s, to);
    ServicedSame(r, s, to);
    var r' := Serviced(r, s, to);
    forall i | i in r'.iters && r'.iters[i].stream.Some? ensures Placed(r'.iters[i], r'.flows[r'.iters[i].stream.value]) {
      var z := r.iters[i].stream.value;
      ServedPlaced(r.iters[i], r.flows[z], if z == s then f' else r.flows[z], to);
    }
  }

  lemma ServedPlaced<I, S, T>(m: Mark<S, T>, f: Flow<I, T>, f': Flow<I, T>, to: nat)
    requires Placed(m, f) && f' == f.(realpos := f'.realpos, fetched := f'.fetched)
    ensures Placed(m, f') && Placed(Served(m, f, to), f')
  {
  }

  lemma ServicedSame<I, S, T>(r: Roster<I, S, T>, s: S, to: nat)
    requires Listed(r) && s in r.flows
    ensures var r' := Serviced(r, s, to);
            && r'.flows.Keys == r.flows.Keys && r'.iters.Keys == r.iters.Keys
            && (forall z :: z in r.flows ==> r'.flows[z] == if z == s then FlowBehind(r, s, to) else r.flows[z])
            && (forall i :: i in r.iters ==>
                  r'.iters[i] == if r.iters[i].stream == Some(s) then Served(r.iters[i], r.flows[s], to) else r.iters[i])
  {
  }

  lemma ServicedListed<I, S, T>(r: Roster<I, S, T>, s: S, to: nat)
    requires Listed(r) && s in r.flows
    ensures Listed(Serviced(r, s, to))
  {
    var r' := Serviced(r, s, to);
    assert forall z :: z in r'.flows ==> z in r.flows && r'.flows[z].list == r.flows[z].list;
    assert forall i :: i in r'.iters ==> i in r.iters && r'.iters[i].stream == r.iters[i].stream;
  }

  lemma ReachedPaced<I, S, T>(r: Roster<I, S, T>, s: S, to: nat)
    requires Orderly(r) && Listed(r) && s in r.flows
    ensures Paced(FlowBehind(r, s, to))
  {
    OrderlyMeans(r);
    var f := r.flows[s];
    var positions := Positions(r, f.list);
    assert Paced(f);
    forall q | q in positions ensures Aligned(q, f.stride) && Aligned(q + f.stride, f.stride) && q <= f.reqpos {
      var k :| 0 <= k < |f.list| && positions[k] == q;
      assert f.list[k] in f.list;
      assert Placed(r.iters[f.list[k]], f);
      AlignedBeyond(q, 1, f.stride);
      assert Strides(1, f.stride) == f.stride;
    }
    FetchedAscend(f, positions, to);
  }

  lemma FetchedAscend<I, T>(f: Flow<I, T>, positions: seq<nat>, to: nat)
    requires Ascending(f.fetched, f.realpos) && forall q :: q in positions ==> Aligned(q, f.stride)
    requires f.realpos <= |f.rows|
    ensures Ascending(Behind(f, positions, to).fetched, Behind(f, positions, to).realpos)
  {
    var more := RowsRead(positions, f.realpos, to, f.stride, |f.rows|);
    var bound := Behind(f, positions, to).realpos;
    RowsReadAscend(positions, f.realpos, to, f.stride, |f.rows|);
    forall k | 0 <= k < |more| ensures f.realpos <= more[k] < bound {
      assert InOrder(more, positions, f.realpos, to, f.stride, |f.rows|);
      assert Wanted(more[k], positions, f.realpos, to, f.stride, |f.rows|);
      var q :| q in positions && f.realpos <= q <= to && q <= more[k] < q + f.stride;
    }
    ReachedBeyond(f.realpos, Furthest(positions, f.realpos, to), f.stride, |f.rows|);
  }

  lemma ReachedBeyond(realpos: nat, last: int, stride: nat, n: nat)
    requires realpos <= n && (last >= 0 ==> realpos <= last)
    ensures realpos <= Reached(realpos, last, stride, n) <= n
  {
  }

  // ---------- What a program may do ----------

  /** An iterator from a stream starts where the next request would have begun. */
  function Begun<I, S, T>(r: Roster<I, S, T>, i: I, s: S): Roster<I, S, T> {
    if s in r.flows then Entered(r, i, Mark(Some(s), r.flows[s].reqpos, [])) else r
  }

  function Copied<I, S, T>(r: Roster<I, S, T>, i: I, j: I): Roster<I, S, T> {
    if j in r.iters then Entered(r, i, r.iters[j]) else r
  }

  function Assigned<I, S(==), T>(r: Roster<I, S, T>, i: I, j: I): Roster<I, S, T> {
    if i !in r.iters || j !in r.iters then r
    else if r.iters[i].stream == r.iters[j].stream then r.(iters := r.iters[i := r.iters[j]])
    else Entered(Withdrawn(r, i), i, r.iters[j])
  }

  /** Wherever the iterator was, it moves to where the stream's requests are next. */
  function Advanced<I, S, T>(r: Roster<I, S, T>, i: I, n: nat): Roster<I, S, T> {
    var s := StreamOf(r, i);
    if s.None? || s.value !in r.flows then r
    else
      var pos := r.flows[s.value].reqpos + Strides(n, r.flows[s.value].stride);
      Roster(r.iters[i := Mark(s, pos, [])], r.flows[s.value := r.flows[s.value].(reqpos := pos)])
  }

  ghost function Refreshed<I, S, T>(r: Roster<I, S, T>, i: I): (r': Roster<I, S, T>)
    ensures r'.iters.Keys == r.iters.Keys
  {
    var s := StreamOf(r, i);
    if s.None? || !ListKnown(r, s.value) then r else Serviced(r, s.value, r.iters[i].pos)
  }

  lemma BegunOrderly<I, S, T>(r: Roster<I, S, T>, i: I, s: S)
    requires Orderly(r) && i !in r.iters && s in r.flows
    ensures Orderly(Begun(r, i, s))
  {
    OrderlyMeans(r);
    OrderlyMeans(Begun(r, i, s));
    assert Paced(r.flows[s]);
    EnteredOrderly(r, i, Mark(Some(s), r.flows[s].reqpos, []));
  }

  /** The new iterator is at the position last asked for, and has read nothing. */
  lemma BegunMark<I, S, T>(r: Roster<I, S, T>, i: I, s: S)
    requires Orderly(r) && i !in r.iters && s in r.flows
    ensures var r' := Begun(r, i, s);
            && Orderly(r') && Listed(r') && i in r'.iters && r'.iters[i] == Mark(Some(s), r.flows[s].reqpos, [])
            && s in r'.flows && r'.flows[s] == r.flows[s].(list := r'.flows[s].list) && Paced(r.flows[s])
  {
    BegunOrderly(r, i, s);
    OrderlyMeans(r);
    OrderlyMeans(Begun(r, i, s));
  }

  lemma CopiedOrderly<I, S, T>(r: Roster<I, S, T>, i: I, j: I)
    requires Orderly(r) && i !in r.iters && j in r.iters
    ensures Orderly(Copied(r, i, j))
  {
    OrderlyMeans(r);
    OrderlyMeans(Copied(r, i, j));
    EnteredOrderly(r, i, r.iters[j]);
  }

  lemma AssignedOrderly<I, S, T>(r: Roster<I, S, T>, i: I, j: I)
    requires Orderly(r) && i in r.iters && j in r.iters
    ensures Orderly(Assigned(r, i, j))
  {
    OrderlyMeans(r);
    OrderlyMeans(Assigned(r, i, j));
    if r.iters[i].stream != r.iters[j].stream {
      WithdrawnOrderly(r, i);
      CopiedOrderly(Withdrawn(r, i), i, j);
    }
  }

  lemma AdvancedOrderly<I, S, T>(r: Roster<I, S, T>, i: I, n: nat)
    requires Orderly(r) && i in r.iters && r.iters[i].stream.Some?
    ensures Orderly(Advanced(r, i, n))
  {
    OrderlyMeans(r);
    OrderlyMeans(Advanced(r, i, n));
    var s := r.iters[i].stream.value;
    var f := r.flows[s];
    assert Paced(f);
    AlignedBeyond(f.reqpos, n, f.stride);
    var r' := Advanced(r, i, n);
    AdvancedListed(r, i, n);
    forall k | k in r.iters && k != i && r.iters[k].stream.Some? ensures Placed(r.iters[k], r'.flows[r.iters[k].stream.value]) {
      var z := r.iters[k].stream.value;
      PlacedStill(r.iters[k], r.flows[z], r'.flows[z]);
    }
  }

  lemma AdvancedListed<I, S, T>(r: Roster<I, S, T>, i: I, n: nat)
    requires Listed(r) && i in r.iters && r.iters[i].stream.Some?
    ensures Listed(Advanced(r, i, n))
  {
    var r' := Advanced(r, i, n);
    assert forall z :: z in r'.flows ==> z in r.flows && r'.flows[z].list == r.flows[z].list;
    assert forall k :: k in r'.iters ==> k in r.iters && r'.iters[k].stream == r.iters[k].stream;
  }

  lemma PlacedStill<I, S, T>(m: Mark<S, T>, f: Flow<I, T>, f': Flow<I, T>)
    requires Placed(m, f) && f' == f.(reqpos := f'.reqpos) && f'.reqpos >= f.reqpos
    ensures Placed(m, f')
  {
  }

  lemma RefreshedOrderly<I, S, T>(r: Roster<I, S, T>, i: I)
    requires Orderly(r) && i in r.iters
    ensures Orderly(Refreshed(r, i))
  {
    OrderlyMeans(r);
    OrderlyMeans(Refreshed(r, i));
    if r.iters[i].stream.Some? {
      ServicedOrderly(r, r.iters[i].stream.value, r.iters[i].pos);
    }
  }

  /** Looking at an iterator yields the block at its position exactly if the stream has not passed
      it yet, or the iterator had the block already. */
  lemma ReadsItsBlockExactlyWhen<I, S, T>(r: Roster<I, S, T>, i: I)
    requires Orderly(r) && Listed(r) && i in r.iters && r.iters[i].stream.Some?
    ensures var m, f := r.iters[i], r.flows[r.iters[i].stream.value];
            Refreshed(r, i).iters[i].here == Block(f.rows, m.pos, f.stride)
            <==> f.realpos <= m.pos || m.here == Block(f.rows, m.pos, f.stride)
  {
    OrderlyMeans(r);
    assert i in r.flows[r.iters[i].stream.value].list;
  }

  /** An iterator that has been moved reads its block: the stream has not passed that. */
  lemma MovedIteratorReads<I, S, T>(r: Roster<I, S, T>, i: I, n: nat)
    requires Orderly(r) && Listed(r) && i in r.iters && r.iters[i].stream.Some? && n > 0
    ensures var f := r.flows[r.iters[i].stream.value];
            Refreshed(Advanced(r, i, n), i).iters[i].here == Block(f.rows, f.reqpos + Strides(n, f.stride), f.stride)
  {
    OrderlyMeans(r);
    AdvancedOrderly(r, i, n);
    var f, r' := r.flows[r.iters[i].stream.value], Advanced(r, i, n);
    assert Paced(f);
    assert r'.iters[i].pos == f.reqpos + Strides(n, f.stride) >= f.realpos;
    ReadsItsBlockExactlyWhen(r', i);
  }

  /** A new iterator from a stream does so exactly if the stream has not yet read on, or is past its
      end; otherwise it reads nothing at all, as if it were at the end. */
  lemma NewIteratorReadsExactlyWhen<I, S, T>(r: Roster<I, S, T>, i: I, s: S)
    requires Orderly(r) && i !in r.iters && s in r.flows
    ensures var f := r.flows[s];
            var here := Refreshed(Begun(r, i, s), i).iters[i].here;
            && (here == Block(f.rows, f.reqpos, f.stride) <==> f.realpos <= f.reqpos || |f.rows| <= f.reqpos)
            && (f.realpos > f.reqpos ==> here == [])
  {
    BegunMark(r, i, s);
    ReadsItsBlockExactlyWhen(Begun(r, i, s), i);
  }

  /** For instance, of two iterators over a single row the second reads nothing, if it is made only
      after the first was looked at. */
  lemma SecondIteratorReadsNothing()
    ensures var r0: Roster<nat, nat, int> := Begun(Opened(Roster(map[], map[]), 0, [42], 1), 1, 0);
            && 1 in r0.iters && Refreshed(r0, 1).iters[1].here == [42]
            && var r1 := Begun(Refreshed(r0, 1), 2, 0);
            && 2 in r1.iters && Refreshed(r1, 2).iters[2].here == []
  {
    var empty: Roster<nat, nat, int> := Roster(map[], map[]);
    var r: Roster<nat, nat, int> := Opened(empty, 0, [42], 1);
    OpenedOrderly(empty, 0, [42], 1);
    BegunOrderly(r, 1, 0);
    NewIteratorReadsExactlyWhen(r, 1, 0);
    var r0 := Begun(r, 1, 0);
    BegunMark(r, 1, 0);
    LookingPasses(r0, 1);
    RefreshedOrderly(r0, 1);
    NewIteratorReadsExactlyWhen(Refreshed(r0, 1), 2, 0);
  }

  /** Looking at an iterator that has rows to read takes the stream beyond its position. */
  lemma LookingPasses<I, S, T>(r: Roster<I, S, T>, i: I)
    requires Orderly(r) && Listed(r) && i in r.iters && r.iters[i].stream.Some?
    requires var m, f := r.iters[i], r.flows[r.iters[i].stream.value]; f.realpos <= m.pos < |f.rows|
    ensures var m, s := r.iters[i], r.iters[i].stream.value;
            var r' := Refreshed(r, i);
            s in r'.flows && r'.flows[s].realpos > m.pos && r'.flows[s].reqpos == r.flows[s].reqpos
  {
    var m, s := r.iters[i], r.iters[i].stream.value;
    var f := r.flows[s];
    PaceKnown(r, s);
    PositionListed(r, i, s);
    ServicedSame(r, s, m.pos);
    assert Furthest(Positions(r, f.list), f.realpos, m.pos) == m.pos;
  }

  lemma PositionListed<I, S, T>(r: Roster<I, S, T>, i: I, s: S)
    requires Listed(r) && i in r.iters && r.iters[i].stream == Some(s)
    ensures ListKnown(r, s) && r.iters[i].pos in Positions(r, r.flows[s].list)
  {
    var list := r.flows[s].list;
    assert i in list;
    var k :| 0 <= k < |list| && list[k] == i;
    assert Positions(r, list)[k] == r.iters[i].pos;
  }

  // ---------- What stays as it is ----------

  /** All iterators but one are what they were. */
  ghost predicate OthersKeep<I, S, T>(r: Roster<I, S, T>, r': Roster<I, S, T>, i: I) {
    && r'.iters.Keys - {i} == r.iters.Keys - {i}
    && forall k :: k in r.iters && k != i ==> k in r'.iters && r'.iters[k] == r.iters[k]
  }

  /** All streams are what they were, but for the iterators that they list. */
  ghost predicate FlowsKeep<I, S, T>(r: Roster<I, S, T>, r': Roster<I, S, T>) {
    r'.flows.Keys == r.flows.Keys && forall s :: s in r.flows ==> r'.flows[s] == r.flows[s].(list := r'.flows[s].list)
  }

  /** A copy is where its original is, and has what that has read. */
  lemma CopyIsAlike<I, S, T>(r: Roster<I, S, T>, i: I, j: I)
    requires i !in r.iters && j in r.iters
    ensures var r' := Copied(r, i, j);
            i in r'.iters && r'.iters[i] == r.iters[j] && OthersKeep(r, r', i) && FlowsKeep(r, r')
  {
  }

  /** So is what is assigned to; and assigning an iterator to itself changes nothing. */
  lemma AssignmentIsAlike<I, S, T>(r: Roster<I, S, T>, i: I, j: I)
    requires i in r.iters && j in r.iters
    ensures var r' := Assigned(r, i, j);
            i in r'.iters && r'.iters[i] == r.iters[j] && OthersKeep(r, r', i) && FlowsKeep(r, r')
    ensures i == j ==> Assigned(r, i, j) == r
  {
  }

  /** Looking at either of two that are alike yields the same. */
  lemma LookAlike<I, S, T>(r: Roster<I, S, T>, i: I, j: I)
    requires Orderly(r) && i in r.iters && j in r.iters && r.iters[i] == r.iters[j]
    ensures Refreshed(r, i) == Refreshed(r, j) && Refreshed(r, i).iters[i] == Refreshed(r, i).iters[j]
  {
    assert Keeps(Lists, r);
    if r.iters[i].stream.Some? {
      ServicedSame(r, r.iters[i].stream.value, r.iters[i].pos);
    }
  }

  /** A new iterator is where the next request on its stream would have begun, and has read nothing. */
  lemma BeginningIs<I, S, T>(r: Roster<I, S, T>, i: I, s: S)
    requires i !in r.iters && s in r.flows
    ensures var r' := Begun(r, i, s);
            && i in r'.iters && r'.iters[i] == Mark(Some(s), r.flows[s].reqpos, [])
            && OthersKeep(r, r', i) && FlowsKeep(r, r')
  {
  }

  lemma DestructionIs<I, S, T>(r: Roster<I, S, T>, i: I)
    requires i in r.iters
    ensures var r' := Withdrawn(r, i); i !in r'.iters && OthersKeep(r, r', i) && FlowsKeep(r, r')
  {
  }

  /** A moved iterator has nothing to show, until it is looked at; its stream's next request is where
      it is, and all else stays. */
  lemma MovementIs<I, S, T>(r: Roster<I, S, T>, i: I, n: nat)
    requires Listed(r) && i in r.iters && r.iters[i].stream.Some?
    ensures var r', s := Advanced(r, i, n), r.iters[i].stream.value;
            var pos := r.flows[s].reqpos + n * r.flows[s].stride;
            && i in r'.iters && r'.iters[i] == Mark(Some(s), pos, []) && OthersKeep(r, r', i)
            && r'.flows == r.flows[s := r.flows[s].(reqpos := pos)]
  {
  }

  /** Looking at an iterator affects only its own stream, and the iterators on that. */
  lemma LookingIs<I, S, T>(r: Roster<I, S, T>, i: I)
    requires Orderly(r) && i in r.iters
    ensures var r', s := Refreshed(r, i), r.iters[i].stream;
            && r'.flows.Keys == r.flows.Keys
            && (forall z :: z in r.flows && Some(z) != s ==> r'.flows[z] == r.flows[z])
            && (forall k :: k in r.iters ==>
                  && r'.iters[k] == r.iters[k].(here := r'.iters[k].here)
                  && (s.None? || r.iters[k].stream != s ==> r'.iters[k] == r.iters[k]))
  {
    assert Keeps(Lists, r);
    if r.iters[i].stream.Some? {
      ServicedSame(r, r.iters[i].stream.value, r.iters[i].pos);
    }
  }

  // ---------- Runs ----------

  datatype Operation<I, S, T> =
    | Open(s: S, rows: seq<T>, stride: nat)
    | Begin(i: I, s: S)
    | Blank(i: I)
    | Copy(i: I, j: I)
    | Assign(i: I, j: I)
    | Destroy(i: I)
    | Advance(i: I, n: nat)
    | Refresh(i: I)

  /** What an operation does; one that cannot be done does nothing. */
  ghost function Effect<I, S, T>(r: Roster<I, S, T>, op: Operation<I, S, T>): Roster<I, S, T> {
    match op
    case Open(s, rows, stride) => if s !in r.flows && stride > 0 then Opened(r, s, rows, stride) else r
    case Begin(i, s) => if i !in r.iters then Begun(r, i, s) else r
    case Blank(i) => if i !in r.iters then Entered(r, i, Mark(None, 0, [])) else r
    case Copy(i, j) => if i !in r.iters then Copied(r, i, j) else r
    case Assign(i, j) => Assigned(r, i, j)
    case Destroy(i) => if i in r.iters then Withdrawn(r, i) else r
    case Advance(i, n) => Advanced(r, i, n)
    case Refresh(i) => Refreshed(r, i)
  }

  lemma EffectOrderly<I, S, T>(r: Roster<I, S, T>, op: Operation<I, S, T>)
    requires Orderly(r)
    ensures Orderly(Effect(r, op))
  {
    assert Keeps(Lists, r);
    match op
    case Open(s, rows, stride) => if s !in r.flows && stride > 0 { OpenedOrderly(r, s, rows, stride); }
    case Begin(i, s) => if i !in r.iters && s in r.flows { BegunOrderly(r, i, s); }
    case Blank(i) => if i !in r.iters { EnteredOrderly(r, i, Mark(None, 0, [])); }
    case Copy(i, j) => if i !in r.iters && j in r.iters { CopiedOrderly(r, i, j); }
    case Assign(i, j) => if i in r.iters && j in r.iters { AssignedOrderly(r, i, j); }
    case Destroy(i) => if i in r.iters { WithdrawnOrderly(r, i); }
    case Advance(i, n) => if StreamOf(r, i).Some? { AdvancedOrderly(r, i, n); }
    case Refresh(i) => if i in r.iters { RefreshedOrderly(r, i); }
  }

  /** No stream ever goes back, nor forgets what it fetched; so it fetches no row twice. */
  lemma NeverGoesBack<I, S, T>(r: Roster<I, S, T>, op: Operation<I, S, T>, s: S)
    requires Orderly(r) && s in r.flows
    ensures var r' := Effect(r, op);
            && s in r'.flows && r'.flows[s].rows == r.flows[s].rows && r'.flows[s].realpos >= r.flows[s].realpos
            && r.flows[s].fetched <= r'.flows[s].fetched && Ascending(r'.flows[s].fetched, r'.flows[s].realpos)
  {
    EffectOrderly(r, op);
    PaceKnown(r, s);
    if op.Refresh? {
      RefreshedFlow(r, op.i, s);
    } else {
      FlowStays(r, op, s);
    }
    PaceKnown(Effect(r, op), s);
  }

  lemma PaceKnown<I, S, T>(r: Roster<I, S, T>, s: S)
    requires Orderly(r) && s in r.flows
    ensures Paced(r.flows[s])
  {
    assert Keeps(Pace, r);
  }

  /** Only looking at an iterator makes a stream read. */
  lemma FlowStays<I, S, T>(r: Roster<I, S, T>, op: Operation<I, S, T>, s: S)
    requires Orderly(r) && s in r.flows && !op.Refresh?
    ensures var r' := Effect(r, op);
            s in r'.flows && r'.flows[s] == r.flows[s].(list := r'.flows[s].list, reqpos := r'.flows[s].reqpos)
  {
    assert Keeps(Lists, r);
  }

  lemma RefreshedFlow<I, S, T>(r: Roster<I, S, T>, i: I, s: S)
    requires Orderly(r) && s in r.flows
    ensures var r' := Refreshed(r, i);
            && s in r'.flows && r'.flows[s].rows == r.flows[s].rows && r'.flows[s].realpos >= r.flows[s].realpos
            && r.flows[s].fetched <= r'.flows[s].fetched
  {
    assert Keeps(Lists, r);
    PaceKnown(r, s);
    if StreamOf(r, i) == Some(s) {
      GoesOnBehind(r.flows[s], Positions(r, r.flows[s].list), r.iters[i].pos);
    }
  }

  lemma GoesOnBehind<I, T>(f: Flow<I, T>, positions: seq<nat>, to: nat)
    requires f.realpos <= |f.rows|
    ensures Behind(f, positions, to).realpos >= f.realpos && f.fetched <= Behind(f, positions, to).fetched
  {
    ReachedBeyond(f.realpos, Furthest(positions, f.realpos, to), f.stride, |f.rows|);
  }

  /** After any sequence of operations each stream lists exactly the live iterators on it; and each
      iterator has no data, or those of its position. */
  ghost function RosterAfter<I, S, T>(ops: seq<Operation<I, S, T>>): (r: Roster<I, S, T>)
    ensures Orderly(r)
  {
    if ops == [] then Roster(map[], map[])
    else
      var before: Roster<I, S, T> := RosterAfter(ops[..|ops| - 1]);
      EffectOrderly(before, ops[|ops| - 1]);
      Effect(before, ops[|ops| - 1])
  }

  // ---------- Reading to the end ----------

  /** Looked at, the iterator is where the stream's requests are, and has its block. */
  ghost predicate Reading<I, S, T>(r: Roster<I, S, T>, i: I, s: S, rows: seq<T>, stride: nat, pos: nat) {
    && Orderly(r) && s in r.flows && i in r.iters
    && r.iters[i] == Mark(Some(s), pos, Block(rows, pos, stride))
    && r.flows[s].rows == rows && r.flows[s].stride == stride && r.flows[s].reqpos == pos
  }

  lemma ReadingStarts<I, S, T>(r: Roster<I, S, T>, i: I, s: S)
    requires Orderly(r) && i in r.iters && s in r.flows
    requires r.iters[i] == Mark(Some(s), r.flows[s].reqpos, []) && r.flows[s].realpos <= r.flows[s].reqpos
    ensures var f := r.flows[s]; Reading(Refreshed(r, i), i, s, f.rows, f.stride, f.reqpos)
  {
    assert Keeps(Lists, r);
    RefreshedOrderly(r, i);
    ReadsItsBlockExactlyWhen(r, i);
  }

  lemma ReadingStays<I, S, T>(r: Roster<I, S, T>, i: I, s: S, rows: seq<T>, stride: nat, pos: nat)
    requires Reading(r, i, s, rows, stride, pos)
    ensures Reading(Refreshed(r, i), i, s, rows, stride, pos)
  {
    assert Keeps(Lists, r);
    RefreshedOrderly(r, i);
    ReadsItsBlockExactlyWhen(r, i);
  }

  lemma ReadingProceeds<I, S, T>(r: Roster<I, S, T>, i: I, s: S, rows: seq<T>, stride: nat, pos: nat)
    requires Reading(r, i, s, rows, stride, pos)
    ensures Reading(Refreshed(Advanced(r, i, 1), i), i, s, rows, stride, pos + stride)
  {
    assert Keeps(Lists, r) && Keeps(Pace, r);
    AdvancedOrderly(r, i, 1);
    assert Strides(1, stride) == stride;
    ReadingStarts(Advanced(r, i, 1), i, s);
  }

  /** An iterator that is on no stream stays what it is, and affects none. */
  lemma BlankStays<I, S, T>(r: Roster<I, S, T>, i: I, end: I)
    requires Orderly(r) && i in r.iters && end in r.iters && r.iters[end].stream.None?
    ensures Refreshed(r, end) == r && Refreshed(r, i).iters[end] == r.iters[end]
    ensures Refreshed(r, i).flows.Keys == r.flows.Keys
  {
    assert Keeps(Lists, r);
  }

  // ---------- Streams and iterators ----------

  class Iter<T> {
    var stream: Stream?<T>
    var here: seq<T>
    var pos: nat
    var prev: Iter?<T>
    var next: Iter?<T>

    constructor (stream: Stream?<T>, here: seq<T>, pos: nat)
      ensures this.stream == stream && this.here == here && this.pos == pos && prev == null && next == null
    {
      this.stream, this.here, this.pos := stream, here, pos;
      prev, next := null, null;
    }
  }

  function At<T>(list: seq<Iter<T>>, k: int): Iter?<T> {
    if 0 <= k < |list| then list[k] else null
  }

  ghost predicate Linked<T>(list: seq<Iter<T>>, k: nat)
    requires k < |list|
    reads {list[k]}`prev, {list[k]}`next
  {
    list[k].prev == At(list, k - 1) && list[k].next == At(list, k + 1)
  }

  ghost predicate IsList<T>(head: Iter?<T>, list: seq<Iter<T>>)
    reads list`prev, list`next
  {
    Distinct(list) && head == At(list, 0) && forall k :: 0 <= k < |list| ==> Linked(list, k)
  }

  // ---------- What is to be done ----------

  /** An iterator to be served, and its position. */
  datatype Entry<T> = Entry(pos: nat, iter: Iter<T>)

  /** The iterators to be served, in the order of their positions: a multimap. */
  function Enlisted<T>(todo: seq<Entry<T>>, pos: nat, i: Iter<T>): seq<Entry<T>> {
    if todo == [] || pos < todo[0].pos then [Entry(pos, i)] + todo else [todo[0]] + Enlisted(todo[1..], pos, i)
  }

  predicate Sorted<T>(todo: seq<Entry<T>>) {
    forall j, k :: 0 <= j < k < |todo| ==> todo[j].pos <= todo[k].pos
  }

  lemma {:induction false} EnlistedSorted<T>(todo: seq<Entry<T>>, pos: nat, i: Iter<T>)
    requires Sorted(todo)
    ensures Sorted(Enlisted(todo, pos, i))
    ensures forall t :: t in Enlisted(todo, pos, i) ==> t in todo || t == Entry(pos, i)
    ensures Entry(pos, i) in Enlisted(todo, pos, i) && forall t :: t in todo ==> t in Enlisted(todo, pos, i)
  {
    if todo != [] && todo[0].pos <= pos {
      EnlistedSorted(todo[1..], pos, i);
      var rest := Enlisted(todo[1..], pos, i);
      assert forall t :: t in todo <==> t == todo[0] || t in todo[1..];
      forall k | 0 <= k < |rest| ensures todo[0].pos <= rest[k].pos {
        assert rest[k] in Enlisted(todo[1..], pos, i);
      }
    }
  }

  /** The first n are those up to some position, which is that of the last of them. */
  ghost predicate UpTo<T>(todo: seq<Entry<T>>, n: nat, last: int) {
    && n <= |todo|
    && (forall k :: 0 <= k < |todo| ==> (k < n <==> todo[k].pos <= last))
    && (last == -1 || (n > 0 && todo[n - 1].pos == last))
  }

  ghost predicate Due<T>(i: Iter<T>, from: nat, to: nat)
    reads i`pos
  {
    from <= i.pos <= to
  }

  /** Exactly the iterators that are due are to be served. */
  ghost predicate Gathers<T>(todo: seq<Entry<T>>, list: seq<Iter<T>>, from: nat, to: nat)
    reads list`pos
  {
    && Sorted(todo)
    && (forall t :: t in todo ==> t.iter in list && t.pos == t.iter.pos && Due(t.iter, from, to))
    && (forall i :: i in list && Due(i, from, to) ==> Entry(i.pos, i) in todo)
  }

  class Stream<T> {
    const cur: SqlCursor<T>
    const stride: nat
    var realpos: nat
    var reqpos: nat
    var iterators: Iter?<T>
    var done: bool

    /** The rows that were fetched, as opposed to being passed. */
    ghost var fetched: seq<nat>

    /** The client's count of rows passed is the server's. */
    ghost predicate Valid()
      reads this, cur
    {
      cur.Valid() && stride > 0 && realpos == Min(cur.serverPos, |cur.rows|)
    }

    constructor (rows: seq<T>, stride: nat)
      requires stride > 0 && |rows| < ALL
      ensures Valid() && fresh(cur) && cur.rows == rows && this.stride == stride
      ensures realpos == 0 && reqpos == 0 && iterators == null && !done && fetched == []
    {
      fetched := [];
      cur := new SqlCursor.Create(rows);
      this.stride := stride;
      realpos, reqpos, iterators, done := 0, 0, null, false;
    }

    /** Read a block of rows; none are left exactly if it is empty. */
    method FetchBlock() returns (r: seq<T>)
      requires Valid()
      modifies this`realpos, this`done, this`fetched, cur
      ensures fetched == old(fetched) + Numbers(old(realpos), |r|)
      ensures Valid() && r == Block(cur.rows, old(realpos), stride) && realpos == old(realpos) + |r|
      ensures done == (old(done) || r == [])
    {
      var f := cur.FetchRows(stride);
      r := f.rows;
      fetched := fetched + Numbers(realpos, |r|);
      realpos := realpos + |r|;
      if |r| == 0 {
        done := true;
      }
    }

    /** Pass some rows without reading them. */
    method Ignore(n: nat)
      requires Valid()
      modifies this`realpos, this`done, cur
      ensures Valid() && realpos == Min(old(realpos) + n, |cur.rows|)
      ensures done == (old(done) || old(realpos) + n > |cur.rows|)
    {
      var m := cur.MoveRows(n);
      realpos := realpos + m.count;
      if m.count < n {
        done := true;
      }
    }

    method Forward(n: nat) returns (pos: nat)
      modifies this`reqpos
      ensures pos == reqpos == old(reqpos) + Strides(n, stride)
    {
      reqpos := reqpos + Strides(n, stride);
      pos := reqpos;
    }

    method InsertIterator(i: Iter<T>, ghost list: seq<Iter<T>>)
      requires IsList(iterators, list) && i !in list && i.prev == null
      modifies this`iterators, i`next, list`prev
      ensures IsList(iterators, [i] + list)
    {
      i.next := iterators;
      if iterators != null {
        iterators.prev := i;
      }
      iterators := i;
      ghost var list' := [i] + list;
      forall k | 0 <= k < |list'| ensures Linked(list', k) {
        assert k > 0 ==> old(Linked(list, k - 1));
      }
    }

    method RemoveIterator(i: Iter<T>, ghost list: seq<Iter<T>>, ghost k: nat)
      requires IsList(iterators, list) && k < |list| && list[k] == i
      modifies this`iterators, list`prev, list`next
      ensures IsList(iterators, Remove(list, k)) && i.prev == null && i.next == null
    {
      assert Linked(list, k);
      assert k > 0 ==> Linked(list, k - 1);
      if i == iterators {
        iterators := i.next;
        if iterators != null {
          iterators.prev := null;
        }
      } else {
        var prev, next := i.prev, i.next;
        prev.next := next;
        if next != null {
          next.prev := prev;
        }
      }
      i.prev := null;
      i.next := null;
      ghost var list' := Remove(list, k);
      forall j | 0 <= j < |list'| ensures Linked(list', j) {
        ghost var j0 := if j < k then j else j + 1;
        assert old(Linked(list, j0));
        assert list'[j] == list[j0] != i;
      }
    }

    /** Find the iterators from here up to the given position. */
    method Gather(to: nat, ghost list: seq<Iter<T>>) returns (todo: seq<Entry<T>>)
      requires IsList(iterators, list)
      ensures Gathers(todo, list, realpos, to)
    {
      todo := [];
      var i := iterators;
      ghost var k := 0;
      while i != null
        invariant k <= |list| && i == At(list, k) && Gathers(todo, list[..k], realpos, to)
        decreases |list| - k
      {
        assert Linked(list, k);
        assert list[..k + 1] == list[..k] + [i];
        if realpos <= i.pos <= to {
          EnlistedSorted(todo, i.pos, i);
          todo := Enlisted(todo, i.pos, i);
        }
        i := i.next;
        k := k + 1;
      }
      assert list[..k] == list;
    }

    /** Fill all iterators at one position, which are next in line. */
    method FillGroup(todo: seq<Entry<T>>, first: nat, r: seq<T>) returns (n: nat)
      requires first < |todo| && Sorted(todo) && forall t :: t in todo ==> t.pos == t.iter.pos
      requires forall k :: 0 <= k < first ==> todo[k].pos < todo[first].pos
      modifies (set t | t in todo :: t.iter)`here
      ensures first < n <= |todo| && forall k :: 0 <= k < |todo| ==> (k < n <==> todo[k].pos <= todo[first].pos)
      ensures forall t :: t in todo ==> t.iter.here == if t.pos == todo[first].pos then r else old(t.iter.here)
    {
      n := first;
      while n < |todo| && todo[n].pos == todo[first].pos
        invariant first <= n <= |todo| && forall k :: first <= k < n ==> todo[k].pos == todo[first].pos
        invariant forall k :: first <= k < n ==> todo[k].iter.here == r
        invariant forall t :: t in todo ==> t.iter.here == old(t.iter.here) || (t.pos == todo[first].pos && t.iter.here == r)
      {
        var t := todo[n];
        t.iter.here := r;
        n := n + 1;
      }
    }

    /** Skip the rows before the given position, and read the block there. */
    method ReadBlockAt(readpos: nat) returns (r: seq<T>)
      requires Valid() && readpos >= realpos
      modifies this`realpos, this`done, this`fetched, cur
      ensures fetched == old(fetched) + BlockNumbers(readpos, stride, |cur.rows|)
      ensures Valid() && r == Block(cur.rows, readpos, stride) && realpos == Min(readpos + stride, |cur.rows|)
    {
      if readpos > realpos {
        Ignore(readpos - realpos);
      }
      r := FetchBlock();
      BlockFrom(cur.rows, readpos, stride);
    }

    /** Serve the next in line, and all others at the same position. */
    method ServeGroup(todo: seq<Entry<T>>, first: nat, ghost last: int, ghost list: seq<Iter<T>>, ghost from: nat, ghost to: nat)
      returns (n: nat)
      requires Valid() && Gathers(todo, list, from, to) && UpTo(todo, first, last) && first < |todo|
      requires forall i :: i in list ==> Aligned(i.pos, stride)
      requires realpos == Reached(from, last, stride, |cur.rows|)
      modifies this`realpos, this`done, this`fetched, cur, list`here
      ensures Valid() && first < n && UpTo(todo, n, todo[first].pos)
      ensures fetched == old(fetched) + BlockNumbers(todo[first].pos, stride, |cur.rows|)
      ensures realpos == Reached(from, todo[first].pos, stride, |cur.rows|)
      ensures forall i :: i in list ==>
                i.here == if Entry(i.pos, i) in todo && i.pos == todo[first].pos then Block(cur.rows, i.pos, stride) else old(i.here)
    {
      var readpos := todo[first].pos;
      assert todo[first] in todo;
      if last >= 0 {
        assert todo[first - 1] in todo;
        AlignedApart(todo[first - 1].pos, readpos, stride);
      }
      var r := ReadBlockAt(readpos);
      n := FillGroup(todo, first, r);
    }

    /** Serve all that are in line. */
    method ServeAll(todo: seq<Entry<T>>, ghost list: seq<Iter<T>>, ghost positions: seq<nat>, ghost from: nat, ghost to: nat)
      returns (ghost last: int)
      requires Valid() && Gathers(todo, list, from, to) && from == realpos && AreAt(list, positions)
      requires forall i :: i in list ==> Aligned(i.pos, stride)
      modifies this`realpos, this`done, this`fetched, cur, list`here
      ensures Valid() && UpTo(todo, |todo|, last) && realpos == Reached(from, last, stride, |cur.rows|)
      ensures fetched == old(fetched) + RowsRead(positions, from, last, stride, |cur.rows|)
      ensures forall i :: i in list ==>
                i.here == if Due(i, from, to) && i.pos <= last then Block(cur.rows, i.pos, stride) else old(i.here)
    {
      last := -1;
      var n := 0;
      while n < |todo|
        invariant Valid() && UpTo(todo, n, last) && realpos == Reached(from, last, stride, |cur.rows|)
        invariant AreAt(list, positions)
        invariant fetched == old(fetched) + RowsRead(positions, from, last, stride, |cur.rows|)
        invariant forall i :: i in list ==>
                    i.here == if Due(i, from, to) && i.pos <= last then Block(cur.rows, i.pos, stride) else old(i.here)
      {
        GroupIsNext(todo, n, last, list, from, to);
        ghost var next := todo[n].pos;
        NextRows(todo, n, last, list, positions, from, to, stride, |cur.rows|);
        ghost var before := RowsRead(positions, from, last, stride, |cur.rows|);
        n := ServeGroup(todo, n, last, list, from, to);
        ConcatAssociates(old(fetched), before, BlockNumbers(next, stride, |cur.rows|));
        last := next;
      }
    }

    /** Read on up to the given position, and serve each iterator that is due there or before with
        the block of rows at its position; skip rows that none of them wants. */
    method ServiceIterators(to: nat, ghost list: seq<Iter<T>>)
      requires Valid() && IsList(iterators, list)
      requires forall i :: i in list ==> Aligned(i.pos, stride)
      modifies this`realpos, this`done, this`fetched, cur, list`here
      ensures Valid()
      ensures forall i :: i in list ==> i.here == if Due(i, old(realpos), to) then Block(cur.rows, i.pos, stride) else old(i.here)
      ensures realpos == Reached(old(realpos), Furthest(PositionsOf(list), old(realpos), to), stride, |cur.rows|)
      ensures fetched == old(fetched) + RowsRead(PositionsOf(list), old(realpos), to, stride, |cur.rows|)
    {
      if to < realpos {
        return;
      }
      ghost var from := realpos;
      var todo := Gather(to, list);
      ghost var positions := PositionsOf(list);
      ghost var last := ServeAll(todo, list, positions, from, to);
      LastIsFurthest(todo, last, list, from, to);
      assert positions == PositionsOf(list);
      RowsReadAll(positions, from, last, to, stride, |cur.rows|);
    }
  }

  ghost function PositionsOf<T>(list: seq<Iter<T>>): (r: seq<nat>)
    reads list`pos
    ensures |r| == |list| && forall k :: 0 <= k < |list| ==> r[k] == list[k].pos
  {
    if list == [] then [] else [list[0].pos] + PositionsOf(list[1..])
  }

  lemma BlockFrom<T>(rows: seq<T>, pos: nat, stride: nat)
    ensures Block(rows, Min(pos, |rows|), stride) == Block(rows, pos, stride)
  {
  }

  /** The next group are those that are due behind the ones served so far, up to its position. */
  lemma GroupIsNext<T>(todo: seq<Entry<T>>, n: nat, last: int, list: seq<Iter<T>>, from: nat, to: nat)
    requires Gathers(todo, list, from, to) && UpTo(todo, n, last) && n < |todo|
    ensures forall i :: i in list ==>
              (Due(i, from, to) && i.pos <= todo[n].pos
               <==> (Due(i, from, to) && i.pos <= last) || (Entry(i.pos, i) in todo && i.pos == todo[n].pos))
  {
    forall i | i in list && Due(i, from, to) && last < i.pos <= todo[n].pos ensures i.pos == todo[n].pos {
      assert Entry(i.pos, i) in todo;
    }
  }

  ghost predicate AreAt<T>(list: seq<Iter<T>>, positions: seq<nat>)
    reads list`pos
  {
    |positions| == |list| && forall k :: 0 <= k < |list| ==> positions[k] == list[k].pos
  }

  lemma NextPosition<T>(todo: seq<Entry<T>>, n: nat, last: int, list: seq<Iter<T>>, positions: seq<nat>, from: nat, to: nat)
    requires Gathers(todo, list, from, to) && UpTo(todo, n, last) && n < |todo| && AreAt(list, positions)
    ensures var next := todo[n].pos;
            && last < next && from <= next && next in positions
            && forall q :: q in positions && from <= q <= next && q > last ==> q == next
  {
    var next := todo[n].pos;
    assert todo[n] in todo;
    var k :| 0 <= k < |list| && list[k] == todo[n].iter;
    assert positions[k] == next;
    forall q | q in positions && from <= q <= next && q > last ensures q == next {
      var j :| 0 <= j < |positions| && positions[j] == q;
      assert list[j] in list && Entry(q, list[j]) in todo;
    }
  }

  lemma NextRows<T>(todo: seq<Entry<T>>, k: nat, last: int, list: seq<Iter<T>>, positions: seq<nat>, from: nat, to: nat,
                    stride: nat, n: nat)
    requires Gathers(todo, list, from, to) && UpTo(todo, k, last) && k < |todo| && AreAt(list, positions)
    ensures RowsRead(positions, from, todo[k].pos, stride, n)
            == RowsRead(positions, from, last, stride, n) + BlockNumbers(todo[k].pos, stride, n)
  {
    NextPosition(todo, k, last, list, positions, from, to);
    RowsReadNext(positions, from, last, todo[k].pos, stride, n);
  }

  lemma LastIsFurthest<T>(todo: seq<Entry<T>>, last: int, list: seq<Iter<T>>, from: nat, to: nat)
    requires Gathers(todo, list, from, to) && UpTo(todo, |todo|, last)
    ensures Furthest(PositionsOf(list), from, to) == last
    ensures forall q :: q in PositionsOf(list) && from <= q <= to ==> q <= last
    ensures forall i :: i in list && Due(i, from, to) ==> i.pos <= last
  {
    forall i | i in list && Due(i, from, to) ensures i.pos <= last {
      assert Entry(i.pos, i) in todo;
    }
    var positions := PositionsOf(list);
    if last >= 0 {
      var t := todo[|todo| - 1];
      assert t in todo;
      var k :| 0 <= k < |list| && list[k] == t.iter;
      assert positions[k] == last;
    }
    forall p | p in positions && from <= p <= to ensures p <= last {
      var k :| 0 <= k < |positions| && positions[k] == p;
      assert list[k] in list;
    }
    FurthestIsLast(positions, from, to, last);
  }

  lemma FurthestIsLast(positions: seq<nat>, from: nat, to: int, last: int)
    requires last == -1 || (from <= last <= to && last in positions)
    requires forall p :: p in positions && from <= p <= to ==> p <= last
    ensures Furthest(positions, from, to) == last
  {
  }

  // ---------- The streams and iterators of a program ----------

  type Flows<!T> = map<Stream<T>, Flow<Iter<T>, T>>
  type Marks<!T> = map<Iter<T>, Mark<Stream<T>, T>>

  ghost predicate StreamAgrees<T>(s: Stream<T>, f: Flow<Iter<T>, T>)
    reads s, s.cur, f.list`prev, f.list`next
  {
    && s.Valid() && s.cur.rows == f.rows && s.stride == f.stride && s.realpos == f.realpos && s.reqpos == f.reqpos
    && s.fetched == f.fetched
    && IsList(s.iterators, f.list)
  }

  ghost predicate StreamsAgree<T>(flows: Flows<T>, iters: set<Iter<T>>, but: set<Stream<T>>)
    reads flows.Keys, (set s | s in flows :: s.cur), iters`prev, iters`next
  {
    forall s :: s in flows && s !in but ==> (forall i :: i in flows[s].list ==> i in iters) && StreamAgrees(s, flows[s])
  }

  ghost predicate IterAgrees<T>(i: Iter<T>, m: Mark<Stream<T>, T>)
    reads i`stream, i`pos, i`here
  {
    && (match m.stream case None => i.stream == null case Some(s) => i.stream == s)
    && i.pos == m.pos && i.here == m.here
  }

  ghost predicate ItersAgree<T>(iters: Marks<T>)
    reads iters.Keys`stream, iters.Keys`pos, iters.Keys`here
  {
    forall i :: i in iters ==> IterAgrees(i, iters[i])
  }

  /** Iterators that are on no stream are in no list. */
  ghost predicate Unlinked<T>(iters: Marks<T>)
    reads iters.Keys`prev, iters.Keys`next
  {
    forall i :: i in iters && iters[i].stream.None? ==> i.prev == null && i.next == null
  }

  ghost predicate OwnCursors<T>(flows: Flows<T>) {
    forall s, z :: s in flows && z in flows && s != z ==> s.cur != z.cur
  }

  /** No other stream has an iterator in its list that this one has. */
  ghost predicate Apart<T>(flows: Flows<T>, s: Stream<T>)
    requires s in flows
  {
    forall z, i :: z in flows && z != s && i in flows[z].list ==> i !in flows[s].list
  }

  lemma OneAgreesAgain<T>(flows: Flows<T>, iters: set<Iter<T>>, s: Stream<T>, f: Flow<Iter<T>, T>)
    requires StreamsAgree(flows, iters, {s})
    requires StreamAgrees(s, f) && forall i :: i in f.list ==> i in iters
    ensures StreamsAgree(flows[s := f], iters, {})
  {
  }

  lemma RemovedKnown<I>(list: seq<I>, k: nat)
    requires k < |list|
    ensures forall i :: i in Remove(list, k) ==> i in list
  {
  }

  method EnterOwnList<T>(s: Stream<T>, i: Iter<T>, ghost flows: Flows<T>, ghost iters: set<Iter<T>>)
    requires StreamsAgree(flows, iters, {}) && s in flows && Apart(flows, s)
    requires i.prev == null && i !in iters
    modifies s`iterators, i`next, flows[s].list`prev
    ensures StreamAgrees(s, flows[s].(list := [i] + flows[s].list))
    ensures forall z :: z in flows && z != s ==> unchanged(z) && unchanged(z.cur)
    ensures forall j :: j in iters && j !in flows[s].list ==> j.prev == old(j.prev) && j.next == old(j.next)
  {
    assert StreamAgrees(s, flows[s]);
    s.InsertIterator(i, flows[s].list);
  }

  /** An iterator enters the list of its stream; the lists of other streams are not affected. */
  method EnterList<T>(s: Stream<T>, i: Iter<T>, ghost flows: Flows<T>, ghost iters: set<Iter<T>>)
    requires StreamsAgree(flows, iters, {}) && s in flows && Apart(flows, s)
    requires i.prev == null && i !in iters
    modifies s`iterators, i`next, flows[s].list`prev
    ensures StreamsAgree(flows[s := flows[s].(list := [i] + flows[s].list)], iters + {i}, {})
  {
    ghost var list := flows[s].list;
    EnterOwnList(s, i, flows, iters);
    assert StreamAgrees(s, flows[s].(list := [i] + list));
    assert StreamsAgree(flows, iters + {i}, {s});
    OneAgreesAgain(flows, iters + {i}, s, flows[s].(list := [i] + list));
  }

  method LeaveOwnList<T>(s: Stream<T>, i: Iter<T>, ghost k: nat, ghost flows: Flows<T>, ghost iters: set<Iter<T>>)
    requires StreamsAgree(flows, iters, {}) && s in flows && Apart(flows, s)
    requires k < |flows[s].list| && flows[s].list[k] == i
    modifies s`iterators, flows[s].list`prev, flows[s].list`next
    ensures StreamAgrees(s, flows[s].(list := Remove(flows[s].list, k))) && i.prev == null && i.next == null
    ensures forall z :: z in flows && z != s ==> unchanged(z) && unchanged(z.cur)
    ensures forall j :: j in iters && j !in flows[s].list ==> j.prev == old(j.prev) && j.next == old(j.next)
  {
    assert StreamAgrees(s, flows[s]);
    s.RemoveIterator(i, flows[s].list, k);
  }

  /** An iterator leaves the list of its stream. */
  method LeaveList<T>(s: Stream<T>, i: Iter<T>, ghost k: nat, ghost flows: Flows<T>, ghost iters: set<Iter<T>>)
    requires StreamsAgree(flows, iters, {}) && s in flows && Apart(flows, s)
    requires k < |flows[s].list| && flows[s].list[k] == i
    modifies s`iterators, flows[s].list`prev, flows[s].list`next
    ensures StreamsAgree(flows[s := flows[s].(list := Remove(flows[s].list, k))], iters, {})
    ensures i.prev == null && i.next == null
  {
    ghost var rest := Remove(flows[s].list, k);
    RemovedKnown(flows[s].list, k);
    LeaveOwnList(s, i, k, flows, iters);
    assert StreamAgrees(s, flows[s].(list := rest));
    OneAgreesAgain(flows, iters, s, flows[s].(list := rest));
  }

  /** The objects are as the roster says. */
  ghost predicate Agreed<T>(r: Roster<Iter<T>, Stream<T>, T>)
    reads r.iters.Keys, r.flows.Keys, (set s | s in r.flows :: s.cur)
  {
    && StreamsAgree(r.flows, r.iters.Keys, {}) && ItersAgree(r.iters)
    && Unlinked(r.iters) && OwnCursors(r.flows)
  }

  /** All is well: the roster is orderly, and the objects are as it says. */
  datatype Part = Order | Objects

  ghost predicate In<T>(p: Part, r: Roster<Iter<T>, Stream<T>, T>)
    reads r.iters.Keys, r.flows.Keys, (set s | s in r.flows :: s.cur)
  {
    match p
    case Order => Orderly(r)
    case Objects => Agreed(r)
  }

  ghost predicate Fit<T>(r: Roster<Iter<T>, Stream<T>, T>)
    reads r.iters.Keys, r.flows.Keys, (set s | s in r.flows :: s.cur)
  {
    forall p: Part :: In(p, r)
  }

  lemma ListsApart<T>(r: Roster<Iter<T>, Stream<T>, T>, s: Stream<T>)
    requires Listed(r) && s in r.flows
    ensures Apart(r.flows, s)
    ensures forall i :: i in r.flows[s].list ==> i in r.iters && r.iters[i].stream == Some(s)
  {
    forall z: Stream<T>, i: Iter<T> | z in r.flows && z != s && i in r.flows[z].list ensures i !in r.flows[s].list {
      assert r.iters[i].stream == Some(z);
    }
  }

  method OpenIn<T>(rows: seq<T>, stride: nat, ghost r: Roster<Iter<T>, Stream<T>, T>) returns (s: Stream<T>)
    requires Fit(r) && stride > 0 && |rows| < ALL
    ensures fresh(s) && fresh(s.cur) && Agreed(Opened(r, s, rows, stride))
    ensures s.cur.rows == rows && s.stride == stride && s.realpos == 0 && s.reqpos == 0 && s.fetched == []
  {
    assert In(Objects, r);
    s := new Stream(rows, stride);
    assert StreamsAgree(r.flows, r.iters.Keys, {s});
    OneAgreesAgain(r.flows, r.iters.Keys, s, Flow(rows, stride, 0, 0, [], []));
  }

  /** A request is made of the stream. */
  method ForwardIn<T>(s: Stream<T>, n: nat, ghost flows: Flows<T>, ghost iters: set<Iter<T>>) returns (pos: nat)
    requires StreamsAgree(flows, iters, {}) && s in flows
    modifies s`reqpos
    ensures pos == flows[s].reqpos + Strides(n, flows[s].stride)
    ensures StreamsAgree(flows[s := flows[s].(reqpos := pos)], iters, {})
  {
    assert StreamAgrees(s, flows[s]);
    pos := s.Forward(n);
    assert StreamsAgree(flows, iters, {s});
    OneAgreesAgain(flows, iters, s, flows[s].(reqpos := pos));
  }

  /** An iterator with a value enters the list of its stream. */
  method EnterIn<T>(s: Stream<T>, i: Iter<T>, ghost m: Mark<Stream<T>, T>, ghost r: Roster<Iter<T>, Stream<T>, T>)
    requires Agreed(r) && Listed(r) && i !in r.iters && s in r.flows
    requires m.stream == Some(s) && IterAgrees(i, m) && i.prev == null
    modifies s`iterators, i`next, r.flows[s].list`prev
    ensures Agreed(Entered(r, i, m))
  {
    ListsApart(r, s);
    EnterList(s, i, r.flows, r.iters.Keys);
    EnteredAgreed(s, i, m, r);
  }

  lemma EnteredAgreed<T>(s: Stream<T>, i: Iter<T>, m: Mark<Stream<T>, T>, r: Roster<Iter<T>, Stream<T>, T>)
    requires i !in r.iters && s in r.flows && m.stream == Some(s) && IterAgrees(i, m)
    requires StreamsAgree(r.flows[s := r.flows[s].(list := [i] + r.flows[s].list)], r.iters.Keys + {i}, {})
    requires ItersAgree(r.iters) && Unlinked(r.iters) && OwnCursors(r.flows)
    ensures Agreed(Entered(r, i, m))
  {
    assert Entered(r, i, m).iters.Keys == r.iters.Keys + {i};
  }

  /** Where requests on the stream are: a request for nothing. */
  method PeekIn<T>(s: Stream<T>, ghost r: Roster<Iter<T>, Stream<T>, T>) returns (pos: nat)
    requires Agreed(r) && s in r.flows
    modifies s`reqpos
    ensures Agreed(r) && pos == r.flows[s].reqpos
  {
    pos := ForwardIn(s, 0, r.flows, r.iters.Keys);
    SameFlows(r.flows, s);
  }

  method BeginIn<T>(s: Stream<T>, ghost r: Roster<Iter<T>, Stream<T>, T>) returns (i: Iter<T>)
    requires Fit(r) && s in r.flows
    modifies s, r.flows[s].list`prev
    ensures fresh(i) && Agreed(Begun(r, i, s))
  {
    assert In(Order, r) && In(Objects, r) && Keeps(Lists, r);
    var pos := PeekIn(s, r);
    i := new Iter(s, [], pos);
    EnterIn(s, i, Mark(Some(s), r.flows[s].reqpos, []), r);
  }

  lemma SameFlows<T>(flows: Flows<T>, s: Stream<T>)
    requires s in flows
    ensures flows[s := flows[s].(reqpos := flows[s].reqpos)] == flows
  {
  }

  method BlankIn<T>(ghost r: Roster<Iter<T>, Stream<T>, T>) returns (i: Iter<T>)
    requires Fit(r)
    ensures fresh(i) && Agreed(Entered(r, i, Mark(None, 0, [])))
  {
    assert In(Objects, r);
    i := new Iter(null, [], 0);
    assert StreamsAgree(r.flows, r.iters.Keys + {i}, {});
    assert Entered(r, i, Mark(None, 0, [])).iters.Keys == r.iters.Keys + {i};
  }

  /** A copy has the other's value, and is on the same stream. */
  method CopyIn<T>(j: Iter<T>, ghost r: Roster<Iter<T>, Stream<T>, T>) returns (i: Iter<T>)
    requires Fit(r) && j in r.iters
    modifies OwnStream(r, j)
    modifies OwnList(r, j)`prev
    ensures fresh(i) && Agreed(Copied(r, i, j))
  {
    assert In(Order, r) && In(Objects, r) && Keeps(Lists, r);
    assert IterAgrees(j, r.iters[j]);
    i := new Iter(j.stream, j.here, j.pos);
    if i.stream != null {
      EnterIn(i.stream, i, r.iters[j], r);
    } else {
      assert StreamsAgree(r.flows, r.iters.Keys + {i}, {});
      assert Entered(r, i, r.iters[j]).iters.Keys == r.iters.Keys + {i};
    }
  }

  /** An iterator goes; if it is on a stream it leaves that one's list first. */
  method LeaveIn<T>(i: Iter<T>, ghost r: Roster<Iter<T>, Stream<T>, T>)
    requires Fit(r) && i in r.iters
    modifies OwnStream(r, i)
    modifies OwnList(r, i)`prev
    modifies OwnList(r, i)`next
    ensures Agreed(Withdrawn(r, i)) && i.prev == null && i.next == null
  {
    assert In(Order, r) && In(Objects, r) && Keeps(Lists, r);
    assert IterAgrees(i, r.iters[i]);
    if i.stream != null {
      ghost var s := r.iters[i].stream.value;
      ListsApart(r, s);
      LeaveList(i.stream, i, IndexOf(r.flows[s].list, i), r.flows, r.iters.Keys);
      assert ItersAgree(r.iters) && Unlinked(r.iters);
    }
    WithdrawnListed(r, i);
    FewerKnown(r, i);
  }

  lemma FewerKnown<T>(r: Roster<Iter<T>, Stream<T>, T>, i: Iter<T>)
    requires Listed(r) && i in r.iters && StreamsAgree(Withdrawn(r, i).flows, r.iters.Keys, {})
    ensures StreamsAgree(Withdrawn(r, i).flows, Withdrawn(r, i).iters.Keys, {})
  {
    WithdrawnListed(r, i);
    var r' := Withdrawn(r, i);
    forall s | s in r'.flows ensures forall j :: j in r'.flows[s].list ==> j in r'.iters.Keys {
      assert Listed(r');
    }
  }

  /** A lone iterator takes another's value, and enters the list of its stream. */
  method TakeIn<T>(i: Iter<T>, j: Iter<T>, ghost r: Roster<Iter<T>, Stream<T>, T>)
    requires Agreed(r) && Listed(r) && i !in r.iters && j in r.iters && i.prev == null && i.next == null
    modifies i
    modifies OwnStream(r, j)
    modifies OwnList(r, j)`prev
    ensures Agreed(Copied(r, i, j))
  {
    assert IterAgrees(j, r.iters[j]);
    i.here := j.here;
    i.pos := j.pos;
    i.stream := j.stream;
    assert StreamsAgree(r.flows, r.iters.Keys, {}) && ItersAgree(r.iters) && Unlinked(r.iters);
    if i.stream != null {
      EnterIn(i.stream, i, r.iters[j], r);
    } else {
      assert StreamsAgree(r.flows, r.iters.Keys + {i}, {});
      assert Entered(r, i, r.iters[j]).iters.Keys == r.iters.Keys + {i};
    }
  }

  method SetValue<T>(i: Iter<T>, pos: nat, here: seq<T>, ghost iters: Marks<T>)
    requires ItersAgree(iters) && i in iters
    modifies i`pos, i`here
    ensures ItersAgree(iters[i := iters[i].(pos := pos, here := here)])
  {
    assert IterAgrees(i, iters[i]);
    i.pos := pos;
    i.here := here;
    assert forall j :: j in iters && j != i ==> IterAgrees(j, iters[j]);
  }

  method MoveIn<T>(i: Iter<T>, j: Iter<T>, ghost r: Roster<Iter<T>, Stream<T>, T>)
    requires Fit(r) && i in r.iters && j in r.iters && r.iters[i].stream != r.iters[j].stream
    modifies i, r.flows.Keys, r.iters.Keys`prev, r.iters.Keys`next
    ensures Agreed(Assigned(r, i, j))
  {
    assert In(Order, r) && In(Objects, r) && Keeps(Lists, r);
    ListedMembers(r, i);
    ListedMembers(r, j);
    LeaveIn(i, r);
    WithdrawnListed(r, i);
    TakeIn(i, j, Withdrawn(r, i));
  }

  method AssignIn<T>(i: Iter<T>, j: Iter<T>, ghost r: Roster<Iter<T>, Stream<T>, T>)
    requires Fit(r) && i in r.iters && j in r.iters
    modifies i, r.flows.Keys, r.iters.Keys`prev, r.iters.Keys`next
    ensures Agreed(Assigned(r, i, j))
  {
    assert In(Order, r) && In(Objects, r) && Keeps(Lists, r);
    assert IterAgrees(i, r.iters[i]) && IterAgrees(j, r.iters[j]);
    if i.stream == j.stream {
      SetValue(i, j.pos, j.here, r.iters);
      assert Assigned(r, i, j).iters == r.iters[i := r.iters[i].(pos := j.pos, here := j.here)];
    } else {
      MoveIn(i, j, r);
    }
  }

  lemma ListedMembers<T>(r: Roster<Iter<T>, Stream<T>, T>, i: Iter<T>)
    requires Listed(r) && i in r.iters
    ensures r.iters[i].stream.Some? ==> forall k :: k in r.flows[r.iters[i].stream.value].list ==> k in r.iters
  {
  }

  method AdvanceIn<T>(i: Iter<T>, n: nat, ghost r: Roster<Iter<T>, Stream<T>, T>)
    requires Fit(r) && i in r.iters && r.iters[i].stream.Some?
    modifies i`pos, i`here, r.iters[i].stream.value`reqpos
    ensures Agreed(Advanced(r, i, n))
  {
    assert In(Order, r) && In(Objects, r) && Keeps(Lists, r);
    assert IterAgrees(i, r.iters[i]);
    var pos := ForwardIn(i.stream, n, r.flows, r.iters.Keys);
    assert ItersAgree(r.iters);
    ghost var s, r' := r.iters[i].stream.value, Advanced(r, i, n);
    AdvancedMeans(r, i, n, pos);
    SetValue(i, pos, [], r.iters);
    assert StreamsAgree(r'.flows, r'.iters.Keys, {});
  }

  lemma AdvancedMeans<T>(r: Roster<Iter<T>, Stream<T>, T>, i: Iter<T>, n: nat, pos: nat)
    requires Listed(r) && i in r.iters && r.iters[i].stream.Some?
    requires var f := r.flows[r.iters[i].stream.value]; pos == f.reqpos + Strides(n, f.stride)
    ensures var s, r' := r.iters[i].stream.value, Advanced(r, i, n);
            && r'.flows == r.flows[s := r.flows[s].(reqpos := pos)] && r'.flows.Keys == r.flows.Keys
            && r'.iters == r.iters[i := r.iters[i].(pos := pos, here := [])] && r'.iters.Keys == r.iters.Keys
  {
  }

  method RefreshIn<T>(i: Iter<T>, ghost r: Roster<Iter<T>, Stream<T>, T>)
    requires Fit(r) && i in r.iters
    modifies OwnStream(r, i), (set s | s in OwnStream(r, i) :: s.cur), OwnList(r, i)`here
    ensures Agreed(Refreshed(r, i))
  {
    assert In(Order, r) && In(Objects, r) && Keeps(Lists, r);
    ListedMembers(r, i);
    assert IterAgrees(i, r.iters[i]);
    if i.stream != null {
      ServeIn(i.stream, i.pos, r);
    }
  }

  method ServeOwn<T>(s: Stream<T>, to: nat, ghost f: Flow<Iter<T>, T>, ghost iters: Marks<T>)
    requires StreamAgrees(s, f) && forall i :: i in f.list ==> i in iters && IterAgrees(i, iters[i]) && Aligned(i.pos, s.stride)
    modifies s`realpos, s`done, s`fetched, s.cur, f.list`here
    ensures StreamAgrees(s, Behind(f, PositionsOf(f.list), to))
    ensures forall i :: i in f.list ==> IterAgrees(i, Served(iters[i], f, to))
  {
    ghost var list := f.list;
    s.ServiceIterators(to, list);
    forall i | i in list ensures IterAgrees(i, Served(iters[i], f, to)) {
      assert old(IterAgrees(i, iters[i]));
      assert Due(i, f.realpos, to) <==> f.realpos <= iters[i].pos <= to;
    }
  }

  method ServeListed<T>(s: Stream<T>, to: nat, ghost f: Flow<Iter<T>, T>, ghost r: Roster<Iter<T>, Stream<T>, T>)
    requires StreamsAgree(r.flows, r.iters.Keys, {}) && ItersAgree(r.iters) && OwnCursors(r.flows) && s in r.flows && f == r.flows[s]
    requires forall i :: i in f.list ==> i in r.iters && Aligned(i.pos, f.stride)
    modifies s`realpos, s`done, s`fetched, s.cur, f.list`here
    ensures StreamsAgree(r.flows, r.iters.Keys, {s}) && StreamAgrees(s, Behind(f, PositionsOf(f.list), to))
    ensures forall i :: i in r.iters ==> IterAgrees(i, if i in f.list then Served(r.iters[i], f, to) else r.iters[i])
  {
    assert StreamAgrees(s, f);
    assert forall i :: i in r.iters ==> IterAgrees(i, r.iters[i]);
    ServeOwn(s, to, f, r.iters);
    assert forall i :: i in r.iters && i !in f.list ==> IterAgrees(i, r.iters[i]);
  }

  method ServeIn<T>(s: Stream<T>, to: nat, ghost r: Roster<Iter<T>, Stream<T>, T>)
    requires Agreed(r) && Orderly(r) && Listed(r) && s in r.flows
    modifies s`realpos, s`done, s`fetched, s.cur, r.flows[s].list`here
    ensures Agreed(Serviced(r, s, to))
  {
    SamePositions(r, s);
    ServeListed(s, to, r.flows[s], r);
    ServedAgreed(s, to, r);
  }

  lemma ServedAgreed<T>(s: Stream<T>, to: nat, r: Roster<Iter<T>, Stream<T>, T>)
    requires Listed(r) && s in r.flows && StreamsAgree(r.flows, r.iters.Keys, {s}) && Unlinked(r.iters) && OwnCursors(r.flows)
    requires StreamAgrees(s, FlowBehind(r, s, to))
    requires forall i :: i in r.iters ==>
               IterAgrees(i, if i in r.flows[s].list then Served(r.iters[i], r.flows[s], to) else r.iters[i])
    ensures Agreed(Serviced(r, s, to))
  {
    ServicedSame(r, s, to);
    OneAgreesAgain(r.flows, r.iters.Keys, s, FlowBehind(r, s, to));
  }

  lemma SamePositions<T>(r: Roster<Iter<T>, Stream<T>, T>, s: Stream<T>)
    requires ItersAgree(r.iters) && Orderly(r) && Listed(r) && s in r.flows
    ensures PositionsOf(r.flows[s].list) == Positions(r, r.flows[s].list)
    ensures forall i :: i in r.flows[s].list ==> i in r.iters && Aligned(i.pos, r.flows[s].stride)
  {
    forall i | i in r.flows[s].list ensures IterAgrees(i, r.iters[i]) && Placed(r.iters[i], r.flows[s]) {
      assert Keeps(Place, r) && r.iters[i].stream == Some(s);
    }
  }

  // ---------- Whole programs ----------

  /** The operations may be called in any order; each is proved to do to the objects what it does to
      the roster, and so keeps it orderly: every stream lists exactly its live iterators. */
  class Desk<T> {
    ghost var roster: Roster<Iter<T>, Stream<T>, T>

    ghost predicate Valid()
      reads this, roster.iters.Keys, roster.flows.Keys, (set s | s in roster.flows :: s.cur)
    {
      Fit(roster)
    }

    constructor ()
      ensures Valid() && roster == Roster(map[], map[])
    {
      roster := Roster(map[], map[]);
    }

    /** There is no stream with a stride of less than 1. */
    method Open(rows: seq<T>, stride: int) returns (s: Stream?<T>)
      requires Valid() && |rows| < ALL
      modifies this
      ensures Valid() && (s == null <==> stride < 1)
      ensures s == null ==> roster == old(roster)
      ensures s != null ==> fresh(s) && fresh(s.cur) && roster == Opened(old(roster), s, rows, stride)
      ensures s != null ==> s.cur.rows == rows && s.stride == stride && s.realpos == 0 && s.reqpos == 0 && s.fetched == []
    {
      assert In(Order, roster);
      if stride < 1 {
        return null;
      }
      var st := OpenIn(rows, stride, roster);
      OpenedOrderly(roster, st, rows, stride);
      roster := Opened(roster, st, rows, stride);
      s := st;
    }

    method Begin(s: Stream<T>) returns (i: Iter<T>)
      requires Valid() && s in roster.flows
      modifies this, roster.flows.Keys, roster.iters.Keys
      ensures Valid() && fresh(i) && roster == Begun(old(roster), i, s)
      ensures i in roster.iters && roster.iters[i] == Mark(Some(s), old(roster).flows[s].reqpos, [])
      ensures OthersKeep(old(roster), roster, i) && FlowsKeep(old(roster), roster)
    {
      assert In(Order, roster);
      assert Keeps(Lists, roster);
      ListsApart(roster, s);
      i := BeginIn(s, roster);
      BegunOrderly(roster, i, s);
      BeginningIs(roster, i, s);
      roster := Begun(roster, i, s);
    }

    method Blank() returns (i: Iter<T>)
      requires Valid()
      modifies this
      ensures Valid() && fresh(i) && roster == Entered(old(roster), i, Mark(None, 0, []))
    {
      assert In(Order, roster);
      i := BlankIn(roster);
      EnteredOrderly(roster, i, Mark(None, 0, []));
      roster := Entered(roster, i, Mark(None, 0, []));
    }

    method Copy(j: Iter<T>) returns (i: Iter<T>)
      requires Valid() && j in roster.iters
      modifies this, roster.flows.Keys, roster.iters.Keys
      ensures Valid() && fresh(i) && roster == Copied(old(roster), i, j)
      ensures i in roster.iters && roster.iters[i] == old(roster).iters[j]
      ensures OthersKeep(old(roster), roster, i) && FlowsKeep(old(roster), roster)
    {
      assert In(Order, roster);
      assert Keeps(Lists, roster);
      ListedMembers(roster, j);
      i := CopyIn(j, roster);
      CopiedOrderly(roster, i, j);
      CopyIsAlike(roster, i, j);
      roster := Copied(roster, i, j);
    }

    method Assign(i: Iter<T>, j: Iter<T>)
      requires Valid() && i in roster.iters && j in roster.iters
      modifies this, roster.flows.Keys, roster.iters.Keys
      ensures Valid() && roster == Assigned(old(roster), i, j)
      ensures i in roster.iters && roster.iters[i] == old(roster).iters[j] && (i == j ==> roster == old(roster))
      ensures OthersKeep(old(roster), roster, i) && FlowsKeep(old(roster), roster)
    {
      assert In(Order, roster);
      AssignIn(i, j, roster);
      AssignedOrderly(roster, i, j);
      AssignmentIsAlike(roster, i, j);
      roster := Assigned(roster, i, j);
    }

    method Destroy(i: Iter<T>)
      requires Valid() && i in roster.iters
      modifies this, roster.flows.Keys, roster.iters.Keys
      ensures Valid() && roster == Withdrawn(old(roster), i)
      ensures i !in roster.iters && OthersKeep(old(roster), roster, i) && FlowsKeep(old(roster), roster)
    {
      assert In(Order, roster);
      assert Keeps(Lists, roster);
      ListedMembers(roster, i);
      LeaveIn(i, roster);
      WithdrawnOrderly(roster, i);
      DestructionIs(roster, i);
      roster := Withdrawn(roster, i);
    }

    /** Move on by some number of strides; backwards is not possible. */
    method Advance(i: Iter<T>, n: int) returns (ok: bool)
      requires Valid() && i in roster.iters && roster.iters[i].stream.Some?
      modifies this, roster.flows.Keys, roster.iters.Keys
      ensures Valid() && (ok <==> n >= 0)
      ensures roster == if n > 0 then Advanced(old(roster), i, n) else old(roster)
    {
      assert In(Order, roster);
      if n <= 0 {
        return n == 0;
      }
      assert Keeps(Lists, roster);
      AdvanceIn(i, n, roster);
      AdvancedOrderly(roster, i, n);
      roster := Advanced(roster, i, n);
      ok := true;
    }

    method Refresh(i: Iter<T>)
      requires Valid() && i in roster.iters
      modifies this, roster.flows.Keys, roster.iters.Keys`here, (set s | s in roster.flows :: s.cur)
      ensures Valid() && roster == Refreshed(old(roster), i)
    {
      assert In(Order, roster);
      assert Keeps(Lists, roster);
      ListedMembers(roster, i);
      RefreshIn(i, roster);
      RefreshedOrderly(roster, i);
      roster := Refreshed(roster, i);
    }

    /** What the iterator points at: see ReadsItsBlockExactlyWhen. */
    method Look(i: Iter<T>) returns (here: seq<T>)
      requires Valid() && i in roster.iters
      modifies this, roster.flows.Keys, roster.iters.Keys`here, (set s | s in roster.flows :: s.cur)
      ensures Valid() && roster == Refreshed(old(roster), i) && here == roster.iters[i].here
    {
      Refresh(i);
      assert In(Objects, roster) && IterAgrees(i, roster.iters[i]);
      here := i.here;
    }

    /** Iterators on one stream are equal if their positions are; one that is on no stream is equal to
        those that have no rows left. */
    method Equal(i: Iter<T>, j: Iter<T>) returns (equal: bool)
      requires Valid() && i in roster.iters && j in roster.iters
      modifies this, roster.flows.Keys, roster.iters.Keys`here, (set s | s in roster.flows :: s.cur)
      ensures Valid()
      ensures var m, k := old(roster).iters[i], old(roster).iters[j];
              if m.stream == k.stream then roster == old(roster) && equal == (m.pos == k.pos)
              else if m.stream.Some? && k.stream.Some? then roster == old(roster) && !equal
              else roster == Refreshed(Refreshed(old(roster), i), j) && equal == (roster.iters[i].here == [] == roster.iters[j].here)
    {
      assert In(Objects, roster) && IterAgrees(i, roster.iters[i]) && IterAgrees(j, roster.iters[j]);
      if i.stream == j.stream {
        return i.pos == j.pos;
      }
      if i.stream != null && j.stream != null {
        return false;
      }
      Refresh(i);
      Refresh(j);
      assert In(Objects, roster) && IterAgrees(i, roster.iters[i]) && IterAgrees(j, roster.iters[j]);
      equal := |i.here| == 0 && |j.here| == 0;
    }
  }

  /** Is the iterator at the end?  Looking is what makes the stream read on. */
  method AtEnd<T>(desk: Desk<T>, i: Iter<T>, end: Iter<T>) returns (over: bool)
    requires desk.Valid() && i in desk.roster.iters && end in desk.roster.iters
    requires desk.roster.iters[i].stream.Some? && desk.roster.iters[end] == Mark(None, 0, [])
    modifies desk, desk.roster.flows.Keys, desk.roster.iters.Keys`here, (set s | s in desk.roster.flows :: s.cur)
    ensures desk.Valid() && desk.roster == Refreshed(old(desk.roster), i) && desk.roster.flows.Keys == old(desk.roster.flows.Keys)
    ensures desk.roster.iters[end] == Mark(None, 0, [])
    ensures over <==> desk.roster.iters[i].here == []
  {
    ghost var r := desk.roster;
    assert In(Order, r);
    BlankStays(r, i, end);
    RefreshedOrderly(r, i);
    BlankStays(Refreshed(r, i), i, end);
    over := desk.Equal(i, end);
  }

  method LookAndAdvance<T>(desk: Desk<T>, i: Iter<T>) returns (block: seq<T>)
    requires desk.Valid() && i in desk.roster.iters && desk.roster.iters[i].stream.Some?
    modifies desk, desk.roster.flows.Keys, desk.roster.iters.Keys, (set z | z in desk.roster.flows :: z.cur)
    ensures desk.Valid() && block == Refreshed(old(desk.roster), i).iters[i].here
    ensures desk.roster == Advanced(Refreshed(old(desk.roster), i), i, 1)
  {
    ghost var r := desk.roster;
    assert In(Order, r) && Keeps(Lists, r);
    RefreshedSame(r, i);
    block := desk.Look(i);
    var ok := desk.Advance(i, 1);
  }

  lemma RefreshedSame<I, S, T>(r: Roster<I, S, T>, i: I)
    requires Listed(r) && i in r.iters
    ensures Refreshed(r, i).flows.Keys == r.flows.Keys && Refreshed(r, i).iters[i].stream == r.iters[i].stream
  {
  }

  /** Take the block, and go on to the next. */
  method TakeBlock<T>(desk: Desk<T>, i: Iter<T>, end: Iter<T>, ghost s: Stream<T>, ghost rows: seq<T>, ghost stride: nat, ghost pos: nat)
    returns (block: seq<T>, over: bool)
    requires desk.Valid() && Reading(desk.roster, i, s, rows, stride, pos)
    requires end in desk.roster.iters && desk.roster.iters[end] == Mark(None, 0, [])
    modifies desk, desk.roster.flows.Keys, desk.roster.iters.Keys, (set z | z in desk.roster.flows :: z.cur)
    ensures desk.Valid() && Reading(desk.roster, i, s, rows, stride, pos + stride)
    ensures desk.roster.flows.Keys == old(desk.roster.flows.Keys) && desk.roster.iters.Keys == old(desk.roster.iters.Keys)
    ensures desk.roster.iters[end] == Mark(None, 0, [])
    ensures block == Block(rows, pos, stride) && (over <==> Block(rows, pos + stride, stride) == [])
  {
    ghost var r := desk.roster;
    ReadingStays(r, i, s, rows, stride, pos);
    BlankStays(r, i, end);
    block := LookAndAdvance(desk, i);
    ReadingProceeds(Refreshed(r, i), i, s, rows, stride, pos);
    over := AtEnd(desk, i, end);
  }

  method StartReading<T>(desk: Desk<T>, s: Stream<T>) returns (i: Iter<T>, end: Iter<T>, over: bool)
    requires desk.Valid() && s in desk.roster.flows && desk.roster.flows[s].realpos <= desk.roster.flows[s].reqpos
    modifies desk, desk.roster.flows.Keys, desk.roster.iters.Keys, (set z | z in desk.roster.flows :: z.cur)
    ensures var f := old(desk.roster).flows[s];
            && desk.Valid() && Reading(desk.roster, i, s, f.rows, f.stride, f.reqpos)
            && (over <==> Block(f.rows, f.reqpos, f.stride) == [])
    ensures fresh(i) && fresh(end) && desk.roster.flows.Keys == old(desk.roster.flows.Keys)
    ensures desk.roster.iters.Keys == old(desk.roster.iters.Keys) + {i, end} && desk.roster.iters[end] == Mark(None, 0, [])
  {
    i := desk.Begin(s);
    end := desk.Blank();
    assert In(Order, desk.roster);
    ReadingStarts(desk.roster, i, s);
    over := AtEnd(desk, i, end);
  }

  ghost predicate AreRows<T>(all: seq<T>, rows: seq<T>, start: nat, pos: nat) {
    start <= pos && all == rows[Min(start, |rows|)..Min(pos, |rows|)]
  }

  lemma MoreRows<T>(all: seq<T>, rows: seq<T>, start: nat, pos: nat, stride: nat)
    requires AreRows(all, rows, start, pos) && stride > 0
    ensures AreRows(all + Block(rows, pos, stride), rows, start, pos + stride)
    ensures Block(rows, pos, stride) == [] <==> pos >= |rows|
  {
  }

  /** When there is no block left, all rows have been read. */
  lemma AllRows<T>(all: seq<T>, rows: seq<T>, start: nat, pos: nat, stride: nat)
    requires AreRows(all, rows, start, pos) && stride > 0 && Block(rows, pos, stride) == []
    ensures all == rows[Min(start, |rows|)..]
  {
    assert |Block(rows, pos, stride)| == Min(pos + stride, |rows|) - Min(pos, |rows|);
    assert Min(pos, |rows|) == |rows|;
    assert rows[Min(start, |rows|)..|rows|] == rows[Min(start, |rows|)..];
  }

  method ReadOn<T>(desk: Desk<T>, i: Iter<T>, end: Iter<T>, atEnd: bool,
                   ghost s: Stream<T>, ghost rows: seq<T>, ghost stride: nat, ghost start: nat)
    returns (all: seq<T>)
    requires desk.Valid() && Reading(desk.roster, i, s, rows, stride, start) && stride > 0
    requires end in desk.roster.iters && desk.roster.iters[end] == Mark(None, 0, [])
    requires atEnd <==> Block(rows, start, stride) == []
    modifies desk, desk.roster.flows.Keys, desk.roster.iters.Keys, (set z | z in desk.roster.flows :: z.cur)
    ensures all == rows[Min(start, |rows|)..]
  {
    ghost var pos := start;
    var over := atEnd;
    all := [];
    while !over
      invariant desk.Valid() && Reading(desk.roster, i, s, rows, stride, pos) && AreRows(all, rows, start, pos)
      invariant desk.roster.flows.Keys == old(desk.roster.flows.Keys) && desk.roster.iters.Keys == old(desk.roster.iters.Keys)
      invariant desk.roster.iters[end] == Mark(None, 0, [])
      invariant over <==> Block(rows, pos, stride) == []
      decreases |rows| - pos
    {
      MoreRows(all, rows, start, pos, stride);
      var block;
      block, over := TakeBlock(desk, i, end, s, rows, stride, pos);
      all := all + block;
      pos := pos + stride;
    }
    AllRows(all, rows, start, pos, stride);
  }

  /** The usual loop: from begin until equal to the end.  It reads all rows from where the requests on
      the stream are, in order, each once; provided that the stream has not read beyond that. */
  method ReadAll<T>(desk: Desk<T>, s: Stream<T>) returns (all: seq<T>)
    requires desk.Valid() && s in desk.roster.flows && desk.roster.flows[s].realpos <= desk.roster.flows[s].reqpos
    modifies desk, desk.roster.flows.Keys, desk.roster.iters.Keys, (set z | z in desk.roster.flows :: z.cur)
    ensures var f := old(desk.roster).flows[s]; all == f.rows[Min(f.reqpos, |f.rows|)..]
  {
    ghost var f := desk.roster.flows[s];
    assert In(Order, desk.roster) && Keeps(Pace, desk.roster) && Paced(f);
    var i, end, over := StartReading(desk, s);
    all := ReadOn(desk, i, end, over, s, f.rows, f.stride, f.reqpos);
  }
}
