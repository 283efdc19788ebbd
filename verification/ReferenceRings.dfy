/** Shared ownership without a counter: the references to one resource form a circular doubly
    linked list, and the last one to leave finds itself alone. */
module ReferenceRings {
  import opened Basics

  // ---------- Rings ----------

  function Next(i: nat, n: nat): nat {
    if i + 1 == n then 0 else i + 1
  }

  ghost predicate Linked(a: RefCount, b: RefCount)
    reads a, b
  {
    a.r == b && b.l == a
  }

  /** The references, in order, are linked to a ring. */
  ghost predicate IsRing(ring: seq<RefCount>)
    reads ring
  {
    && Distinct(ring)
    && forall i :: 0 <= i < |ring| ==> Linked(ring[i], ring[Next(i, |ring|)])
  }

  class RefCount {
    var l: RefCount
    var r: RefCount

    constructor ()
      ensures IsRing([this])
    {
      l := this;
      r := this;
    }

    /** Become a reference to what rhs refers to: a member of its ring, right behind it. */
    method MakeRef(rhs: RefCount, ghost ring: seq<RefCount>, ghost k: nat)
      requires IsRing(ring) && k < |ring| && ring[k] == rhs && this !in ring
      modifies this, rhs, rhs.r
      ensures IsRing(Insert(ring, k + 1, this))
    {
      ghost var n := |ring|;
      ghost var right := ring[Next(k, n)];
      assert Linked(ring[k], right);
      l := rhs;
      r := rhs.r;
      r.l := this;
      l.r := this;
      ghost var ring' := Insert(ring, k + 1, this);
      forall i | 0 <= i < n && i != k ensures Linked(ring[i], ring[Next(i, n)]) {
        assert old(Linked(ring[i], ring[Next(i, n)]));
        assert ring[i] != rhs && ring[Next(i, n)] != right;
      }
      assert Linked(rhs, this) && Linked(this, right);
      forall i | 0 <= i < n + 1 ensures Linked(ring'[i], ring'[Next(i, n + 1)]) {
        NextAfterInsert(ring, k, this, i);
      }
    }

    /** Drop this reference; return whether it was the last. */
    method LoseRef(ghost ring: seq<RefCount>, ghost k: nat) returns (last: bool)
      requires IsRing(ring) && k < |ring| && ring[k] == this
      modifies this, l, r
      ensures last <==> |ring| == 1
      ensures IsRing([this]) && IsRing(Remove(ring, k))
    {
      ghost var n := |ring|;
      ghost var prev := if k == 0 then n - 1 else k - 1;
      assert Next(prev, n) == k && Linked(ring[prev], this) && Linked(this, ring[Next(k, n)]);
      last := l == this;
      r.l := l;
      l.r := r;
      l := this;
      r := this;
      ghost var ring' := Remove(ring, k);
      if n > 1 {
        forall i | 0 <= i < n && i != k && i != prev ensures Linked(ring[i], ring[Next(i, n)]) {
          assert old(Linked(ring[i], ring[Next(i, n)]));
          assert Next(i, n) != k && Next(i, n) != Next(k, n);
        }
        assert Linked(ring[prev], ring[Next(k, n)]);
        forall i | 0 <= i < n - 1 ensures Linked(ring'[i], ring'[Next(i, n - 1)]) {
          NextAfterRemove(ring, k, i);
          var j := if i < k then i else i + 1;
          assert j != prev ==> Linked(ring[j], ring[Next(j, n)]);
        }
      }
    }
  }

  /** Insertion puts the new element between its predecessor and what was behind that. */
  lemma NextAfterInsert<N>(s: seq<N>, k: nat, x: N, i: nat)
    requires k < |s| && i <= |s|
    ensures var n := |s|;
            var more := Insert(s, k + 1, x);
            var j := if i <= k then i else i - 1;
            && (i == k ==> more[i] == s[k] && more[Next(i, n + 1)] == x)
            && (i == k + 1 ==> more[i] == x && more[Next(i, n + 1)] == s[Next(k, n)])
            && (i != k && i != k + 1 ==> j != k && more[i] == s[j] && more[Next(i, n + 1)] == s[Next(j, n)])
  {
  }

  /** Removal closes the gap: the one before the removed element is followed by the one after. */
  lemma NextAfterRemove<N>(s: seq<N>, k: nat, i: nat)
    requires k < |s| && i < |s| - 1
    ensures var n := |s|;
            var j := if i < k then i else i + 1;
            && Remove(s, k)[i] == s[j]
            && Remove(s, k)[Next(i, n - 1)] == s[if Next(j, n) == k then Next(k, n) else Next(j, n)]
  {
  }

  lemma Neighbours(ring: seq<RefCount>, k: nat)
    requires IsRing(ring) && k < |ring|
    ensures ring[k].l in ring && ring[k].r in ring
  {
    var prev := if k == 0 then |ring| - 1 else k - 1;
    assert Next(prev, |ring|) == k && Linked(ring[prev], ring[k]);
    assert Linked(ring[k], ring[Next(k, |ring|)]);
  }

  // ---------- Who refers to what ----------

  /** The rings of all references, the resource that each reference is to (0 for none), and the
      resources obtained and freed so far. */
  datatype Book<N(==)> = Book(
    rings: seq<seq<N>>,
    home: map<N, nat>,
    res: map<N, nat>,
    obtained: set<nat>,
    freed: seq<nat>)

  /** Every reference is in exactly one ring, and in one place of it. */
  ghost predicate Partitioned<N>(b: Book<N>) {
    && b.home.Keys == b.res.Keys
    && (forall i, j :: 0 <= i < |b.rings| && 0 <= j < |b.rings[i]| ==> b.rings[i][j] in b.home && b.home[b.rings[i][j]] == i)
    && (forall x :: x in b.home ==> b.home[x] < |b.rings| && x in b.rings[b.home[x]])
    && (forall i :: 0 <= i < |b.rings| ==> Distinct(b.rings[i]))
  }

  /** The rings are the classes of references to the same resource. */
  ghost predicate Grouped<N>(b: Book<N>)
    requires Partitioned(b)
  {
    && (forall x, y :: x in b.home && y in b.home && b.home[x] == b.home[y] ==> b.res[x] == b.res[y])
    && (forall x, y :: x in b.home && y in b.home && b.res[x] == b.res[y] != 0 ==> b.home[x] == b.home[y])
  }

  ghost predicate Referred<N>(b: Book<N>, o: nat) {
    exists x :: x in b.res && b.res[x] == o
  }

  /** A resource that was obtained is either referred to, or has been freed: once. */
  ghost predicate Accounted<N>(b: Book<N>) {
    && 0 !in b.obtained
    && Distinct(b.freed)
    && (forall o :: o in b.freed ==> o in b.obtained)
    && (forall o :: o != 0 && Referred(b, o) ==> o in b.obtained)
    && (forall o :: o in b.obtained ==> (o in b.freed <==> !Referred(b, o)))
  }

  ghost predicate Balanced<N>(b: Book<N>) {
    Partitioned(b) && Grouped(b) && Accounted(b)
  }

  /** A new reference, alone, to a new resource or to none. */
  function Acquired<N>(b: Book<N>, x: N, o: nat): Book<N> {
    b.(rings := b.rings + [[x]], home := b.home[x := |b.rings|], res := b.res[x := o],
       obtained := if o == 0 then b.obtained else b.obtained + {o})
  }

  /** A reference leaves its ring for one of its own; if it was the last it frees the resource. */
  function Departed<N>(b: Book<N>, x: N): Book<N>
    requires x in b.home && x in b.res && b.home[x] < |b.rings| && x in b.rings[b.home[x]]
  {
    var ring := b.rings[b.home[x]];
    b.(rings := b.rings[b.home[x] := Remove(ring, IndexOf(ring, x))] + [[x]],
       home := b.home[x := |b.rings|],
       res := b.res[x := 0],
       freed := if |ring| == 1 && b.res[x] != 0 then b.freed + [b.res[x]] else b.freed)
  }

  /** A reference that is alone and refers to nothing comes to share what y refers to. */
  function Joined<N>(b: Book<N>, x: N, y: N): Book<N>
    requires x in b.home && b.home[x] < |b.rings|
    requires y in b.home && y in b.res && b.home[y] < |b.rings| && y in b.rings[b.home[y]]
  {
    var ring := b.rings[b.home[y]];
    b.(rings := b.rings[b.home[x] := []][b.home[y] := Insert(ring, IndexOf(ring, y) + 1, x)],
       home := b.home[x := b.home[y]],
       res := b.res[x := b.res[y]])
  }

  /** A reference that is alone and refers to nothing ceases to exist. */
  function Gone<N>(b: Book<N>, x: N): Book<N>
    requires x in b.home && b.home[x] < |b.rings|
  {
    b.(rings := b.rings[b.home[x] := []], home := b.home - {x}, res := b.res - {x})
  }

  ghost predicate Idle<N>(b: Book<N>, x: N) {
    Partitioned(b) && x in b.home && b.rings[b.home[x]] == [x] && b.res[x] == 0
  }

  lemma AcquiredPartitioned<N>(b: Book<N>, x: N, o: nat)
    requires Partitioned(b) && x !in b.res
    ensures Partitioned(Acquired(b, x, o))
  {
  }

  lemma AcquiredReferred<N>(b: Book<N>, x: N, o: nat)
    requires x !in b.res
    ensures forall p :: Referred(Acquired(b, x, o), p) <==> Referred(b, p) || p == o
  {
    var b' := Acquired(b, x, o);
    assert x in b'.res && b'.res[x] == o;
    forall p ensures Referred(b', p) <==> Referred(b, p) || p == o {
      if y :| y in b.res && b.res[y] == p {
        assert y in b'.res && b'.res[y] == p;
      }
    }
  }

  lemma AcquiredGrouped<N>(b: Book<N>, x: N, o: nat)
    requires Partitioned(b) && Partitioned(Acquired(b, x, o)) && Grouped(b) && Accounted(b) && x !in b.res && o !in b.obtained
    ensures Grouped(Acquired(b, x, o))
  {
    forall y | y in b.res && b.res[y] != 0 ensures b.res[y] != o {
      assert Referred(b, b.res[y]);
    }
  }

  lemma AcquiredAccounted<N>(b: Book<N>, x: N, o: nat)
    requires Accounted(b) && x !in b.res && o !in b.obtained
    ensures Accounted(Acquired(b, x, o))
  {
    AcquiredReferred(b, x, o);
  }

  lemma AcquiredBalanced<N>(b: Book<N>, x: N, o: nat)
    requires Balanced(b) && x !in b.res && o !in b.obtained
    ensures Balanced(Acquired(b, x, o))
  {
    AcquiredPartitioned(b, x, o);
    AcquiredGrouped(b, x, o);
    AcquiredAccounted(b, x, o);
  }

  lemma DepartedPartitioned<N>(b: Book<N>, x: N)
    requires Partitioned(b) && x in b.res
    ensures Partitioned(Departed(b, x)) && Idle(Departed(b, x), x)
  {
    var id := b.home[x];
    var ring, k := b.rings[id], IndexOf(b.rings[id], x);
    RemoveMembers(ring, k);
    var b' := Departed(b, x);
    forall i, j | 0 <= i < |b'.rings| && 0 <= j < |b'.rings[i]|
      ensures b'.rings[i][j] in b'.home && b'.home[b'.rings[i][j]] == i
    {
      if i == id {
        assert b'.rings[i][j] in ring;
      }
    }
  }

  /** A ring has one member exactly when nobody else refers to its resource. */
  lemma LastReference<N>(b: Book<N>, x: N)
    requires Balanced(b) && x in b.res && b.res[x] != 0
    ensures |b.rings[b.home[x]]| == 1 <==> forall y :: y in b.res && y != x ==> b.res[y] != b.res[x]
  {
    var ring := b.rings[b.home[x]];
    var k := IndexOf(ring, x);
    if |ring| != 1 {
      var y := ring[if k == 0 then 1 else 0];
      assert y in b.res && y != x && b.home[y] == b.home[x];
    } else {
      forall y | y in b.res && y != x ensures b.res[y] != b.res[x] {
        if b.res[y] == b.res[x] {
          AloneInRing(ring, x, y);
        }
      }
    }
  }

  lemma AloneInRing<N>(ring: seq<N>, x: N, y: N)
    requires x in ring && y in ring && |ring| == 1
    ensures x == y
  {
  }

  /** Whoever leaves frees the resource exactly when nobody else refers to it. */
  lemma DepartedBalanced<N>(b: Book<N>, x: N)
    requires Balanced(b) && x in b.res
    ensures Balanced(Departed(b, x)) && Idle(Departed(b, x), x)
    ensures Departed(b, x).freed == if b.res[x] != 0 && forall y :: y in b.res && y != x ==> b.res[y] != b.res[x]
                                then b.freed + [b.res[x]] else b.freed
  {
    DepartedPartitioned(b, x);
    if b.res[x] != 0 {
      LastReference(b, x);
    }
    DepartedReferred(b, x);
    DepartedAccounted(b, x);
    assert Grouped(Departed(b, x));
  }

  lemma DepartedAccounted<N>(b: Book<N>, x: N)
    requires Balanced(b) && x in b.res
    ensures Accounted(Departed(b, x))
  {
    if b.res[x] != 0 {
      LastReference(b, x);
    }
    DepartedReferred(b, x);
    assert Referred(b, b.res[x]);
    forall o | o != 0 && o != b.res[x] ensures Referred(Departed(b, x), o) <==> Referred(b, o) {
      if Referred(b, o) {
        var z :| z in b.res && b.res[z] == o;
        assert z != x;
      }
    }
  }

  lemma DepartedReferred<N>(b: Book<N>, x: N)
    requires Partitioned(b) && x in b.res
    ensures forall o :: o != 0 ==> (Referred(Departed(b, x), o) <==> exists y :: y in b.res && y != x && b.res[y] == o)
  {
    var b' := Departed(b, x);
    forall o | o != 0 ensures Referred(b', o) <==> exists y :: y in b.res && y != x && b.res[y] == o {
      if Referred(b', o) {
        var y :| y in b'.res && b'.res[y] == o;
        assert y != x && y in b.res && b.res[y] == o;
      }
      if y :| y in b.res && y != x && b.res[y] == o {
        assert y in b'.res && b'.res[y] == o;
      }
    }
  }

  lemma JoinedPartitioned<N>(b: Book<N>, x: N, y: N)
    requires Partitioned(b) && Idle(b, x) && y in b.res && b.home[y] != b.home[x]
    ensures Partitioned(Joined(b, x, y))
  {
    var ring := b.rings[b.home[y]];
    var k := IndexOf(ring, y);
    assert x !in ring;
    InsertMembers(ring, k + 1, x);
    var b' := Joined(b, x, y);
    forall i, j | 0 <= i < |b'.rings| && 0 <= j < |b'.rings[i]|
      ensures b'.rings[i][j] in b'.home && b'.home[b'.rings[i][j]] == i
    {
      if i == b.home[y] {
        assert b'.rings[i][j] in b'.rings[i];
      } else {
        assert b'.rings[i] == b.rings[i] && b.home[b.rings[i][j]] == i;
      }
    }
    forall z | z in b'.home ensures z in b'.rings[b'.home[z]] {
      if z != x {
        OnlyInRing(b, x, z);
        assert z in b.rings[b.home[z]];
      }
    }
  }

  lemma OnlyInRing<N>(b: Book<N>, x: N, z: N)
    requires Idle(b, x) && z in b.home && z != x
    ensures b.home[z] != b.home[x]
  {
    if b.home[z] == b.home[x] {
      AloneInRing(b.rings[b.home[x]], x, z);
    }
  }

  lemma JoinedBalanced<N>(b: Book<N>, x: N, y: N)
    requires Balanced(b) && Idle(b, x) && y in b.res && y != x
    ensures Balanced(Joined(b, x, y)) && Joined(b, x, y).res == b.res[x := b.res[y]]
  {
    OnlyInRing(b, x, y);
    JoinedPartitioned(b, x, y);
    var b' := Joined(b, x, y);
    forall z | z in b.home && z != x ensures b.home[z] != b.home[x] {
      OnlyInRing(b, x, z);
    }
    assert Grouped(b');
    SameReferred(b, b', x);
    assert Accounted(b');
  }

  /** Changing what an idle reference refers to, to something else's resource, or removing it,
      changes nothing in what is referred to. */
  lemma SameReferred<N>(b: Book<N>, b': Book<N>, x: N)
    requires x in b.res && b.res[x] == 0
    requires forall z :: z != x ==> (z in b.res <==> z in b'.res) && (z in b.res ==> b.res[z] == b'.res[z])
    requires x in b'.res ==> b'.res[x] == 0 || exists z :: z != x && z in b.res && b.res[z] == b'.res[x]
    ensures forall o :: o != 0 ==> (Referred(b, o) <==> Referred(b', o))
  {
    forall o | o != 0 ensures Referred(b, o) <==> Referred(b', o) {
      if Referred(b, o) {
        var z :| z in b.res && b.res[z] == o;
        assert z in b'.res && b'.res[z] == o;
      }
      if Referred(b', o) {
        var z :| z in b'.res && b'.res[z] == o;
        if z != x {
          assert z in b.res && b.res[z] == o;
        }
      }
    }
  }

  lemma GoneBalanced<N>(b: Book<N>, x: N)
    requires Balanced(b) && Idle(b, x)
    ensures Balanced(Gone(b, x))
  {
    var b' := Gone(b, x);
    forall z | z in b.home && z != x ensures b.home[z] != b.home[x] {
      OnlyInRing(b, x, z);
    }
    assert Partitioned(b');
    SameReferred(b, b', x);
  }

  // ---------- Runs ----------

  datatype Operation<N> = Acquire(x: N, o: nat) | Copy(x: N, y: N) | Assign(x: N, y: N) | Drop(x: N)

  /** What an operation on smart pointers does; one on pointers that do not exist does nothing. */
  ghost function Effect<N>(b: Book<N>, op: Operation<N>): Book<N>
    requires Partitioned(b)
  {
    match op
    case Acquire(x, o) => if x !in b.res && o !in b.obtained then Acquired(b, x, o) else b
    case Copy(x, y) => if x !in b.res && y in b.res then Copied(b, x, y) else b
    case Assign(x, y) => if x in b.res && y in b.res && b.res[x] != b.res[y] then Assigned(b, x, y) else b
    case Drop(x) => if x in b.res then Dropped(b, x) else b
  }

  ghost function Copied<N>(b: Book<N>, x: N, y: N): Book<N>
    requires Partitioned(b) && x !in b.res && y in b.res
  {
    AcquiredPartitioned(b, x, 0);
    Joined(Acquired(b, x, 0), x, y)
  }

  ghost function Assigned<N>(b: Book<N>, x: N, y: N): Book<N>
    requires Partitioned(b) && x in b.res && y in b.res && x != y
  {
    DepartedPartitioned(b, x);
    Joined(Departed(b, x), x, y)
  }

  ghost function Dropped<N>(b: Book<N>, x: N): Book<N>
    requires Partitioned(b) && x in b.res
  {
    DepartedPartitioned(b, x);
    Gone(Departed(b, x), x)
  }

  /** The resource is freed by the loss of this reference: it is the last to it. */
  ghost predicate Last<N>(b: Book<N>, x: N) {
    x in b.res && b.res[x] != 0 && forall z :: z in b.res && z != x ==> b.res[z] != b.res[x]
  }

  /** Copying and assigning make a reference refer to what the other does, dropping does away with it,
      and either way a resource is freed exactly if the last reference to it goes; nothing else
      changes. */
  lemma CopyIs<N>(b: Book<N>, x: N, y: N)
    requires Balanced(b) && x !in b.res && y in b.res
    ensures var b' := Effect(b, Copy(x, y));
            b'.res == b.res[x := b.res[y]] && b'.freed == b.freed && b'.obtained == b.obtained
  {
  }

  lemma AssignmentIs<N>(b: Book<N>, x: N, y: N)
    requires Balanced(b) && x in b.res && y in b.res
    ensures var b' := Effect(b, Assign(x, y));
            && b'.res == b.res[x := b.res[y]] && b'.obtained == b.obtained
            && b'.freed == if b.res[x] != b.res[y] && Last(b, x) then b.freed + [b.res[x]] else b.freed
  {
    if b.res[x] != b.res[y] { DepartureFrees(b, x); }
  }

  lemma DepartureFrees<N>(b: Book<N>, x: N)
    requires Balanced(b) && x in b.res
    ensures Departed(b, x).freed == if Last(b, x) then b.freed + [b.res[x]] else b.freed
  {
    DepartedBalanced(b, x);
  }

  lemma DropIs<N>(b: Book<N>, x: N)
    requires Balanced(b) && x in b.res
    ensures var b' := Effect(b, Drop(x));
            && b'.res == b.res - {x} && b'.obtained == b.obtained
            && b'.freed == if Last(b, x) then b.freed + [b.res[x]] else b.freed
  {
    DepartureFrees(b, x);
  }

  lemma AcquisitionIs<N>(b: Book<N>, x: N, o: nat)
    requires Balanced(b) && x !in b.res && o !in b.obtained
    ensures var b' := Effect(b, Acquire(x, o));
            && b'.res == b.res[x := o] && b'.freed == b.freed
            && b'.obtained == if o == 0 then b.obtained else b.obtained + {o}
  {
  }

  lemma EffectBalanced<N>(b: Book<N>, op: Operation<N>)
    requires Balanced(b)
    ensures Balanced(Effect(b, op))
    ensures b.freed <= Effect(b, op).freed
  {
    match op {
      case Acquire(x, o) =>
        if x !in b.res && o !in b.obtained { AcquiredBalanced(b, x, o); }
      case Copy(x, y) =>
        if x !in b.res && y in b.res {
          AcquiredBalanced(b, x, 0);
          assert Idle(Acquired(b, x, 0), x);
          JoinedBalanced(Acquired(b, x, 0), x, y);
        }
      case Assign(x, y) =>
        if x in b.res && y in b.res && b.res[x] != b.res[y] {
          DepartedBalanced(b, x);
          JoinedBalanced(Departed(b, x), x, y);
        }
      case Drop(x) =>
        if x in b.res {
          DepartedBalanced(b, x);
          GoneBalanced(Departed(b, x), x);
        }
    }
  }

  /** The book after a run.  After any sequence of operations every resource obtained has been
      freed exactly once if no reference is to it, and not at all as long as one is. */
  ghost function BookAfter<N>(ops: seq<Operation<N>>): (b: Book<N>)
    ensures Balanced(b)
  {
    if ops == [] then Book([], map[], map[], {}, [])
    else
      var before := BookAfter(ops[..|ops| - 1]);
      EffectBalanced(before, ops[|ops| - 1]);
      Effect(before, ops[|ops| - 1])
  }

  /** What is freed stays freed. */
  lemma {:induction false} FreedForGood<N>(ops: seq<Operation<N>>, k: nat)
    requires k <= |ops|
    ensures BookAfter(ops[..k]).freed <= BookAfter(ops).freed
    decreases |ops|
  {
    if k == |ops| {
      assert ops[..k] == ops;
    } else {
      var rest := ops[..|ops| - 1];
      FreedForGood(rest, k);
      assert rest[..k] == ops[..k];
      EffectBalanced(BookAfter(rest), ops[|ops| - 1]);
    }
  }

  // ---------- The references of a program ----------

  /** All rings but some are intact. */
  ghost predicate RingsLinked(rings: seq<seq<RefCount>>, but: set<nat>)
    reads set i, j | 0 <= i < |rings| && i !in but && 0 <= j < |rings[i]| :: rings[i][j]
  {
    forall i :: 0 <= i < |rings| && i !in but ==> IsRing(rings[i])
  }

  /** No other ring has a member in common with the given one. */
  ghost predicate Apart<N>(rings: seq<seq<N>>, id: nat)
    requires id < |rings|
  {
    forall i, j :: 0 <= i < |rings| && i != id && 0 <= j < |rings[i]| ==> rings[i][j] !in rings[id]
  }

  lemma RingsApart<N>(b: Book<N>, id: nat)
    requires Partitioned(b) && id < |b.rings|
    ensures Apart(b.rings, id)
  {
  }

  lemma OneMoreRing(rings: seq<seq<RefCount>>, x: RefCount)
    requires RingsLinked(rings, {}) && IsRing([x])
    ensures RingsLinked(rings + [[x]], {})
  {
  }

  method MakeRefIn(x: RefCount, y: RefCount, ghost rings: seq<seq<RefCount>>, ghost own: nat, ghost id: nat, ghost k: nat)
    requires RingsLinked(rings, {}) && own < |rings| && id < |rings| && own != id
    requires rings[own] == [x] && k < |rings[id]| && rings[id][k] == y
    requires Apart(rings, own) && Apart(rings, id)
    modifies rings[own], rings[id]
    ensures RingsLinked(rings[own := []][id := Insert(rings[id], k + 1, x)], {})
  {
    ghost var ring := rings[id];
    assert x in rings[own];
    assert IsRing(ring);
    Neighbours(ring, k);
    assert RingsLinked(rings, {own, id});
    x.MakeRef(y, ring, k);
    assert RingsLinked(rings, {own, id});
  }

  method LoseRefIn(x: RefCount, ghost rings: seq<seq<RefCount>>, ghost id: nat, ghost k: nat) returns (last: bool)
    requires RingsLinked(rings, {}) && id < |rings| && k < |rings[id]| && rings[id][k] == x
    requires Apart(rings, id)
    modifies rings[id]
    ensures RingsLinked(rings[id := Remove(rings[id], k)] + [[x]], {})
    ensures last <==> |rings[id]| == 1
  {
    ghost var ring := rings[id];
    assert IsRing(ring);
    Neighbours(ring, k);
    assert RingsLinked(rings, {id});
    last := x.LoseRef(ring, k);
    assert RingsLinked(rings, {id});
  }

  /** All references of a program.  The operations may be called in any order; each is proved to
      do to the links what the book says, so what holds of the books of every run holds of the
      references. */
  class Pool {
    ghost var book: Book<RefCount>

    ghost predicate Valid()
      reads this
      reads set i, j | 0 <= i < |book.rings| && 0 <= j < |book.rings[i]| :: book.rings[i][j]
    {
      Partitioned(book) && RingsLinked(book.rings, {})
    }

    constructor ()
      ensures Valid() && book == Book([], map[], map[], {}, [])
    {
      book := Book([], map[], map[], {}, []);
    }

    method New(ghost o: nat) returns (x: RefCount)
      requires Valid()
      modifies this
      ensures Valid() && fresh(x)
      ensures book == Acquired(old(book), x, o)
    {
      ghost var b := book;
      x := new RefCount();
      AcquiredPartitioned(b, x, o);
      OneMoreRing(b.rings, x);
      book := Acquired(b, x, o);
    }

    /** A reference that is alone and refers to nothing comes to share what y refers to. */
    method MakeRef(x: RefCount, y: RefCount)
      requires Valid() && Idle(book, x) && y in book.res && y != x
      modifies this, book.rings[book.home[x]], book.rings[book.home[y]]
      ensures Valid() && book == Joined(old(book), x, y)
    {
      ghost var b := book;
      ghost var own, id := b.home[x], b.home[y];
      OnlyInRing(b, x, y);
      JoinedPartitioned(b, x, y);
      RingsApart(b, own);
      RingsApart(b, id);
      ghost var k := IndexOf(b.rings[id], y);
      ghost var rings := b.rings[own := []][id := Insert(b.rings[id], k + 1, x)];
      assert Joined(b, x, y).rings == rings;
      MakeRefIn(x, y, b.rings, own, id, k);
      assert RingsLinked(rings, {});
      book := Joined(b, x, y);
    }

    /** Drop a reference; it was the last one exactly if nothing else is in its ring. */
    method LoseRef(x: RefCount) returns (last: bool)
      requires Valid() && x in book.res
      modifies this, book.rings[book.home[x]]
      ensures Valid() && book == Departed(old(book), x)
      ensures last <==> |old(book.rings[book.home[x]])| == 1
    {
      ghost var b := book;
      ghost var id := b.home[x];
      DepartedPartitioned(b, x);
      RingsApart(b, id);
      last := LoseRefIn(x, b.rings, id, IndexOf(b.rings[id], x));
      book := Departed(b, x);
    }
  }
}
