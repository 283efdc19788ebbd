/** Small things that several of the components need. */
module Basics {

  datatype Option<T> = None | Some(value: T)

  function Min(a: int, b: int): int {
    if a < b then a else b
  }

  // ---------- Lists ----------

  lemma ConcatAssociates<T>(a: seq<T>, b: seq<T>, c: seq<T>)
    ensures a + b + c == a + (b + c)
  {
  }

  function Insert<N>(s: seq<N>, k: nat, x: N): seq<N>
    requires k <= |s|
  {
    s[..k] + [x] + s[k..]
  }

  function Remove<N>(s: seq<N>, k: nat): seq<N>
    requires k < |s|
  {
    s[..k] + s[k + 1..]
  }

  predicate Distinct<N(==)>(s: seq<N>) {
    forall i, j :: 0 <= i < j < |s| ==> s[i] != s[j]
  }

  function IndexOf<N(==)>(s: seq<N>, x: N): (k: nat)
    requires x in s
    ensures k < |s| && s[k] == x
  {
    if s[0] == x then 0 else 1 + IndexOf(s[1..], x)
  }

  lemma RemoveMembers<N>(s: seq<N>, k: nat)
    requires Distinct(s) && k < |s|
    ensures Distinct(Remove(s, k)) && s[k] !in Remove(s, k)
    ensures forall y :: y in s && y != s[k] <==> y in Remove(s, k)
  {
    var r := Remove(s, k);
    forall y | y in s && y != s[k] ensures y in r {
      var i :| 0 <= i < |s| && s[i] == y;
      assert r[if i < k then i else i - 1] == y;
    }
  }

  lemma InsertMembers<N>(s: seq<N>, k: nat, x: N)
    requires Distinct(s) && k <= |s| && x !in s
    ensures Distinct(Insert(s, k, x))
    ensures forall y :: y in Insert(s, k, x) <==> y == x || y in s
  {
    var r := Insert(s, k, x);
    assert r[k] == x;
    forall y | y in s ensures y in r {
      var i :| 0 <= i < |s| && s[i] == y;
      assert r[if i < k then i else i + 1] == y;
    }
  }
}
