/** Facts about sequences that several protocols share. */
module Sequences {

  predicate Distinct<T(==)>(q: seq<T>) {
    forall i, j :: 0 <= i < j < |q| ==> q[i] != q[j]
  }

  lemma DropFirst<T>(q: seq<T>)
    requires q != [] && Distinct(q)
    ensures Distinct(q[1..])
    ensures forall x :: x in q[1..] <==> x in q && x != q[0]
  {
    forall x | x in q && x != q[0] ensures x in q[1..] {
      var i :| 0 <= i < |q| && q[i] == x;
      assert q[1..][i - 1] == x;
    }
  }

  lemma AppendFresh<T>(q: seq<T>, x: T)
    requires Distinct(q) && x !in q
    ensures Distinct(q + [x])
    ensures forall y :: y in q + [x] <==> y in q || y == x
  {
    assert (q + [x])[|q|] == x;
  }
}
