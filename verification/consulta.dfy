/** The criteria queries the DAOs build: `where`, then `order by`, and the
    size of the result list. */
module Consultas {
  import opened Opcao
  import opened Sequencias
  import opened Ordenacao

  /** The rows of `s` that satisfy `p`, ordered by `le`: exactly the matching
      rows, each as often as it is stored. */
  function Pesquisar<T(!new)>(s: seq<T>, p: T -> bool, le: (T, T) -> bool): (r: seq<T>)
    requires PreOrdemTotal(le)
    ensures forall x :: x in r <==> x in s && p(x)
    ensures forall x :: multiset(r)[x] == if p(x) then multiset(s)[x] else 0
    ensures Ordenada(r, le)
  {
    var achados := Filtro(s, p);
    FiltroMultiset(s, p);
    var r := Ordenar(achados, le);
    assert forall x :: x in r <==> x in achados by {
      forall x ensures x in r <==> x in achados {
        assert x in r <==> multiset(r)[x] > 0;
        assert x in achados <==> multiset(achados)[x] > 0;
      }
    }
    r
  }

  /** `getResultList().size()`: the number of matching rows, whatever the
      order. */
  function Contar<T(!new)>(s: seq<T>, p: T -> bool, le: (T, T) -> bool): (r: int)
    requires PreOrdemTotal(le)
    ensures 0 <= r <= |s|
    ensures r == 0 <==> forall x :: x in s ==> !p(x)
    ensures r == |Pesquisar(s, p, le)|
  {
    var q := Pesquisar(s, p, le);
    assert |q| == |multiset(q)|;
    assert multiset(q) <= multiset(s);
    if |q| > 0 then
      assert q[0] in q;
      |q|
    else
      |q|
  }

  /** Two queries whose conditions agree on every row count the same number
      of rows, in whatever order they sort them. */
  lemma {:induction false} ContarPontual<T(!new)>(s: seq<T>, p: T -> bool, q: T -> bool, le1: (T, T) -> bool, le2: (T, T) -> bool)
    requires PreOrdemTotal(le1) && PreOrdemTotal(le2)
    requires forall i :: 0 <= i < |s| ==> p(s[i]) == q(s[i])
    ensures Contar(s, p, le1) == Contar(s, q, le2)
  {
    FiltroPontual(s, p, q);
    var a := Pesquisar(s, p, le1);
    var b := Pesquisar(s, q, le2);
    assert multiset(a) == multiset(Filtro(s, p));
    assert multiset(b) == multiset(Filtro(s, q));
    assert |a| == |multiset(a)| && |b| == |multiset(b)|;
  }
}
