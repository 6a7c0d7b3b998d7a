/** `ORDER BY` on one column, ascending or descending. The database is free to
    put rows with equal keys in any order; the model fixes one (a stable
    insertion sort) and proves only what `ORDER BY` promises: the result is
    ordered by the key and holds exactly the rows it was given. */
module Ordenacao {

  /** `le` compares every two values and chains. */
  ghost predicate PreOrdemTotal<T(!new)>(le: (T, T) -> bool)
  {
    && (forall a, b :: le(a, b) || le(b, a))
    && (forall a, b, c :: le(a, b) && le(b, c) ==> le(a, c))
  }

  predicate Ordenada<T>(s: seq<T>, le: (T, T) -> bool)
  {
    forall i, j :: 0 <= i < j < |s| ==> le(s[i], s[j])
  }

  /** `ORDER BY ... DESC`: the same key, read backwards. */
  function Inverter<T>(le: (T, T) -> bool): (T, T) -> bool
  {
    (a: T, b: T) => le(b, a)
  }

  lemma InverterPreservaPreOrdem<T(!new)>(le: (T, T) -> bool)
    requires PreOrdemTotal(le)
    ensures PreOrdemTotal(Inverter(le))
  {
    var inv := Inverter(le);
    forall a, b ensures inv(a, b) || inv(b, a) {
      assert le(b, a) || le(a, b);
    }
    forall a, b, c | inv(a, b) && inv(b, c) ensures inv(a, c) {
      assert le(c, b) && le(b, a);
    }
  }

  function Inserir<T(!new)>(x: T, s: seq<T>, le: (T, T) -> bool): (r: seq<T>)
    requires PreOrdemTotal(le)
    requires Ordenada(s, le)
    ensures Ordenada(r, le)
    ensures multiset(r) == multiset(s) + multiset{x}
    ensures |r| == |s| + 1
  {
    if s == [] then [x]
    else if le(x, s[0]) then
      assert forall j :: 0 <= j < |s| ==> le(s[0], s[j]);
      [x] + s
    else
      var cauda := Inserir(x, s[1..], le);
      assert s == [s[0]] + s[1..];
      assert forall j :: 0 <= j < |cauda| ==> le(s[0], cauda[j]) by {
        forall j | 0 <= j < |cauda| ensures le(s[0], cauda[j]) {
          assert cauda[j] in multiset(s[1..]) + multiset{x};
        }
      }
      [s[0]] + cauda
  }

  /** The rows of `s`, ordered by `le`. */
  function Ordenar<T(!new)>(s: seq<T>, le: (T, T) -> bool): (r: seq<T>)
    requires PreOrdemTotal(le)
    ensures Ordenada(r, le)
    ensures multiset(r) == multiset(s)
    ensures |r| == |s|
  {
    if s == [] then []
    else
      assert s == [s[0]] + s[1..];
      Inserir(s[0], Ordenar(s[1..], le), le)
  }
}
