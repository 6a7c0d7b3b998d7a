/** The list operations a JPA query performs on a table: keep the rows that
    satisfy a predicate, and cut out a window of a result list. */
module Sequencias {
  import opened Opcao

  /** The rows of `s` that satisfy `p`, in table order. */
  function Filtro<T(!new)>(s: seq<T>, p: T -> bool): (r: seq<T>)
    ensures |r| <= |s|
    ensures forall x :: x in r <==> x in s && p(x)
  {
    if s == [] then []
    else
      assert s == s[..|s| - 1] + [s[|s| - 1]];
      Filtro(s[..|s| - 1], p) + (if p(s[|s| - 1]) then [s[|s| - 1]] else [])
  }

  /** A filter keeps every accepted row as often as the table holds it,
      and drops the others. */
  lemma {:induction false} FiltroMultiset<T(!new)>(s: seq<T>, p: T -> bool)
    ensures forall x :: multiset(Filtro(s, p))[x] == if p(x) then multiset(s)[x] else 0
  {
    if s != [] {
      var n := |s| - 1;
      FiltroMultiset(s[..n], p);
      assert s == s[..n] + [s[n]];
    }
  }

  /** Inserting a row at the end of a table adds it at the end of every
      filtered view that accepts it, and leaves the other views alone. */
  lemma {:induction false} FiltroAnexar<T(!new)>(s: seq<T>, x: T, p: T -> bool)
    ensures Filtro(s + [x], p) == Filtro(s, p) + (if p(x) then [x] else [])
  {
    assert (s + [x])[..|s + [x]| - 1] == s;
  }

  /** A filter only looks at the rows it is given: two predicates that agree
      on every row of the table select the same rows. */
  lemma {:induction false} FiltroPontual<T(!new)>(s: seq<T>, p: T -> bool, q: T -> bool)
    requires forall i :: 0 <= i < |s| ==> p(s[i]) == q(s[i])
    ensures Filtro(s, p) == Filtro(s, q)
  {
    if s != [] {
      FiltroPontual(s[..|s| - 1], p, q);
    }
  }

  /** A predicate that holds exactly at position `k` of the table selects
      that one row, or none when `k` is not a position. */
  lemma {:induction false} FiltroPosicao<T(!new)>(s: seq<T>, p: T -> bool, k: int)
    requires forall i :: 0 <= i < |s| ==> (p(s[i]) <==> i == k)
    ensures Filtro(s, p) == if 0 <= k < |s| then [s[k]] else []
  {
    if s != [] {
      var n := |s| - 1;
      var antes := s[..n];
      assert forall i :: 0 <= i < n ==> antes[i] == s[i];
      FiltroPosicao(antes, p, k);
      assert Filtro(s, p) == Filtro(antes, p) + (if p(s[n]) then [s[n]] else []);
      assert p(s[n]) <==> n == k;
    }
  }

  /** A predicate no two rows satisfy together selects at most one row. */
  lemma FiltroNoMaximoUm<T(!new)>(s: seq<T>, p: T -> bool)
    requires forall i, j :: 0 <= i < |s| && 0 <= j < |s| && i != j && p(s[i]) ==> !p(s[j])
    ensures |Filtro(s, p)| <= 1
  {
    if exists k :: 0 <= k < |s| && p(s[k]) {
      var k :| 0 <= k < |s| && p(s[k]);
      FiltroPosicao(s, p, k);
    } else {
      FiltroPosicao(s, p, -1);
    }
  }

  /** When the last row satisfies the predicate, at most one row is selected
      exactly when no earlier row satisfies it. */
  lemma FiltroUltimo<T(!new)>(s: seq<T>, p: T -> bool)
    requires |s| > 0 && p(s[|s| - 1])
    ensures |Filtro(s, p)| <= 1 <==> forall i :: 0 <= i < |s| - 1 ==> !p(s[i])
  {
    var n := |s| - 1;
    var antes := s[..n];
    assert s == antes + [s[n]];
    FiltroAnexar(antes, s[n], p);
    if exists i :: 0 <= i < n && p(s[i]) {
      var i :| 0 <= i < n && p(s[i]);
      assert antes[i] in Filtro(antes, p);
    } else {
      FiltroPosicao(antes, p, -1);
    }
  }

  /** `getSingleResult`: the one row of a result list; no row or several rows
      raise an exception, which every caller turns into `null`. */
  function ResultadoUnico<T>(s: seq<T>): (r: Option<T>)
    ensures r.Some? <==> |s| == 1
    ensures r.Some? ==> r.value in s
  {
    if |s| == 1 then Some(s[0]) else None
  }

  /** The rows `inicio .. inicio + quantidade` of `s` (as many as exist):
      `setFirstResult(inicio).setMaxResults(quantidade)`. */
  function Fatia<T>(s: seq<T>, inicio: nat, quantidade: nat): (r: seq<T>)
    ensures |r| <= quantidade
    ensures |r| == if inicio >= |s| then 0 else if |s| - inicio < quantidade then |s| - inicio else quantidade
    ensures forall i :: 0 <= i < |r| ==> r[i] == s[inicio + i]
  {
    if inicio >= |s| then []
    else if |s| - inicio < quantidade then s[inicio..]
    else s[inicio..inicio + quantidade]
  }

  /** `p` is the window of `s` that starts at row `primeiro` and holds
      `quantidade` rows, or as many as `s` has from there: row `i` of `p` is
      row `primeiro + i` of `s`. */
  ghost predicate Janela<T>(p: seq<T>, s: seq<T>, primeiro: int, quantidade: int)
  {
    && |p| == (if primeiro >= |s| then 0 else if |s| - primeiro < quantidade then |s| - primeiro else quantidade)
    && forall i :: 0 <= i < |p| ==> 0 <= primeiro + i < |s| && p[i] == s[primeiro + i]
  }

  /** A window is no longer than asked for nor than the list. */
  lemma JanelaLimites<T>(p: seq<T>, s: seq<T>, primeiro: int, quantidade: int)
    requires 0 <= primeiro && 0 <= quantidade && Janela(p, s, primeiro, quantidade)
    ensures |p| <= quantidade && |p| <= |s|
    ensures primeiro + quantidade <= |s| ==> |p| == quantidade
  {
  }

  /** A page of a result list. `setFirstResult` and `setMaxResults` throw on
      a negative argument; the DAO catches that and returns `null`. */
  function Paginar<T>(s: seq<T>, primeiro: int, quantidade: int): (r: Option<seq<T>>)
    ensures r.Some? <==> primeiro >= 0 && quantidade >= 0
    ensures r.Some? ==> Janela(r.value, s, primeiro, quantidade)
  {
    if primeiro < 0 || quantidade < 0 then None else Some(Fatia(s, primeiro, quantidade))
  }
}
