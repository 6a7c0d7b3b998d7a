/** The score-record rule shared by players and seasons: a new score below
    the minimum replaces the minimum, otherwise a score above the maximum
    replaces the maximum, otherwise nothing changes. */
module Recordes {

  /** The closed interval `[minimo, maximo]` of scores seen so far. */
  datatype Faixa = Faixa(minimo: int, maximo: int)
  {
    predicate Contem(placar: int)
    {
      minimo <= placar <= maximo
    }
  }

  /** Which record a score breaks. The minimum is tested first, so a score
      can break at most one record. */
  datatype Quebra = SemQuebra | QuebraMinimo | QuebraMaximo

  function Classificar(f: Faixa, placar: int): (q: Quebra)
    ensures q == SemQuebra <==> f.Contem(placar)
    ensures q == QuebraMinimo <==> placar < f.minimo
    ensures q == QuebraMaximo ==> f.maximo < placar
  {
    if placar < f.minimo then QuebraMinimo
    else if placar > f.maximo then QuebraMaximo
    else SemQuebra
  }

  /** The interval after one more score. */
  function Registrar(f: Faixa, placar: int): (r: Faixa)
    ensures r == f <==> f.Contem(placar)
    ensures f.minimo <= f.maximo ==> r.Contem(placar) && r.minimo <= r.maximo
    ensures f.minimo <= f.maximo ==> r.minimo <= f.minimo && f.maximo <= r.maximo
    ensures r.minimo == f.minimo || r.maximo == f.maximo
  {
    match Classificar(f, placar)
    case QuebraMinimo => Faixa(placar, f.maximo)
    case QuebraMaximo => Faixa(f.minimo, placar)
    case SemQuebra => f
  }

  /** Registering a score only widens the interval: every score the old
      interval held, the new one holds too. */
  lemma RegistrarAmplia(f: Faixa, placar: int, antigo: int)
    requires f.Contem(antigo)
    ensures Registrar(f, placar).Contem(antigo)
  {
  }
}
