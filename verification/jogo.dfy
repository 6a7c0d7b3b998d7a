/** A game (`Jogo.java`): a score at an instant, inside one season. Nothing in
    the source changes a game after it is stored, so it is a value. */
module Jogos {
  import opened Opcao
  import opened Validacao

  const PLACAR_MIN := 0
  const PLACAR_MAX := 1000
  const DESCRICAO_MAX := 250

  /** `data` is the instant as a number of milliseconds; `temporada` is the id
      of the season the game belongs to. */
  datatype Jogo = Jogo(
    id: Option<int>,
    data: Option<int>,
    descricao: Option<string>,
    placar: Option<int>,
    temporada: Option<int>)

  /** The constraints declared on the fields of `Jogo`, checked at instant
      `agora`. */
  predicate Valido(j: Jogo, agora: int)
  {
    && RangeMin(j.id, 1)
    && NotNull(j.data) && Past(j.data, agora)
    && NotNull(j.descricao) && NotEmpty(j.descricao) && Size(j.descricao, 0, DESCRICAO_MAX)
    && NotNull(j.placar) && Range(j.placar, PLACAR_MIN, PLACAR_MAX)
    && NotNull(j.temporada)
  }

  /** What the annotations amount to, field by field. */
  lemma ValidoSse(j: Jogo, agora: int)
    ensures Valido(j, agora) <==>
      && (j.id.None? || j.id.value >= 1)
      && j.data.Some? && j.data.value < agora
      && j.descricao.Some? && 1 <= |j.descricao.value| <= 250
      && j.placar.Some? && 0 <= j.placar.value <= 1000
      && j.temporada.Some?
  {
  }

  /** The boundary cases of the game tests: a score of -1 or 1001, a
      251-character or empty description, all fields null, and an instant one
      day after `agora` are rejected; 0 and 1000 are accepted. */
  lemma ValidoLimites(agora: int, texto251: string)
    requires |texto251| == 251
    ensures var ok := Jogo(None, Some(agora - 1), Some("descrição de teste"), Some(0), Some(1));
      && Valido(ok, agora)
      && Valido(ok.(placar := Some(1000)), agora)
      && !Valido(ok.(placar := Some(-1)), agora)
      && !Valido(ok.(placar := Some(1001)), agora)
      && !Valido(ok.(descricao := Some(texto251)), agora)
      && !Valido(ok.(descricao := Some("")), agora)
      && !Valido(ok.(data := Some(agora + 86400000)), agora)
      && !Valido(Jogo(None, None, None, None, None), agora)
  {
  }

  /** `Jogo.compareTo`: the sign of the difference of the scores. Both scores
      are unboxed, so neither may be null. */
  function CompareTo(a: Jogo, b: Jogo): (r: int)
    requires a.placar.Some? && b.placar.Some?
    ensures -1 <= r <= 1
    ensures r == 1 <==> a.placar.value > b.placar.value
    ensures r == -1 <==> a.placar.value < b.placar.value
    ensures r == 0 <==> a.placar.value == b.placar.value
  {
    if a.placar.value > b.placar.value then 1
    else if a.placar.value < b.placar.value then -1
    else 0
  }

  /** The `Comparable` contract: antisymmetric, reflexive on equal scores,
      transitive, and consistent for games with equal scores. */
  lemma CompareToContrato(a: Jogo, b: Jogo, c: Jogo)
    requires a.placar.Some? && b.placar.Some? && c.placar.Some?
    ensures CompareTo(a, b) == -CompareTo(b, a)
    ensures CompareTo(a, a) == 0
    ensures CompareTo(a, b) > 0 && CompareTo(b, c) > 0 ==> CompareTo(a, c) > 0
    ensures CompareTo(a, b) == 0 ==> CompareTo(a, c) == CompareTo(b, c)
  {
  }
}
