/** A season (`Temporada.java`): a named run of games owned by one player,
    with the lowest and highest score of its games, updated in place. */
module Temporadas {
  import opened Opcao
  import opened Validacao
  import opened Recordes
  import Jogos

  const NOME_MAX := 30

  /** The values a season object holds, and the row the `temporada` table
      stores for it; the owner is referenced by id. */
  datatype TemporadaRow = TemporadaRow(
    id: Option<int>,
    nome: Option<string>,
    minimo: Option<int>,
    maximo: Option<int>,
    jogador: Option<int>)

  /** The constraints declared on the fields of `Temporada`; the owner
      carries none. */
  predicate Valido(t: TemporadaRow)
  {
    && RangeMin(t.id, 1)
    && NotNull(t.nome) && NotEmpty(t.nome) && Size(t.nome, 0, NOME_MAX)
    && NotNull(t.minimo) && RangeMin(t.minimo, 0)
    && NotNull(t.maximo) && RangeMin(t.maximo, 0)
  }

  lemma ValidoSse(t: TemporadaRow)
    ensures Valido(t) <==>
      && (t.id.None? || t.id.value >= 1)
      && t.nome.Some? && 1 <= |t.nome.value| <= 30
      && t.minimo.Some? && t.minimo.value >= 0
      && t.maximo.Some? && t.maximo.value >= 0
  {
  }

  /** The fields `atualizarPontuacao` unboxes on the branch it takes. */
  predicate PodeAtualizar(t: TemporadaRow, placar: int)
  {
    t.minimo.Some? && (placar >= t.minimo.value ==> t.maximo.Some?)
  }

  /** The season after `atualizarPontuacao` with a game of score `placar`. */
  function ComPontuacao(t: TemporadaRow, placar: int): (r: TemporadaRow)
    requires PodeAtualizar(t, placar)
  {
    if placar < t.minimo.value then t.(minimo := Some(placar))
    else if placar > t.maximo.value then t.(maximo := Some(placar))
    else t
  }

  /** On a valid season, `atualizarPontuacao` follows the shared record rule
      on `[minimo, maximo]`, keeps the season valid for any score in the game
      range, changes it exactly when the score is outside the interval, and
      leaves id, name and owner alone. */
  lemma ComPontuacaoRegistra(t: TemporadaRow, placar: int)
    requires Valido(t) && placar >= 0
    ensures PodeAtualizar(t, placar)
    ensures var r := ComPontuacao(t, placar);
      && Valido(r)
      && r.id == t.id && r.nome == t.nome && r.jogador == t.jogador
      && Faixa(r.minimo.value, r.maximo.value) == Registrar(Faixa(t.minimo.value, t.maximo.value), placar)
      && (r == t <==> t.minimo.value <= placar <= t.maximo.value)
  {
  }

  /** A season object. */
  class Temporada {
    var id: Option<int>
    var nome: Option<string>
    var minimo: Option<int>
    var maximo: Option<int>
    var jogador: Option<int>

    function Linha(): TemporadaRow
      reads this
    {
      TemporadaRow(id, nome, minimo, maximo, jogador)
    }

    constructor (id: Option<int>, nome: Option<string>, minimo: Option<int>, maximo: Option<int>, jogador: Option<int>)
      ensures Linha() == TemporadaRow(id, nome, minimo, maximo, jogador)
    {
      this.id := id;
      this.nome := nome;
      this.minimo := minimo;
      this.maximo := maximo;
      this.jogador := jogador;
    }

    /** `primeiroJogo`: the first game's score becomes both minimum and maximum. */
    method PrimeiroJogo(jogo: Jogos.Jogo)
      modifies this
      ensures minimo == jogo.placar && maximo == jogo.placar
      ensures Linha() == old(Linha()).(minimo := jogo.placar, maximo := jogo.placar)
    {
      minimo := jogo.placar;
      maximo := jogo.placar;
    }

    /** `atualizarPontuacao`: returns whether the interval moved. */
    method AtualizarPontuacao(jogo: Jogos.Jogo) returns (alterou: bool)
      requires jogo.placar.Some? && PodeAtualizar(Linha(), jogo.placar.value)
      modifies this
      ensures Linha() == ComPontuacao(old(Linha()), jogo.placar.value)
      ensures alterou <==> Linha() != old(Linha())
      ensures jogo.placar.value < old(minimo.value) ==>
        alterou && minimo == jogo.placar && maximo == old(maximo)
      ensures old(minimo.value) <= jogo.placar.value && old(maximo.value) < jogo.placar.value ==>
        alterou && maximo == jogo.placar && minimo == old(minimo)
      ensures old(minimo.value) <= jogo.placar.value <= old(maximo.value) ==>
        !alterou && Linha() == old(Linha())
    {
      if jogo.placar.value < minimo.value {
        minimo := jogo.placar;
        return true;
      }
      if jogo.placar.value > maximo.value {
        maximo := jogo.placar;
        return true;
      }
      return false;
    }
  }

  /** The season update test: min = max = 10; scores 15 and 5 move the
      interval, 10 does not. */
  method AtualizarPontuacaoCasosDeTeste()
  {
    var jogo := Jogos.Jogo(None, None, None, Some(15), None);
    var t := new Temporada(None, Some("nome"), Some(10), Some(10), None);
    var r := t.AtualizarPontuacao(jogo);
    assert r && t.maximo == Some(15) && t.minimo == Some(10);
    t := new Temporada(None, Some("nome"), Some(10), Some(10), None);
    r := t.AtualizarPontuacao(jogo.(placar := Some(5)));
    assert r && t.minimo == Some(5) && t.maximo == Some(10);
    t := new Temporada(None, Some("nome"), Some(10), Some(10), None);
    r := t.AtualizarPontuacao(jogo.(placar := Some(10)));
    assert !r && t.Linha() == TemporadaRow(None, Some("nome"), Some(10), Some(10), None);
  }
}
