/** A player (`Jogador.java`): login data and the player's all-time score
    records, which the player object updates in place after each game. */
module Jogadores {
  import opened Opcao
  import opened Validacao
  import opened Recordes
  import Jogos

  const NOME_MAX := 50
  const LOGIN_MAX := 30
  const SENHA_MAX := 30

  /** The values a player object holds, and the row the `jogador` table
      stores for it. */
  datatype JogadorRow = JogadorRow(
    id: Option<int>,
    nome: Option<string>,
    minimo: Option<int>,
    maximo: Option<int>,
    qtdQuebraRecordeMin: Option<int>,
    qtdQuebraRecordeMax: Option<int>,
    login: Option<string>,
    senha: Option<string>)

  /** The constraints declared on the fields of `Jogador`. */
  predicate Valido(j: JogadorRow)
  {
    && RangeMin(j.id, 1)
    && NotNull(j.nome) && NotEmpty(j.nome) && Size(j.nome, 1, NOME_MAX)
    && NotNull(j.minimo) && RangeMin(j.minimo, 0)
    && NotNull(j.maximo) && RangeMin(j.maximo, 0)
    && NotNull(j.qtdQuebraRecordeMin) && RangeMin(j.qtdQuebraRecordeMin, 0)
    && NotNull(j.qtdQuebraRecordeMax) && RangeMin(j.qtdQuebraRecordeMax, 0)
    && NotNull(j.login) && NotEmpty(j.login) && Size(j.login, 1, LOGIN_MAX)
    && NotNull(j.senha) && NotEmpty(j.senha) && Size(j.senha, 1, SENHA_MAX)
  }

  /** What the annotations amount to, field by field. */
  lemma ValidoSse(j: JogadorRow)
    ensures Valido(j) <==>
      && (j.id.None? || j.id.value >= 1)
      && j.nome.Some? && 1 <= |j.nome.value| <= 50
      && j.login.Some? && 1 <= |j.login.value| <= 30
      && j.senha.Some? && 1 <= |j.senha.value| <= 30
      && j.minimo.Some? && j.minimo.value >= 0
      && j.maximo.Some? && j.maximo.value >= 0
      && j.qtdQuebraRecordeMin.Some? && j.qtdQuebraRecordeMin.value >= 0
      && j.qtdQuebraRecordeMax.Some? && j.qtdQuebraRecordeMax.value >= 0
  {
  }

  /** The cases of the player validation test: a valid player; id 0 with -1
      scores and counters; all fields null; 51-character texts; empty texts. */
  lemma ValidoCasosDeTeste(texto51: string)
    requires |texto51| == 51
    ensures Valido(JogadorRow(None, Some("nome de teste"), Some(0), Some(0), Some(0), Some(0), Some("login de teste"), Some("senha de teste")))
    ensures !Valido(JogadorRow(Some(0), Some("nome"), Some(-1), Some(-1), Some(-1), Some(-1), Some("login"), Some("senha")))
    ensures !Valido(JogadorRow(None, None, None, None, None, None, None, None))
    ensures !Valido(JogadorRow(None, Some(texto51), Some(0), Some(0), Some(0), Some(0), Some(texto51), Some(texto51)))
    ensures !Valido(JogadorRow(None, Some(""), Some(0), Some(0), Some(0), Some(0), Some(""), Some("")))
  {
  }

  /** The fields `atualizarRecordes` unboxes on the branch it takes are not
      null (otherwise the source throws a NullPointerException). */
  predicate PodeAtualizar(j: JogadorRow, placar: int)
  {
    && j.minimo.Some?
    && (placar < j.minimo.value ==> j.qtdQuebraRecordeMin.Some?)
    && (placar >= j.minimo.value ==> j.maximo.Some? && (placar > j.maximo.value ==> j.qtdQuebraRecordeMax.Some?))
  }

  /** The player after `atualizarRecordes` with a game of score `placar`. */
  function ComRecordes(j: JogadorRow, placar: int): (r: JogadorRow)
    requires PodeAtualizar(j, placar)
  {
    if placar < j.minimo.value then
      j.(minimo := Some(placar), qtdQuebraRecordeMin := Some(j.qtdQuebraRecordeMin.value + 1))
    else if placar > j.maximo.value then
      j.(maximo := Some(placar), qtdQuebraRecordeMax := Some(j.qtdQuebraRecordeMax.value + 1))
    else
      j
  }

  /** On a valid player, `atualizarRecordes` follows the shared record rule on
      `[minimo, maximo]`, counts the record it broke (at most one, by exactly
      one), never lowers a counter, keeps the player valid for any score in
      the game range, and leaves id, name, login and password alone. */
  lemma ComRecordesRegistra(j: JogadorRow, placar: int)
    requires Valido(j) && placar >= 0
    ensures PodeAtualizar(j, placar)
    ensures var r := ComRecordes(j, placar);
      && Valido(r)
      && r.id == j.id && r.nome == j.nome && r.login == j.login && r.senha == j.senha
      && Faixa(r.minimo.value, r.maximo.value) == Registrar(Faixa(j.minimo.value, j.maximo.value), placar)
      && r.qtdQuebraRecordeMin.value == j.qtdQuebraRecordeMin.value + (if Classificar(Faixa(j.minimo.value, j.maximo.value), placar) == QuebraMinimo then 1 else 0)
      && r.qtdQuebraRecordeMax.value == j.qtdQuebraRecordeMax.value + (if Classificar(Faixa(j.minimo.value, j.maximo.value), placar) == QuebraMaximo then 1 else 0)
      && (r == j <==> j.minimo.value <= placar <= j.maximo.value)
  {
  }

  /** A player object: the fields the source reads and assigns. */
  class Jogador {
    var id: Option<int>
    var nome: Option<string>
    var minimo: Option<int>
    var maximo: Option<int>
    var qtdQuebraRecordeMin: Option<int>
    var qtdQuebraRecordeMax: Option<int>
    var login: Option<string>
    var senha: Option<string>

    function Linha(): JogadorRow
      reads this
    {
      JogadorRow(id, nome, minimo, maximo, qtdQuebraRecordeMin, qtdQuebraRecordeMax, login, senha)
    }

    constructor (id: Option<int>, nome: Option<string>, minimo: Option<int>, maximo: Option<int>,
                 qtdQuebraRecordeMin: Option<int>, qtdQuebraRecordeMax: Option<int>,
                 login: Option<string>, senha: Option<string>)
      ensures Linha() == JogadorRow(id, nome, minimo, maximo, qtdQuebraRecordeMin, qtdQuebraRecordeMax, login, senha)
    {
      this.id := id;
      this.nome := nome;
      this.minimo := minimo;
      this.maximo := maximo;
      this.qtdQuebraRecordeMin := qtdQuebraRecordeMin;
      this.qtdQuebraRecordeMax := qtdQuebraRecordeMax;
      this.login := login;
      this.senha := senha;
    }

    /** `primeiroJogo`: the first game's score becomes both minimum and
        maximum; the counters and the identity fields stay. */
    method PrimeiroJogo(jogo: Jogos.Jogo)
      modifies this
      ensures minimo == jogo.placar && maximo == jogo.placar
      ensures Linha() == old(Linha()).(minimo := jogo.placar, maximo := jogo.placar)
    {
      minimo := jogo.placar;
      maximo := jogo.placar;
    }

    /** `atualizarRecordes`: returns whether a record was broken. */
    method AtualizarRecordes(jogo: Jogos.Jogo) returns (novoRecorde: bool)
      requires jogo.placar.Some? && PodeAtualizar(Linha(), jogo.placar.value)
      modifies this
      ensures Linha() == ComRecordes(old(Linha()), jogo.placar.value)
      ensures novoRecorde <==> Linha() != old(Linha())
      ensures jogo.placar.value < old(minimo.value) ==>
        && novoRecorde && minimo == jogo.placar
        && qtdQuebraRecordeMin == Some(old(qtdQuebraRecordeMin.value) + 1)
        && maximo == old(maximo) && qtdQuebraRecordeMax == old(qtdQuebraRecordeMax)
      ensures old(minimo.value) <= jogo.placar.value && old(maximo.value) < jogo.placar.value ==>
        && novoRecorde && maximo == jogo.placar
        && qtdQuebraRecordeMax == Some(old(qtdQuebraRecordeMax.value) + 1)
        && minimo == old(minimo) && qtdQuebraRecordeMin == old(qtdQuebraRecordeMin)
      ensures old(minimo.value) <= jogo.placar.value <= old(maximo.value) ==>
        !novoRecorde && Linha() == old(Linha())
    {
      if jogo.placar.value < minimo.value {
        minimo := jogo.placar;
        qtdQuebraRecordeMin := Some(qtdQuebraRecordeMin.value + 1);
        return true;
      }
      if jogo.placar.value > maximo.value {
        maximo := jogo.placar;
        qtdQuebraRecordeMax := Some(qtdQuebraRecordeMax.value + 1);
        return true;
      }
      return false;
    }
  }

  /** The record-update test: min = max = 10; scores 15 and 5 break a record,
      10 does not. */
  method AtualizarRecordesCasosDeTeste()
  {
    var jogo := Jogos.Jogo(None, None, None, Some(15), None);
    var j := new Jogador(None, Some("nome"), Some(10), Some(10), Some(0), Some(0), Some("login"), Some("senha"));
    var r := j.AtualizarRecordes(jogo);
    assert r && j.maximo == Some(15) && j.qtdQuebraRecordeMax == Some(1);
    j := new Jogador(None, Some("nome"), Some(10), Some(10), Some(0), Some(0), Some("login"), Some("senha"));
    r := j.AtualizarRecordes(jogo.(placar := Some(5)));
    assert r && j.minimo == Some(5) && j.qtdQuebraRecordeMin == Some(1);
    j := new Jogador(None, Some("nome"), Some(10), Some(10), Some(0), Some(0), Some("login"), Some("senha"));
    r := j.AtualizarRecordes(jogo.(placar := Some(10)));
    assert !r && j.minimo == Some(10) && j.maximo == Some(10);
  }
}
