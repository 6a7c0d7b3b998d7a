/** The database the DAOs work on: the `jogador`, `temporada` and `jogo`
    tables. Ids are generated by the database from 1 upwards and no DAO
    deletes a row, so the row with id `k` is the `k`-th row of its table. */
module Armazenamento {
  import opened Opcao
  import Jogadores
  import Temporadas
  import Jogos

  /** The contents of the three tables. */
  datatype Tabelas = Tabelas(
    jogadores: seq<Jogadores.JogadorRow>,
    temporadas: seq<Temporadas.TemporadaRow>,
    jogos: seq<Jogos.Jogo>)

  /** What a DAO operation returns (its message) and the tables after it. */
  datatype Saida = Saida(mensagem: string, tabelas: Tabelas)

  /** The row with primary key `id`, found through the key layout: the join
      a query makes along a reference. */
  function Linha<T>(t: seq<T>, id: Option<int>): (r: Option<T>)
    ensures r.Some? <==> id.Some? && 1 <= id.value <= |t|
    ensures r.Some? ==> r.value == t[id.value - 1]
  {
    if id.Some? && 1 <= id.value <= |t| then Some(t[id.value - 1]) else None
  }

  /** A reference that is `null` or names a stored row. */
  predicate Referencia(ref: Option<int>, n: int)
  {
    ref.None? || 1 <= ref.value <= n
  }

  predicate ChavesJogadores(t: seq<Jogadores.JogadorRow>)
  {
    forall i :: 0 <= i < |t| ==> t[i].id == Some(i + 1)
  }

  predicate ChavesTemporadas(t: seq<Temporadas.TemporadaRow>)
  {
    forall i :: 0 <= i < |t| ==> t[i].id == Some(i + 1)
  }

  predicate ChavesJogos(t: seq<Jogos.Jogo>)
  {
    forall i :: 0 <= i < |t| ==> t[i].id == Some(i + 1)
  }

  /** No two stored players share a login. */
  predicate LoginsUnicos(t: seq<Jogadores.JogadorRow>)
  {
    forall i, j :: 0 <= i < |t| && 0 <= j < |t| && i != j ==> t[i].login != t[j].login
  }

  /** A stored game: its fields were valid when it was inserted (the clock
      has moved on since, which `@Past` does not undo) and its season exists. */
  predicate JogoArmazenado(g: Jogos.Jogo, nTemporadas: int)
  {
    && g.data.Some?
    && g.descricao.Some? && 1 <= |g.descricao.value| <= Jogos.DESCRICAO_MAX
    && g.placar.Some? && Jogos.PLACAR_MIN <= g.placar.value <= Jogos.PLACAR_MAX
    && g.temporada.Some? && 1 <= g.temporada.value <= nTemporadas
  }

  /** What every DAO operation keeps: sequential keys, valid rows, references
      that name stored rows, and unique logins. */
  predicate Consistente(e: Tabelas)
  {
    && ChavesJogadores(e.jogadores)
    && ChavesTemporadas(e.temporadas)
    && ChavesJogos(e.jogos)
    && (forall i :: 0 <= i < |e.jogadores| ==> Jogadores.Valido(e.jogadores[i]))
    && (forall i :: 0 <= i < |e.temporadas| ==>
          Temporadas.Valido(e.temporadas[i]) && Referencia(e.temporadas[i].jogador, |e.jogadores|))
    && (forall i :: 0 <= i < |e.jogos| ==> JogoArmazenado(e.jogos[i], |e.temporadas|))
    && LoginsUnicos(e.jogadores)
  }

  /** The owner of season `temporada`: the join from a game to its season's
      player. */
  function Dono(temporadas: seq<Temporadas.TemporadaRow>, temporada: Option<int>): (r: Option<int>)
    ensures r.Some? ==> Linha(temporadas, temporada).Some? && r == Linha(temporadas, temporada).value.jogador
    ensures Linha(temporadas, temporada).Some? ==> r == Linha(temporadas, temporada).value.jogador
  {
    match Linha(temporadas, temporada)
    case None => None
    case Some(t) => t.jogador
  }

  /** The database. */
  class Banco {
    var jogadores: seq<Jogadores.JogadorRow>
    var temporadas: seq<Temporadas.TemporadaRow>
    var jogos: seq<Jogos.Jogo>

    function Conteudo(): Tabelas
      reads this
    {
      Tabelas(jogadores, temporadas, jogos)
    }

    predicate Valid()
      reads this
    {
      Consistente(Conteudo())
    }

    /** An empty database. */
    constructor ()
      ensures Valid()
      ensures Conteudo() == Tabelas([], [], [])
    {
      jogadores := [];
      temporadas := [];
      jogos := [];
    }
  }
}
