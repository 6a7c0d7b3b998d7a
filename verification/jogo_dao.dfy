/** `JogoDAO`: inserting a game and keeping its player's and its season's
    score records up to date, and the game queries. */
module DaoJogo {
  import opened Opcao
  import opened Sequencias
  import opened Ordenacao
  import opened Consultas
  import opened Armazenamento
  import opened Jogos
  import opened Recordes
  import Jogadores
  import Temporadas
  import DaoJogador
  import DaoTemporada

  const CADASTRADO := "Novo Jogo cadastrado com sucesso!"
  const VALORES_INVALIDOS := "Valores Inválidos!"
  const JA_EXISTE := "Já existe um jogo salvo nesta data e hora!"
  const ERRO_ADICIONAR := "Erro ao adicionar o novo jogo!"

  /** The four messages are pairwise distinct, so the message alone tells
      the caller which branch ran. */
  lemma Mensagens()
    ensures CADASTRADO != VALORES_INVALIDOS && CADASTRADO != JA_EXISTE && CADASTRADO != ERRO_ADICIONAR
    ensures VALORES_INVALIDOS != JA_EXISTE && VALORES_INVALIDOS != ERRO_ADICIONAR && JA_EXISTE != ERRO_ADICIONAR
  {
    assert |CADASTRADO| == 33 && |VALORES_INVALIDOS| == 18 && |JA_EXISTE| == 42 && |ERRO_ADICIONAR| == 30;
  }

  /** The search criteria of the game list (`JogoFilter`); season and
      player are referenced by id. */
  datatype JogoFilter = JogoFilter(
    primeiroRegistro: int,
    quantidadeRegistros: int,
    propriedadeOrdenacao: Option<string>,
    ascendente: bool,
    temporada: Option<int>,
    jogador: Option<int>)

  /** The owner of a game's season (`join temporada ... jogador`). */
  function DonoDoJogo(e: Tabelas, g: Jogo): Option<int>
  {
    Dono(e.temporadas, g.temporada)
  }

  /** `j.temporada = :pTemporada` */
  function DaTemporada(temporada: Option<int>): Jogo -> bool
  {
    (g: Jogo) => CorrespondeA(g.temporada, temporada)
  }

  /** `join(temporada).jogador = :jogador` */
  function DoJogador(e: Tabelas, jogador: Option<int>): Jogo -> bool
  {
    (g: Jogo) => CorrespondeA(DonoDoJogo(e, g), jogador)
  }

  /** `data = :data and join(temporada).jogador = :jogador`, for the data
      and the season's owner of `jogo`. */
  function MesmaDataEDono(e: Tabelas, jogo: Jogo): Jogo -> bool
  {
    (g: Jogo) => CorrespondeA(g.data, jogo.data) && CorrespondeA(DonoDoJogo(e, g), DonoDoJogo(e, jogo))
  }

  /** Some stored game has the same instant and the same player as `jogo`. */
  predicate DataOcupada(e: Tabelas, jogo: Jogo)
  {
    exists i :: 0 <= i < |e.jogos| && MesmaDataEDono(e, jogo)(e.jogos[i])
  }

  /** No player has two games at the same instant. */
  predicate DatasUnicas(e: Tabelas)
  {
    forall i, k :: 0 <= i < |e.jogos| && 0 <= k < |e.jogos| && i != k && DonoDoJogo(e, e.jogos[i]).Some? ==>
      e.jogos[i].data != e.jogos[k].data || DonoDoJogo(e, e.jogos[i]) != DonoDoJogo(e, e.jogos[k])
  }

  /** `listar(temporada)`: the games of one season, in table order. */
  function Listar(jogos: seq<Jogo>, temporada: Option<int>): (r: seq<Jogo>)
    ensures forall x :: x in r <==> x in jogos && temporada.Some? && x.temporada == temporada
  {
    Filtro(jogos, DaTemporada(temporada))
  }

  /** `listar` holds every game of the season exactly as often as the table
      does and no other game, so its size counts the season's games. */
  lemma ListarMultiplicidade(jogos: seq<Jogo>, temporada: Option<int>)
    ensures forall x ::
      multiset(Listar(jogos, temporada))[x] == if temporada.Some? && x.temporada == temporada then multiset(jogos)[x] else 0
  {
    FiltroMultiset(jogos, DaTemporada(temporada));
  }

  /** `buscarJogos(jogador)`: the games of all seasons of one player. */
  function BuscarJogos(e: Tabelas, jogador: Option<int>): (r: seq<Jogo>)
    ensures forall x :: x in r <==> x in e.jogos && jogador.Some? && DonoDoJogo(e, x) == jogador
  {
    Filtro(e.jogos, DoJogador(e, jogador))
  }

  /** `buscarJogos` holds every game of the player's seasons exactly as
      often as the table does and no other game, so its size counts the
      player's games. */
  lemma BuscarJogosMultiplicidade(e: Tabelas, jogador: Option<int>)
    ensures forall x ::
      multiset(BuscarJogos(e, jogador))[x] == if jogador.Some? && DonoDoJogo(e, x) == jogador then multiset(e.jogos)[x] else 0
  {
    FiltroMultiset(e.jogos, DoJogador(e, jogador));
  }

  /** `verificar`: true only when exactly one stored game has the instant and
      the player of `jogo`. */
  function Verificar(e: Tabelas, jogo: Jogo): (r: bool)
    ensures r ==> DataOcupada(e, jogo)
  {
    var achados := Filtro(e.jogos, MesmaDataEDono(e, jogo));
    if |achados| == 1 then
      assert achados[0] in achados;
      true
    else false
  }

  /** When no player has two games at one instant, `verificar` holds exactly
      when the instant is taken for the game's player. */
  lemma VerificarSse(e: Tabelas, jogo: Jogo)
    requires DatasUnicas(e)
    ensures Verificar(e, jogo) <==> DataOcupada(e, jogo)
  {
    var p := MesmaDataEDono(e, jogo);
    if DataOcupada(e, jogo) {
      var k :| 0 <= k < |e.jogos| && p(e.jogos[k]);
      forall i | 0 <= i < |e.jogos| ensures p(e.jogos[i]) <==> i == k {
      }
      FiltroPosicao(e.jogos, p, k);
    }
  }

  /** The `where` of `pesquisa`: with a season in the filter, the games of
      that season; otherwise the games of the filter's player. */
  predicate Atende(e: Tabelas, f: JogoFilter, g: Jogo)
  {
    if f.temporada.Some? then CorrespondeA(g.temporada, f.temporada)
    else CorrespondeA(DonoDoJogo(e, g), f.jogador)
  }

  function Criterio(e: Tabelas, f: JogoFilter): Jogo -> bool
  {
    (g: Jogo) => Atende(e, f, g)
  }

  /** `order by data`; a game without an instant (which no stored game is)
      goes first. */
  predicate DataMenorIgual(a: Jogo, b: Jogo)
  {
    match (a.data, b.data)
    case (None, _) => true
    case (Some(_), None) => false
    case (Some(x), Some(y)) => x <= y
  }

  function OrdemData(ascendente: bool): (le: (Jogo, Jogo) -> bool)
    ensures PreOrdemTotal(le)
  {
    assert PreOrdemTotal(DataMenorIgual);
    if ascendente then DataMenorIgual
    else
      InverterPreservaPreOrdem(DataMenorIgual);
      Inverter(DataMenorIgual)
  }

  lemma OrdemDataSentido(ascendente: bool, s: seq<Jogo>)
    requires Ordenada(s, OrdemData(ascendente))
    ensures ascendente ==> forall i, j :: 0 <= i < j < |s| ==> DataMenorIgual(s[i], s[j])
    ensures !ascendente ==> forall i, j :: 0 <= i < j < |s| ==> DataMenorIgual(s[j], s[i])
  {
    forall i, j | 0 <= i < j < |s|
      ensures if ascendente then DataMenorIgual(s[i], s[j]) else DataMenorIgual(s[j], s[i])
    {
      assert OrdemData(ascendente)(s[i], s[j]);
    }
  }

  /** `pesquisa`: exactly the matching games, each as often as it is stored,
      ordered by instant ascending or descending as the filter says. */
  function Pesquisa(e: Tabelas, f: JogoFilter): (r: seq<Jogo>)
    ensures forall x :: x in r <==> x in e.jogos && Atende(e, f, x)
    ensures forall x :: multiset(r)[x] == if Atende(e, f, x) then multiset(e.jogos)[x] else 0
    ensures f.ascendente ==> forall i, j :: 0 <= i < j < |r| ==> DataMenorIgual(r[i], r[j])
    ensures !f.ascendente ==> forall i, j :: 0 <= i < j < |r| ==> DataMenorIgual(r[j], r[i])
  {
    var r := Pesquisar(e.jogos, Criterio(e, f), OrdemData(f.ascendente));
    OrdemDataSentido(f.ascendente, r);
    r
  }

  /** `quantidadeFiltrados`: the number of matching games, before paging. */
  function QuantidadeFiltrados(e: Tabelas, f: JogoFilter): (r: int)
    ensures 0 <= r <= |e.jogos|
    ensures r == 0 <==> forall x :: x in e.jogos ==> !Atende(e, f, x)
    ensures r == |Pesquisa(e, f)|
  {
    Contar(e.jogos, Criterio(e, f), OrdemData(f.ascendente))
  }

  /** The count depends on the season and the player of the filter only, and
      with a season in the filter the player plays no part. */
  lemma QuantidadeIgnoraPagina(e: Tabelas, f: JogoFilter, g: JogoFilter)
    requires f.temporada == g.temporada
    requires f.temporada.Some? || f.jogador == g.jogador
    ensures QuantidadeFiltrados(e, f) == QuantidadeFiltrados(e, g)
  {
    ContarPontual(e.jogos, Criterio(e, f), Criterio(e, g), OrdemData(f.ascendente), OrdemData(g.ascendente));
  }

  /** `filtrados`: the page of the ordered matches that starts at
      `primeiroRegistro` and holds `quantidadeRegistros` games, or as many
      as remain after it; `null` when either is negative. */
  function Filtrados(e: Tabelas, f: JogoFilter): (r: Option<seq<Jogo>>)
    ensures r.Some? <==> f.primeiroRegistro >= 0 && f.quantidadeRegistros >= 0
    ensures r.Some? ==> Janela(r.value, Pesquisa(e, f), f.primeiroRegistro, f.quantidadeRegistros)
  {
    Paginar(Pesquisa(e, f), f.primeiroRegistro, f.quantidadeRegistros)
  }

  /** Both bounds are set and the score lies between them. */
  predicate Cobre(minimo: Option<int>, maximo: Option<int>, placar: Option<int>)
  {
    minimo.Some? && maximo.Some? && placar.Some? && minimo.value <= placar.value <= maximo.value
  }

  /** The player who owns the game's season has the game's score inside
      their `[minimo, maximo]`. */
  predicate JogadorCobre(jogadores: seq<Jogadores.JogadorRow>, temporadas: seq<Temporadas.TemporadaRow>, g: Jogo)
  {
    var l := Linha(jogadores, Dono(temporadas, g.temporada));
    l.Some? ==> Cobre(l.value.minimo, l.value.maximo, g.placar)
  }

  /** The game's season has the game's score inside its `[minimo, maximo]`. */
  predicate TemporadaCobre(temporadas: seq<Temporadas.TemporadaRow>, g: Jogo)
  {
    var l := Linha(temporadas, g.temporada);
    l.Some? ==> Cobre(l.value.minimo, l.value.maximo, g.placar)
  }

  /** Every player's and every season's records account for all their games. */
  predicate RecordesCoerentes(e: Tabelas)
  {
    forall i :: 0 <= i < |e.jogos| ==>
      JogadorCobre(e.jogadores, e.temporadas, e.jogos[i]) && TemporadaCobre(e.temporadas, e.jogos[i])
  }

  /** Merging a player row that keeps its id and login always succeeds. */
  lemma AtualizarJogadorSemTrocarLogin(e: Tabelas, k: int, j: Jogadores.JogadorRow)
    requires Consistente(e) && 0 <= k < |e.jogadores|
    requires Jogadores.Valido(j) && j.id == Some(k + 1) && j.login == e.jogadores[k].login
    ensures DaoJogador.AposAtualizar(e, j).tabelas == e.(jogadores := e.jogadores[k := j])
  {
    DaoJogador.Mensagens();
    var r := DaoJogador.AposAtualizar(e, j);
    assert Linha(e.jogadores, j.id) == Some(e.jogadores[k]);
    assert r.mensagem == DaoJogador.ALTERADO;
    assert r.tabelas.jogadores == e.jogadores[k := j];
  }

  /** Merging a season row that keeps its id and owner always succeeds. */
  lemma AtualizarTemporadaSemTrocarDono(e: Tabelas, k: int, t: Temporadas.TemporadaRow)
    requires Consistente(e) && 0 <= k < |e.temporadas|
    requires Temporadas.Valido(t) && t.id == Some(k + 1) && t.jogador == e.temporadas[k].jogador
    ensures DaoTemporada.AposAtualizar(e, t).tabelas == e.(temporadas := e.temporadas[k := t])
  {
    DaoTemporada.Mensagens();
    var r := DaoTemporada.AposAtualizar(e, t);
    assert Referencia(e.temporadas[k].jogador, |e.jogadores|);
    assert Linha(e.temporadas, t.id) == Some(e.temporadas[k]);
    assert r.mensagem == DaoTemporada.ALTERADA;
    assert r.tabelas.temporadas == e.temporadas[k := t];
  }

  /** The player row `atualizarRecordesJogador` saves, if it saves one: on
      the owner's first game, the row with that score as minimum and maximum;
      otherwise the row after `atualizarRecordes`, saved only when a record
      broke. Id and login stay, so the save is a plain merge. */
  function RecordesASalvar(j: Jogadores.JogadorRow, placar: int, primeiro: bool): (r: Option<Jogadores.JogadorRow>)
    requires Jogadores.Valido(j) && Jogos.PLACAR_MIN <= placar <= Jogos.PLACAR_MAX
    ensures r.Some? ==> Jogadores.Valido(r.value) && r.value.id == j.id && r.value.login == j.login
    ensures primeiro ==> r == Some(j.(minimo := Some(placar), maximo := Some(placar)))
    ensures !primeiro ==> (r.None? <==> j.minimo.value <= placar <= j.maximo.value)
    ensures !primeiro && r.Some? ==> r.value == Jogadores.ComRecordes(j, placar)
  {
    if !primeiro then
      Jogadores.ComRecordesRegistra(j, placar);
      var novo := Jogadores.ComRecordes(j, placar);
      if novo != j then Some(novo) else None
    else
      Some(j.(minimo := Some(placar), maximo := Some(placar)))
  }

  /** The owner's row once `atualizarRecordesJogador` has run: the saved
      row, or the row as it was when nothing is saved. */
  function RecordesDoDono(j: Jogadores.JogadorRow, placar: int, primeiro: bool): (r: Jogadores.JogadorRow)
    requires Jogadores.Valido(j) && Jogos.PLACAR_MIN <= placar <= Jogos.PLACAR_MAX
    ensures Jogadores.Valido(r) && r.id == j.id && r.login == j.login
  {
    match RecordesASalvar(j, placar, primeiro)
    case None => j
    case Some(novo) => novo
  }

  /** The owner's row afterwards covers the new score, and, past the first
      game, every score the old row covered: the record rule only widens a
      well-formed interval. */
  lemma RecordesDoDonoCobre(j: Jogadores.JogadorRow, placar: int, primeiro: bool)
    requires Jogadores.Valido(j) && Jogos.PLACAR_MIN <= placar <= Jogos.PLACAR_MAX
    requires primeiro || j.minimo.value <= j.maximo.value
    ensures var l := RecordesDoDono(j, placar, primeiro); Cobre(l.minimo, l.maximo, Some(placar))
    ensures !primeiro ==> forall q :: Cobre(j.minimo, j.maximo, q) ==>
      var l := RecordesDoDono(j, placar, primeiro); Cobre(l.minimo, l.maximo, q)
  {
    if !primeiro {
      Jogadores.ComRecordesRegistra(j, placar);
    }
  }

  /** The owner of a stored game's season, when it has one, is a stored,
      valid player whose id is the owner reference. */
  lemma DonoArmazenado(e: Tabelas, jogo: Jogo)
    requires Consistente(e) && JogoArmazenado(jogo, |e.temporadas|) && DonoDoJogo(e, jogo).Some?
    ensures var k := DonoDoJogo(e, jogo).value - 1;
      0 <= k < |e.jogadores| && Jogadores.Valido(e.jogadores[k]) && e.jogadores[k].id == Some(k + 1)
  {
    assert Referencia(e.temporadas[jogo.temporada.value - 1].jogador, |e.jogadores|);
  }

  /** `atualizarRecordesJogador`, run once `jogo` is stored: a game whose
      season has no owner changes nothing; otherwise the owner's row becomes
      `RecordesDoDono`, first game when the owner has at most one game. */
  function ComRecordesDoJogador(e: Tabelas, jogo: Jogo): (r: Tabelas)
    requires Consistente(e) && JogoArmazenado(jogo, |e.temporadas|)
    ensures Consistente(r)
    ensures r.temporadas == e.temporadas && r.jogos == e.jogos && |r.jogadores| == |e.jogadores|
    ensures forall k :: 0 <= k < |e.jogadores| && DonoDoJogo(e, jogo) != Some(k + 1) ==> r.jogadores[k] == e.jogadores[k]
  {
    var dono := DonoDoJogo(e, jogo);
    if dono.None? then e
    else
      assert Referencia(e.temporadas[jogo.temporada.value - 1].jogador, |e.jogadores|);
      var k := dono.value - 1;
      assert Jogadores.Valido(e.jogadores[k]) && e.jogadores[k].id == dono;
      var novo := RecordesDoDono(e.jogadores[k], jogo.placar.value, |BuscarJogos(e, dono)| <= 1);
      DaoJogador.SubstituirConsistente(e, k, novo);
      e.(jogadores := e.jogadores[k := novo])
  }

  /** `ComRecordesDoJogador` as the replacement of the owner's row, or no
      change when the season has no owner. */
  lemma ComRecordesDoJogadorTroca(e: Tabelas, jogo: Jogo)
    requires Consistente(e) && JogoArmazenado(jogo, |e.temporadas|)
    ensures DonoDoJogo(e, jogo).None? ==> ComRecordesDoJogador(e, jogo) == e
    ensures DonoDoJogo(e, jogo).Some? ==>
      var dono := DonoDoJogo(e, jogo);
      && 1 <= dono.value <= |e.jogadores|
      && Jogadores.Valido(e.jogadores[dono.value - 1])
      && ComRecordesDoJogador(e, jogo) == e.(jogadores := e.jogadores[dono.value - 1 :=
           RecordesDoDono(e.jogadores[dono.value - 1], jogo.placar.value, |BuscarJogos(e, dono)| <= 1)])
  {
    if DonoDoJogo(e, jogo).Some? {
      DonoArmazenado(e, jogo);
    }
  }

  /** The season row `atualizarTemporada` saves, if it saves one: on the
      season's first game, the row with that score as minimum and maximum;
      otherwise the row after `atualizarPontuacao`, saved only when it
      moved. Id and owner stay. */
  function PontuacaoASalvar(t: Temporadas.TemporadaRow, placar: int, primeiro: bool): (r: Option<Temporadas.TemporadaRow>)
    requires Temporadas.Valido(t) && Jogos.PLACAR_MIN <= placar <= Jogos.PLACAR_MAX
    ensures r.Some? ==> Temporadas.Valido(r.value) && r.value.id == t.id && r.value.jogador == t.jogador
    ensures primeiro ==> r == Some(t.(minimo := Some(placar), maximo := Some(placar)))
    ensures !primeiro ==> (r.None? <==> t.minimo.value <= placar <= t.maximo.value)
    ensures !primeiro && r.Some? ==> r.value == Temporadas.ComPontuacao(t, placar)
  {
    if !primeiro then
      Temporadas.ComPontuacaoRegistra(t, placar);
      var novo := Temporadas.ComPontuacao(t, placar);
      if novo != t then Some(novo) else None
    else
      Some(t.(minimo := Some(placar), maximo := Some(placar)))
  }

  /** The season's row once `atualizarTemporada` has run. */
  function PontuacaoDaTemporada(t: Temporadas.TemporadaRow, placar: int, primeiro: bool): (r: Temporadas.TemporadaRow)
    requires Temporadas.Valido(t) && Jogos.PLACAR_MIN <= placar <= Jogos.PLACAR_MAX
    ensures Temporadas.Valido(r) && r.id == t.id && r.jogador == t.jogador
  {
    match PontuacaoASalvar(t, placar, primeiro)
    case None => t
    case Some(novo) => novo
  }

  /** The season's row afterwards covers the new score, and, past the first
      game, every score the old row covered. */
  lemma PontuacaoDaTemporadaCobre(t: Temporadas.TemporadaRow, placar: int, primeiro: bool)
    requires Temporadas.Valido(t) && Jogos.PLACAR_MIN <= placar <= Jogos.PLACAR_MAX
    requires primeiro || t.minimo.value <= t.maximo.value
    ensures var l := PontuacaoDaTemporada(t, placar, primeiro); Cobre(l.minimo, l.maximo, Some(placar))
    ensures !primeiro ==> forall q :: Cobre(t.minimo, t.maximo, q) ==>
      var l := PontuacaoDaTemporada(t, placar, primeiro); Cobre(l.minimo, l.maximo, q)
  {
    if !primeiro {
      Temporadas.ComPontuacaoRegistra(t, placar);
    }
  }

  /** `atualizarTemporada`, run once `jogo` is stored: the game's season row
      becomes `PontuacaoDaTemporada`, first game when the season has at most
      one game. */
  function ComPontuacaoDaTemporada(e: Tabelas, jogo: Jogo): (r: Tabelas)
    requires Consistente(e) && JogoArmazenado(jogo, |e.temporadas|)
    ensures Consistente(r)
    ensures r.jogadores == e.jogadores && r.jogos == e.jogos && |r.temporadas| == |e.temporadas|
    ensures forall k :: 0 <= k < |e.temporadas| ==> r.temporadas[k].jogador == e.temporadas[k].jogador
    ensures forall k :: 0 <= k < |e.temporadas| && jogo.temporada != Some(k + 1) ==> r.temporadas[k] == e.temporadas[k]
  {
    var k := jogo.temporada.value - 1;
    assert Temporadas.Valido(e.temporadas[k]) && e.temporadas[k].id == jogo.temporada;
    assert Referencia(e.temporadas[k].jogador, |e.jogadores|);
    var novo := PontuacaoDaTemporada(e.temporadas[k], jogo.placar.value, |Listar(e.jogos, jogo.temporada)| <= 1);
    DaoTemporada.SubstituirConsistente(e, k, novo);
    e.(temporadas := e.temporadas[k := novo])
  }

  /** `ComPontuacaoDaTemporada` as the replacement of one season row. */
  lemma ComPontuacaoDaTemporadaTroca(e: Tabelas, jogo: Jogo)
    requires Consistente(e) && JogoArmazenado(jogo, |e.temporadas|)
    ensures var k := jogo.temporada.value - 1;
      Temporadas.Valido(e.temporadas[k]) &&
      ComPontuacaoDaTemporada(e, jogo) == e.(temporadas := e.temporadas[k :=
        PontuacaoDaTemporada(e.temporadas[k], jogo.placar.value, |Listar(e.jogos, jogo.temporada)| <= 1)])
  {
    assert Temporadas.Valido(e.temporadas[jogo.temporada.value - 1]);
  }

  /** Appending a stored game with the next id keeps the database
      consistent. */
  lemma InserirConsistente(e: Tabelas, g: Jogo)
    requires Consistente(e)
    requires JogoArmazenado(g, |e.temporadas|) && g.id == Some(|e.jogos| + 1)
    ensures Consistente(e.(jogos := e.jogos + [g]))
  {
  }

  /** The successful path of `adicionar`: `persist` appends the game with
      the next id, then `atualizarRecordesJogador` and `atualizarTemporada`
      run on it. */
  function Cadastrar(e: Tabelas, novo: Jogo): (r: Tabelas)
    requires Consistente(e) && JogoArmazenado(novo, |e.temporadas|) && novo.id == Some(|e.jogos| + 1)
    ensures Consistente(r)
    ensures r.jogos == e.jogos + [novo]
    ensures |r.jogadores| == |e.jogadores| && |r.temporadas| == |e.temporadas|
  {
    InserirConsistente(e, novo);
    var inserido := e.(jogos := e.jogos + [novo]);
    ComPontuacaoDaTemporada(ComRecordesDoJogador(inserido, novo), novo)
  }

  /** `adicionar`: validate, then refuse an instant already taken by the
      player, then persist, then update the player's and the season's
      records. A game whose id is already set is a detached entity, and a
      season that is not stored breaks the foreign key: both make `persist`
      fail. */
  function AposAdicionar(e: Tabelas, jogo: Jogo, agora: int): (r: Saida)
    requires Consistente(e)
    ensures Consistente(r.tabelas)
    ensures |r.tabelas.jogadores| == |e.jogadores| && |r.tabelas.temporadas| == |e.temporadas|
    ensures r.mensagem != CADASTRADO ==> r.tabelas == e
    ensures r.mensagem == VALORES_INVALIDOS <==> !Valido(jogo, agora)
    ensures r.mensagem == JA_EXISTE <==> Valido(jogo, agora) && Verificar(e, jogo)
    ensures r.mensagem == ERRO_ADICIONAR <==>
      Valido(jogo, agora) && !Verificar(e, jogo) && (jogo.id.Some? || Linha(e.temporadas, jogo.temporada).None?)
    ensures r.mensagem == CADASTRADO <==>
      Valido(jogo, agora) && !Verificar(e, jogo) && jogo.id.None? && Linha(e.temporadas, jogo.temporada).Some?
    ensures r.mensagem == CADASTRADO ==> r.tabelas.jogos == e.jogos + [jogo.(id := Some(|e.jogos| + 1))]
  {
    Mensagens();
    if !Valido(jogo, agora) then Saida(VALORES_INVALIDOS, e)
    else if Verificar(e, jogo) then Saida(JA_EXISTE, e)
    else if jogo.id.Some? || Linha(e.temporadas, jogo.temporada).None? then Saida(ERRO_ADICIONAR, e)
    else
      Saida(CADASTRADO, Cadastrar(e, jogo.(id := Some(|e.jogos| + 1))))
  }

  /** Replacing row `k` of the players by `RecordesDoDono` for the last
      game's score keeps every game covered, given that `primeiro` says
      whether the last game is the first one of player `k + 1`. */
  lemma {:induction false} CoberturaJogadores(
    jogadores: seq<Jogadores.JogadorRow>, temporadas: seq<Temporadas.TemporadaRow>,
    k: int, placar: int, primeiro: bool, jogos: seq<Jogo>)
    requires 0 <= k < |jogadores| && Jogadores.Valido(jogadores[k])
    requires Jogos.PLACAR_MIN <= placar <= Jogos.PLACAR_MAX
    requires |jogos| > 0 && jogos[|jogos| - 1].placar == Some(placar)
    requires Dono(temporadas, jogos[|jogos| - 1].temporada) == Some(k + 1)
    requires primeiro <==> forall i :: 0 <= i < |jogos| - 1 ==> Dono(temporadas, jogos[i].temporada) != Some(k + 1)
    requires forall i :: 0 <= i < |jogos| - 1 ==> JogadorCobre(jogadores, temporadas, jogos[i])
    ensures forall i :: 0 <= i < |jogos| ==>
      JogadorCobre(jogadores[k := RecordesDoDono(jogadores[k], placar, primeiro)], temporadas, jogos[i])
  {
    var n := |jogos| - 1;
    var depois := jogadores[k := RecordesDoDono(jogadores[k], placar, primeiro)];
    if !primeiro {
      var i0 :| 0 <= i0 < n && Dono(temporadas, jogos[i0].temporada) == Some(k + 1);
      assert JogadorCobre(jogadores, temporadas, jogos[i0]);
    }
    RecordesDoDonoCobre(jogadores[k], placar, primeiro);
    forall i | 0 <= i < |jogos| ensures JogadorCobre(depois, temporadas, jogos[i]) {
      if i < n {
        assert JogadorCobre(jogadores, temporadas, jogos[i]);
      }
    }
  }

  /** The records of the last stored game's owner cover that game, and still
      cover the owner's earlier games. */
  lemma ComRecordesDoJogadorCobre(e: Tabelas)
    requires Consistente(e) && |e.jogos| > 0
    requires forall i :: 0 <= i < |e.jogos| - 1 ==> JogadorCobre(e.jogadores, e.temporadas, e.jogos[i])
    ensures var r := ComRecordesDoJogador(e, e.jogos[|e.jogos| - 1]);
      forall i :: 0 <= i < |e.jogos| ==> JogadorCobre(r.jogadores, r.temporadas, e.jogos[i])
  {
    var g := e.jogos[|e.jogos| - 1];
    var dono := DonoDoJogo(e, g);
    if dono.Some? {
      assert JogoArmazenado(g, |e.temporadas|);
      assert Referencia(e.temporadas[g.temporada.value - 1].jogador, |e.jogadores|);
      FiltroUltimo(e.jogos, DoJogador(e, dono));
      CoberturaJogadores(e.jogadores, e.temporadas, dono.value - 1, g.placar.value, |BuscarJogos(e, dono)| <= 1, e.jogos);
    }
  }

  /** Replacing row `k` of the seasons by `PontuacaoDaTemporada` for the last
      game's score keeps every game covered, given that `primeiro` says
      whether the last game is the first one of season `k + 1`. */
  lemma {:induction false} CoberturaTemporadas(
    temporadas: seq<Temporadas.TemporadaRow>, k: int, placar: int, primeiro: bool, jogos: seq<Jogo>)
    requires 0 <= k < |temporadas| && Temporadas.Valido(temporadas[k])
    requires Jogos.PLACAR_MIN <= placar <= Jogos.PLACAR_MAX
    requires |jogos| > 0 && jogos[|jogos| - 1].placar == Some(placar) && jogos[|jogos| - 1].temporada == Some(k + 1)
    requires primeiro <==> forall i :: 0 <= i < |jogos| - 1 ==> jogos[i].temporada != Some(k + 1)
    requires forall i :: 0 <= i < |jogos| - 1 ==> TemporadaCobre(temporadas, jogos[i])
    ensures forall i :: 0 <= i < |jogos| ==>
      TemporadaCobre(temporadas[k := PontuacaoDaTemporada(temporadas[k], placar, primeiro)], jogos[i])
  {
    var n := |jogos| - 1;
    var depois := temporadas[k := PontuacaoDaTemporada(temporadas[k], placar, primeiro)];
    if !primeiro {
      var i0 :| 0 <= i0 < n && jogos[i0].temporada == Some(k + 1);
      assert TemporadaCobre(temporadas, jogos[i0]);
    }
    PontuacaoDaTemporadaCobre(temporadas[k], placar, primeiro);
    forall i | 0 <= i < |jogos| ensures TemporadaCobre(depois, jogos[i]) {
      if i < n {
        assert TemporadaCobre(temporadas, jogos[i]);
      }
    }
  }

  /** The last stored game's season covers that game and still covers the
      season's earlier games. */
  lemma ComPontuacaoDaTemporadaCobre(e: Tabelas)
    requires Consistente(e) && |e.jogos| > 0
    requires forall i :: 0 <= i < |e.jogos| - 1 ==> TemporadaCobre(e.temporadas, e.jogos[i])
    ensures var r := ComPontuacaoDaTemporada(e, e.jogos[|e.jogos| - 1]);
      forall i :: 0 <= i < |e.jogos| ==> TemporadaCobre(r.temporadas, e.jogos[i])
  {
    var g := e.jogos[|e.jogos| - 1];
    assert JogoArmazenado(g, |e.temporadas|);
    FiltroUltimo(e.jogos, DaTemporada(g.temporada));
    CoberturaTemporadas(e.temporadas, g.temporada.value - 1, g.placar.value, |Listar(e.jogos, g.temporada)| <= 1, e.jogos);
  }

  /** Seasons that differ only in their scores have the same owners. */
  lemma DonosIguais(a: seq<Temporadas.TemporadaRow>, b: seq<Temporadas.TemporadaRow>)
    requires |a| == |b| && forall k :: 0 <= k < |a| ==> a[k].jogador == b[k].jogador
    ensures forall t :: Dono(a, t) == Dono(b, t)
  {
    forall t ensures Dono(a, t) == Dono(b, t) {
      if Linha(a, t).Some? {
        assert a[t.value - 1].jogador == b[t.value - 1].jogador;
      }
    }
  }

  /** Uniqueness of instants depends on the owners of the seasons only. */
  lemma DatasUnicasDonos(a: Tabelas, b: Tabelas)
    requires a.jogos == b.jogos && forall t :: Dono(a.temporadas, t) == Dono(b.temporadas, t)
    requires DatasUnicas(a)
    ensures DatasUnicas(b)
  {
    forall i, k | 0 <= i < |b.jogos| && 0 <= k < |b.jogos| && i != k && DonoDoJogo(b, b.jogos[i]).Some?
      ensures b.jogos[i].data != b.jogos[k].data || DonoDoJogo(b, b.jogos[i]) != DonoDoJogo(b, b.jogos[k])
    {
      assert DonoDoJogo(a, a.jogos[i]) == DonoDoJogo(b, b.jogos[i]);
      assert DonoDoJogo(a, a.jogos[k]) == DonoDoJogo(b, b.jogos[k]);
    }
  }

  /** Appending a game whose instant is free for its player keeps instants
      unique. */
  lemma DatasUnicasAnexar(e: Tabelas, novo: Jogo)
    requires DatasUnicas(e) && novo.data.Some? && !DataOcupada(e, novo)
    ensures DatasUnicas(e.(jogos := e.jogos + [novo]))
  {
    var d := e.(jogos := e.jogos + [novo]);
    var n := |e.jogos|;
    forall i, k | 0 <= i < |d.jogos| && 0 <= k < |d.jogos| && i != k && DonoDoJogo(d, d.jogos[i]).Some?
      ensures d.jogos[i].data != d.jogos[k].data || DonoDoJogo(d, d.jogos[i]) != DonoDoJogo(d, d.jogos[k])
    {
      if i == n {
        assert !MesmaDataEDono(e, novo)(e.jogos[k]);
      } else if k == n {
        assert !MesmaDataEDono(e, novo)(e.jogos[i]);
      } else {
        assert d.jogos[i] == e.jogos[i] && d.jogos[k] == e.jogos[k];
      }
    }
  }

  /** Player coverage carries over to tables whose seasons have the same
      owners. */
  lemma CoerentesComDonosIguais(a: Tabelas, b: Tabelas)
    requires a.jogadores == b.jogadores && a.jogos == b.jogos
    requires forall t :: Dono(a.temporadas, t) == Dono(b.temporadas, t)
    requires forall i :: 0 <= i < |a.jogos| ==> JogadorCobre(a.jogadores, a.temporadas, a.jogos[i])
    requires forall i :: 0 <= i < |b.jogos| ==> TemporadaCobre(b.temporadas, b.jogos[i])
    ensures RecordesCoerentes(b)
  {
    forall i | 0 <= i < |b.jogos| ensures JogadorCobre(b.jogadores, b.temporadas, b.jogos[i]) {
      assert JogadorCobre(a.jogadores, a.temporadas, a.jogos[i]);
      assert Dono(a.temporadas, a.jogos[i].temporada) == Dono(b.temporadas, b.jogos[i].temporada);
    }
  }

  /** Appending a game leaves the earlier games covered. */
  lemma CoberturaAnterior(e: Tabelas, novo: Jogo)
    requires RecordesCoerentes(e)
    ensures var d := e.(jogos := e.jogos + [novo]);
      d.jogos[|d.jogos| - 1] == novo &&
      forall i :: 0 <= i < |d.jogos| - 1 ==>
        JogadorCobre(d.jogadores, d.temporadas, d.jogos[i]) && TemporadaCobre(d.temporadas, d.jogos[i])
  {
    var d := e.(jogos := e.jogos + [novo]);
    forall i | 0 <= i < |d.jogos| - 1
      ensures JogadorCobre(d.jogadores, d.temporadas, d.jogos[i]) && TemporadaCobre(d.temporadas, d.jogos[i])
    {
      assert d.jogos[i] == e.jogos[i];
    }
  }

  /** Storing a game and running both record updates keeps every game
      covered by its player's and its season's records. */
  lemma CoberturaAposInserir(e: Tabelas, novo: Jogo)
    requires Consistente(e) && RecordesCoerentes(e)
    requires JogoArmazenado(novo, |e.temporadas|) && novo.id == Some(|e.jogos| + 1)
    ensures RecordesCoerentes(Cadastrar(e, novo))
  {
    InserirConsistente(e, novo);
    var inserido := e.(jogos := e.jogos + [novo]);
    CoberturaAnterior(e, novo);
    ComRecordesDoJogadorCobre(inserido);
    var comJogador := ComRecordesDoJogador(inserido, novo);
    ComPontuacaoDaTemporadaCobre(comJogador);
    var fim := ComPontuacaoDaTemporada(comJogador, novo);
    DonosIguais(comJogador.temporadas, fim.temporadas);
    CoerentesComDonosIguais(comJogador, fim);
  }

  /** Storing a game whose instant is free for its player, and running both
      record updates, keeps instants unique. */
  lemma DatasAposInserir(e: Tabelas, novo: Jogo)
    requires Consistente(e) && DatasUnicas(e) && !DataOcupada(e, novo)
    requires JogoArmazenado(novo, |e.temporadas|) && novo.id == Some(|e.jogos| + 1)
    ensures DatasUnicas(Cadastrar(e, novo))
  {
    InserirConsistente(e, novo);
    var inserido := e.(jogos := e.jogos + [novo]);
    DatasUnicasAnexar(e, novo);
    var comJogador := ComRecordesDoJogador(inserido, novo);
    var fim := ComPontuacaoDaTemporada(comJogador, novo);
    DonosIguais(inserido.temporadas, fim.temporadas);
    DatasUnicasDonos(inserido, fim);
  }

  /** `adicionar` keeps the records coherent with the stored games and keeps
      instants unique per player; with unique instants, it refuses a game
      exactly when its player already has a game at that instant. */
  lemma AposAdicionarCoerente(e: Tabelas, jogo: Jogo, agora: int)
    requires Consistente(e) && RecordesCoerentes(e) && DatasUnicas(e)
    ensures RecordesCoerentes(AposAdicionar(e, jogo, agora).tabelas)
    ensures DatasUnicas(AposAdicionar(e, jogo, agora).tabelas)
    ensures AposAdicionar(e, jogo, agora).mensagem == JA_EXISTE <==> Valido(jogo, agora) && DataOcupada(e, jogo)
  {
    VerificarSse(e, jogo);
    if Valido(jogo, agora) && !Verificar(e, jogo) && jogo.id.None? && Linha(e.temporadas, jogo.temporada).Some? {
      var novo := jogo.(id := Some(|e.jogos| + 1));
      CoberturaAposInserir(e, novo);
      assert !DataOcupada(e, novo) by {
        forall i | 0 <= i < |e.jogos| ensures !MesmaDataEDono(e, novo)(e.jogos[i]) {
          assert !MesmaDataEDono(e, jogo)(e.jogos[i]);
        }
      }
      DatasAposInserir(e, novo);
    }
  }

  /** `jogadorDAO.atualizar(jogador)` inside the record update: the object
      keeps its id and login, so the merge replaces its row and nothing else;
      the message is discarded. */
  method SalvarJogador(banco: Banco, jogador: Jogadores.Jogador)
    requires banco.Valid() && Jogadores.Valido(jogador.Linha())
    requires jogador.id.Some? && 1 <= jogador.id.value <= |banco.jogadores|
    requires jogador.login == banco.jogadores[jogador.id.value - 1].login
    modifies banco
    ensures banco.jogadores == old(banco.jogadores)[jogador.id.value - 1 := jogador.Linha()]
    ensures banco.temporadas == old(banco.temporadas) && banco.jogos == old(banco.jogos)
  {
    AtualizarJogadorSemTrocarLogin(banco.Conteudo(), jogador.id.value - 1, jogador.Linha());
    var _ := DaoJogador.Atualizar(banco, jogador);
  }

  /** `temporadaDAO.atualizar(temporada)` inside the record update: id and
      owner stay, so the merge replaces its row and nothing else. */
  method SalvarTemporada(banco: Banco, temporada: Temporadas.Temporada)
    requires banco.Valid() && Temporadas.Valido(temporada.Linha())
    requires temporada.id.Some? && 1 <= temporada.id.value <= |banco.temporadas|
    requires temporada.jogador == banco.temporadas[temporada.id.value - 1].jogador
    modifies banco
    ensures banco.temporadas == old(banco.temporadas)[temporada.id.value - 1 := temporada.Linha()]
    ensures banco.jogadores == old(banco.jogadores) && banco.jogos == old(banco.jogos)
  {
    AtualizarTemporadaSemTrocarDono(banco.Conteudo(), temporada.id.value - 1, temporada.Linha());
    var _ := DaoTemporada.Atualizar(banco, temporada);
  }

  /** The in-memory side of `atualizarRecordesJogador`: the owner's row as
      a `Jogador` object, after `primeiroJogo` on a first game or
      `atualizarRecordes` otherwise, and whether it is to be saved. */
  method RecordesNoObjeto(l: Jogadores.JogadorRow, jogo: Jogo, primeiro: bool) returns (jogador: Jogadores.Jogador, salvar: bool)
    requires Jogadores.Valido(l) && jogo.placar.Some? && Jogos.PLACAR_MIN <= jogo.placar.value <= Jogos.PLACAR_MAX
    ensures fresh(jogador)
    ensures salvar <==> RecordesASalvar(l, jogo.placar.value, primeiro).Some?
    ensures salvar ==> jogador.Linha() == RecordesASalvar(l, jogo.placar.value, primeiro).value
  {
    jogador := new Jogadores.Jogador(l.id, l.nome, l.minimo, l.maximo,
      l.qtdQuebraRecordeMin, l.qtdQuebraRecordeMax, l.login, l.senha);
    if !primeiro {
      Jogadores.ComRecordesRegistra(l, jogo.placar.value);
      salvar := jogador.AtualizarRecordes(jogo);
    } else {
      jogador.PrimeiroJogo(jogo);
      salvar := true;
    }
  }

  /** `atualizarRecordesJogador` on the database: the owner's updated object
      goes through `JogadorDAO.atualizar` when it is to be saved; the
      message is discarded. */
  method AtualizarRecordesJogador(banco: Banco, jogo: Jogo)
    requires banco.Valid() && JogoArmazenado(jogo, |banco.temporadas|)
    modifies banco
    ensures banco.temporadas == old(banco.temporadas) && banco.jogos == old(banco.jogos)
    ensures DonoDoJogo(old(banco.Conteudo()), jogo).None? ==> banco.jogadores == old(banco.jogadores)
    ensures DonoDoJogo(old(banco.Conteudo()), jogo).Some? ==>
      var dono := DonoDoJogo(old(banco.Conteudo()), jogo);
      && 1 <= dono.value <= |old(banco.jogadores)|
      && Jogadores.Valido(old(banco.jogadores[dono.value - 1]))
      && banco.jogadores == old(banco.jogadores)[dono.value - 1 :=
           RecordesDoDono(old(banco.jogadores[dono.value - 1]), jogo.placar.value,
             |BuscarJogos(old(banco.Conteudo()), dono)| <= 1)]
  {
    ghost var e := banco.Conteudo();
    var dono := Dono(banco.temporadas, jogo.temporada);
    if dono.None? {
      return;
    }
    DonoArmazenado(e, jogo);
    var k := dono.value - 1;
    var l := banco.jogadores[k];
    var lista := BuscarJogos(banco.Conteudo(), dono);
    var jogador, salvar := RecordesNoObjeto(l, jogo, |lista| <= 1);
    assert banco.Conteudo() == e;
    if salvar {
      SalvarJogador(banco, jogador);
    } else {
      assert e.jogadores[k := l] == e.jogadores;
    }
  }

  /** The in-memory side of `atualizarTemporada`: the season's row as a
      `Temporada` object, after `primeiroJogo` on a first game or
      `atualizarPontuacao` otherwise, and whether it is to be saved. */
  method PontuacaoNoObjeto(l: Temporadas.TemporadaRow, jogo: Jogo, primeiro: bool) returns (temporada: Temporadas.Temporada, salvar: bool)
    requires Temporadas.Valido(l) && jogo.placar.Some? && Jogos.PLACAR_MIN <= jogo.placar.value <= Jogos.PLACAR_MAX
    ensures fresh(temporada)
    ensures salvar <==> PontuacaoASalvar(l, jogo.placar.value, primeiro).Some?
    ensures salvar ==> temporada.Linha() == PontuacaoASalvar(l, jogo.placar.value, primeiro).value
  {
    temporada := new Temporadas.Temporada(l.id, l.nome, l.minimo, l.maximo, l.jogador);
    if !primeiro {
      Temporadas.ComPontuacaoRegistra(l, jogo.placar.value);
      salvar := temporada.AtualizarPontuacao(jogo);
    } else {
      temporada.PrimeiroJogo(jogo);
      salvar := true;
    }
  }

  /** `atualizarTemporada` on the database: the season's updated object goes
      through `TemporadaDAO.atualizar` when it is to be saved; the message is
      discarded. */
  method AtualizarTemporada(banco: Banco, jogo: Jogo)
    requires banco.Valid() && JogoArmazenado(jogo, |banco.temporadas|)
    modifies banco
    ensures Temporadas.Valido(old(banco.temporadas[jogo.temporada.value - 1]))
    ensures banco.jogadores == old(banco.jogadores) && banco.jogos == old(banco.jogos)
    ensures banco.temporadas == old(banco.temporadas)[jogo.temporada.value - 1 :=
      PontuacaoDaTemporada(old(banco.temporadas[jogo.temporada.value - 1]), jogo.placar.value,
        |Listar(old(banco.jogos), jogo.temporada)| <= 1)]
  {
    ghost var e := banco.Conteudo();
    var k := jogo.temporada.value - 1;
    var l := banco.temporadas[k];
    assert Temporadas.Valido(l) && l.id == jogo.temporada;
    var lista := Listar(banco.jogos, jogo.temporada);
    var temporada, salvar := PontuacaoNoObjeto(l, jogo, |lista| <= 1);
    if salvar {
      SalvarTemporada(banco, temporada);
    } else {
      assert e.temporadas[k := l] == e.temporadas;
    }
  }

  /** The successful path of `JogoDAO.adicionar` on the database: persist,
      then update the player's and the season's records. */
  method Persistir(banco: Banco, novo: Jogo)
    requires banco.Valid() && JogoArmazenado(novo, |banco.temporadas|) && novo.id == Some(|banco.jogos| + 1)
    modifies banco
    ensures banco.Conteudo() == Cadastrar(old(banco.Conteudo()), novo)
  {
    ghost var e := banco.Conteudo();
    InserirConsistente(e, novo);
    banco.jogos := banco.jogos + [novo];
    ghost var inserido := banco.Conteudo();
    ComRecordesDoJogadorTroca(inserido, novo);
    AtualizarRecordesJogador(banco, novo);
    ghost var comJogador := banco.Conteudo();
    assert comJogador == ComRecordesDoJogador(inserido, novo);
    ComPontuacaoDaTemporadaTroca(comJogador, novo);
    AtualizarTemporada(banco, novo);
    assert banco.Conteudo() == ComPontuacaoDaTemporada(comJogador, novo);
  }

  /** `JogoDAO.adicionar` on the database. */
  method Adicionar(banco: Banco, jogo: Jogo, agora: int) returns (mensagem: string)
    requires banco.Valid()
    modifies banco
    ensures banco.Valid()
    ensures Saida(mensagem, banco.Conteudo()) == AposAdicionar(old(banco.Conteudo()), jogo, agora)
  {
    Mensagens();
    ghost var e := banco.Conteudo();
    if !Valido(jogo, agora) {
      assert AposAdicionar(e, jogo, agora) == Saida(VALORES_INVALIDOS, e);
      return VALORES_INVALIDOS;
    }
    if Verificar(banco.Conteudo(), jogo) {
      assert AposAdicionar(e, jogo, agora) == Saida(JA_EXISTE, e);
      return JA_EXISTE;
    }
    if jogo.id.Some? || Linha(banco.temporadas, jogo.temporada).None? {
      assert AposAdicionar(e, jogo, agora) == Saida(ERRO_ADICIONAR, e);
      return ERRO_ADICIONAR;
    }
    var novo := jogo.(id := Some(|banco.jogos| + 1));
    Persistir(banco, novo);
    mensagem := CADASTRADO;
    assert AposAdicionar(e, jogo, agora) == Saida(CADASTRADO, banco.Conteudo());
  }
}
