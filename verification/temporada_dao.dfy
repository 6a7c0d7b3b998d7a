/** `TemporadaDAO`: inserting, updating, looking up and listing seasons, and
    the filtered, ordered, paged season search. */
module DaoTemporada {
  import opened Opcao
  import opened Sequencias
  import opened Ordenacao
  import opened Textos
  import opened Consultas
  import opened Armazenamento
  import opened Temporadas

  const CADASTRADA := "Nova Temporada cadastrada com sucesso!"
  const VALORES_INVALIDOS := "Valores Inválidos!"
  const ERRO_ADICIONAR := "Erro ao adicionar a nova temporada!"
  const ALTERADA := "Temporada alterada com sucesso!"
  const ERRO_ALTERAR := "Erro ao alterar a temporada!"
  const NAO_ENCONTRADA := "Temporada não encontrada!"

  /** The six messages are pairwise distinct, so the message alone tells
      the caller which branch ran. */
  lemma Mensagens()
    ensures CADASTRADA != VALORES_INVALIDOS && CADASTRADA != ERRO_ADICIONAR && CADASTRADA != ALTERADA
    ensures CADASTRADA != ERRO_ALTERAR && CADASTRADA != NAO_ENCONTRADA
    ensures VALORES_INVALIDOS != ERRO_ADICIONAR && VALORES_INVALIDOS != ALTERADA
    ensures VALORES_INVALIDOS != ERRO_ALTERAR && VALORES_INVALIDOS != NAO_ENCONTRADA
    ensures ERRO_ADICIONAR != ALTERADA && ERRO_ADICIONAR != ERRO_ALTERAR && ERRO_ADICIONAR != NAO_ENCONTRADA
    ensures ALTERADA != ERRO_ALTERAR && ALTERADA != NAO_ENCONTRADA && ERRO_ALTERAR != NAO_ENCONTRADA
  {
    assert |CADASTRADA| == 38 && |VALORES_INVALIDOS| == 18 && |ERRO_ADICIONAR| == 35;
    assert |ALTERADA| == 31 && |ERRO_ALTERAR| == 28 && |NAO_ENCONTRADA| == 25;
  }

  /** The search criteria of the season list (`TemporadaFilter`); the owner
      is referenced by id. */
  datatype TemporadaFilter = TemporadaFilter(
    primeiroRegistro: int,
    quantidadeRegistros: int,
    propriedadeOrdenacao: Option<string>,
    ascendente: bool,
    nome: Option<string>,
    jogador: Option<int>)

  /** `t.id = :pId` */
  function ComId(id: Option<int>): TemporadaRow -> bool
  {
    (t: TemporadaRow) => CorrespondeA(t.id, id)
  }

  /** `t.jogador = :pJogador` */
  function DoJogador(jogador: Option<int>): TemporadaRow -> bool
  {
    (t: TemporadaRow) => CorrespondeA(t.jogador, jogador)
  }

  /** `buscarPorId`: the single row with that id, or `null`. */
  function BuscarPorId(t: seq<TemporadaRow>, id: Option<int>): (r: Option<TemporadaRow>)
    ensures r.Some? ==> id.Some? && r.value in t && r.value.id == id
  {
    ResultadoUnico(Filtro(t, ComId(id)))
  }

  /** With the database's keys, `buscarPorId` finds exactly the row whose
      position the id names, and nothing for `null`, 0 or an id past the end. */
  lemma BuscarPorIdChave(t: seq<TemporadaRow>, id: Option<int>)
    requires ChavesTemporadas(t)
    ensures BuscarPorId(t, id) == Linha(t, id)
  {
    if id.Some? {
      FiltroPosicao(t, ComId(id), id.value - 1);
    } else {
      FiltroPosicao(t, ComId(id), -1);
    }
  }

  /** `listar`: the seasons of one player, in table order; a `null` player
      has none. */
  function Listar(t: seq<TemporadaRow>, jogador: Option<int>): (r: seq<TemporadaRow>)
    ensures forall x :: x in r <==> x in t && jogador.Some? && x.jogador == jogador
    ensures forall x :: multiset(r)[x] == if jogador.Some? && x.jogador == jogador then multiset(t)[x] else 0
  {
    FiltroMultiset(t, DoJogador(jogador));
    Filtro(t, DoJogador(jogador))
  }

  /** The `where` of `pesquisa`: the owner is the filter's player, and when
      the filter has a name, the season's name contains it
      (`like '%' || nome || '%'`). */
  predicate Atende(f: TemporadaFilter, t: TemporadaRow)
  {
    && CorrespondeA(t.jogador, f.jogador)
    && (f.nome.Some? ==> t.nome.Some? && Contem(t.nome.value, f.nome.value))
  }

  function Criterio(f: TemporadaFilter): TemporadaRow -> bool
  {
    (t: TemporadaRow) => Atende(f, t)
  }

  /** `order by nome`; a season without a name (which no stored season is)
      goes first. */
  predicate NomeMenorIgual(a: TemporadaRow, b: TemporadaRow)
  {
    match (a.nome, b.nome)
    case (None, _) => true
    case (Some(_), None) => false
    case (Some(x), Some(y)) => LexMenorIgual(x, y)
  }

  lemma NomeMenorIgualPreOrdem()
    ensures PreOrdemTotal(NomeMenorIgual)
  {
    forall a, b ensures NomeMenorIgual(a, b) || NomeMenorIgual(b, a) {
      if a.nome.Some? && b.nome.Some? {
        LexTotal(a.nome.value, b.nome.value);
      }
    }
    forall a, b, c | NomeMenorIgual(a, b) && NomeMenorIgual(b, c) ensures NomeMenorIgual(a, c) {
      if a.nome.Some? && b.nome.Some? && c.nome.Some? {
        LexTransitiva(a.nome.value, b.nome.value, c.nome.value);
      }
    }
  }

  /** The order of the search: by name, ascending when `ascendente`. */
  function OrdemNome(ascendente: bool): (le: (TemporadaRow, TemporadaRow) -> bool)
    ensures PreOrdemTotal(le)
  {
    NomeMenorIgualPreOrdem();
    if ascendente then NomeMenorIgual
    else
      InverterPreservaPreOrdem(NomeMenorIgual);
      Inverter(NomeMenorIgual)
  }

  /** A list ordered by `OrdemNome(ascendente)` is ordered by name in that
      direction. */
  lemma OrdemNomeSentido(ascendente: bool, s: seq<TemporadaRow>)
    requires Ordenada(s, OrdemNome(ascendente))
    ensures ascendente ==> forall i, j :: 0 <= i < j < |s| ==> NomeMenorIgual(s[i], s[j])
    ensures !ascendente ==> forall i, j :: 0 <= i < j < |s| ==> NomeMenorIgual(s[j], s[i])
  {
    forall i, j | 0 <= i < j < |s|
      ensures if ascendente then NomeMenorIgual(s[i], s[j]) else NomeMenorIgual(s[j], s[i])
    {
      assert OrdemNome(ascendente)(s[i], s[j]);
    }
  }

  /** `pesquisa`: exactly the matching seasons, each as often as it is
      stored, ordered by name ascending or descending as the filter says.
      `propriedadeOrdenacao`, the first row and the page size play no part. */
  function Pesquisa(t: seq<TemporadaRow>, f: TemporadaFilter): (r: seq<TemporadaRow>)
    ensures forall x :: x in r <==> x in t && Atende(f, x)
    ensures forall x :: multiset(r)[x] == if Atende(f, x) then multiset(t)[x] else 0
    ensures f.ascendente ==> forall i, j :: 0 <= i < j < |r| ==> NomeMenorIgual(r[i], r[j])
    ensures !f.ascendente ==> forall i, j :: 0 <= i < j < |r| ==> NomeMenorIgual(r[j], r[i])
  {
    var r := Pesquisar(t, Criterio(f), OrdemNome(f.ascendente));
    OrdemNomeSentido(f.ascendente, r);
    r
  }

  /** `quantidadeFiltrados`: the number of matching seasons, before paging. */
  function QuantidadeFiltrados(t: seq<TemporadaRow>, f: TemporadaFilter): (r: int)
    ensures 0 <= r <= |t|
    ensures r == 0 <==> forall x :: x in t ==> !Atende(f, x)
    ensures r == |Pesquisa(t, f)|
  {
    Contar(t, Criterio(f), OrdemNome(f.ascendente))
  }

  /** The count depends on the name and the player of the filter only. */
  lemma QuantidadeIgnoraPagina(t: seq<TemporadaRow>, f: TemporadaFilter, g: TemporadaFilter)
    requires f.nome == g.nome && f.jogador == g.jogador
    ensures QuantidadeFiltrados(t, f) == QuantidadeFiltrados(t, g)
  {
    ContarPontual(t, Criterio(f), Criterio(g), OrdemNome(f.ascendente), OrdemNome(g.ascendente));
  }

  /** `filtrados`: the page of the ordered matches that starts at
      `primeiroRegistro` and holds `quantidadeRegistros` seasons, or as many
      as remain after it; `null` when either is negative. */
  function Filtrados(t: seq<TemporadaRow>, f: TemporadaFilter): (r: Option<seq<TemporadaRow>>)
    ensures r.Some? <==> f.primeiroRegistro >= 0 && f.quantidadeRegistros >= 0
    ensures r.Some? ==> Janela(r.value, Pesquisa(t, f), f.primeiroRegistro, f.quantidadeRegistros)
  {
    Paginar(Pesquisa(t, f), f.primeiroRegistro, f.quantidadeRegistros)
  }

  /** Appending a valid season with the next id and an owner that exists
      keeps the database consistent. */
  lemma InserirConsistente(e: Tabelas, t: TemporadaRow)
    requires Consistente(e)
    requires Valido(t) && t.id == Some(|e.temporadas| + 1) && Referencia(t.jogador, |e.jogadores|)
    ensures Consistente(e.(temporadas := e.temporadas + [t]))
  {
    var e2 := e.(temporadas := e.temporadas + [t]);
    forall i | 0 <= i < |e2.jogos| ensures JogoArmazenado(e2.jogos[i], |e2.temporadas|) {
      assert JogoArmazenado(e.jogos[i], |e.temporadas|);
    }
  }

  /** Overwriting the season at position `k` with a valid season carrying
      the same id and an owner that exists keeps the database consistent. */
  lemma SubstituirConsistente(e: Tabelas, k: int, t: TemporadaRow)
    requires Consistente(e)
    requires 0 <= k < |e.temporadas|
    requires Valido(t) && t.id == Some(k + 1) && Referencia(t.jogador, |e.jogadores|)
    ensures Consistente(e.(temporadas := e.temporadas[k := t]))
  {
  }

  /** `adicionar`: validate, then persist. There is no uniqueness check.
      A season whose id is already set is a detached entity, and an owner
      that is not stored breaks the foreign key: both make `persist` fail. */
  function AposAdicionar(e: Tabelas, t: TemporadaRow): (r: Saida)
    requires Consistente(e)
    ensures Consistente(r.tabelas)
    ensures r.tabelas.jogadores == e.jogadores && r.tabelas.jogos == e.jogos
    ensures r.mensagem != CADASTRADA ==> r.tabelas == e
    ensures r.mensagem == VALORES_INVALIDOS <==> !Valido(t)
    ensures r.mensagem == ERRO_ADICIONAR <==> Valido(t) && (t.id.Some? || !Referencia(t.jogador, |e.jogadores|))
    ensures r.mensagem == CADASTRADA <==> Valido(t) && t.id.None? && Referencia(t.jogador, |e.jogadores|)
    ensures r.mensagem == CADASTRADA ==> r.tabelas.temporadas == e.temporadas + [t.(id := Some(|e.temporadas| + 1))]
  {
    Mensagens();
    if !Valido(t) then Saida(VALORES_INVALIDOS, e)
    else if t.id.Some? || !Referencia(t.jogador, |e.jogadores|) then Saida(ERRO_ADICIONAR, e)
    else
      InserirConsistente(e, t.(id := Some(|e.temporadas| + 1)));
      Saida(CADASTRADA, e.(temporadas := e.temporadas + [t.(id := Some(|e.temporadas| + 1))]))
  }

  /** `atualizar`: validate, then look the season up by id, then merge over
      the row; an owner that is not stored makes the merge fail. */
  function AposAtualizar(e: Tabelas, t: TemporadaRow): (r: Saida)
    requires Consistente(e)
    ensures Consistente(r.tabelas)
    ensures r.tabelas.jogadores == e.jogadores && r.tabelas.jogos == e.jogos
    ensures |r.tabelas.temporadas| == |e.temporadas|
    ensures r.mensagem != ALTERADA ==> r.tabelas == e
    ensures r.mensagem == VALORES_INVALIDOS <==> !Valido(t)
    ensures r.mensagem == NAO_ENCONTRADA <==> Valido(t) && Linha(e.temporadas, t.id).None?
    ensures r.mensagem == ERRO_ALTERAR <==>
      Valido(t) && Linha(e.temporadas, t.id).Some? && !Referencia(t.jogador, |e.jogadores|)
    ensures r.mensagem == ALTERADA <==>
      Valido(t) && Linha(e.temporadas, t.id).Some? && Referencia(t.jogador, |e.jogadores|)
    ensures r.mensagem == ALTERADA ==> r.tabelas.temporadas == e.temporadas[t.id.value - 1 := t]
  {
    Mensagens();
    BuscarPorIdChave(e.temporadas, t.id);
    if !Valido(t) then Saida(VALORES_INVALIDOS, e)
    else if BuscarPorId(e.temporadas, t.id).None? then Saida(NAO_ENCONTRADA, e)
    else if !Referencia(t.jogador, |e.jogadores|) then Saida(ERRO_ALTERAR, e)
    else
      SubstituirConsistente(e, t.id.value - 1, t);
      Saida(ALTERADA, e.(temporadas := e.temporadas[t.id.value - 1 := t]))
  }

  /** `TemporadaDAO.adicionar` on the database; on success the season
      object receives the generated id. */
  method Adicionar(banco: Banco, temporada: Temporada) returns (mensagem: string)
    requires banco.Valid()
    modifies banco, temporada
    ensures banco.Valid()
    ensures Saida(mensagem, banco.Conteudo()) == AposAdicionar(old(banco.Conteudo()), old(temporada.Linha()))
    ensures temporada.Linha() ==
      if mensagem == CADASTRADA then old(temporada.Linha()).(id := Some(|old(banco.temporadas)| + 1))
      else old(temporada.Linha())
  {
    Mensagens();
    ghost var e := banco.Conteudo();
    var linha := temporada.Linha();
    if !Valido(linha) {
      assert AposAdicionar(e, linha) == Saida(VALORES_INVALIDOS, e);
      return VALORES_INVALIDOS;
    }
    if linha.id.Some? || !Referencia(linha.jogador, |banco.jogadores|) {
      assert AposAdicionar(e, linha) == Saida(ERRO_ADICIONAR, e);
      return ERRO_ADICIONAR;
    }
    temporada.id := Some(|banco.temporadas| + 1);
    banco.temporadas := banco.temporadas + [temporada.Linha()];
    assert AposAdicionar(e, linha) == Saida(CADASTRADA, banco.Conteudo());
    return CADASTRADA;
  }

  /** `TemporadaDAO.atualizar` on the database. */
  method Atualizar(banco: Banco, temporada: Temporada) returns (mensagem: string)
    requires banco.Valid()
    modifies banco
    ensures banco.Valid()
    ensures Saida(mensagem, banco.Conteudo()) == AposAtualizar(old(banco.Conteudo()), temporada.Linha())
  {
    Mensagens();
    ghost var e := banco.Conteudo();
    var linha := temporada.Linha();
    if !Valido(linha) {
      assert AposAtualizar(e, linha) == Saida(VALORES_INVALIDOS, e);
      return VALORES_INVALIDOS;
    }
    var antiga := BuscarPorId(banco.temporadas, linha.id);
    if antiga.None? {
      assert AposAtualizar(e, linha) == Saida(NAO_ENCONTRADA, e);
      return NAO_ENCONTRADA;
    }
    if !Referencia(linha.jogador, |banco.jogadores|) {
      assert AposAtualizar(e, linha) == Saida(ERRO_ALTERAR, e);
      return ERRO_ALTERAR;
    }
    BuscarPorIdChave(banco.temporadas, linha.id);
    banco.temporadas := banco.temporadas[linha.id.value - 1 := linha];
    assert AposAtualizar(e, linha) == Saida(ALTERADA, banco.Conteudo());
    return ALTERADA;
  }
}
