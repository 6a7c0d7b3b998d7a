/** The lazy data models behind the paged tables: `load` writes the page
    request into the shared filter, sets the row count and returns the page
    the DAO produces for that filter. */
module Paginacao {
  import opened Opcao
  import opened Armazenamento
  import opened Sequencias
  import Jogos
  import Temporadas
  import DaoJogo
  import DaoTemporada

  /** PrimeFaces' `SortOrder`. */
  datatype SortOrder = Ascending | Descending | Unsorted

  /** `JogoPaginator`: the filter it shares with the page and the row count
      of the last load. */
  class JogoPaginator {
    var filtro: DaoJogo.JogoFilter
    var rowCount: int
    const banco: Banco

    constructor (filtro: DaoJogo.JogoFilter, banco: Banco)
      ensures this.filtro == filtro && this.banco == banco && rowCount == 0
    {
      this.filtro := filtro;
      this.banco := banco;
      rowCount := 0;
    }

    /** `load`: only the page, the direction and the sort field of the filter
        change (a missing sort order is not ascending); the row count is the
        number of matches and the page is the slice the DAO returns, so it is
        no longer than `pageSize` nor than the row count. `filters` is not
        read. */
    method Load(first: int, pageSize: int, sortField: Option<string>, sortOrder: Option<SortOrder>,
                filters: map<string, string>) returns (pagina: Option<seq<Jogos.Jogo>>)
      modifies this
      ensures filtro == old(filtro).(primeiroRegistro := first, quantidadeRegistros := pageSize,
        ascendente := sortOrder == Some(Ascending), propriedadeOrdenacao := sortField)
      ensures rowCount == DaoJogo.QuantidadeFiltrados(banco.Conteudo(), filtro)
      ensures pagina == DaoJogo.Filtrados(banco.Conteudo(), filtro)
      ensures pagina.Some? <==> first >= 0 && pageSize >= 0
      ensures pagina.Some? ==> |pagina.value| <= pageSize && |pagina.value| <= rowCount
    {
      filtro := filtro.(primeiroRegistro := first);
      filtro := filtro.(quantidadeRegistros := pageSize);
      filtro := filtro.(ascendente := sortOrder == Some(Ascending));
      filtro := filtro.(propriedadeOrdenacao := sortField);
      rowCount := DaoJogo.QuantidadeFiltrados(banco.Conteudo(), filtro);
      pagina := DaoJogo.Filtrados(banco.Conteudo(), filtro);
      if pagina.Some? {
        JanelaLimites(pagina.value, DaoJogo.Pesquisa(banco.Conteudo(), filtro), first, pageSize);
      }
    }
  }

  /** `TemporadaPaginator`, the same over seasons. */
  class TemporadaPaginator {
    var filtro: DaoTemporada.TemporadaFilter
    var rowCount: int
    const banco: Banco

    constructor (filtro: DaoTemporada.TemporadaFilter, banco: Banco)
      ensures this.filtro == filtro && this.banco == banco && rowCount == 0
    {
      this.filtro := filtro;
      this.banco := banco;
      rowCount := 0;
    }

    /** `load`, as for games; the name and player of the filter stay. */
    method Load(first: int, pageSize: int, sortField: Option<string>, sortOrder: Option<SortOrder>,
                filters: map<string, string>) returns (pagina: Option<seq<Temporadas.TemporadaRow>>)
      modifies this
      ensures filtro == old(filtro).(primeiroRegistro := first, quantidadeRegistros := pageSize,
        ascendente := sortOrder == Some(Ascending), propriedadeOrdenacao := sortField)
      ensures rowCount == DaoTemporada.QuantidadeFiltrados(banco.temporadas, filtro)
      ensures pagina == DaoTemporada.Filtrados(banco.temporadas, filtro)
      ensures pagina.Some? <==> first >= 0 && pageSize >= 0
      ensures pagina.Some? ==> |pagina.value| <= pageSize && |pagina.value| <= rowCount
    {
      filtro := filtro.(primeiroRegistro := first);
      filtro := filtro.(quantidadeRegistros := pageSize);
      filtro := filtro.(ascendente := sortOrder == Some(Ascending));
      filtro := filtro.(propriedadeOrdenacao := sortField);
      rowCount := DaoTemporada.QuantidadeFiltrados(banco.temporadas, filtro);
      pagina := DaoTemporada.Filtrados(banco.temporadas, filtro);
      if pagina.Some? {
        JanelaLimites(pagina.value, DaoTemporada.Pesquisa(banco.temporadas, filtro), first, pageSize);
      }
    }
  }
}
