/** `JogadorDAO`: inserting, updating and looking up players. */
module DaoJogador {
  import opened Opcao
  import opened Sequencias
  import opened Armazenamento
  import opened Jogadores

  const CADASTRADO := "Novo Jogador cadastrado com sucesso!"
  const VALORES_INVALIDOS := "Valores Inválidos!"
  const LOGIN_EM_USO := "Login em uso!"
  const ERRO_ADICIONAR := "Erro ao adicionar o novo jogador!"
  const ALTERADO := "Jogador alterado com sucesso!"
  const NAO_ENCONTRADO := "Jogador não encontrado!"

  /** The six messages are pairwise distinct, so the message alone tells
      the caller which branch ran. */
  lemma Mensagens()
    ensures CADASTRADO != VALORES_INVALIDOS && CADASTRADO != LOGIN_EM_USO && CADASTRADO != ERRO_ADICIONAR
    ensures CADASTRADO != ALTERADO && CADASTRADO != NAO_ENCONTRADO
    ensures VALORES_INVALIDOS != LOGIN_EM_USO && VALORES_INVALIDOS != ERRO_ADICIONAR
    ensures VALORES_INVALIDOS != ALTERADO && VALORES_INVALIDOS != NAO_ENCONTRADO
    ensures LOGIN_EM_USO != ERRO_ADICIONAR && LOGIN_EM_USO != ALTERADO && LOGIN_EM_USO != NAO_ENCONTRADO
    ensures ERRO_ADICIONAR != ALTERADO && ERRO_ADICIONAR != NAO_ENCONTRADO && ALTERADO != NAO_ENCONTRADO
  {
    assert |CADASTRADO| == 36 && |VALORES_INVALIDOS| == 18 && |LOGIN_EM_USO| == 13;
    assert |ERRO_ADICIONAR| == 33 && |ALTERADO| == 29 && |NAO_ENCONTRADO| == 23;
  }

  /** `j.id = :pId` */
  function ComId(id: Option<int>): JogadorRow -> bool
  {
    (j: JogadorRow) => CorrespondeA(j.id, id)
  }

  /** `login = :login` */
  function ComLogin(login: Option<string>): JogadorRow -> bool
  {
    (j: JogadorRow) => CorrespondeA(j.login, login)
  }

  /** `login = :login and senha = :senha` */
  function ComCredenciais(login: Option<string>, senha: Option<string>): JogadorRow -> bool
  {
    (j: JogadorRow) => CorrespondeA(j.login, login) && CorrespondeA(j.senha, senha)
  }

  /** Some stored player has this login. */
  predicate LoginOcupado(t: seq<JogadorRow>, login: Option<string>)
  {
    exists i :: 0 <= i < |t| && t[i].login == login
  }

  /** `buscarPorId`: the single row with that id, or `null`. */
  function BuscarPorId(t: seq<JogadorRow>, id: Option<int>): (r: Option<JogadorRow>)
    ensures r.Some? ==> id.Some? && r.value in t && r.value.id == id
  {
    ResultadoUnico(Filtro(t, ComId(id)))
  }

  /** With the database's keys, `buscarPorId` finds exactly the row whose
      position the id names; a `null` id, 0 or an id past the last row finds
      nothing. */
  lemma BuscarPorIdChave(t: seq<JogadorRow>, id: Option<int>)
    requires ChavesJogadores(t)
    ensures BuscarPorId(t, id) == Linha(t, id)
  {
    if id.Some? {
      FiltroPosicao(t, ComId(id), id.value - 1);
    } else {
      FiltroPosicao(t, ComId(id), -1);
    }
  }

  /** `verificar`: true only when exactly one row has the login (no row or
      several rows make `getSingleResult` throw, which reads as false). */
  function Verificar(t: seq<JogadorRow>, login: Option<string>): (r: bool)
    ensures r ==> login.Some? && LoginOcupado(t, login)
  {
    var achados := Filtro(t, ComLogin(login));
    if |achados| == 1 then
      assert achados[0] in achados;
      true
    else false
  }

  /** With unique logins, `verificar` holds exactly when the login is taken. */
  lemma VerificarSse(t: seq<JogadorRow>, login: Option<string>)
    requires LoginsUnicos(t)
    ensures Verificar(t, login) <==> login.Some? && LoginOcupado(t, login)
  {
    if login.Some? && LoginOcupado(t, login) {
      var k :| 0 <= k < |t| && t[k].login == login;
      FiltroPosicao(t, ComLogin(login), k);
    }
  }

  /** `buscar`: the single stored player with the probe's login and
      password; `null` when the probe itself is not a valid player. */
  function Buscar(t: seq<JogadorRow>, probe: JogadorRow): (r: Option<JogadorRow>)
    ensures r.Some? ==> Valido(probe) && r.value in t
    ensures r.Some? ==> r.value.login == probe.login && r.value.senha == probe.senha
  {
    if !Valido(probe) then None
    else
      var achados := Filtro(t, ComCredenciais(probe.login, probe.senha));
      var r := ResultadoUnico(achados);
      assert r.Some? ==> ComCredenciais(probe.login, probe.senha)(r.value);
      r
  }

  /** With unique logins, a valid probe finds the player exactly when some
      row carries both its login and its password, and then finds that row. */
  lemma BuscarSse(t: seq<JogadorRow>, probe: JogadorRow)
    requires LoginsUnicos(t)
    ensures Buscar(t, probe).Some? <==>
      Valido(probe) && exists i :: 0 <= i < |t| && t[i].login == probe.login && t[i].senha == probe.senha
    ensures forall i :: 0 <= i < |t| && t[i].login == probe.login && t[i].senha == probe.senha && Valido(probe) ==>
      Buscar(t, probe) == Some(t[i])
  {
    var p := ComCredenciais(probe.login, probe.senha);
    if Valido(probe) {
      if k :| 0 <= k < |t| && t[k].login == probe.login && t[k].senha == probe.senha {
        FiltroPosicao(t, p, k);
      } else {
        FiltroPosicao(t, p, -1);
      }
    }
  }

  /** Appending a valid player with the next id and a free login keeps the
      database consistent. */
  lemma InserirConsistente(e: Tabelas, j: JogadorRow)
    requires Consistente(e)
    requires Valido(j) && j.id == Some(|e.jogadores| + 1) && !LoginOcupado(e.jogadores, j.login)
    ensures Consistente(e.(jogadores := e.jogadores + [j]))
  {
    var t := e.jogadores + [j];
    forall a, b | 0 <= a < |t| && 0 <= b < |t| && a != b
      ensures t[a].login != t[b].login
    {
      if a == |t| - 1 {
        assert t[b] == e.jogadores[b];
      } else if b == |t| - 1 {
        assert t[a] == e.jogadores[a];
      }
    }
  }

  /** Overwriting the player at position `k` with a valid player carrying
      the same id, and either the same login or a free one, keeps the
      database consistent. */
  lemma SubstituirConsistente(e: Tabelas, k: int, j: JogadorRow)
    requires Consistente(e)
    requires 0 <= k < |e.jogadores|
    requires Valido(j) && j.id == Some(k + 1)
    requires j.login == e.jogadores[k].login || !LoginOcupado(e.jogadores, j.login)
    ensures Consistente(e.(jogadores := e.jogadores[k := j]))
  {
    var t := e.jogadores[k := j];
    forall a, b | 0 <= a < |t| && 0 <= b < |t| && a != b
      ensures t[a].login != t[b].login
    {
      if a == k {
        assert t[b] == e.jogadores[b];
      } else if b == k {
        assert t[a] == e.jogadores[a];
      }
    }
  }

  /** `adicionar`: validate, then refuse a login in use, then persist. A
      player whose id is already set is a detached entity, which `persist`
      refuses. The database assigns the next id. */
  function AposAdicionar(e: Tabelas, j: JogadorRow): (r: Saida)
    requires Consistente(e)
    ensures Consistente(r.tabelas)
    ensures r.tabelas.temporadas == e.temporadas && r.tabelas.jogos == e.jogos
    ensures r.mensagem != CADASTRADO ==> r.tabelas == e
    ensures r.mensagem == VALORES_INVALIDOS <==> !Valido(j)
    ensures r.mensagem == LOGIN_EM_USO <==> Valido(j) && LoginOcupado(e.jogadores, j.login)
    ensures r.mensagem == ERRO_ADICIONAR <==> Valido(j) && !LoginOcupado(e.jogadores, j.login) && j.id.Some?
    ensures r.mensagem == CADASTRADO <==> Valido(j) && !LoginOcupado(e.jogadores, j.login) && j.id.None?
    ensures r.mensagem == CADASTRADO ==> r.tabelas.jogadores == e.jogadores + [j.(id := Some(|e.jogadores| + 1))]
  {
    Mensagens();
    VerificarSse(e.jogadores, j.login);
    if !Valido(j) then Saida(VALORES_INVALIDOS, e)
    else if Verificar(e.jogadores, j.login) then Saida(LOGIN_EM_USO, e)
    else if j.id.Some? then Saida(ERRO_ADICIONAR, e)
    else
      InserirConsistente(e, j.(id := Some(|e.jogadores| + 1)));
      Saida(CADASTRADO, e.(jogadores := e.jogadores + [j.(id := Some(|e.jogadores| + 1))]))
  }

  /** The last steps of `atualizar`, for a valid player whose id is stored:
      a changed login that is already in use is refused; anything else is
      merged over the stored row. */
  function Fundir(e: Tabelas, j: JogadorRow): (r: Saida)
    requires Consistente(e) && Valido(j) && Linha(e.jogadores, j.id).Some?
    ensures Consistente(r.tabelas)
    ensures r.tabelas.temporadas == e.temporadas && r.tabelas.jogos == e.jogos
    ensures r.mensagem == LOGIN_EM_USO || r.mensagem == ALTERADO
    ensures r.mensagem == LOGIN_EM_USO <==>
      Linha(e.jogadores, j.id).value.login != j.login && LoginOcupado(e.jogadores, j.login)
    ensures r.mensagem == LOGIN_EM_USO ==> r.tabelas == e
    ensures r.mensagem == ALTERADO ==> r.tabelas.jogadores == e.jogadores[j.id.value - 1 := j]
  {
    Mensagens();
    VerificarSse(e.jogadores, j.login);
    var k := j.id.value - 1;
    if e.jogadores[k].login != j.login && Verificar(e.jogadores, j.login) then Saida(LOGIN_EM_USO, e)
    else
      SubstituirConsistente(e, k, j);
      Saida(ALTERADO, e.(jogadores := e.jogadores[k := j]))
  }

  /** `atualizar`: validate, then look the player up by id, then (only when
      the login changes) refuse a login in use, then merge over the row. */
  function AposAtualizar(e: Tabelas, j: JogadorRow): (r: Saida)
    requires Consistente(e)
    ensures Consistente(r.tabelas)
    ensures r.tabelas.temporadas == e.temporadas && r.tabelas.jogos == e.jogos
    ensures |r.tabelas.jogadores| == |e.jogadores|
    ensures r.mensagem != ALTERADO ==> r.tabelas == e
    ensures r.mensagem == VALORES_INVALIDOS <==> !Valido(j)
    ensures r.mensagem == NAO_ENCONTRADO <==> Valido(j) && Linha(e.jogadores, j.id).None?
    ensures r.mensagem == LOGIN_EM_USO <==>
      Valido(j) && Linha(e.jogadores, j.id).Some? && Linha(e.jogadores, j.id).value.login != j.login
      && LoginOcupado(e.jogadores, j.login)
    ensures r.mensagem == ALTERADO <==>
      Valido(j) && Linha(e.jogadores, j.id).Some?
      && (Linha(e.jogadores, j.id).value.login == j.login || !LoginOcupado(e.jogadores, j.login))
    ensures r.mensagem == ALTERADO ==> r.tabelas.jogadores == e.jogadores[j.id.value - 1 := j]
  {
    Mensagens();
    BuscarPorIdChave(e.jogadores, j.id);
    if !Valido(j) then Saida(VALORES_INVALIDOS, e)
    else if BuscarPorId(e.jogadores, j.id).None? then Saida(NAO_ENCONTRADO, e)
    else Fundir(e, j)
  }

  /** `JogadorDAO.adicionar` on the database; on success the player object
      receives the generated id. */
  method Adicionar(banco: Banco, jogador: Jogador) returns (mensagem: string)
    requires banco.Valid()
    modifies banco, jogador
    ensures banco.Valid()
    ensures Saida(mensagem, banco.Conteudo()) == AposAdicionar(old(banco.Conteudo()), old(jogador.Linha()))
    ensures jogador.Linha() ==
      if mensagem == CADASTRADO then old(jogador.Linha()).(id := Some(|old(banco.jogadores)| + 1))
      else old(jogador.Linha())
  {
    Mensagens();
    ghost var e := banco.Conteudo();
    var linha := jogador.Linha();
    if !Valido(linha) {
      assert AposAdicionar(e, linha) == Saida(VALORES_INVALIDOS, e);
      return VALORES_INVALIDOS;
    }
    if Verificar(banco.jogadores, linha.login) {
      assert AposAdicionar(e, linha) == Saida(LOGIN_EM_USO, e);
      return LOGIN_EM_USO;
    }
    if linha.id.Some? {
      assert AposAdicionar(e, linha) == Saida(ERRO_ADICIONAR, e);
      return ERRO_ADICIONAR;
    }
    jogador.id := Some(|banco.jogadores| + 1);
    banco.jogadores := banco.jogadores + [jogador.Linha()];
    assert AposAdicionar(e, linha) == Saida(CADASTRADO, banco.Conteudo());
    return CADASTRADO;
  }

  /** `JogadorDAO.atualizar` on the database. */
  method Atualizar(banco: Banco, jogador: Jogador) returns (mensagem: string)
    requires banco.Valid()
    modifies banco
    ensures banco.Valid()
    ensures Saida(mensagem, banco.Conteudo()) == AposAtualizar(old(banco.Conteudo()), jogador.Linha())
  {
    Mensagens();
    ghost var e := banco.Conteudo();
    var linha := jogador.Linha();
    if !Valido(linha) {
      assert AposAtualizar(e, linha) == Saida(VALORES_INVALIDOS, e);
      return VALORES_INVALIDOS;
    }
    var antigo := BuscarPorId(banco.jogadores, linha.id);
    if antigo.None? {
      assert AposAtualizar(e, linha) == Saida(NAO_ENCONTRADO, e);
      return NAO_ENCONTRADO;
    }
    if antigo.value.login != linha.login && Verificar(banco.jogadores, linha.login) {
      assert AposAtualizar(e, linha) == Saida(LOGIN_EM_USO, e);
      return LOGIN_EM_USO;
    }
    BuscarPorIdChave(banco.jogadores, linha.id);
    banco.jogadores := banco.jogadores[linha.id.value - 1 := linha];
    assert AposAtualizar(e, linha) == Saida(ALTERADO, banco.Conteudo());
    return ALTERADO;
  }
}
