/** `Autorizador`: the phase listener that guards every page. It runs after
    the RESTORE_VIEW phase; `beforePhase` does nothing. */
module Autorizacao {
  import opened Opcao
  import Jogadores

  const PAGINA_LOGIN := "/login.xhtml"
  const PAGINAS_PROTEGIDAS: set<string> := {"/index.xhtml", "/temporada.xhtml", "/jogador.xhtml", "/jogo.xhtml"}
  const CHAVE_JOGADOR := "jogadorLogado"
  const REDIRECIONAMENTO := "/login?faces-redirect=true"

  /** The phases of the JSF request life cycle. */
  datatype Fase = RestoreView | ApplyRequestValues | ProcessValidations | UpdateModelValues | InvokeApplication | RenderResponse

  /** `getPhaseId`. */
  const FASE: Fase := RestoreView

  /** What `afterPhase` does with a request. */
  datatype Decisao = EncerrarSessao | Permitir | RedirecionarLogin

  /** The access rule: the login page ends the session; the four application
      pages are open to a logged-in player; everything else goes to login. */
  function Decidir(viewId: string, logado: bool): (d: Decisao)
    ensures d == EncerrarSessao <==> viewId == PAGINA_LOGIN
    ensures d == Permitir <==> logado && viewId in PAGINAS_PROTEGIDAS
    ensures d == RedirecionarLogin <==> viewId != PAGINA_LOGIN && (!logado || viewId !in PAGINAS_PROTEGIDAS)
  {
    if viewId == PAGINA_LOGIN then EncerrarSessao
    else if logado && viewId in PAGINAS_PROTEGIDAS then Permitir
    else RedirecionarLogin
  }

  /** The part of the `FacesContext` the listener reads and writes: the view
      id, the session map, the outcome handed to the navigation handler and
      whether `renderResponse` was called. */
  class ContextoFaces {
    var viewId: string
    var sessao: map<string, Jogadores.JogadorRow>
    var navegacao: Option<string>
    var respostaRenderizada: bool

    constructor (viewId: string, sessao: map<string, Jogadores.JogadorRow>)
      ensures this.viewId == viewId && this.sessao == sessao
      ensures navegacao == None && !respostaRenderizada
    {
      this.viewId := viewId;
      this.sessao := sessao;
      navegacao := None;
      respostaRenderizada := false;
    }
  }

  /** `afterPhase`: on the login page the logged-in player leaves the session
      and nothing else happens; a logged-in player on an application page
      passes untouched; any other request is sent to the login page with the
      session left as it was. */
  method AfterPhase(contexto: ContextoFaces)
    modifies contexto
    ensures contexto.viewId == old(contexto.viewId)
    ensures var d := Decidir(old(contexto.viewId), CHAVE_JOGADOR in old(contexto.sessao));
      && (d == EncerrarSessao ==>
            contexto.sessao == old(contexto.sessao) - {CHAVE_JOGADOR}
            && contexto.navegacao == old(contexto.navegacao) && contexto.respostaRenderizada == old(contexto.respostaRenderizada))
      && (d == Permitir ==>
            contexto.sessao == old(contexto.sessao)
            && contexto.navegacao == old(contexto.navegacao) && contexto.respostaRenderizada == old(contexto.respostaRenderizada))
      && (d == RedirecionarLogin ==>
            contexto.sessao == old(contexto.sessao)
            && contexto.navegacao == Some(REDIRECIONAMENTO) && contexto.respostaRenderizada)
  {
    var nomePagina := contexto.viewId;
    if nomePagina == PAGINA_LOGIN {
      contexto.sessao := contexto.sessao - {CHAVE_JOGADOR};
      return;
    }
    var jogadorLogado := if CHAVE_JOGADOR in contexto.sessao then Some(contexto.sessao[CHAVE_JOGADOR]) else None;
    if jogadorLogado.Some? {
      if nomePagina == "/index.xhtml" || nomePagina == "/temporada.xhtml" || nomePagina == "/jogador.xhtml" || nomePagina == "/jogo.xhtml" {
        return;
      }
    }
    contexto.navegacao := Some(REDIRECIONAMENTO);
    contexto.respostaRenderizada := true;
  }

  /** After a visit to the login page no page is open until someone logs in
      again: every other page redirects. */
  lemma SairFechaPaginas(sessao: map<string, Jogadores.JogadorRow>, viewId: string)
    requires viewId != PAGINA_LOGIN
    ensures Decidir(viewId, CHAVE_JOGADOR in sessao - {CHAVE_JOGADOR}) == RedirecionarLogin
  {
  }

  /** The login page is never an application page, so the two first branches
      never compete, and a redirect never points at a protected page. */
  lemma LoginForaDasPaginas()
    ensures PAGINA_LOGIN !in PAGINAS_PROTEGIDAS
    ensures forall v :: v in PAGINAS_PROTEGIDAS ==> Decidir(v, true) == Permitir && Decidir(v, false) == RedirecionarLogin
  {
  }
}
