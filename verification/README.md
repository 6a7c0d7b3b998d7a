# DesafioPublica score tracker, modelled in Dafny

DesafioPublica is a web application for keeping a basketball player's scores.
Players (`Jogador`) own seasons (`Temporada`), and seasons hold games (`Jogo`).
Every player and every season keeps the lowest and the highest score of its
games. A player also counts how many times each of those records was broken.

This project models the core of the application:

- the entities' validation constraints;
- the in-place record updates on `Jogador` and `Temporada`;
- `Jogo.compareTo`;
- the three DAOs, over an in-memory database of three tables;
- the two lazy paginators behind the paged tables;
- the phase listener that guards the pages.

How the pieces map:

- **Entities with changing fields are classes.** `Jogadores.Jogador` and `Temporadas.Temporada` have `modifies this` methods, each proved against a function on the row value (`ComRecordes`, `ComPontuacao`).
- **`Jogo` is a value.** Nothing changes it once stored.
- **The database is one `Armazenamento.Banco` object.** It holds the `jogador`, `temporada` and `jogo` tables as sequences.
- **Ids and references.** Ids are generated from 1 upwards and no DAO deletes a row, so the row with id `k` is the `k`-th row. References (season → player, game → season) are ids.
- **DAO operations are methods on `Banco`.** Each is proved equal to a function that gives the message and the new tables, such as `DaoJogador.AposAdicionar`.
- **The functions carry the real contracts:**
  - every message in both directions of an if-and-only-if;
  - an untouched database on every refusal;
  - the appended or replaced row on success;
  - database consistency (sequential keys, valid rows, references to stored rows, unique logins).
- **Queries are filter, then order, then slice over a table.** They are proved to return exactly the matching rows (as a multiset), ordered by the key in the requested direction. The page is the requested window of that list.
- **The main invariant: records cover games.** If every game's score lies inside both its season's and its season owner's `[minimo, maximo]`, a successful `JogoDAO.adicionar` keeps that true (`DaoJogo.AposAdicionarCoerente`). The same lemma also shows `adicionar` keeps one game per player per instant.
- **Inputs the code reads from outside are parameters.** The clock behind `@Past` is `agora` (milliseconds). The JSF context is `Autorizacao.ContextoFaces`.

Two points of JPA and Java behaviour are written out explicitly:

- **`getSingleResult`.** It counts only an exact single match; zero or several matches throw, and the code reads that as `null`/`false`. The `verificar` lookups therefore report a clash only for exactly one match. With unique logins, or unique instants, this is proved to be the same as "the key is taken".
- **`equal(path, null)` matches no row.** A player with no season owner therefore has no games, and a season without an owner matches no search.

## Model

| member | source | states |
|---|---|---|
| Jogadores.ValidoSse | DesafioPublica/src/main/java/model/Jogador.java:40-152 | a player is valid iff id is null or ≥ 1, nome has 1 to 50 characters, login and senha have 1 to 30, and both scores and both counters are non-null and ≥ 0 |
| Jogadores.ValidoCasosDeTeste | DesafioPublica/src/test/java/model/JogadorTest.java:48-121 | the test's valid player is accepted; id 0 with -1 values, all nulls, 51-character texts and empty texts are rejected |
| Jogadores.ComRecordesRegistra | DesafioPublica/src/main/java/model/Jogador.java:284-298 | the update follows the record rule on `[minimo, maximo]`, increments only the counter of the record it broke (by one), changes the row iff the score lies outside the interval, keeps identity fields, and keeps the player valid |
| Jogadores.Jogador.constructor | DesafioPublica/src/main/java/model/Jogador.java:177-186 | the object holds exactly the given field values |
| Jogadores.Jogador.PrimeiroJogo | DesafioPublica/src/main/java/model/Jogador.java:258-261 | minimo and maximo become the game's score; every other field stays |
| Jogadores.Jogador.AtualizarRecordes | DesafioPublica/src/main/java/model/Jogador.java:284-298 | below the minimum: new minimum, min counter +1, result true, maximum side unchanged; else above the maximum: the symmetric case; else false and no field changes |
| Recordes.Classificar | DesafioPublica/src/main/java/model/Jogador.java:285-297 | the minimum is tested first: no record iff the score is in the interval, min record iff below it, max record only above it |
| Recordes.Registrar | DesafioPublica/src/main/java/model/Temporada.java:229-239 | the interval changes iff the score lies outside it; a well-formed interval then holds the score, only widens, and moves at most one bound |
| Recordes.RegistrarAmplia | DesafioPublica/src/main/java/model/Temporada.java:229-239 | every score the interval held before, it holds after another score is registered |
| Temporadas.ValidoSse | DesafioPublica/src/main/java/model/Temporada.java:44-109 | a season is valid iff id is null or ≥ 1, nome has 1 to 30 characters, and minimo/maximo are non-null and ≥ 0; the owner is unconstrained |
| Temporadas.ComPontuacaoRegistra | DesafioPublica/src/main/java/model/Temporada.java:229-239 | the update follows the record rule, changes the row iff the score is outside the interval, keeps id, name and owner, and keeps the season valid |
| Temporadas.Temporada.constructor | DesafioPublica/src/main/java/model/Temporada.java:143-149 | the object holds exactly the given field values |
| Temporadas.Temporada.PrimeiroJogo | DesafioPublica/src/main/java/model/Temporada.java:205-208 | minimo and maximo become the game's score; id, name and owner stay |
| Temporadas.Temporada.AtualizarPontuacao | DesafioPublica/src/main/java/model/Temporada.java:229-239 | below the minimum: new minimum and true; else above the maximum: new maximum and true; otherwise false and no change |
| Jogos.ValidoSse | DesafioPublica/src/main/java/model/Jogo.java:46-116 | a game is valid iff id is null or ≥ 1, data is set and strictly before `agora`, descricao has 1 to 250 characters, placar is in 0..1000, and the season is set |
| Jogos.ValidoLimites | DesafioPublica/src/test/java/model/JogoTest.java:52-160 | scores 0 and 1000 are accepted; -1, 1001, a 251-character or empty description, all nulls and an instant one day ahead are rejected |
| Jogos.CompareTo | DesafioPublica/src/main/java/model/Jogo.java:203-211 | the result is in {-1, 0, 1}: 1 iff this score is greater, -1 iff smaller, 0 iff equal |
| Jogos.CompareToContrato | DesafioPublica/src/main/java/model/Jogo.java:203-211 | antisymmetric, 0 on itself, transitive, and equal scores compare alike against any third game |
| Sequencias.ResultadoUnico | DesafioPublica/src/main/java/model/JogadorDAO.java:200-218 | `getSingleResult` yields a row iff exactly one row matched, and that row is one of them |
| Sequencias.Paginar | DesafioPublica/src/main/java/model/TemporadaDAO.java:215-232 | a negative first row or page size yields null; otherwise the page is the window of the list from the first row: exactly page-size rows, or as many as remain (none past the end), row i being list row first+i |
| Sequencias.JanelaLimites | DesafioPublica/src/main/java/model/TemporadaDAO.java:215-232 | a window is no longer than the page size nor than the list, and is full when the list reaches past its end |
| Textos.Contem | DesafioPublica/src/main/java/model/TemporadaDAO.java:271-273 | `LIKE '%x%'` holds iff x occurs in the text at some position |
| Textos.ContemVazio | DesafioPublica/src/main/java/model/TemporadaDAO.java:271-273 | an empty name filter matches every name |
| Ordenacao.Ordenar | DesafioPublica/src/main/java/model/TemporadaDAO.java:276-277 | `ORDER BY` returns the same rows (as a multiset), ordered by the key |
| Consultas.Pesquisar | DesafioPublica/src/main/java/model/TemporadaDAO.java:261-288 | a criteria query returns exactly the matching rows, each as often as stored, in key order |
| Consultas.Contar | DesafioPublica/src/main/java/model/TemporadaDAO.java:306-322 | the count lies between 0 and the table size, is 0 iff no row matches, and equals the number of rows the query returns |
| DaoJogador.BuscarPorId | DesafioPublica/src/main/java/model/JogadorDAO.java:200-218 | a found player is stored and carries the requested id |
| DaoJogador.BuscarPorIdChave | DesafioPublica/src/main/java/model/JogadorDAO.java:200-218 | with sequential keys, `buscarPorId` returns exactly row id-1, and null for a null id, 0 or an id past the end |
| DaoJogador.Verificar | DesafioPublica/src/main/java/model/JogadorDAO.java:157-181 | true only when the login is non-null and stored |
| DaoJogador.VerificarSse | DesafioPublica/src/main/java/model/JogadorDAO.java:157-181 | with unique logins, `verificar` holds iff the login is non-null and stored |
| DaoJogador.Buscar | DesafioPublica/src/main/java/model/JogadorDAO.java:246-272 | a found player is stored, matches the probe's login and password, and the probe was valid |
| DaoJogador.BuscarSse | DesafioPublica/src/main/java/model/JogadorDAO.java:246-272 | with unique logins, a valid probe finds a player iff some row has its login and password, and then finds that row; an invalid probe finds nothing |
| DaoJogador.InserirConsistente | DesafioPublica/src/main/java/model/JogadorDAO.java:45-74 | appending a valid player with the next id and a free login keeps the database consistent, logins included |
| DaoJogador.SubstituirConsistente | DesafioPublica/src/main/java/model/JogadorDAO.java:99-134 | replacing a row with a valid one of the same id and the same or a free login keeps the database consistent |
| DaoJogador.AposAdicionar | DesafioPublica/src/main/java/model/JogadorDAO.java:45-74 | each message iff its condition (invalid, login in use, id already set, otherwise success); any refusal leaves the tables unchanged; success appends the player with the next id; logins stay unique |
| DaoJogador.Fundir | DesafioPublica/src/main/java/model/JogadorDAO.java:105-116 | for a valid stored player: refused with "Login em uso!" iff the login changed and the new one is stored, leaving the tables unchanged; otherwise exactly that row is replaced; logins stay unique |
| DaoJogador.AposAtualizar | DesafioPublica/src/main/java/model/JogadorDAO.java:99-134 | each message iff its condition (invalid, id not stored, changed login in use, otherwise success); refusals change nothing; success replaces exactly that row; logins stay unique |
| DaoJogador.Adicionar | DesafioPublica/src/main/java/model/JogadorDAO.java:45-74 | the message and the new database are those of `AposAdicionar`; on success the object receives the generated id |
| DaoJogador.Atualizar | DesafioPublica/src/main/java/model/JogadorDAO.java:99-134 | the message and the new database are those of `AposAtualizar` |
| DaoTemporada.BuscarPorId | DesafioPublica/src/main/java/model/TemporadaDAO.java:139-157 | a found season is stored and carries the requested id |
| DaoTemporada.BuscarPorIdChave | DesafioPublica/src/main/java/model/TemporadaDAO.java:139-157 | with sequential keys, `buscarPorId` returns exactly row id-1, and null for a null id, 0 or an id past the end |
| DaoTemporada.Listar | DesafioPublica/src/main/java/model/TemporadaDAO.java:176-194 | exactly the seasons owned by the player, each as often as stored; none for a null player |
| DaoTemporada.OrdemNome | DesafioPublica/src/main/java/model/TemporadaDAO.java:276-277 | ordering by name, in either direction, is a total preorder |
| DaoTemporada.Pesquisa | DesafioPublica/src/main/java/model/TemporadaDAO.java:261-288 | exactly the seasons of the filter's player whose name contains the filter's name (when set), ordered by name ascending iff `ascendente`; the sort property is ignored |
| DaoTemporada.QuantidadeFiltrados | DesafioPublica/src/main/java/model/TemporadaDAO.java:306-322 | the number of matching seasons: the length of the search, 0 iff nothing matches |
| DaoTemporada.QuantidadeIgnoraPagina | DesafioPublica/src/main/java/model/TemporadaDAO.java:306-322 | the count depends only on the filter's name and player, not on page, direction or sort property |
| DaoTemporada.Filtrados | DesafioPublica/src/main/java/model/TemporadaDAO.java:215-232 | null iff a bound is negative; otherwise the window of the search from `primeiroRegistro`: exactly `quantidadeRegistros` seasons or as many as remain, row i being search result `primeiroRegistro + i` |
| DaoTemporada.InserirConsistente | DesafioPublica/src/main/java/model/TemporadaDAO.java:44-69 | appending a valid season with the next id and a stored or null owner keeps the database consistent |
| DaoTemporada.SubstituirConsistente | DesafioPublica/src/main/java/model/TemporadaDAO.java:90-120 | replacing a row with a valid one of the same id and a stored or null owner keeps the database consistent |
| DaoTemporada.AposAdicionar | DesafioPublica/src/main/java/model/TemporadaDAO.java:44-69 | each message iff its condition (invalid; id set or owner not stored; otherwise success); no name uniqueness check; refusals change nothing; success appends with the next id |
| DaoTemporada.AposAtualizar | DesafioPublica/src/main/java/model/TemporadaDAO.java:90-120 | each message iff its condition (invalid, id not stored, owner not stored, otherwise success); refusals change nothing; success replaces exactly that row |
| DaoTemporada.Adicionar | DesafioPublica/src/main/java/model/TemporadaDAO.java:44-69 | the message and the new database are those of `AposAdicionar`; on success the object receives the generated id |
| DaoTemporada.Atualizar | DesafioPublica/src/main/java/model/TemporadaDAO.java:90-120 | the message and the new database are those of `AposAtualizar` |
| DaoJogo.Listar | DesafioPublica/src/main/java/model/JogoDAO.java:220-238 | exactly the games of the season; none for a null season |
| DaoJogo.ListarMultiplicidade | DesafioPublica/src/main/java/model/JogoDAO.java:220-238 | each game of the season appears as often as stored and no other game appears, so the list size counts the season's games |
| DaoJogo.BuscarJogos | DesafioPublica/src/main/java/model/JogoDAO.java:399-421 | exactly the games whose season is owned by the player, across all that player's seasons |
| DaoJogo.BuscarJogosMultiplicidade | DesafioPublica/src/main/java/model/JogoDAO.java:399-421 | each game of the player's seasons appears as often as stored and no other game appears, so the list size counts the player's games |
| DaoJogo.Verificar | DesafioPublica/src/main/java/model/JogoDAO.java:114-141 | true only when a stored game has the same instant and the same season owner |
| DaoJogo.VerificarSse | DesafioPublica/src/main/java/model/JogoDAO.java:114-141 | with one game per player per instant, `verificar` holds iff the instant is taken for the game's player |
| DaoJogo.OrdemData | DesafioPublica/src/main/java/model/JogoDAO.java:328-329 | ordering by instant, in either direction, is a total preorder |
| DaoJogo.Pesquisa | DesafioPublica/src/main/java/model/JogoDAO.java:310-339 | with a season in the filter, exactly that season's games, and the player is ignored; otherwise the games of the player's seasons; ordered by instant ascending iff `ascendente` |
| DaoJogo.QuantidadeFiltrados | DesafioPublica/src/main/java/model/JogoDAO.java:357-373 | the number of matching games: the length of the search, 0 iff nothing matches |
| DaoJogo.QuantidadeIgnoraPagina | DesafioPublica/src/main/java/model/JogoDAO.java:357-373 | the count depends only on the filter's season, or on its player when no season is set |
| DaoJogo.Filtrados | DesafioPublica/src/main/java/model/JogoDAO.java:259-276 | null iff a bound is negative; otherwise the window of the search from `primeiroRegistro`: exactly `quantidadeRegistros` games or as many as remain, row i being search result `primeiroRegistro + i` |
| DaoJogo.AtualizarJogadorSemTrocarLogin | DesafioPublica/src/main/java/model/JogoDAO.java:164-170 | merging a player row with the same id and login through `JogadorDAO.atualizar` always replaces that row |
| DaoJogo.AtualizarTemporadaSemTrocarDono | DesafioPublica/src/main/java/model/JogoDAO.java:193-199 | merging a season row with the same id and owner through `TemporadaDAO.atualizar` always replaces that row |
| DaoJogo.RecordesASalvar | DesafioPublica/src/main/java/model/JogoDAO.java:157-172 | on the owner's first game, save the stored row with both bounds set to that score and every other field (name, login, password, both counters) unchanged; otherwise save the `atualizarRecordes` row, exactly when the score lies outside the interval; the saved row is valid and keeps id and login |
| DaoJogo.RecordesDoDonoCobre | DesafioPublica/src/main/java/model/JogoDAO.java:157-172 | afterwards the owner's records cover the new score and, past the first game, every score they covered before |
| DaoJogo.DonoArmazenado | DesafioPublica/src/main/java/model/JogoDAO.java:157-159 | the owner of a stored game's season, when there is one, is a stored valid player at the row of its id |
| DaoJogo.ComRecordesDoJogador | DesafioPublica/src/main/java/model/JogoDAO.java:157-172 | only the owner's row may change; a season without an owner changes nothing; the database stays consistent |
| DaoJogo.ComRecordesDoJogadorTroca | DesafioPublica/src/main/java/model/JogoDAO.java:157-172 | the player update changes nothing without an owner, and otherwise replaces exactly the owner's row with its updated records |
| DaoJogo.PontuacaoASalvar | DesafioPublica/src/main/java/model/JogoDAO.java:188-201 | on the season's first game, save the stored row with both bounds set to that score and id, name and owner unchanged; otherwise save the `atualizarPontuacao` row, exactly when the score lies outside the interval; id and owner stay |
| DaoJogo.PontuacaoDaTemporadaCobre | DesafioPublica/src/main/java/model/JogoDAO.java:188-201 | afterwards the season's records cover the new score and, past the first game, every score they covered before |
| DaoJogo.ComPontuacaoDaTemporada | DesafioPublica/src/main/java/model/JogoDAO.java:188-201 | only the game's season row may change, owners stay, and the database stays consistent |
| DaoJogo.ComPontuacaoDaTemporadaTroca | DesafioPublica/src/main/java/model/JogoDAO.java:188-201 | the season update replaces exactly the game's season row with its updated records |
| DaoJogo.Cadastrar | DesafioPublica/src/main/java/model/JogoDAO.java:56-62 | persisting appends exactly the new game, the record updates keep table sizes, and the database stays consistent |
| DaoJogo.AposAdicionar | DesafioPublica/src/main/java/model/JogoDAO.java:50-81 | each message iff its condition (invalid; instant taken; id set or season not stored; otherwise success); refusals change nothing; success appends the game with the next id |
| DaoJogo.ComRecordesDoJogadorCobre | DesafioPublica/src/main/java/model/JogoDAO.java:157-172 | after the player update, every stored game, the new one included, lies inside its owner's records |
| DaoJogo.ComPontuacaoDaTemporadaCobre | DesafioPublica/src/main/java/model/JogoDAO.java:188-201 | after the season update, every stored game lies inside its season's records |
| DaoJogo.CoberturaAposInserir | DesafioPublica/src/main/java/model/JogoDAO.java:56-62 | storing a game and running both updates keeps every game covered by its player's and its season's records |
| DaoJogo.DatasAposInserir | DesafioPublica/src/main/java/model/JogoDAO.java:54-62 | storing a game whose instant is free for its player keeps one game per player per instant |
| DaoJogo.AposAdicionarCoerente | DesafioPublica/src/main/java/model/JogoDAO.java:50-81 | `adicionar` preserves record coverage and unique instants, and answers "already exists" iff the game is valid and its player has a game at that instant |
| DaoJogo.RecordesNoObjeto | DesafioPublica/src/main/java/model/JogoDAO.java:161-170 | the fresh player object is saved iff `RecordesASalvar` gives a row, and then holds exactly that row |
| DaoJogo.SalvarJogador | DesafioPublica/src/main/java/model/JogoDAO.java:164-169 | `jogadorDAO.atualizar` on the owner's object replaces exactly that player's row with the object's fields; the other tables stay |
| DaoJogo.AtualizarRecordesJogador | DesafioPublica/src/main/java/model/JogoDAO.java:157-172 | a season without an owner changes nothing; otherwise only the owner's row changes, to `RecordesDoDono` of it, first game iff the owner has at most one stored game; seasons and games stay |
| DaoJogo.PontuacaoNoObjeto | DesafioPublica/src/main/java/model/JogoDAO.java:189-199 | the fresh season object is saved iff `PontuacaoASalvar` gives a row, and then holds exactly that row |
| DaoJogo.SalvarTemporada | DesafioPublica/src/main/java/model/JogoDAO.java:193-199 | `temporadaDAO.atualizar` on the season's object replaces exactly that season's row with the object's fields; the other tables stay |
| DaoJogo.AtualizarTemporada | DesafioPublica/src/main/java/model/JogoDAO.java:188-201 | only the game's season row changes, to its updated records, first game iff the season has at most one game |
| DaoJogo.Persistir | DesafioPublica/src/main/java/model/JogoDAO.java:56-62 | the database afterwards is `Cadastrar` of the database before |
| DaoJogo.Adicionar | DesafioPublica/src/main/java/model/JogoDAO.java:50-81 | the message and the new database are those of `AposAdicionar`, and the database stays consistent |
| Paginacao.JogoPaginator.constructor | DesafioPublica/src/main/java/model/JogoPaginator.java:39-42 | the paginator holds the shared filter |
| Paginacao.JogoPaginator.Load | DesafioPublica/src/main/java/model/JogoPaginator.java:57-64 | the filter gets the page bounds, ascending iff the order is ASCENDING, and the sort field, with season and player untouched; the row count is the match count; the page is `filtrados` of the new filter, at most `pageSize` and row-count long |
| Paginacao.TemporadaPaginator.constructor | DesafioPublica/src/main/java/model/TemporadaPaginator.java:39-42 | the paginator holds the shared filter |
| Paginacao.TemporadaPaginator.Load | DesafioPublica/src/main/java/model/TemporadaPaginator.java:57-64 | the same for seasons, with name and player untouched |
| Autorizacao.Decidir | DesafioPublica/src/main/java/util/Autorizador.java:35-51 | the session is ended iff the page is the login page; the request passes iff a player is logged in and the page is one of the four; otherwise it redirects |
| Autorizacao.AfterPhase | DesafioPublica/src/main/java/util/Autorizador.java:35-51 | the login page removes `jogadorLogado` and changes nothing else; a passing request changes nothing; a redirect navigates to `/login?faces-redirect=true` and renders, with the session as it was |
| Autorizacao.SairFechaPaginas | DesafioPublica/src/main/java/util/Autorizador.java:38-50 | once the login page has cleared the session, every other page redirects |
| Autorizacao.LoginForaDasPaginas | DesafioPublica/src/main/java/util/Autorizador.java:38-50 | the login page is not one of the four application pages, and each of those passes iff a player is logged in |

`beforePhase` (Autorizador.java:60) does nothing and has no counterpart.
`getPhaseId` (Autorizador.java:69-71) is the constant `Autorizacao.FASE`, which is `RestoreView`.

## Left out

- JPA plumbing is not modelled: entity managers, transactions, `em.close()` and the connection factory. Database and connection failures, and the "Erro na conexão com o banco!" message, are left out. The persistence-failure messages with a deterministic cause (a detached entity with an id, a reference to a row that does not exist) are modelled.
- `JogoDAO.adicionar` has a quirk: an exception thrown by a record update after the commit replaces the success message although the game is stored. It is not modelled, because the updates cannot fail in the model.
- Jogadores.ComRecordes: the record counters are unbounded integers; Java `Integer` overflow of `qtdQuebraRecordeMin`/`qtdQuebraRecordeMax` is not modelled, since it would take 2^31 broken records.
- `JogoDAO.adicionar` reads the season and its owner from the stored tables. The source reads them from the in-memory objects that the game references. These agree whenever the caller loaded the season just before, as the controller does. A caller holding stale objects is not modelled.
- After a successful `adicionar`, the id is written back only to the `Jogador` and `Temporada` objects. A `Jogo` is a value, so its caller gets no id back.
- Aliasing of a filter object shared by a paginator and a page bean is not modelled; the filter is a value field of the paginator.
- `LIKE` wildcards inside a user-supplied name are read literally; database collation and case folding are not modelled (characters compare by code point).
- Jogadores.Valido: `@Size` on nome, login and senha counts characters (`|s|`), while Java's `String.length()` counts UTF-16 code units. A character outside the Basic Multilingual Plane (an emoji, say) counts twice in Java, so a name of 26 emoji is rejected by the source and accepted by the model.
- Temporadas.Valido: the same character-count reading of `@Size` on nome.
- Jogos.Valido: the same character-count reading of `@Size` on descricao.
- `ORDER BY` leaves rows with equal keys in an order the database chooses; the model fixes one, and the contracts state only what `ORDER BY` promises (sorted by the key, same rows). Where SQL places `null` keys is not modelled; no stored row has one.
- `setMaxResults(0)`: a page size of 0 gives an empty page here; JPA providers differ on it.
- The messages returned by `JogadorDAO.atualizar` and `TemporadaDAO.atualizar` inside the record updates are discarded, as in the source; the merge always succeeds there, which `DaoJogo.AtualizarJogadorSemTrocarLogin` and `DaoJogo.AtualizarTemporadaSemTrocarDono` prove.
- The coverage invariant is proved across `JogoDAO.adicionar`. `JogadorDAO.atualizar` and `TemporadaDAO.atualizar` accept any valid minimum and maximum from the caller, so they can break it. `TemporadaDAO.atualizar` can also give a season another owner (`jogador`): the moved games then need not lie inside the new owner's records, and two games at the same instant can end up with one owner, breaking one game per player per instant. The source guards against none of this.
- The `filters` argument of both `load` methods is not read, as in the source.
- Concurrency (the race between `verificar` and `persist`) is out of scope: the model is sequential.
- `Validacao` is modelled as the meaning of each Bean Validation annotation. The path where the validator itself fails is not modelled.
- The JSF controllers (`BeanJogador`, `BeanTemporada`, `BeanJogo`), logging and `JPAConnectionFactory` are not part of this model.
- The `jogos` back-reference list of `Temporada` is not modelled; the games of a season are found by query, as the DAOs do.
