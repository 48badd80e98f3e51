# Inventory service (EstoqueService): a verified model

This project models the core of the inventory service of a small ERP:
products with a stock balance, the stock deduction (`BaixarEstoque`) made
idempotent by a ledger of processed request keys, the unit of work that
runs a deduction inside a retried database transaction, the product and
ledger repositories, the request validators, and the guarantees the
`EstoqueDbContext` schema gives (a soft-delete query filter, a unique
product code, the ledger keyed by its idempotency key, column lengths, and
the hook that stamps `DataAtualizacao` before every save).

Files and modules, one per part of the program:

- `wrappers.dfy` (`Wrappers`): `Option` and `Result`.
- `domain.dfy` (`Domain`): the entities `Produto` and `OperacaoProcessada`, 64-bit integers, and the exceptions the core throws.
- `dtos.dfy` (`Dtos`): the request and response records, and the product-to-response projection.
- `strings.dfy` (`Strings`): .NET string notions the validators and the search use (white space, UTF-16 length, substring, ASCII lower case).
- `validators.dfy` (`Validators`): the three FluentValidation rule chains as pure functions, with an if-and-only-if lemma per field and per request.
- `data.dfy` (`Data`): the tables, the schema invariant `Consistente`, the save (`Aplicar`) as an all-or-nothing sequence of statements, and the `EstoqueDbContext` class (change tracker, timestamp hook, save, database transaction).
- `repositories.dfy` (`Repositories`): the lookups, the existence check, the search / sort / page listing, soft delete, the ledger lookup, and the two repository classes that stage changes.
- `transactions.dfy` (`Transactions`): the `UnitOfWork` class and `Execucao`, the specification of `ExecuteInTransactionAsync` under the retrying execution strategy.
- `services.dfy` (`Services`): one specification function per service operation, with the properties of each operation as lemmas.
  - `Baixa` is the deduction.
  - `Criacao`, `Atualizacao` and `Delecao` are creation, update and deletion.
  - `Listagem` and `Consulta` are the listing and the lookup by id.
  - The `ProdutoService` class runs the same steps on the unit of work and is proved equal to those functions.

How the model reads the program:

- **Two versions of the service.** `ProdutoService.cs` as shown predates the unit of work. Its deduction has no ledger, and it calls repository methods that save at once. The tests in `ProdutoServiceTest.cs` describe the unit-of-work version, and the model follows that version:
  - The deduction decision is exactly `ProdutoService.cs:77-87`.
  - It runs behind a ledger check and inside `ExecuteInTransactionAsync`.
  - The refusals "Produto não encontrado" and "Saldo insuficiente" are thrown inside the transaction, which rolls back, and the service turns them into a failure answer.
  - A successful deduction stages the product update and one ledger record. The record has type `BaixaEstoque` and result "Estoque baixado com sucesso".
  - Create, update and delete stage through the repositories and save with `CompleteAsync`.
- **Time and faults are parameters.** The clock reading `agora` and the transient faults are inputs. Transient faults are one flag per attempt of the execution strategy, `falhas`.
- **One context per request.** Each request gets a fresh `DbContext`, because the context is scoped. So the service methods require a context with nothing tracked and no open transaction.
- **Integer widths.** `Saldo` and `Quantidade` are `long`, and `Saldo -= Quantidade` is unchecked. The model wraps that subtraction to 64 bits explicitly.
- **.NET regular expressions.** In .NET, `$` also matches before a final line feed, so `^[A-Z0-9-]+$` accepts "PROD-001\n". The validators are modelled as written, and two lemmas exhibit such inputs.
- **Length rules.** `NotEmpty` rejects white-space-only text, and `MaximumLength` counts UTF-16 code units.

## Model

| member | source | states |
|---|---|---|
| Domain.WrapInt64 | src/services/EstoqueService/EstoqueService.Application/Services/ProdutoService.cs:84 | the result equals the exact difference modulo 2^64, and equals it whenever it fits in a `long` |
| Dtos.ParaRespostas | src/services/EstoqueService/EstoqueService.Application/Services/ProdutoService.cs:65 | the mapped list has one response per product, in the same order |
| Strings.ComprimentoUtf16 | src/services/EstoqueService/EstoqueService.Application/Validators/ProdutoValidators.cs:24 | the UTF-16 length lies between the number of characters and twice that number |
| Strings.Minusculas | src/services/EstoqueService/EstoqueService.Infrastructure/Repositories/ProdutoRepository.cs:58 | same length, no ASCII capital left, and every character that is not a capital kept in place |
| Strings.MinusculasIgualSse | src/services/EstoqueService/EstoqueService.Infrastructure/Repositories/ProdutoRepository.cs:58 | a text lower-cases to a lower-case key exactly when it has the key's length and each character is the key's letter in either case |
| Validators.ErrosVaziosSse | src/services/EstoqueService/EstoqueService.Application/Validators/ProdutoValidators.cs:6-34 | a rule chain reports no error iff every rule of the chain holds |
| Validators.ErroVemDeRegraViolada | src/services/EstoqueService/EstoqueService.Application/Validators/ProdutoValidators.cs:6-34 | every reported message belongs to a rule the value violates |
| Validators.CasaRegexSse | src/services/EstoqueService/EstoqueService.Application/Validators/ProdutoValidators.cs:15 | a pattern `^[class]+$` matches iff the text is a non-empty run of the class, optionally followed by one final line feed |
| Validators.CodigoCriacaoValidoSse | src/services/EstoqueService/EstoqueService.Application/Validators/ProdutoValidators.cs:10-17 | the creation code is valid iff it has at most 50 characters and is upper-case letters, digits and hyphens (with an optional final line feed) |
| Validators.DescricaoValidaSse | src/services/EstoqueService/EstoqueService.Application/Validators/ProdutoValidators.cs:19-26 | the description is valid iff it is not blank and has 3 to 200 UTF-16 units |
| Validators.SaldoValidoSse | src/services/EstoqueService/EstoqueService.Application/Validators/ProdutoValidators.cs:28-33 | the balance is valid iff 0 <= Saldo <= 999 999 999 999 |
| Validators.QuantidadeValidaSse | src/services/EstoqueService/EstoqueService.Application/Validators/ProdutoValidators.cs:70-75 | the quantity is valid iff 1 <= Quantidade <= 999 999 |
| Validators.CodigoBaixaValidoSse | src/services/EstoqueService/EstoqueService.Application/Validators/ProdutoValidators.cs:63-68 | the deduction's product code is valid iff it is not blank and has at most 50 UTF-16 units, with no character restriction |
| Validators.ChaveValidaSse | src/services/EstoqueService/EstoqueService.Application/Validators/ProdutoValidators.cs:77-84 | the idempotency key is valid iff it has at most 100 characters and is letters, digits, hyphens and underscores (with an optional final line feed) |
| Validators.CriarProdutoValidoSse | src/services/EstoqueService/EstoqueService.Application/Validators/ProdutoValidators.cs:6-34 | the creation request passes iff code, description and balance each satisfy their rule |
| Validators.AtualizarProdutoValidoSse | src/services/EstoqueService/EstoqueService.Application/Validators/ProdutoValidators.cs:37-56 | the update request passes iff description and balance satisfy their rules |
| Validators.BaixaEstoqueValidaSse | src/services/EstoqueService/EstoqueService.Application/Validators/ProdutoValidators.cs:59-85 | the deduction request passes iff code, quantity and key satisfy their rules |
| Validators.CodigoComQuebraDeLinhaAceito | src/services/EstoqueService/EstoqueService.Application/Validators/ProdutoValidators.cs:15 | the creation validator accepts the code "PROD-001" followed by a line feed |
| Validators.ChaveComQuebraDeLinhaAceita | src/services/EstoqueService/EstoqueService.Application/Validators/ProdutoValidators.cs:82 | the deduction validator accepts a key followed by a line feed |
| Data.Visiveis | src/services/EstoqueService/EstoqueService.Infrastructure/Data/EstoqueDbContext.cs:52 | the query filter keeps exactly the rows that are not deleted |
| Data.CarimboSoEmModificados | src/services/EstoqueService/EstoqueService.Infrastructure/Data/EstoqueDbContext.cs:93-102 | the hook stamps `DataAtualizacao` with the save's instant on Modified products only and changes nothing else |
| Data.AplicarConsistente | src/services/EstoqueService/EstoqueService.Infrastructure/Data/EstoqueDbContext.cs:25-43 | a save that succeeds keeps ids distinct, codes unique over all rows, lengths within the columns and ledger records under their own key |
| Data.AplicarLedgerEstende | src/services/EstoqueService/EstoqueService.Infrastructure/Data/EstoqueDbContext.cs:59 | a save never removes or changes a ledger record |
| Data.AplicarRegistraChave | src/services/EstoqueService/EstoqueService.Infrastructure/Data/EstoqueDbContext.cs:59 | after a successful save, every key it inserted is in the ledger |
| Data.ChaveRepetidaRecusada | src/services/EstoqueService/EstoqueService.Infrastructure/Data/EstoqueDbContext.cs:59 | a save that inserts a key the ledger already holds fails as a whole |
| Data.CodigoDeLinhaDeletadaRecusado | src/services/EstoqueService/EstoqueService.Infrastructure/Data/EstoqueDbContext.cs:27-29 | a code held by a soft-deleted row is invisible to queries and still refused by the unique index |
| Data.EstoqueDbContext.AtualizarTimestamps | src/services/EstoqueService/EstoqueService.Infrastructure/Data/EstoqueDbContext.cs:93-102 | the loop leaves the tracker equal to the stamped entries |
| Data.EstoqueDbContext.SaveChanges | src/services/EstoqueService/EstoqueService.Infrastructure/Data/EstoqueDbContext.cs:87-91 | runs the hook, then writes all entries or none: the new tables on success; the old tables and `DbUpdateException` on failure |
| Data.EstoqueDbContext.BeginTransaction | src/services/EstoqueService/EstoqueService.Infrastructure/Data/UnitOfWork.cs:36 | opens a transaction that remembers the tables, refused while one is open |
| Data.EstoqueDbContext.RollbackTransaction | src/services/EstoqueService/EstoqueService.Infrastructure/Data/UnitOfWork.cs:51 | restores the tables the transaction began with and closes it |
| Repositories.Primeiro | src/services/EstoqueService/EstoqueService.Infrastructure/Repositories/ProdutoRepository.cs:35-36 | `FirstOrDefault` returns a matching element, and nothing exactly when no element matches |
| Repositories.ObterPorCodigo | src/services/EstoqueService/EstoqueService.Infrastructure/Repositories/ProdutoRepository.cs:31-37 | returns a non-deleted product with the code, or nothing exactly when every product with the code is deleted |
| Repositories.ObterPorId | src/services/EstoqueService/EstoqueService.Infrastructure/Repositories/ProdutoRepository.cs:24-29 | returns a non-deleted product with the id, or nothing exactly when every product with the id is deleted |
| Repositories.ExisteCodigo | src/services/EstoqueService/EstoqueService.Infrastructure/Repositories/ProdutoRepository.cs:80-96 | true iff some non-deleted product has the code and, when an id to exclude is given, another id |
| Repositories.ProdutoTemNotasFiscais | src/services/EstoqueService/EstoqueService.Infrastructure/Repositories/ProdutoRepository.cs:98-113 | always false |
| Repositories.ObterPorCodigoUnico | src/services/EstoqueService/EstoqueService.Infrastructure/Repositories/ProdutoRepository.cs:35-36 | under the schema invariant, the lookup by code of a visible product returns that product |
| Repositories.ObterPorIdUnico | src/services/EstoqueService/EstoqueService.Infrastructure/Repositories/ProdutoRepository.cs:28 | under the schema invariant, the lookup by id of a visible product returns that product |
| Repositories.MarcarDeletado | src/services/EstoqueService/EstoqueService.Infrastructure/Repositories/ProdutoRepository.cs:138-139 | sets `Deletado` and `DataDelecao` to the instant and keeps every other field |
| Repositories.DelecaoEscondeLinha | src/services/EstoqueService/EstoqueService.Infrastructure/Repositories/ProdutoRepository.cs:132-144 | a soft-deleted row stays in the table but no lookup by id or code and no existence check sees it |
| Repositories.Selecionar | src/services/EstoqueService/EstoqueService.Infrastructure/Repositories/ProdutoRepository.cs:53-55 | keeps exactly the products whose code or description contains the search text |
| Repositories.Filtrar | src/services/EstoqueService/EstoqueService.Infrastructure/Repositories/ProdutoRepository.cs:51-56 | a blank or absent search keeps every product; otherwise exactly the matching ones |
| Repositories.RecenteEmQualquerCaixa | src/services/EstoqueService/EstoqueService.Infrastructure/Repositories/ProdutoRepository.cs:58-64 | the newest-first order is chosen exactly for the 7-letter word "recente" written in any mix of ASCII cases |
| Repositories.AtualizadoEmQualquerCaixa | src/services/EstoqueService/EstoqueService.Infrastructure/Repositories/ProdutoRepository.cs:58-64 | the last-updated order is chosen exactly for the 10-letter word "atualizado" written in any mix of ASCII cases |
| Repositories.CriterioDe | src/services/EstoqueService/EstoqueService.Infrastructure/Repositories/ProdutoRepository.cs:58-64 | "recente" and "atualizado" (in any ASCII case) select their orders; anything else sorts by description |
| Repositories.PrecedeTotal | src/services/EstoqueService/EstoqueService.Infrastructure/Repositories/ProdutoRepository.cs:58-64 | each ordering compares any two products |
| Repositories.PrecedeTransitiva | src/services/EstoqueService/EstoqueService.Infrastructure/Repositories/ProdutoRepository.cs:58-64 | each ordering is transitive |
| Repositories.Ordenar | src/services/EstoqueService/EstoqueService.Infrastructure/Repositories/ProdutoRepository.cs:58-64 | the sorted list is a permutation of its input |
| Repositories.OrdenarOrdena | src/services/EstoqueService/EstoqueService.Infrastructure/Repositories/ProdutoRepository.cs:58-64 | the sorted list is ordered by the chosen criterion |
| Repositories.Paginar | src/services/EstoqueService/EstoqueService.Infrastructure/Repositories/ProdutoRepository.cs:68-70 | the page is the slice starting at (pageNumber-1)*pageSize, at most pageSize long, empty past the end |
| Repositories.PaginaDaLinha | src/services/EstoqueService/EstoqueService.Infrastructure/Repositories/ProdutoRepository.cs:68-70 | row k lies on page k / pageSize + 1 at position k mod pageSize |
| Repositories.ObterTodos | src/services/EstoqueService/EstoqueService.Infrastructure/Repositories/ProdutoRepository.cs:39-78 | at most pageSize items, a total no larger than the table, and every item visible and matching the search |
| Repositories.ObterTodosPagina | src/services/EstoqueService/EstoqueService.Infrastructure/Repositories/ProdutoRepository.cs:58-72 | there is an arrangement of exactly the visible rows matching the search (as a multiset), ordered by the chosen criterion, whose slice from row (pageNumber-1)*pageSize, at most pageSize long and clamped to its end, is the items |
| Repositories.ObterTodosTotal | src/services/EstoqueService/EstoqueService.Infrastructure/Repositories/ProdutoRepository.cs:66 | the total counts the filtered visible rows before paging |
| Repositories.ObterTodosOrdenada | src/services/EstoqueService/EstoqueService.Infrastructure/Repositories/ProdutoRepository.cs:58-72 | every page is ordered by the chosen criterion |
| Repositories.ObterTodosCompleta | src/services/EstoqueService/EstoqueService.Infrastructure/Repositories/ProdutoRepository.cs:66-72 | every visible matching product appears on some page |
| Repositories.ObterPorChave | src/services/EstoqueService/EstoqueService.Infrastructure/Repositories/OperacaoRepository.cs:26-31 | returns the record stored under the key, or nothing exactly when the key is absent |
| Repositories.AdicionarOperacaoSoAcrescenta | src/services/EstoqueService/EstoqueService.Infrastructure/Repositories/OperacaoRepository.cs:20-24 | inserting a record succeeds iff its key is new and it fits the columns, and then adds exactly that record |
| Repositories.ProdutoRepository.Adicionar | src/services/EstoqueService/EstoqueService.Infrastructure/Repositories/ProdutoRepository.cs:116-123 | stages the product as Added and writes nothing |
| Repositories.ProdutoRepository.Atualizar | src/services/EstoqueService/EstoqueService.Infrastructure/Repositories/ProdutoRepository.cs:125-130 | stages the product as Modified and writes nothing |
| Repositories.ProdutoRepository.Deletar | src/services/EstoqueService/EstoqueService.Infrastructure/Repositories/ProdutoRepository.cs:132-144 | stages the product marked deleted at the instant as Modified and writes nothing |
| Repositories.OperacaoRepository.Adicionar | src/services/EstoqueService/EstoqueService.Infrastructure/Repositories/OperacaoRepository.cs:20-24 | stages the record as Added and writes nothing |
| Transactions.ExecucaoTudoOuNada | src/services/EstoqueService/EstoqueService.Infrastructure/Data/UnitOfWork.cs:36-53 | a failed execution leaves the tables unchanged; a successful one returns the operation's value and the tables of one save of all its entries |
| Transactions.ExecucaoRepassaExcecao | src/services/EstoqueService/EstoqueService.Infrastructure/Data/UnitOfWork.cs:48-53 | the operation's exception, or the save's `DbUpdateException`, is rethrown unchanged |
| Transactions.ExecucaoGrava | src/services/EstoqueService/EstoqueService.Infrastructure/Data/UnitOfWork.cs:40-46 | an operation that completes and whose save succeeds, with some attempt free of faults, commits exactly that save |
| Transactions.LimiteDeTentativasSse | src/services/EstoqueService/EstoqueService.Infrastructure/Data/UnitOfWork.cs:30-33 | the strategy gives up iff all four attempts (the first and three retries) meet a transient fault |
| Transactions.SemFalhasUmaTentativa | src/services/EstoqueService/EstoqueService.Infrastructure/Data/UnitOfWork.cs:33-54 | without a fault on the first attempt the execution is that single attempt |
| Transactions.ExecucaoPreserva | src/services/EstoqueService/EstoqueService.Infrastructure/Data/UnitOfWork.cs:27-55 | an execution keeps the schema invariant and the ledger append-only |
| Transactions.UnitOfWork.Complete | src/services/EstoqueService/EstoqueService.Infrastructure/Data/UnitOfWork.cs:59-62 | saves the tracked entries as the context's save does |
| Transactions.UnitOfWork.BeginTransaction | src/services/EstoqueService/EstoqueService.Infrastructure/Data/UnitOfWork.cs:64-67 | leaves `_transaction` set, or reports a second open transaction |
| Transactions.UnitOfWork.Commit | src/services/EstoqueService/EstoqueService.Infrastructure/Data/UnitOfWork.cs:69-86 | commits if a transaction is open and always leaves `_transaction` cleared, also when the commit fails |
| Transactions.UnitOfWork.Rollback | src/services/EstoqueService/EstoqueService.Infrastructure/Data/UnitOfWork.cs:88-105 | rolls back if a transaction is open and always leaves `_transaction` cleared; a no-op otherwise |
| Transactions.UnitOfWork.ExecuteInTransaction | src/services/EstoqueService/EstoqueService.Infrastructure/Data/UnitOfWork.cs:27-55 | result and tables equal `Execucao`; no transaction stays open; the tracker is emptied on success and restored on failure |
| Services.DecidirBaixa | src/services/EstoqueService/EstoqueService.Application/Services/ProdutoService.cs:77-87 | accepts iff the product exists and its balance covers the quantity; only the balance changes, to balance minus quantity, never negative for a non-negative quantity |
| Services.ConcluiSse | src/services/EstoqueService/EstoqueService.Application/Services/ProdutoService.cs:77-82 | the transactional operation completes iff a visible product has the code and enough stock |
| Services.EntradasDaBaixa | src/services/EstoqueService/EstoqueService.Tests/ProdutoServiceTest.cs:185-188 | a deduction stages exactly one update with the decremented, stamped product and one ledger record with the request's key |
| Services.BaixaProdutoNaoEncontrado | src/services/EstoqueService/EstoqueService.Application/Services/ProdutoService.cs:77-79 | an unknown or deleted code answers (false, "Produto não encontrado", 0) and writes nothing |
| Services.BaixaSaldoInsuficiente | src/services/EstoqueService/EstoqueService.Application/Services/ProdutoService.cs:81-82 | balance below the quantity answers (false, "Saldo insuficiente", current balance) and writes nothing |
| Services.BaixaComSucesso | src/services/EstoqueService/EstoqueService.Application/Services/ProdutoService.cs:84-87 | with a new key and enough stock, the row's balance becomes old minus quantity (non-negative), one record is added under the key, and the answer carries the new balance |
| Services.BaixaChaveJaProcessada | src/services/EstoqueService/EstoqueService.Tests/ProdutoServiceTest.cs:223-245 | a key already in the ledger answers success with "Requisição já processada" and the current balance, writing nothing |
| Services.BaixaNaoRepete | src/services/EstoqueService/EstoqueService.Tests/ProdutoServiceTest.cs:223-245 | after a successful deduction, replaying the request writes nothing and reports it as already processed |
| Services.BaixaSemEfeitoSeFalha | src/services/EstoqueService/EstoqueService.Tests/ProdutoServiceTest.cs:194-221 | a refused or failed deduction leaves the tables exactly as they were |
| Services.BaixaPreserva | src/services/EstoqueService/EstoqueService.Infrastructure/Data/EstoqueDbContext.cs:59 | a deduction keeps the schema invariant and never removes or alters a ledger record |
| Services.BaixaMantemSaldosNaoNegativos | src/services/EstoqueService/EstoqueService.Application/Services/ProdutoService.cs:81-84 | with a non-negative quantity, no balance ever goes below zero |
| Services.LinhaDaBaixa | src/services/EstoqueService/EstoqueService.Application/Services/ProdutoService.cs:84-85 | a deduction that went through rewrote exactly the found row, with the quantity taken off |
| Services.BaixaValidaDiminuiSaldo | src/services/EstoqueService/EstoqueService.Application/Validators/ProdutoValidators.cs:70-75 | with a request the validator accepts and enough stock, the deduction strictly lowers the balance |
| Services.QuantidadeMinimaTornaSaldoNegativo | src/services/EstoqueService/EstoqueService.Application/Services/ProdutoService.cs:81-84 | without the validator, the quantity -2^63 passes the balance check and wraps the balance negative; the validator rejects it |
| Services.ChaveTardiaRecusada | src/services/EstoqueService/EstoqueService.Infrastructure/Data/UnitOfWork.cs:48-53 | a key committed by another request after the ledger check makes the save fail with a duplicate key and write nothing |
| Services.CriacaoCodigoExistente | src/services/EstoqueService/EstoqueService.Application/Services/ProdutoService.cs:22-23 | a code a visible product holds is refused with a message containing "já existe", writing nothing |
| Services.CriacaoComSucesso | src/services/EstoqueService/EstoqueService.Application/Services/ProdutoService.cs:20-28 | a valid request with an unused code adds one row under the next id and answers with its code, description and balance |
| Services.CriacaoCodigoDeletado | src/services/EstoqueService/EstoqueService.Infrastructure/Data/EstoqueDbContext.cs:27-29 | re-using a soft-deleted product's code passes the existence check and is refused by the database, writing nothing |
| Services.ConsultaVeCriado | src/services/EstoqueService/EstoqueService.Application/Services/ProdutoService.cs:52-56 | a product just created is found under its new id with the answer the creation gave |
| Services.Consulta | src/services/EstoqueService/EstoqueService.Application/Services/ProdutoService.cs:52-56 | nothing is returned exactly when no visible product has the id; in a consistent store, the visible product with the id is the one returned |
| Services.AtualizacaoIdDesconhecido | src/services/EstoqueService/EstoqueService.Application/Services/ProdutoService.cs:32-33 | an unknown or deleted id throws `KeyNotFoundException` and writes nothing |
| Services.AtualizacaoMantemIdECodigo | src/services/EstoqueService/EstoqueService.Application/Services/ProdutoService.cs:35-40 | a valid update replaces only description and balance and stamps the update time; id, code and creation time are kept |
| Services.DelecaoIdDesconhecido | src/services/EstoqueService/EstoqueService.Application/Services/ProdutoService.cs:49 | deleting an unknown id answers false and writes nothing |
| Services.DelecaoSuave | src/services/EstoqueService/EstoqueService.Application/Services/ProdutoService.cs:43-50 | deleting a visible product answers true; the row stays, marked deleted, and no lookup sees it |
| Services.TotalPaginas | src/services/EstoqueService/EstoqueService.Application/Services/ProdutoService.cs:62 | the page count is the least number of pages of pageSize rows that holds all rows |
| Services.Listagem | src/services/EstoqueService/EstoqueService.Application/Services/ProdutoService.cs:58-71 | the items are the repository page mapped to responses (at most pageSize), the total counts the visible matching rows, and the page count is that total divided by pageSize, rounded up |
| Services.AlemDaUltimaPagina | src/services/EstoqueService/EstoqueService.Application/Services/ProdutoService.cs:62 | a page starts past the last row exactly when its number exceeds the page count |
| Services.PaginaVaziaSse | src/services/EstoqueService/EstoqueService.Application/Services/ProdutoService.cs:62 | a page is empty iff its number is past the page count |
| Services.ProdutoService.CriarAsync | src/services/EstoqueService/EstoqueService.Application/Services/ProdutoService.cs:20-28 | answer and tables equal `Criacao` |
| Services.ProdutoService.AtualizarAsync | src/services/EstoqueService/EstoqueService.Application/Services/ProdutoService.cs:30-41 | answer and tables equal `Atualizacao` |
| Services.ProdutoService.DeletarAsync | src/services/EstoqueService/EstoqueService.Application/Services/ProdutoService.cs:43-50 | answer and tables equal `Delecao` |
| Services.ProdutoService.BaixarEstoqueAsync | src/services/EstoqueService/EstoqueService.Application/Services/ProdutoService.cs:73-88 | answer and tables equal `Baixa`; exactly one transaction runs for a new key and none for a replay; the manual Begin/Commit are never called |

## Left out

- Real concurrency between requests is not modelled. Requests are a sequence of operations on one store, except that `ChaveTardiaRecusada` exhibits the key that another request commits between the ledger check and the save.
- `RowVersion` is not modelled. The optimistic concurrency token is generated by the database and no code shown compares it.
- Transient faults are raised only at save time and only inside `ExecuteInTransactionAsync`. Backoff delays and fault classification belong to the database provider.
- Transactions.UnitOfWork.ExecuteInTransaction: each failed attempt discards what it staged, and the next attempt starts from the entries tracked before the call. EF Core instead keeps the staged entries in the change tracker. After a transient fault the retried deduction reads back the tracked, already-decremented `Produto`, so it either subtracts a second time or refuses with "Saldo insuficiente" on that stale balance. Re-adding the `OperacaoProcessada` under the same key makes the tracker throw `InvalidOperationException`, which is not transient and ends the retries.
- Transactions.ExecucaoGrava: the program behaves as stated only when the first attempt meets no fault. A successful attempt that follows a transient fault is the clean retry the program does not perform, as described above.
- Services.BaixaComSucesso: the program behaves as stated only when the first attempt meets no fault. After an earlier transient fault the outcome is the one described under `ExecuteInTransaction`.
- Services.BaixaValidaDiminuiSaldo: the program behaves as stated only when the first attempt meets no fault, for the same reason.
- Data.Aplicar: ids are assigned without the gaps that refused inserts leave. A Postgres identity value is consumed even when its INSERT is refused or rolled back (for example the code re-use in `Services.CriacaoCodigoDeletado`), whereas the model keeps `proximoId` on a failed save.
- Services.CriacaoComSucesso: the new row gets `proximoId`. In the database, after an earlier refused insert, it gets a later id.
- Services.ConsultaVeCriado: the lookup is under `proximoId`, which is the database's id only when no insert was refused before.
- Each call reads the clock once. The instant stamped by the hook equals the one the service writes.
- Search uses plain substring containment. `LIKE` wildcards (`%`, `_`) in the search text and database collation are not modelled.
- Sorting is ordinal, and ties are broken by insertion sort. The database's collation and its order among equal keys are not modelled.
- Repositories.CriterioDe lower-cases ASCII letters only. The culture-dependent `ToLower` is not modelled beyond ASCII.
- Services.TotalPaginas uses integer ceiling division. The source uses `Math.Ceiling` on a `double`, which agrees for every page size and total the controller admits.
- `Id`, `TotalItems` and `TotalPages` are unbounded integers. `int` overflow of `(pageNumber - 1) * pageSize` is not modelled; the controller bounds pageSize to 1..100.
- Entities are values, so there is no aliasing between a loaded `Produto` and the tracked one. Changes reach the store only through tracker entries.
- Services.UnidadeBaixa stages its two entries directly. In the source it calls `Atualizar` and `AdicionarAsync`, which stage the same entries.
- Services.ProdutoService methods require an idle context (nothing tracked, no open transaction), because the context is created per request.
- Services.DelecaoIdDesconhecido: the unit-of-work version of `DeletarAsync` for a missing product is not shown; the model answers false as the repository's `DeletarAsync(int)` contract suggests.
- Services.Baixa on a replayed key with the product since deleted answers a balance of 0.
- Logging, HTTP status mapping (ProdutosController.cs), dependency injection and start-up (Program.cs, except the retry bound of 3), migrations and the AutoMapper configuration are not modelled. Entity-to-response mapping is the plain function `Dtos.ParaResposta`.
- The invoice check is a stub that always answers false. The HTTP call it stands for is not modelled.
