/** The entities of the inventory service (Produto, OperacaoProcessada), the
    64-bit integer their balances are stored in, and the exceptions that the
    service, the repositories and the database raise. */
module Domain {
  import opened Wrappers

  const Int64Min: int := -0x8000_0000_0000_0000
  const Int64Max: int := 0x7FFF_FFFF_FFFF_FFFF

  /** C# `long`. */
  newtype Int64 = x: int | -0x8000_0000_0000_0000 <= x <= 0x7FFF_FFFF_FFFF_FFFF

  /** The value an unchecked C# `long` operation stores for the mathematical
      result `x`: `x` reduced modulo 2^64 into the signed range. */
  function WrapInt64(x: int): (r: Int64)
    ensures (r as int - x) % 0x1_0000_0000_0000_0000 == 0
    ensures Int64Min <= x <= Int64Max ==> r as int == x
  {
    var m := x % 0x1_0000_0000_0000_0000;
    if m <= Int64Max then m as Int64 else (m - 0x1_0000_0000_0000_0000) as Int64
  }

  /** One past the largest `long` wraps around to the smallest. */
  lemma WrapInt64Estoura()
    ensures WrapInt64(Int64Max + 1) as int == Int64Min
  {
    assert (Int64Max + 1) % 0x1_0000_0000_0000_0000 == Int64Max + 1;
  }

  /** A `DateTime`, as ticks. Every reading of the clock is a parameter. */
  type Instante = int

  /** One row of table Produtos. `id` is the identity key; a soft-deleted
      row keeps its place in the table with `deletado` set. The
      `RowVersion` token is not part of the model. */
  datatype Produto = Produto(
    id: int,
    codigo: string,
    descricao: string,
    saldo: Int64,
    dataCriacao: Instante,
    dataAtualizacao: Option<Instante>,
    deletado: bool,
    dataDelecao: Option<Instante>)

  /** One record of the idempotency ledger (table OperacoesProcessadas),
      identified by its client key. */
  datatype OperacaoProcessada = OperacaoProcessada(
    idempotencyKey: string,
    dataProcessamento: Instante,
    tipoOperacao: string,
    resultado: string)

  /** Why the database refused a SaveChanges (a DbUpdateException). */
  datatype ErroBanco =
    | CodigoDuplicado(codigo: string)        // unique index IX_Produtos_Codigo
    | ChaveDuplicada(chave: string)          // primary key of OperacoesProcessadas
    | ValorMuitoLongo(coluna: string)        // a varchar(n) column overflowed
    | LinhaInexistente(id: int)              // an UPDATE matched no row

  /** The exceptions that leave the service. */
  datatype Excecao =
    | CodigoJaExiste(mensagem: string)              // InvalidOperationException in CriarAsync
    | ProdutoComNotasFiscais(mensagem: string)      // InvalidOperationException in DeletarAsync
    | ProdutoNaoEncontrado(id: int)                 // KeyNotFoundException in AtualizarAsync
    | FalhaDeNegocio(mensagem: string, saldo: Int64) // thrown by the deduction to abort its transaction
    | DbUpdate(causa: ErroBanco)                    // DbUpdateException from SaveChanges
    | LimiteDeTentativas                            // RetryLimitExceededException of the execution strategy
    | TransacaoJaAberta                             // InvalidOperationException from BeginTransaction
    | FalhaNoCommit                                 // the database failed to commit
}
