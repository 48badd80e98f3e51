/** ProdutoService: product creation, update, soft deletion, the paged
    listing, and the stock deduction with its idempotency ledger and its
    transaction. Each operation is a specification function from the
    tables before the request to the answer and the tables after it; the
    ProdutoService class runs the same steps on the unit of work and is
    proved to agree with those functions. */
module Services {
  import opened Wrappers
  import opened Domain
  import opened Dtos
  import opened Strings
  import opened Validators
  import opened Data
  import opened Repositories
  import opened Transactions

  const MsgNaoEncontrado: string := "Produto não encontrado"
  const MsgSaldoInsuficiente: string := "Saldo insuficiente"
  const MsgSucesso: string := "Estoque baixado com sucesso"
  const MsgJaProcessada: string := "Requisição já processada"
  const MsgNotasFiscais: string := "Não é possível deletar produto vinculado a notas fiscais"
  const TipoBaixaEstoque: string := "BaixaEstoque"

  // ==== Stock deduction ====

  /** The decision on the product found by code: not found, not enough
      stock, or the product with `Saldo -= Quantidade` (an unchecked
      64-bit subtraction). */
  function DecidirBaixa(produto: Option<Produto>, quantidade: Int64): (r: Result<Produto, BaixaEstoqueResultDTO>)
    ensures r.Success? <==> produto.Some? && quantidade <= produto.value.saldo
    ensures r.Failure? ==> !r.error.sucesso
    ensures r.Success? ==> r.value.(saldo := produto.value.saldo) == produto.value
    ensures r.Success? && quantidade >= 0 ==>
      0 <= r.value.saldo as int == produto.value.saldo as int - quantidade as int
  {
    if produto.None? then Failure(BaixaEstoqueResultDTO(false, MsgNaoEncontrado, 0))
    else if produto.value.saldo < quantidade then
      Failure(BaixaEstoqueResultDTO(false, MsgSaldoInsuficiente, produto.value.saldo))
    else Success(produto.value.(saldo := WrapInt64(produto.value.saldo as int - quantidade as int)))
  }

  /** The ledger record a deduction leaves under its key. */
  function RegistroDaBaixa(dto: BaixaEstoqueDTO, agora: Instante): OperacaoProcessada
  {
    OperacaoProcessada(dto.idempotencyKey, agora, TipoBaixaEstoque, MsgSucesso)
  }

  /** The operation the deduction hands to `ExecuteInTransactionAsync`: a
      refusal is thrown (so the transaction rolls back); otherwise the
      product update and the ledger record are staged. */
  function UnidadeBaixa(dto: BaixaEstoqueDTO, agora: Instante): Tabelas -> Etapa<BaixaEstoqueResultDTO>
  {
    (t: Tabelas) =>
      match DecidirBaixa(ObterPorCodigo(t.produtos, dto.codigoProduto), dto.quantidade)
      case Failure(recusa) => Lancou(FalhaDeNegocio(recusa.mensagem, recusa.saldoAtual))
      case Success(p) =>
        Concluiu([ProdutoModificado(p), OperacaoAdicionada(RegistroDaBaixa(dto, agora))],
                 BaixaEstoqueResultDTO(true, MsgSucesso, p.saldo))
  }

  /** The balance reported for a replayed request (0 without a product). */
  function SaldoAtual(t: Tabelas, codigo: string): Int64
  {
    match ObterPorCodigo(t.produtos, codigo)
    case None => 0
    case Some(p) => p.saldo
  }

  /** The service turns the refusal it threw into a failure answer; any
      other exception leaves the service. */
  function Responder(r: Result<BaixaEstoqueResultDTO, Excecao>): Result<BaixaEstoqueResultDTO, Excecao>
  {
    match r
    case Failure(FalhaDeNegocio(mensagem, saldo)) => Success(BaixaEstoqueResultDTO(false, mensagem, saldo))
    case _ => r
  }

  /** `BaixarEstoqueAsync`: a key already in the ledger is answered at once
      and changes nothing; otherwise the deduction runs in a transaction. */
  function Baixa(t: Tabelas, dto: BaixaEstoqueDTO, falhas: seq<bool>, agora: Instante)
    : (Result<BaixaEstoqueResultDTO, Excecao>, Tabelas)
  {
    if ObterPorChave(t, dto.idempotencyKey).Some? then
      (Success(BaixaEstoqueResultDTO(true, MsgJaProcessada, SaldoAtual(t, dto.codigoProduto))), t)
    else
      var (r, t2) := Execucao(UnidadeBaixa(dto, agora), t, [], falhas, agora, 0);
      (Responder(r), t2)
  }

  /** Every stored balance is non-negative. */
  predicate SaldosNaoNegativos(ps: seq<Produto>)
  {
    forall i :: 0 <= i < |ps| ==> ps[i].saldo >= 0
  }

  /** The save of a deduction, `q` being the stored row `p` with a new
      balance and update time: with a new key, the row is replaced and the
      record inserted; with a key the ledger already holds, the primary key
      refuses the whole save. */
  lemma AplicarBaixa(t: Tabelas, p: Produto, q: Produto, o: OperacaoProcessada)
    requires Consistente(t) && p in t.produtos && CabeOperacao(o)
    requires q.id == p.id && q.codigo == p.codigo && q.descricao == p.descricao
    ensures o.idempotencyKey !in t.operacoes ==>
      Aplicar(t, [ProdutoModificado(q), OperacaoAdicionada(o)])
        == Success(t.(produtos := Substituir(t.produtos, q), operacoes := t.operacoes[o.idempotencyKey := o]))
    ensures o.idempotencyKey in t.operacoes ==>
      Aplicar(t, [ProdutoModificado(q), OperacaoAdicionada(o)]) == Failure(ChaveDuplicada(o.idempotencyKey))
  {
    LinhaGravavel(t, p);
    var t1 := t.(produtos := Substituir(t.produtos, q));
    assert AplicarEntrada(t, ProdutoModificado(q)) == Success(t1);
    assert [ProdutoModificado(q), OperacaoAdicionada(o)][1..] == [OperacaoAdicionada(o)];
    assert Aplicar(t1, [OperacaoAdicionada(o)]) == AplicarEntrada(t1, OperacaoAdicionada(o));
  }

  /** An unknown or soft-deleted code: the answer is (false, "Produto não
      encontrado", 0) and nothing is written. */
  lemma BaixaProdutoNaoEncontrado(t: Tabelas, dto: BaixaEstoqueDTO, falhas: seq<bool>, agora: Instante)
    requires dto.idempotencyKey !in t.operacoes
    requires forall p :: p in t.produtos && p.codigo == dto.codigoProduto ==> p.deletado
    ensures Baixa(t, dto, falhas, agora) == (Success(BaixaEstoqueResultDTO(false, MsgNaoEncontrado, 0)), t)
  {
    ExecucaoRepassaExcecao(UnidadeBaixa(dto, agora), t, [], falhas, agora, 0);
    ExecucaoTudoOuNada(UnidadeBaixa(dto, agora), t, [], falhas, agora, 0);
  }

  /** Balance below the quantity: the answer is (false, "Saldo
      insuficiente", current balance) and nothing is written. */
  lemma BaixaSaldoInsuficiente(t: Tabelas, dto: BaixaEstoqueDTO, falhas: seq<bool>, agora: Instante, p: Produto)
    requires Consistente(t) && dto.idempotencyKey !in t.operacoes
    requires p in t.produtos && !p.deletado && p.codigo == dto.codigoProduto && p.saldo < dto.quantidade
    ensures Baixa(t, dto, falhas, agora) == (Success(BaixaEstoqueResultDTO(false, MsgSaldoInsuficiente, p.saldo)), t)
  {
    ObterPorCodigoUnico(t, p);
    ExecucaoRepassaExcecao(UnidadeBaixa(dto, agora), t, [], falhas, agora, 0);
    ExecucaoTudoOuNada(UnidadeBaixa(dto, agora), t, [], falhas, agora, 0);
  }

  /** A new key and enough stock: unless every attempt meets a transient
      fault, exactly one row changes, its balance becomes old - quantity
      (never negative) and its update time is stamped; exactly one ledger
      record is added under the key; the answer carries the new balance. */
  lemma BaixaComSucesso(t: Tabelas, dto: BaixaEstoqueDTO, falhas: seq<bool>, agora: Instante, p: Produto)
    requires Consistente(t) && dto.idempotencyKey !in t.operacoes && |dto.idempotencyKey| <= MaxChave
    requires p in t.produtos && !p.deletado && p.codigo == dto.codigoProduto
    requires 0 <= dto.quantidade <= p.saldo
    requires !(forall k :: 0 <= k <= MaxRetryCount ==> Falha(falhas, k))
    ensures var novo := p.(saldo := WrapInt64(p.saldo as int - dto.quantidade as int), dataAtualizacao := Some(agora));
      && 0 <= novo.saldo as int == p.saldo as int - dto.quantidade as int
      && Baixa(t, dto, falhas, agora)
           == (Success(BaixaEstoqueResultDTO(true, MsgSucesso, novo.saldo)),
               t.(produtos := Substituir(t.produtos, novo),
                  operacoes := t.operacoes[dto.idempotencyKey := RegistroDaBaixa(dto, agora)]))
      && ObterPorCodigo(Substituir(t.produtos, novo), dto.codigoProduto) == Some(novo)
  {
    var novo := p.(saldo := WrapInt64(p.saldo as int - dto.quantidade as int), dataAtualizacao := Some(agora));
    ObterPorCodigoUnico(t, p);
    BaixaGravada(t, dto, falhas, agora, p);
    SubstituirMantemVisivel(t, p, novo);
  }

  /** The deduction that goes through: the answer and the tables after one
      save of the stamped update and the ledger record. */
  lemma BaixaGravada(t: Tabelas, dto: BaixaEstoqueDTO, falhas: seq<bool>, agora: Instante, p: Produto)
    requires Consistente(t) && dto.idempotencyKey !in t.operacoes && |dto.idempotencyKey| <= MaxChave
    requires ObterPorCodigo(t.produtos, dto.codigoProduto) == Some(p) && dto.quantidade <= p.saldo
    requires !(forall k :: 0 <= k <= MaxRetryCount ==> Falha(falhas, k))
    ensures var novo := p.(saldo := WrapInt64(p.saldo as int - dto.quantidade as int), dataAtualizacao := Some(agora));
      Baixa(t, dto, falhas, agora)
        == (Success(BaixaEstoqueResultDTO(true, MsgSucesso, novo.saldo)),
            t.(produtos := Substituir(t.produtos, novo),
               operacoes := t.operacoes[dto.idempotencyKey := RegistroDaBaixa(dto, agora)]))
  {
    var novo := p.(saldo := WrapInt64(p.saldo as int - dto.quantidade as int), dataAtualizacao := Some(agora));
    EntradasDaBaixa(t, dto, agora, p);
    AplicarBaixa(t, p, novo, RegistroDaBaixa(dto, agora));
    ExecucaoGrava(UnidadeBaixa(dto, agora), t, [], falhas, agora, 0);
  }

  /** What the deduction stages for a product it found with enough stock,
      once the save hook has stamped it. */
  lemma EntradasDaBaixa(t: Tabelas, dto: BaixaEstoqueDTO, agora: Instante, p: Produto)
    requires ObterPorCodigo(t.produtos, dto.codigoProduto) == Some(p) && dto.quantidade <= p.saldo
    ensures var novo := p.(saldo := WrapInt64(p.saldo as int - dto.quantidade as int), dataAtualizacao := Some(agora));
      && UnidadeBaixa(dto, agora)(t).Concluiu?
      && UnidadeBaixa(dto, agora)(t).valor == BaixaEstoqueResultDTO(true, MsgSucesso, novo.saldo)
      && Carimbadas([] + UnidadeBaixa(dto, agora)(t).entradas, agora)
           == [ProdutoModificado(novo), OperacaoAdicionada(RegistroDaBaixa(dto, agora))]
  {
    var lido := p.(saldo := WrapInt64(p.saldo as int - dto.quantidade as int));
    var m := ProdutoModificado(lido);
    var o := OperacaoAdicionada(RegistroDaBaixa(dto, agora));
    EtapaDaBaixa(t, dto, agora, p);
    assert [] + UnidadeBaixa(dto, agora)(t).entradas == [m, o];
    CarimbadasDuas(m, o, agora);
  }

  /** The operation's step for a product found with enough stock: the row
      with its new balance and the ledger record, before the hook runs. */
  lemma EtapaDaBaixa(t: Tabelas, dto: BaixaEstoqueDTO, agora: Instante, p: Produto)
    requires ObterPorCodigo(t.produtos, dto.codigoProduto) == Some(p) && dto.quantidade <= p.saldo
    ensures var lido := p.(saldo := WrapInt64(p.saldo as int - dto.quantidade as int));
      UnidadeBaixa(dto, agora)(t)
        == Concluiu([ProdutoModificado(lido), OperacaoAdicionada(RegistroDaBaixa(dto, agora))],
                    BaixaEstoqueResultDTO(true, MsgSucesso, lido.saldo))
  {
    assert DecidirBaixa(Some(p), dto.quantidade) == Success(p.(saldo := WrapInt64(p.saldo as int - dto.quantidade as int)));
  }

  /** A visible row written back under its id stays the row its code
      finds. */
  lemma SubstituirMantemVisivel(t: Tabelas, p: Produto, novo: Produto)
    requires Consistente(t) && p in t.produtos && !novo.deletado
    requires novo.id == p.id && novo.codigo == p.codigo && novo.descricao == p.descricao
    ensures ObterPorCodigo(Substituir(t.produtos, novo), p.codigo) == Some(novo)
  {
    LinhaGravavel(t, p);
    SubstituirConsistente(t, novo);
    var k :| 0 <= k < |t.produtos| && t.produtos[k] == p;
    assert Substituir(t.produtos, novo)[k] == novo;
    ObterPorCodigoUnico(t.(produtos := Substituir(t.produtos, novo)), novo);
  }

  /** A key already in the ledger: success with "Requisição já processada"
      and the product's current balance, no transaction, no change. */
  lemma BaixaChaveJaProcessada(t: Tabelas, dto: BaixaEstoqueDTO, falhas: seq<bool>, agora: Instante, p: Produto)
    requires Consistente(t) && dto.idempotencyKey in t.operacoes
    requires p in t.produtos && !p.deletado && p.codigo == dto.codigoProduto
    ensures Baixa(t, dto, falhas, agora) == (Success(BaixaEstoqueResultDTO(true, MsgJaProcessada, p.saldo)), t)
  {
    ObterPorCodigoUnico(t, p);
  }

  /** A refused or failed deduction leaves the tables as they were. */
  lemma BaixaSemEfeitoSeFalha(t: Tabelas, dto: BaixaEstoqueDTO, falhas: seq<bool>, agora: Instante)
    ensures var (r, t2) := Baixa(t, dto, falhas, agora);
      (r.Failure? || !r.value.sucesso) ==> t2 == t
  {
    if dto.idempotencyKey !in t.operacoes {
      ExecucaoTudoOuNada(UnidadeBaixa(dto, agora), t, [], falhas, agora, 0);
      if Execucao(UnidadeBaixa(dto, agora), t, [], falhas, agora, 0).0.Success? {
        ConcluiSse(t, dto, agora);
        EntradasDaBaixa(t, dto, agora, ObterPorCodigo(t.produtos, dto.codigoProduto).value);
      }
    }
  }

  /** Replays never deduct again: once a deduction succeeded, the same
      request is answered as already processed and writes nothing, whatever
      the faults and the clock of the replay. */
  lemma BaixaNaoRepete(t: Tabelas, dto: BaixaEstoqueDTO, falhas: seq<bool>, agora: Instante,
                       falhas2: seq<bool>, agora2: Instante)
    ensures var (r, t2) := Baixa(t, dto, falhas, agora);
      r.Success? && r.value.sucesso ==>
        && dto.idempotencyKey in t2.operacoes
        && Baixa(t2, dto, falhas2, agora2).1 == t2
        && Baixa(t2, dto, falhas2, agora2).0.value.mensagem == MsgJaProcessada
  {
    if dto.idempotencyKey !in t.operacoes && Execucao(UnidadeBaixa(dto, agora), t, [], falhas, agora, 0).0.Success? {
      ChaveGravada(t, dto, falhas, agora);
    }
  }

  /** A deduction that went through holds its key in the ledger. */
  lemma ChaveGravada(t: Tabelas, dto: BaixaEstoqueDTO, falhas: seq<bool>, agora: Instante)
    requires Execucao(UnidadeBaixa(dto, agora), t, [], falhas, agora, 0).0.Success?
    ensures dto.idempotencyKey in Execucao(UnidadeBaixa(dto, agora), t, [], falhas, agora, 0).1.operacoes
  {
    var op := UnidadeBaixa(dto, agora);
    ExecucaoTudoOuNada(op, t, [], falhas, agora, 0);
    ConcluiSse(t, dto, agora);
    var p := ObterPorCodigo(t.produtos, dto.codigoProduto).value;
    EntradasDaBaixa(t, dto, agora, p);
    AplicarRegistraChave(t, Carimbadas([] + op(t).entradas, agora), 1);
  }

  /** A deduction keeps the schema's guarantees and the ledger
      append-only. */
  lemma BaixaPreserva(t: Tabelas, dto: BaixaEstoqueDTO, falhas: seq<bool>, agora: Instante)
    requires Consistente(t)
    ensures Consistente(Baixa(t, dto, falhas, agora).1)
    ensures LedgerEstende(t.operacoes, Baixa(t, dto, falhas, agora).1.operacoes)
  {
    if dto.idempotencyKey !in t.operacoes {
      ExecucaoPreserva(UnidadeBaixa(dto, agora), t, [], falhas, agora);
    }
  }

  /** With a non-negative quantity, a deduction never leaves a balance
      below zero. */
  lemma BaixaMantemSaldosNaoNegativos(t: Tabelas, dto: BaixaEstoqueDTO, falhas: seq<bool>, agora: Instante)
    requires Consistente(t) && SaldosNaoNegativos(t.produtos) && dto.quantidade >= 0
    ensures SaldosNaoNegativos(Baixa(t, dto, falhas, agora).1.produtos)
  {
    if dto.idempotencyKey !in t.operacoes {
      var op := UnidadeBaixa(dto, agora);
      ExecucaoTudoOuNada(op, t, [], falhas, agora, 0);
      if Execucao(op, t, [], falhas, agora, 0).0.Success? {
        var p, novo := LinhaDaBaixa(t, dto, falhas, agora);
        SubstituirSaldoNaoNegativo(t.produtos, novo);
      }
    }
  }

  /** A deduction that went through rewrote one row: the product its code
      found, with the quantity taken off. */
  lemma LinhaDaBaixa(t: Tabelas, dto: BaixaEstoqueDTO, falhas: seq<bool>, agora: Instante)
    returns (p: Produto, novo: Produto)
    requires Consistente(t) && dto.idempotencyKey !in t.operacoes
    requires Execucao(UnidadeBaixa(dto, agora), t, [], falhas, agora, 0).0.Success?
    ensures p in t.produtos && dto.quantidade <= p.saldo
    ensures novo.saldo == WrapInt64(p.saldo as int - dto.quantidade as int)
    ensures Execucao(UnidadeBaixa(dto, agora), t, [], falhas, agora, 0).1.produtos == Substituir(t.produtos, novo)
  {
    var op := UnidadeBaixa(dto, agora);
    ExecucaoTudoOuNada(op, t, [], falhas, agora, 0);
    ConcluiSse(t, dto, agora);
    p := ObterPorCodigo(t.produtos, dto.codigoProduto).value;
    novo := p.(saldo := WrapInt64(p.saldo as int - dto.quantidade as int), dataAtualizacao := Some(agora));
    var o := RegistroDaBaixa(dto, agora);
    EntradasDaBaixa(t, dto, agora, p);
    ChaveGravadaCabe(t, novo, o);
    AplicarBaixa(t, p, novo, o);
  }

  /** A save of a product row and a ledger record succeeds only with a key
      that fits its column. */
  lemma ChaveGravadaCabe(t: Tabelas, q: Produto, o: OperacaoProcessada)
    ensures Aplicar(t, [ProdutoModificado(q), OperacaoAdicionada(o)]).Success? ==> |o.idempotencyKey| <= MaxChave
  {
    var es := [ProdutoModificado(q), OperacaoAdicionada(o)];
    match AplicarEntrada(t, es[0])
    case Failure(_) =>
    case Success(t1) =>
      assert es[1..] == [OperacaoAdicionada(o)];
      assert Aplicar(t1, es[1..]) == AplicarEntrada(t1, OperacaoAdicionada(o));
  }

  /** The deduction's operation completes exactly when the decision
      accepts. */
  lemma ConcluiSse(t: Tabelas, dto: BaixaEstoqueDTO, agora: Instante)
    ensures UnidadeBaixa(dto, agora)(t).Concluiu?
      <==> ObterPorCodigo(t.produtos, dto.codigoProduto).Some?
           && dto.quantidade <= ObterPorCodigo(t.produtos, dto.codigoProduto).value.saldo
  {
  }

  lemma SubstituirSaldoNaoNegativo(ps: seq<Produto>, novo: Produto)
    requires SaldosNaoNegativos(ps) && novo.saldo >= 0
    ensures SaldosNaoNegativos(Substituir(ps, novo))
  {
  }

  /** With a quantity the validator accepts, a successful deduction
      strictly lowers the balance. */
  lemma BaixaValidaDiminuiSaldo(t: Tabelas, dto: BaixaEstoqueDTO, falhas: seq<bool>, agora: Instante, p: Produto)
    requires ValidarBaixaEstoque(dto) == []
    requires Consistente(t) && dto.idempotencyKey !in t.operacoes
    requires p in t.produtos && !p.deletado && p.codigo == dto.codigoProduto && dto.quantidade <= p.saldo
    requires !(forall k :: 0 <= k <= MaxRetryCount ==> Falha(falhas, k))
    ensures Baixa(t, dto, falhas, agora).0.Success?
    ensures 0 <= Baixa(t, dto, falhas, agora).0.value.saldoAtual < p.saldo
  {
    BaixaEstoqueValidaSse(dto);
    BaixaComSucesso(t, dto, falhas, agora, p);
  }

  /** Only the validator protects the balance: the decision itself lets
      the quantity -2^63 through on a zero balance, and the unchecked
      subtraction then wraps to a negative balance. */
  lemma QuantidadeMinimaTornaSaldoNegativo(p: Produto, dto: BaixaEstoqueDTO)
    requires p.saldo == 0 && dto.quantidade as int == Int64Min
    ensures DecidirBaixa(Some(p), dto.quantidade).Success?
    ensures DecidirBaixa(Some(p), dto.quantidade).value.saldo as int == Int64Min
    ensures ValidarBaixaEstoque(dto) != []
  {
    assert p.saldo as int - dto.quantidade as int == Int64Max + 1;
    WrapInt64Estoura();
    BaixaEstoqueValidaSse(dto);
  }

  /** A key that another request committed after this request's ledger
      check collides only when the transaction saves: the deduction ends in
      the database's duplicate-key error and writes nothing. */
  lemma ChaveTardiaRecusada(t: Tabelas, dto: BaixaEstoqueDTO, falhas: seq<bool>, agora: Instante, p: Produto)
    requires Consistente(t) && dto.idempotencyKey in t.operacoes && |dto.idempotencyKey| <= MaxChave
    requires p in t.produtos && !p.deletado && p.codigo == dto.codigoProduto
    requires 0 <= dto.quantidade <= p.saldo
    requires !(forall k :: 0 <= k <= MaxRetryCount ==> Falha(falhas, k))
    ensures Execucao(UnidadeBaixa(dto, agora), t, [], falhas, agora, 0)
      == (Failure(DbUpdate(ChaveDuplicada(dto.idempotencyKey))), t)
  {
    var op := UnidadeBaixa(dto, agora);
    var novo := p.(saldo := WrapInt64(p.saldo as int - dto.quantidade as int), dataAtualizacao := Some(agora));
    ObterPorCodigoUnico(t, p);
    EntradasDaBaixa(t, dto, agora, p);
    AplicarBaixa(t, p, novo, RegistroDaBaixa(dto, agora));
    ExecucaoRepassaExcecao(op, t, [], falhas, agora, 0);
    ExecucaoTudoOuNada(op, t, [], falhas, agora, 0);
  }

  // ==== Creation ====

  function MensagemCodigoExistente(codigo: string): string
  {
    "Produto com código " + codigo + " já existe"
  }

  /** The entity mapped from the request: id left to the identity column,
      created now, not deleted. */
  function NovoProduto(dto: CriarProdutoDTO, agora: Instante): Produto
  {
    Produto(0, dto.codigo, dto.descricao, dto.saldo, agora, None, false, None)
  }

  /** `CriarAsync`: refuse a code the existence check sees, otherwise add
      and save. */
  function Criacao(t: Tabelas, dto: CriarProdutoDTO, agora: Instante): (Result<ProdutoResponseDTO, Excecao>, Tabelas)
  {
    if ExisteCodigo(t.produtos, dto.codigo, None) then
      (Failure(CodigoJaExiste(MensagemCodigoExistente(dto.codigo))), t)
    else
      match Aplicar(t, Carimbadas([ProdutoAdicionado(NovoProduto(dto, agora))], agora))
      case Failure(e) => (Failure(DbUpdate(e)), t)
      case Success(t2) => (Success(ParaResposta(NovoProduto(dto, agora).(id := t.proximoId))), t2)
  }

  /** A code some visible product holds: the exception's message contains
      "já existe" and nothing is written. */
  lemma CriacaoCodigoExistente(t: Tabelas, dto: CriarProdutoDTO, agora: Instante, p: Produto)
    requires p in t.produtos && !p.deletado && p.codigo == dto.codigo
    ensures Criacao(t, dto, agora).1 == t
    ensures Criacao(t, dto, agora).0.Failure? && Criacao(t, dto, agora).0.error.CodigoJaExiste?
    ensures Contem(Criacao(t, dto, agora).0.error.mensagem, "já existe")
  {
    var m := MensagemCodigoExistente(dto.codigo);
    var i := |"Produto com código "| + |dto.codigo| + 1;
    assert m[i..i + |"já existe"|] == "já existe";
    assert OcorreEm(m, "já existe", i);
  }

  /** A valid request with a code no row holds: one row is added under the
      next identity value with the request's code, description and balance;
      the answer describes it and the ledger is untouched. */
  lemma CriacaoComSucesso(t: Tabelas, dto: CriarProdutoDTO, agora: Instante)
    requires Consistente(t) && ValidarCriarProduto(dto) == []
    requires forall p :: p in t.produtos ==> p.codigo != dto.codigo
    ensures var novo := NovoProduto(dto, agora).(id := t.proximoId);
      && Criacao(t, dto, agora).0 == Success(ProdutoResponseDTO(t.proximoId, dto.codigo, dto.descricao, dto.saldo, agora, None))
      && Criacao(t, dto, agora).1 == t.(produtos := t.produtos + [novo], proximoId := t.proximoId + 1)
      && ObterPorCodigo(Criacao(t, dto, agora).1.produtos, dto.codigo) == Some(novo)
  {
    CriarProdutoValidoSse(dto);
    var novo := NovoProduto(dto, agora).(id := t.proximoId);
    var t2 := t.(produtos := t.produtos + [novo], proximoId := t.proximoId + 1);
    AplicarAdicao(t, NovoProduto(dto, agora));
    assert Carimbadas([ProdutoAdicionado(NovoProduto(dto, agora))], agora) == [ProdutoAdicionado(NovoProduto(dto, agora))];
    assert !ExisteCodigo(t.produtos, dto.codigo, None);
    assert t2.produtos[|t.produtos|] == novo;
    ObterPorCodigoUnico(t2, novo);
  }

  /** The save of a new product whose code no row holds: the row is
      appended under the next identity value. */
  lemma AplicarAdicao(t: Tabelas, p: Produto)
    requires Consistente(t) && CabeProduto(p)
    requires forall q :: q in t.produtos ==> q.codigo != p.codigo
    ensures var t2 := t.(produtos := t.produtos + [p.(id := t.proximoId)], proximoId := t.proximoId + 1);
      Aplicar(t, [ProdutoAdicionado(p)]) == Success(t2) && Consistente(t2)
  {
    assert forall i :: 0 <= i < |t.produtos| ==> t.produtos[i] in t.produtos;
    assert Aplicar(t, [ProdutoAdicionado(p)]) == AplicarEntrada(t, ProdutoAdicionado(p));
    AplicarEntradaConsistente(t, ProdutoAdicionado(p));
  }

  /** The code index covers soft-deleted rows while the existence check
      does not: re-using a deleted product's code passes the check and is
      then refused by the database, with nothing written. */
  lemma CriacaoCodigoDeletado(t: Tabelas, dto: CriarProdutoDTO, agora: Instante, i: int)
    requires Consistente(t) && ValidarCriarProduto(dto) == []
    requires 0 <= i < |t.produtos| && t.produtos[i].deletado && t.produtos[i].codigo == dto.codigo
    ensures !ExisteCodigo(t.produtos, dto.codigo, None)
    ensures Criacao(t, dto, agora) == (Failure(DbUpdate(CodigoDuplicado(dto.codigo))), t)
  {
    forall q | q in t.produtos && !q.deletado
      ensures q.codigo != dto.codigo
    {
      var j :| 0 <= j < |t.produtos| && t.produtos[j] == q;
      assert j != i;
    }
    CriarProdutoValidoSse(dto);
    var p := NovoProduto(dto, agora);
    assert Carimbadas([ProdutoAdicionado(p)], agora) == [ProdutoAdicionado(p)];
    assert AplicarEntrada(t, ProdutoAdicionado(p)) == Failure(CodigoDuplicado(dto.codigo));
    assert Aplicar(t, [ProdutoAdicionado(p)]) == Failure(CodigoDuplicado(dto.codigo));
  }

  /** `ObterPorIdAsync` of the service: the mapped product, or nothing. */
  function Consulta(t: Tabelas, id: int): (r: Option<ProdutoResponseDTO>)
    ensures r.None? <==> forall p :: p in t.produtos && p.id == id ==> p.deletado
    ensures Consistente(t) ==>
      forall p :: p in t.produtos && !p.deletado && p.id == id ==> r == Some(ParaResposta(p))
  {
    IdVisivelUnico(t, id);
    match ObterPorId(t.produtos, id)
    case None => None
    case Some(p) => Some(ParaResposta(p))
  }

  /** Under distinct ids, the lookup by id finds every visible row holding it. */
  lemma IdVisivelUnico(t: Tabelas, id: int)
    ensures Consistente(t) ==>
      forall p :: p in t.produtos && !p.deletado && p.id == id ==> ObterPorId(t.produtos, id) == Some(p)
  {
    if Consistente(t) {
      forall p | p in t.produtos && !p.deletado && p.id == id
        ensures ObterPorId(t.produtos, id) == Some(p)
      {
        ObterPorIdUnico(t, p);
      }
    }
  }

  /** A product just created is found under the id it was given, with the
      answer the creation returned. */
  lemma ConsultaVeCriado(t: Tabelas, dto: CriarProdutoDTO, agora: Instante)
    requires Consistente(t) && ValidarCriarProduto(dto) == []
    requires forall p :: p in t.produtos ==> p.codigo != dto.codigo
    ensures Criacao(t, dto, agora).0.Success?
    ensures Consulta(Criacao(t, dto, agora).1, t.proximoId) == Some(Criacao(t, dto, agora).0.value)
  {
    CriacaoComSucesso(t, dto, agora);
    CriarProdutoValidoSse(dto);
    AplicarAdicao(t, NovoProduto(dto, agora));
    var novo := NovoProduto(dto, agora).(id := t.proximoId);
    var t2 := t.(produtos := t.produtos + [novo], proximoId := t.proximoId + 1);
    assert t2.produtos[|t.produtos|] == novo;
    ObterPorIdUnico(t2, novo);
  }

  // ==== Update ====

  /** `AtualizarAsync`: look the product up, replace description and
      balance, stamp the update time, save. */
  function Atualizacao(t: Tabelas, id: int, dto: AtualizarProdutoDTO, agora: Instante)
    : (Result<ProdutoResponseDTO, Excecao>, Tabelas)
  {
    match ObterPorId(t.produtos, id)
    case None => (Failure(ProdutoNaoEncontrado(id)), t)
    case Some(p) =>
      var alterado := p.(descricao := dto.descricao, saldo := dto.saldo, dataAtualizacao := Some(agora));
      match Aplicar(t, Carimbadas([ProdutoModificado(alterado)], agora))
      case Failure(e) => (Failure(DbUpdate(e)), t)
      case Success(t2) => (Success(ParaResposta(alterado)), t2)
  }

  /** An unknown or deleted id: `KeyNotFoundException`, nothing written. */
  lemma AtualizacaoIdDesconhecido(t: Tabelas, id: int, dto: AtualizarProdutoDTO, agora: Instante)
    requires forall p :: p in t.produtos && p.id == id ==> p.deletado
    ensures Atualizacao(t, id, dto, agora) == (Failure(ProdutoNaoEncontrado(id)), t)
  {
  }

  /** A valid update of a visible product replaces only description and
      balance (and the update time); id, code and creation time are kept,
      no other row changes and the ledger is untouched. */
  lemma AtualizacaoMantemIdECodigo(t: Tabelas, dto: AtualizarProdutoDTO, agora: Instante, p: Produto)
    requires Consistente(t) && ValidarAtualizarProduto(dto) == []
    requires p in t.produtos && !p.deletado
    ensures var alterado := p.(descricao := dto.descricao, saldo := dto.saldo, dataAtualizacao := Some(agora));
      && Atualizacao(t, p.id, dto, agora).0
           == Success(ProdutoResponseDTO(p.id, p.codigo, dto.descricao, dto.saldo, p.dataCriacao, Some(agora)))
      && Atualizacao(t, p.id, dto, agora).1 == t.(produtos := Substituir(t.produtos, alterado))
  {
    AtualizarProdutoValidoSse(dto);
    ObterPorIdUnico(t, p);
    var alterado := p.(descricao := dto.descricao, saldo := dto.saldo, dataAtualizacao := Some(agora));
    assert Carimbadas([ProdutoModificado(alterado)], agora) == [ProdutoModificado(alterado)];
    assert |dto.descricao| <= MaxDescricao;
    AplicarModificacao(t, p, alterado);
  }

  /** The save of one modified product that keeps its id and code: the
      row is replaced. */
  lemma AplicarModificacao(t: Tabelas, p: Produto, q: Produto)
    requires Consistente(t) && p in t.produtos
    requires q.id == p.id && q.codigo == p.codigo && |q.descricao| <= MaxDescricao
    ensures AplicarEntrada(t, ProdutoModificado(q)) == Success(t.(produtos := Substituir(t.produtos, q)))
    ensures Aplicar(t, [ProdutoModificado(q)]) == Success(t.(produtos := Substituir(t.produtos, q)))
  {
    LinhaGravavel(t, p);
  }

  // ==== Deletion ====

  /** `DeletarAsync`: refuse a product with invoices; otherwise soft-delete
      the product if there is one. */
  function Delecao(t: Tabelas, id: int, agora: Instante): (Result<bool, Excecao>, Tabelas)
  {
    if ProdutoTemNotasFiscais(id) then (Failure(ProdutoComNotasFiscais(MsgNotasFiscais)), t)
    else
      match ObterPorId(t.produtos, id)
      case None => (Success(false), t)
      case Some(p) =>
        match Aplicar(t, Carimbadas([ProdutoModificado(MarcarDeletado(p, agora))], agora))
        case Failure(e) => (Failure(DbUpdate(e)), t)
        case Success(t2) => (Success(true), t2)
  }

  /** Nothing to delete: the answer is false and nothing is written. */
  lemma DelecaoIdDesconhecido(t: Tabelas, id: int, agora: Instante)
    requires forall p :: p in t.produtos && p.id == id ==> p.deletado
    ensures Delecao(t, id, agora) == (Success(false), t)
  {
  }

  /** Deleting a visible product answers true; the row stays in the table,
      marked deleted at that instant, and no lookup sees it afterwards. */
  lemma DelecaoSuave(t: Tabelas, agora: Instante, p: Produto)
    requires Consistente(t) && p in t.produtos && !p.deletado
    ensures var (r, t2) := Delecao(t, p.id, agora);
      && r == Success(true)
      && |t2.produtos| == |t.produtos| && t2.operacoes == t.operacoes
      && MarcarDeletado(p, agora).(dataAtualizacao := Some(agora)) in t2.produtos
      && ObterPorId(t2.produtos, p.id).None?
      && !ExisteCodigo(t2.produtos, p.codigo, None)
  {
    ObterPorIdUnico(t, p);
    var q := MarcarDeletado(p, agora).(dataAtualizacao := Some(agora));
    assert Carimbadas([ProdutoModificado(MarcarDeletado(p, agora))], agora) == [ProdutoModificado(q)];
    AplicarModificacao(t, p, q);
    DelecaoEscondeLinha(t, q);
  }

  // ==== Listing ====

  /** `(int)Math.Ceiling(total / (double)pageSize)`: the smallest number of
      pages of `pageSize` rows that holds `total` rows. */
  function TotalPaginas(total: nat, pageSize: int): (r: nat)
    requires pageSize >= 1
    ensures total <= r * pageSize
    ensures r > 0 ==> (r - 1) * pageSize < total
  {
    var q := (total + pageSize - 1) / pageSize;
    assert q * pageSize + (total + pageSize - 1) % pageSize == total + pageSize - 1;
    assert (q - 1) * pageSize == q * pageSize - pageSize;
    q
  }

  /** `ObterTodosAsync` of the service: the repository's page, mapped, with
      the total and the page count. */
  function Listagem(t: Tabelas, pageNumber: int, pageSize: int, ordenacao: Option<string>, busca: Option<string>)
    : (r: ProdutosPaginadosDTO)
    requires pageNumber >= 1 && pageSize >= 1
    ensures |r.items| <= pageSize && r.pageNumber == pageNumber && r.pageSize == pageSize
    ensures r.totalItems == |Filtrar(Visiveis(t.produtos), busca)|
    ensures r.totalPages == TotalPaginas(r.totalItems, pageSize)
    ensures r.totalItems <= r.totalPages * pageSize
    ensures r.items == ParaRespostas(ObterTodos(t.produtos, pageNumber, pageSize, ordenacao, busca).items)
  {
    ObterTodosTotal(t.produtos, pageNumber, pageSize, ordenacao, busca);
    var pagina := ObterTodos(t.produtos, pageNumber, pageSize, ordenacao, busca);
    ProdutosPaginadosDTO(ParaRespostas(pagina.items), pagina.total, pageNumber, pageSize,
                         TotalPaginas(pagina.total, pageSize))
  }

  lemma MultiplicacaoMonotona(a: int, b: int, s: int)
    requires a <= b && s >= 0
    ensures a * s <= b * s
  {
    assert b * s - a * s == (b - a) * s;
  }

  /** A page is empty exactly when its number is past the page count. */
  lemma PaginaVaziaSse(t: Tabelas, pageNumber: int, pageSize: int, ordenacao: Option<string>, busca: Option<string>)
    requires pageNumber >= 1 && pageSize >= 1
    ensures var r := Listagem(t, pageNumber, pageSize, ordenacao, busca);
      r.items == [] <==> pageNumber > r.totalPages
  {
    var pagina := ObterTodos(t.produtos, pageNumber, pageSize, ordenacao, busca);
    var ordenados := Ordenar(CriterioDe(ordenacao), Filtrar(Visiveis(t.produtos), busca));
    assert pagina.items == Paginar(ordenados, pageNumber, pageSize);
    assert |ordenados| == pagina.total;
    assert pagina.items == [] <==> (pageNumber - 1) * pageSize >= pagina.total;
    AlemDaUltimaPagina(pagina.total, pageNumber, pageSize);
  }

  /** The first row of page `pageNumber` lies past the rows exactly when
      the page number is past the page count. */
  lemma AlemDaUltimaPagina(total: nat, pageNumber: int, pageSize: int)
    requires pageNumber >= 1 && pageSize >= 1
    ensures (pageNumber - 1) * pageSize >= total <==> pageNumber > TotalPaginas(total, pageSize)
  {
    var n := TotalPaginas(total, pageSize);
    if pageNumber > n {
      MultiplicacaoMonotona(n, pageNumber - 1, pageSize);
    } else {
      MultiplicacaoMonotona(pageNumber - 1, n - 1, pageSize);
    }
  }

  // ==== The service ====

  class ProdutoService {
    const uow: UnitOfWork

    constructor (uow: UnitOfWork)
      ensures this.uow == uow
    {
      this.uow := uow;
    }

    ghost predicate Valid()
      reads this, uow, uow.contexto
    {
      uow.Valid()
    }

    /** The context of a new request: nothing tracked, no transaction. */
    ghost predicate Ocioso()
      reads this, uow, uow.contexto
    {
      uow.contexto.rastreadas == [] && uow.contexto.transacaoAtual.None?
    }

    method CriarAsync(dto: CriarProdutoDTO, agora: Instante) returns (r: Result<ProdutoResponseDTO, Excecao>)
      requires Valid() && Ocioso()
      modifies uow.contexto`tabelas, uow.contexto`rastreadas
      ensures Valid()
      ensures (r, uow.contexto.tabelas) == Criacao(old(uow.contexto.tabelas), dto, agora)
    {
      if ExisteCodigo(uow.contexto.tabelas.produtos, dto.codigo, None) {
        r := Failure(CodigoJaExiste(MensagemCodigoExistente(dto.codigo)));
      } else {
        var produto := NovoProduto(dto, agora);
        var id := uow.contexto.tabelas.proximoId;
        uow.produtos.Adicionar(produto);
        assert uow.contexto.rastreadas == [ProdutoAdicionado(produto)];
        var salvo := uow.Complete(agora);
        if salvo.Success? {
          r := Success(ParaResposta(produto.(id := id)));
        } else {
          r := Failure(salvo.error);
        }
      }
    }

    method AtualizarAsync(id: int, dto: AtualizarProdutoDTO, agora: Instante) returns (r: Result<ProdutoResponseDTO, Excecao>)
      requires Valid() && Ocioso()
      modifies uow.contexto`tabelas, uow.contexto`rastreadas
      ensures Valid()
      ensures (r, uow.contexto.tabelas) == Atualizacao(old(uow.contexto.tabelas), id, dto, agora)
    {
      var encontrado := ObterPorId(uow.contexto.tabelas.produtos, id);
      if encontrado.None? {
        r := Failure(ProdutoNaoEncontrado(id));
      } else {
        var produto := encontrado.value.(descricao := dto.descricao, saldo := dto.saldo, dataAtualizacao := Some(agora));
        uow.produtos.Atualizar(produto);
        assert uow.contexto.rastreadas == [ProdutoModificado(produto)];
        var salvo := uow.Complete(agora);
        if salvo.Success? {
          r := Success(ParaResposta(produto));
        } else {
          r := Failure(salvo.error);
        }
      }
    }

    method DeletarAsync(id: int, agora: Instante) returns (r: Result<bool, Excecao>)
      requires Valid() && Ocioso()
      modifies uow.contexto`tabelas, uow.contexto`rastreadas
      ensures Valid()
      ensures (r, uow.contexto.tabelas) == Delecao(old(uow.contexto.tabelas), id, agora)
    {
      var temNotas := ProdutoTemNotasFiscais(id);
      if temNotas {
        r := Failure(ProdutoComNotasFiscais(MsgNotasFiscais));
      } else {
        var encontrado := ObterPorId(uow.contexto.tabelas.produtos, id);
        if encontrado.None? {
          r := Success(false);
        } else {
          var marcado := uow.produtos.Deletar(encontrado.value, agora);
          assert uow.contexto.rastreadas == [ProdutoModificado(marcado)];
          var salvo := uow.Complete(agora);
          if salvo.Success? {
            r := Success(true);
          } else {
            r := Failure(salvo.error);
          }
        }
      }
    }

    /** The deduction runs at most one transaction, and none for a replayed
        key; the manual Begin / Commit / Rollback are never used. */
    method BaixarEstoqueAsync(dto: BaixaEstoqueDTO, falhas: seq<bool>, agora: Instante)
      returns (r: Result<BaixaEstoqueResultDTO, Excecao>)
      requires Valid() && Ocioso()
      modifies uow`execucoes, uow.contexto`tabelas, uow.contexto`rastreadas, uow.contexto`transacaoAtual
      ensures Valid()
      ensures (r, uow.contexto.tabelas) == Baixa(old(uow.contexto.tabelas), dto, falhas, agora)
      ensures uow.execucoes == old(uow.execucoes) + (if dto.idempotencyKey in old(uow.contexto.tabelas.operacoes) then 0 else 1)
      ensures uow.chamadasManuais == old(uow.chamadasManuais)
    {
      ghost var t := uow.contexto.tabelas;
      var registro := ObterPorChave(uow.contexto.tabelas, dto.idempotencyKey);
      if registro.Some? {
        var produto := ObterPorCodigo(uow.contexto.tabelas.produtos, dto.codigoProduto);
        var saldo: Int64 := if produto.Some? then produto.value.saldo else 0;
        r := Success(BaixaEstoqueResultDTO(true, MsgJaProcessada, saldo));
      } else {
        var resultado := uow.ExecuteInTransaction(UnidadeBaixa(dto, agora), falhas, agora);
        assert (resultado, uow.contexto.tabelas) == Execucao(UnidadeBaixa(dto, agora), t, [], falhas, agora, 0);
        r := Responder(resultado);
      }
    }
  }
}
