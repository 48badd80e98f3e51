/** UnitOfWork: one DbContext shared by the two repositories, the save that
    persists what they staged, the manually managed transaction
    (`_transaction`), and `ExecuteInTransactionAsync`, which runs an
    operation, saves and commits inside a database transaction and lets
    the execution strategy retry the whole block after a transient fault. */
module Transactions {
  import opened Wrappers
  import opened Domain
  import opened Data
  import opened Repositories

  /** `EnableRetryOnFailure(maxRetryCount: 3)`: the first attempt and at
      most three retries. */
  const MaxRetryCount: nat := 3

  /** What the operation passed to `ExecuteInTransactionAsync` does when
      run against the tables: throw, or stage entries and produce a value. */
  datatype Etapa<T> = Lancou(excecao: Excecao) | Concluiu(entradas: seq<Entrada>, valor: T)

  /** The fault oracle: attempt `i` loses its connection while saving. */
  predicate Falha(falhas: seq<bool>, i: nat)
  {
    i < |falhas| && falhas[i]
  }

  /** The outcome of one attempt, after its rollback if it failed. */
  datatype Desfecho<T> = Abortou(excecao: Excecao) | Transitoria | Gravou(tabelas: Tabelas, valor: T)

  /** One begin / run / save / commit attempt on tables `t`, with the
      entries `pendentes` already tracked before the call. */
  function Tentativa<T>(op: Tabelas -> Etapa<T>, t: Tabelas, pendentes: seq<Entrada>,
                        falhou: bool, agora: Instante): Desfecho<T>
  {
    match op(t)
    case Lancou(e) => Abortou(e)
    case Concluiu(es, v) =>
      if falhou then Transitoria
      else match Aplicar(t, Carimbadas(pendentes + es, agora))
        case Failure(e) => Abortou(DbUpdate(e))
        case Success(t2) => Gravou(t2, v)
  }

  /** The whole `ExecuteInTransactionAsync`, from attempt `i` on: what it
      returns or throws, and the tables it leaves. Every failed attempt was
      rolled back, so every attempt starts from `t`. */
  function Execucao<T>(op: Tabelas -> Etapa<T>, t: Tabelas, pendentes: seq<Entrada>,
                       falhas: seq<bool>, agora: Instante, i: nat): (Result<T, Excecao>, Tabelas)
    requires i <= MaxRetryCount
    decreases MaxRetryCount - i
  {
    match Tentativa(op, t, pendentes, Falha(falhas, i), agora)
    case Abortou(e) => (Failure(e), t)
    case Gravou(t2, v) => (Success(v), t2)
    case Transitoria =>
      if i == MaxRetryCount then (Failure(LimiteDeTentativas), t)
      else Execucao(op, t, pendentes, falhas, agora, i + 1)
  }

  // ---- Properties of the transaction wrapper ----

  /** All or nothing: a failure leaves the tables exactly as they were; a
      success is the operation's value, and the tables are the ones that
      writing all of its entries (after the pending ones, stamped by the
      hook) produces in one save. */
  lemma {:induction false} ExecucaoTudoOuNada<T>(op: Tabelas -> Etapa<T>, t: Tabelas, pendentes: seq<Entrada>,
                                                 falhas: seq<bool>, agora: Instante, i: nat)
    requires i <= MaxRetryCount
    ensures var (r, t2) := Execucao(op, t, pendentes, falhas, agora, i);
      && (r.Failure? ==> t2 == t)
      && (r.Success? ==>
            && op(t).Concluiu? && r.value == op(t).valor
            && Aplicar(t, Carimbadas(pendentes + op(t).entradas, agora)) == Success(t2))
    decreases MaxRetryCount - i
  {
    if Tentativa(op, t, pendentes, Falha(falhas, i), agora).Transitoria? && i < MaxRetryCount {
      ExecucaoTudoOuNada(op, t, pendentes, falhas, agora, i + 1);
    }
  }

  /** The exception thrown by the operation or by the save is the one that
      leaves the wrapper. */
  lemma {:induction false} ExecucaoRepassaExcecao<T>(op: Tabelas -> Etapa<T>, t: Tabelas, pendentes: seq<Entrada>,
                                                     falhas: seq<bool>, agora: Instante, i: nat)
    requires i <= MaxRetryCount
    ensures op(t).Lancou? ==> Execucao(op, t, pendentes, falhas, agora, i).0 == Failure(op(t).excecao)
    ensures op(t).Concluiu? && Aplicar(t, Carimbadas(pendentes + op(t).entradas, agora)).Failure?
            && !(forall k :: i <= k <= MaxRetryCount ==> Falha(falhas, k)) ==>
      Execucao(op, t, pendentes, falhas, agora, i).0
        == Failure(DbUpdate(Aplicar(t, Carimbadas(pendentes + op(t).entradas, agora)).error))
    decreases MaxRetryCount - i
  {
    if op(t).Concluiu? && Falha(falhas, i) && i < MaxRetryCount {
      ExecucaoRepassaExcecao(op, t, pendentes, falhas, agora, i + 1);
    }
  }

  /** An operation whose entries the database accepts is committed, unless
      every attempt meets a transient fault. */
  lemma {:induction false} ExecucaoGrava<T>(op: Tabelas -> Etapa<T>, t: Tabelas, pendentes: seq<Entrada>,
                                            falhas: seq<bool>, agora: Instante, i: nat)
    requires i <= MaxRetryCount
    requires op(t).Concluiu? && Aplicar(t, Carimbadas(pendentes + op(t).entradas, agora)).Success?
    requires !(forall k :: i <= k <= MaxRetryCount ==> Falha(falhas, k))
    ensures Execucao(op, t, pendentes, falhas, agora, i)
      == (Success(op(t).valor), Aplicar(t, Carimbadas(pendentes + op(t).entradas, agora)).value)
    decreases MaxRetryCount - i
  {
    if Falha(falhas, i) && i < MaxRetryCount {
      ExecucaoGrava(op, t, pendentes, falhas, agora, i + 1);
    }
  }

  /** The retry bound: for an operation that completes, the strategy gives
      up exactly when every one of the 1 + MaxRetryCount saves meets a
      transient fault. */
  lemma {:induction false} LimiteDeTentativasSse<T>(op: Tabelas -> Etapa<T>, t: Tabelas, pendentes: seq<Entrada>,
                                                    falhas: seq<bool>, agora: Instante, i: nat)
    requires i <= MaxRetryCount
    requires op(t).Concluiu?
    ensures Execucao(op, t, pendentes, falhas, agora, i).0 == Failure(LimiteDeTentativas) <==>
      forall k :: i <= k <= MaxRetryCount ==> Falha(falhas, k)
    decreases MaxRetryCount - i
  {
    if Falha(falhas, i) && i < MaxRetryCount {
      LimiteDeTentativasSse(op, t, pendentes, falhas, agora, i + 1);
    }
  }

  /** With no transient fault the wrapper is one attempt. */
  lemma SemFalhasUmaTentativa<T>(op: Tabelas -> Etapa<T>, t: Tabelas, pendentes: seq<Entrada>,
                                 falhas: seq<bool>, agora: Instante)
    requires !Falha(falhas, 0)
    ensures Execucao(op, t, pendentes, falhas, agora, 0) ==
      match Tentativa(op, t, pendentes, false, agora)
      case Abortou(e) => (Failure(e), t)
      case Gravou(t2, v) => (Success(v), t2)
      case Transitoria => (Failure(LimiteDeTentativas), t)
  {
  }

  /** The wrapper keeps the schema's guarantees and the ledger append-only. */
  lemma ExecucaoPreserva<T>(op: Tabelas -> Etapa<T>, t: Tabelas, pendentes: seq<Entrada>,
                            falhas: seq<bool>, agora: Instante)
    requires Consistente(t)
    ensures Consistente(Execucao(op, t, pendentes, falhas, agora, 0).1)
    ensures LedgerEstende(t.operacoes, Execucao(op, t, pendentes, falhas, agora, 0).1.operacoes)
  {
    ExecucaoTudoOuNada(op, t, pendentes, falhas, agora, 0);
    var (r, t2) := Execucao(op, t, pendentes, falhas, agora, 0);
    if r.Success? {
      AplicarConsistente(t, Carimbadas(pendentes + op(t).entradas, agora));
      AplicarLedgerEstende(t, Carimbadas(pendentes + op(t).entradas, agora));
    }
  }

  class UnitOfWork {
    const contexto: EstoqueDbContext
    const produtos: ProdutoRepository
    const operacoes: OperacaoRepository
    /** `_transaction != null`: a manually begun transaction is open. */
    var transacao: bool
    /** How many times `ExecuteInTransactionAsync` has been called. */
    ghost var execucoes: nat
    /** How many times the manual Begin / Commit / Rollback were called. */
    ghost var chamadasManuais: nat

    ghost predicate Valid()
      reads this, contexto
    {
      && produtos.contexto == contexto && operacoes.contexto == contexto
      && contexto.Valid()
      && (transacao ==> contexto.transacaoAtual.Some?)
    }

    constructor (contexto: EstoqueDbContext, produtos: ProdutoRepository, operacoes: OperacaoRepository)
      requires contexto.Valid() && contexto.transacaoAtual.None?
      requires produtos.contexto == contexto && operacoes.contexto == contexto
      ensures Valid() && !transacao && execucoes == 0 && chamadasManuais == 0
      ensures this.contexto == contexto && this.produtos == produtos && this.operacoes == operacoes
    {
      this.contexto := contexto;
      this.produtos := produtos;
      this.operacoes := operacoes;
      transacao := false;
      execucoes := 0;
      chamadasManuais := 0;
    }

    /** `CompleteAsync`: the context's save. */
    method Complete(agora: Instante) returns (r: Result<nat, Excecao>)
      requires Valid()
      modifies contexto`rastreadas, contexto`tabelas
      ensures Valid()
      ensures match Aplicar(old(contexto.tabelas), Carimbadas(old(contexto.rastreadas), agora))
        case Success(t) => r == Success(|old(contexto.rastreadas)|) && contexto.tabelas == t && contexto.rastreadas == []
        case Failure(e) => r == Failure(DbUpdate(e)) && contexto.tabelas == old(contexto.tabelas)
    {
      r := contexto.SaveChanges(agora);
    }

    /** `BeginTransactionAsync`: opens `_transaction`; the database refuses
        a second transaction while one is open. */
    method BeginTransaction() returns (erro: Option<Excecao>)
      requires Valid()
      modifies this`transacao, this`chamadasManuais, contexto`transacaoAtual
      ensures Valid() && chamadasManuais == old(chamadasManuais) + 1
      ensures old(contexto.transacaoAtual).None? ==>
        erro.None? && transacao && contexto.transacaoAtual == Some(contexto.tabelas)
      ensures old(contexto.transacaoAtual).Some? ==>
        erro == Some(TransacaoJaAberta) && transacao == old(transacao)
        && contexto.transacaoAtual == old(contexto.transacaoAtual)
    {
      chamadasManuais := chamadasManuais + 1;
      var aberta := contexto.BeginTransaction();
      if aberta {
        transacao := true;
        erro := None;
      } else {
        erro := Some(TransacaoJaAberta);
      }
    }

    /** `CommitAsync`: commits `_transaction` if there is one and clears it
        in every case. A commit the database fails (`falha`) writes
        nothing and its exception leaves the method. */
    method Commit(falha: bool) returns (erro: Option<Excecao>)
      requires Valid()
      modifies this`transacao, this`chamadasManuais, contexto`transacaoAtual, contexto`tabelas
      ensures Valid() && !transacao && chamadasManuais == old(chamadasManuais) + 1
      ensures !old(transacao) ==> erro.None? && unchanged(contexto)
      ensures old(transacao) && !falha ==>
        erro.None? && contexto.tabelas == old(contexto.tabelas) && contexto.transacaoAtual.None?
      ensures old(transacao) && falha ==>
        erro == Some(FalhaNoCommit) && contexto.tabelas == old(contexto.transacaoAtual).value
        && contexto.transacaoAtual.None?
    {
      chamadasManuais := chamadasManuais + 1;
      erro := None;
      if transacao {
        if falha {
          contexto.RollbackTransaction();
          erro := Some(FalhaNoCommit);
        } else {
          contexto.CommitTransaction();
        }
        transacao := false;
      }
    }

    /** `RollbackAsync`: rolls `_transaction` back if there is one and
        clears it; with none open it does nothing. */
    method Rollback()
      requires Valid()
      modifies this`transacao, this`chamadasManuais, contexto`transacaoAtual, contexto`tabelas
      ensures Valid() && !transacao && chamadasManuais == old(chamadasManuais) + 1
      ensures !old(transacao) ==> unchanged(contexto)
      ensures old(transacao) ==>
        contexto.tabelas == old(contexto.transacaoAtual).value && contexto.transacaoAtual.None?
    {
      chamadasManuais := chamadasManuais + 1;
      if transacao {
        contexto.RollbackTransaction();
        transacao := false;
      }
    }

    /** `ExecuteInTransactionAsync(op)`: under the execution strategy,
        begin a transaction, run `op`, save, commit; on any exception roll
        back and rethrow, and let the strategy start over after a
        transient fault. The model discards what a failed attempt staged. */
    method ExecuteInTransaction<T>(op: Tabelas -> Etapa<T>, falhas: seq<bool>, agora: Instante)
      returns (r: Result<T, Excecao>)
      requires Valid()
      modifies this`execucoes, contexto`tabelas, contexto`rastreadas, contexto`transacaoAtual
      ensures Valid() && execucoes == old(execucoes) + 1
      ensures old(contexto.transacaoAtual).Some? ==> r == Failure(TransacaoJaAberta) && unchanged(contexto)
      ensures old(contexto.transacaoAtual).None? ==>
        && (r, contexto.tabelas) == Execucao(op, old(contexto.tabelas), old(contexto.rastreadas), falhas, agora, 0)
        && contexto.transacaoAtual.None?
        && contexto.rastreadas == (if r.Success? then [] else old(contexto.rastreadas))
    {
      execucoes := execucoes + 1;
      if contexto.transacaoAtual.Some? {
        return Failure(TransacaoJaAberta);
      }
      var pendentes := contexto.rastreadas;
      ghost var t0 := contexto.tabelas;
      var tentativa: nat := 0;
      while true
        invariant tentativa <= MaxRetryCount && Valid() && !transacao && execucoes == old(execucoes) + 1
        invariant contexto.transacaoAtual.None?
        invariant contexto.tabelas == t0 && contexto.rastreadas == pendentes
        invariant Execucao(op, t0, pendentes, falhas, agora, tentativa) == Execucao(op, t0, pendentes, falhas, agora, 0)
        decreases MaxRetryCount - tentativa
      {
        var _ := contexto.BeginTransaction();
        match op(contexto.tabelas) {
          case Lancou(e) =>
            assert Execucao(op, t0, pendentes, falhas, agora, tentativa) == (Failure(e), t0);
            contexto.RollbackTransaction();
            return Failure(e);
          case Concluiu(es, v) =>
            contexto.Rastrear(es);
            if Falha(falhas, tentativa) {
              // The connection drops during the save: the transaction is
              // rolled back, and the strategy retries while it may.
              contexto.RollbackTransaction();
              contexto.rastreadas := pendentes;
              if tentativa == MaxRetryCount {
                assert Execucao(op, t0, pendentes, falhas, agora, tentativa) == (Failure(LimiteDeTentativas), t0);
                return Failure(LimiteDeTentativas);
              }
              tentativa := tentativa + 1;
            } else {
              var salvo := Complete(agora);
              if salvo.Failure? {
                contexto.RollbackTransaction();
                contexto.rastreadas := pendentes;
                assert Execucao(op, t0, pendentes, falhas, agora, tentativa) == (Failure(salvo.error), t0);
                return Failure(salvo.error);
              }
              contexto.CommitTransaction();
              assert Execucao(op, t0, pendentes, falhas, agora, tentativa) == (Success(v), contexto.tabelas);
              return Success(v);
            }
        }
      }
    }
  }
}
