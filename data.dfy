/** EstoqueDbContext: the two tables, the constraints the model builder
    declares for them, the change tracker that collects staged writes, the
    timestamp hook that runs before every save, and the database
    transaction that a save may run inside. */
module Data {
  import opened Wrappers
  import opened Domain

  // varchar(n) limits of the schema; Postgres counts characters.
  const MaxCodigo: nat := 50
  const MaxDescricao: nat := 200
  const MaxChave: nat := 100
  const MaxTipoOperacao: nat := 50
  const MaxResultado: nat := 2000

  /** A change-tracker entry: an entity in Added or Modified state. */
  datatype Entrada =
    | ProdutoAdicionado(produto: Produto)
    | ProdutoModificado(produto: Produto)
    | OperacaoAdicionada(operacao: OperacaoProcessada)

  /** The database: the Produtos rows in identity order (soft-deleted ones
      included), the ledger keyed by its primary key, and the next value of
      the identity column. */
  datatype Tabelas = Tabelas(
    produtos: seq<Produto>,
    operacoes: map<string, OperacaoProcessada>,
    proximoId: int)

  /** `HasQueryFilter(p => !p.Deletado)`: the rows every product query sees. */
  function Visiveis(ps: seq<Produto>): (r: seq<Produto>)
    ensures forall p :: p in r <==> p in ps && !p.deletado
    ensures |r| <= |ps|
  {
    if ps == [] then []
    else (if ps[0].deletado then [] else [ps[0]]) + Visiveis(ps[1..])
  }

  predicate CabeProduto(p: Produto)
  {
    |p.codigo| <= MaxCodigo && |p.descricao| <= MaxDescricao
  }

  predicate CabeOperacao(o: OperacaoProcessada)
  {
    |o.idempotencyKey| <= MaxChave && |o.tipoOperacao| <= MaxTipoOperacao && |o.resultado| <= MaxResultado
  }

  /** What the schema guarantees of every stored state: distinct ids below
      the identity counter, a code index that is unique over the whole table
      (soft-deleted rows included), column lengths, and a ledger whose
      records sit under their own key. */
  predicate Consistente(t: Tabelas)
  {
    && (forall i, j :: 0 <= i < j < |t.produtos| ==>
          t.produtos[i].id != t.produtos[j].id && t.produtos[i].codigo != t.produtos[j].codigo)
    && (forall i :: 0 <= i < |t.produtos| ==> t.produtos[i].id < t.proximoId && CabeProduto(t.produtos[i]))
    && (forall k :: k in t.operacoes ==> t.operacoes[k].idempotencyKey == k && CabeOperacao(t.operacoes[k]))
  }

  predicate TemId(ps: seq<Produto>, id: int)
  {
    exists i :: 0 <= i < |ps| && ps[i].id == id
  }

  /** Some row other than `id` already holds `codigo`. */
  predicate CodigoEmUso(ps: seq<Produto>, codigo: string, id: int)
  {
    exists i :: 0 <= i < |ps| && ps[i].codigo == codigo && ps[i].id != id
  }

  /** `UPDATE ... WHERE Id = p.Id`: every column of that row takes p's value. */
  function Substituir(ps: seq<Produto>, p: Produto): seq<Produto>
  {
    seq(|ps|, i requires 0 <= i < |ps| => if ps[i].id == p.id then p else ps[i])
  }

  /** The statement one tracker entry sends, or the error it meets. */
  function AplicarEntrada(t: Tabelas, e: Entrada): Result<Tabelas, ErroBanco>
  {
    match e
    case ProdutoAdicionado(p) =>
      if |p.codigo| > MaxCodigo then Failure(ValorMuitoLongo("Codigo"))
      else if |p.descricao| > MaxDescricao then Failure(ValorMuitoLongo("Descricao"))
      else if exists i :: 0 <= i < |t.produtos| && t.produtos[i].codigo == p.codigo then Failure(CodigoDuplicado(p.codigo))
      else Success(t.(produtos := t.produtos + [p.(id := t.proximoId)], proximoId := t.proximoId + 1))
    case ProdutoModificado(p) =>
      if !TemId(t.produtos, p.id) then Failure(LinhaInexistente(p.id))
      else if |p.codigo| > MaxCodigo then Failure(ValorMuitoLongo("Codigo"))
      else if |p.descricao| > MaxDescricao then Failure(ValorMuitoLongo("Descricao"))
      else if CodigoEmUso(t.produtos, p.codigo, p.id) then Failure(CodigoDuplicado(p.codigo))
      else Success(t.(produtos := Substituir(t.produtos, p)))
    case OperacaoAdicionada(o) =>
      if |o.idempotencyKey| > MaxChave then Failure(ValorMuitoLongo("IdempotencyKey"))
      else if |o.tipoOperacao| > MaxTipoOperacao then Failure(ValorMuitoLongo("TipoOperacao"))
      else if |o.resultado| > MaxResultado then Failure(ValorMuitoLongo("Resultado"))
      else if o.idempotencyKey in t.operacoes then Failure(ChaveDuplicada(o.idempotencyKey))
      else Success(t.(operacoes := t.operacoes[o.idempotencyKey := o]))
  }

  /** `base.SaveChanges()`: the entries' statements in one database
      transaction; the first error aborts the whole batch. */
  function Aplicar(t: Tabelas, es: seq<Entrada>): Result<Tabelas, ErroBanco>
    decreases |es|
  {
    if es == [] then Success(t)
    else match AplicarEntrada(t, es[0])
      case Failure(e) => Failure(e)
      case Success(t1) => Aplicar(t1, es[1..])
  }

  /** What `AtualizarTimestamps` does to one entry. */
  function Carimbar(e: Entrada, agora: Instante): Entrada
  {
    if e.ProdutoModificado? then ProdutoModificado(e.produto.(dataAtualizacao := Some(agora))) else e
  }

  function Carimbadas(es: seq<Entrada>, agora: Instante): seq<Entrada>
  {
    seq(|es|, i requires 0 <= i < |es| => Carimbar(es[i], agora))
  }

  // ---- Properties of the save ----

  /** The hook on a two-entry tracker stamps each entry on its own. */
  lemma CarimbadasDuas(a: Entrada, b: Entrada, agora: Instante)
    ensures Carimbadas([a, b], agora) == [Carimbar(a, agora), Carimbar(b, agora)]
  {
  }

  /** Only products in Modified state are stamped, with the save's instant
      and no other change; Added products and ledger records are untouched. */
  lemma CarimboSoEmModificados(es: seq<Entrada>, agora: Instante, i: int)
    requires 0 <= i < |es|
    ensures |Carimbadas(es, agora)| == |es|
    ensures es[i].ProdutoModificado? ==>
      Carimbadas(es, agora)[i] == ProdutoModificado(es[i].produto.(dataAtualizacao := Some(agora)))
    ensures !es[i].ProdutoModificado? ==> Carimbadas(es, agora)[i] == es[i]
  {
  }

  lemma SubstituirConsistente(t: Tabelas, p: Produto)
    requires Consistente(t) && TemId(t.produtos, p.id) && CabeProduto(p)
    requires !CodigoEmUso(t.produtos, p.codigo, p.id)
    ensures Consistente(t.(produtos := Substituir(t.produtos, p)))
  {
    var ps := t.produtos;
    var qs := Substituir(ps, p);
    forall i, j | 0 <= i < j < |qs| ensures qs[i].id != qs[j].id && qs[i].codigo != qs[j].codigo {
      if ps[i].id == p.id {
        assert ps[j].id != p.id;
        assert ps[j].codigo != p.codigo;
      } else if ps[j].id == p.id {
        assert ps[i].codigo != p.codigo;
      }
    }
    forall i | 0 <= i < |qs| ensures qs[i].id < t.proximoId {
      if ps[i].id == p.id {
        var k :| 0 <= k < |ps| && ps[k].id == p.id;
        assert ps[k].id < t.proximoId;
      }
    }
  }

  /** A stored row can be written back under its own id: the row exists
      and no other row holds its code. */
  lemma LinhaGravavel(t: Tabelas, p: Produto)
    requires Consistente(t) && p in t.produtos
    ensures TemId(t.produtos, p.id) && !CodigoEmUso(t.produtos, p.codigo, p.id) && CabeProduto(p)
  {
    var ps := t.produtos;
    var j :| 0 <= j < |ps| && ps[j] == p;
  }

  /** Every statement that succeeds keeps the schema's guarantees. */
  lemma AplicarEntradaConsistente(t: Tabelas, e: Entrada)
    requires Consistente(t) && AplicarEntrada(t, e).Success?
    ensures Consistente(AplicarEntrada(t, e).value)
  {
    match e
    case ProdutoAdicionado(p) =>
      var qs := t.produtos + [p.(id := t.proximoId)];
      forall i, j | 0 <= i < j < |qs| ensures qs[i].id != qs[j].id && qs[i].codigo != qs[j].codigo {
        if j == |t.produtos| {
          assert qs[i] == t.produtos[i];
        }
      }
    case ProdutoModificado(p) =>
      SubstituirConsistente(t, p);
    case OperacaoAdicionada(o) =>
  }

  /** A save that succeeds leaves a consistent database. */
  lemma {:induction false} AplicarConsistente(t: Tabelas, es: seq<Entrada>)
    requires Consistente(t) && Aplicar(t, es).Success?
    ensures Consistente(Aplicar(t, es).value)
    decreases |es|
  {
    if es != [] {
      AplicarEntradaConsistente(t, es[0]);
      AplicarConsistente(AplicarEntrada(t, es[0]).value, es[1..]);
    }
  }

  /** The ledger is append-only: a successful save keeps every record it
      held, unchanged, and only adds. */
  predicate LedgerEstende(antes: map<string, OperacaoProcessada>, depois: map<string, OperacaoProcessada>)
  {
    forall k :: k in antes ==> k in depois && depois[k] == antes[k]
  }

  lemma {:induction false} AplicarLedgerEstende(t: Tabelas, es: seq<Entrada>)
    requires Aplicar(t, es).Success?
    ensures LedgerEstende(t.operacoes, Aplicar(t, es).value.operacoes)
    decreases |es|
  {
    if es != [] {
      var t1 := AplicarEntrada(t, es[0]).value;
      AplicarLedgerEstende(t1, es[1..]);
    }
  }

  /** A save that succeeds holds every record it inserted. */
  lemma {:induction false} AplicarRegistraChave(t: Tabelas, es: seq<Entrada>, i: int)
    requires 0 <= i < |es| && es[i].OperacaoAdicionada? && Aplicar(t, es).Success?
    ensures es[i].operacao.idempotencyKey in Aplicar(t, es).value.operacoes
    decreases |es|
  {
    var t1 := AplicarEntrada(t, es[0]).value;
    if i == 0 {
      AplicarLedgerEstende(t1, es[1..]);
    } else {
      assert es[1..][i - 1] == es[i];
      AplicarRegistraChave(t1, es[1..], i - 1);
    }
  }

  /** At most one record per key: a save that inserts a key the ledger
      already holds is refused as a whole. */
  lemma {:induction false} ChaveRepetidaRecusada(t: Tabelas, es: seq<Entrada>, i: int)
    requires 0 <= i < |es| && es[i].OperacaoAdicionada?
    requires es[i].operacao.idempotencyKey in t.operacoes
    ensures Aplicar(t, es).Failure?
    decreases |es|
  {
    if i == 0 {
    } else if AplicarEntrada(t, es[0]).Success? {
      var t1 := AplicarEntrada(t, es[0]).value;
      assert LedgerEstende(t.operacoes, t1.operacoes);
      assert es[1..][i - 1] == es[i];
      ChaveRepetidaRecusada(t1, es[1..], i - 1);
    }
  }

  /** The code index covers soft-deleted rows: inserting a product whose
      code a deleted row still holds is refused, although no query sees
      that row. */
  lemma CodigoDeLinhaDeletadaRecusado(t: Tabelas, p: Produto, i: int)
    requires 0 <= i < |t.produtos| && t.produtos[i].deletado && t.produtos[i].codigo == p.codigo
    ensures t.produtos[i] !in Visiveis(t.produtos)
    ensures AplicarEntrada(t, ProdutoAdicionado(p)).Failure?
  {
  }

  /** The database as EF Core sees it through one DbContext. */
  class EstoqueDbContext {
    var tabelas: Tabelas
    var rastreadas: seq<Entrada>
    /** The open database transaction, with the tables as they were when
        it began (what a rollback returns to). */
    var transacaoAtual: Option<Tabelas>

    ghost predicate Valid()
      reads this
    {
      Consistente(tabelas) && (transacaoAtual.Some? ==> Consistente(transacaoAtual.value))
    }

    constructor (inicial: Tabelas)
      requires Consistente(inicial)
      ensures Valid()
      ensures tabelas == inicial && rastreadas == [] && transacaoAtual == None
    {
      tabelas := inicial;
      rastreadas := [];
      transacaoAtual := None;
    }

    /** `DbSet<Produto>` as every query sees it. */
    function Produtos(): seq<Produto>
      reads this
    {
      Visiveis(tabelas.produtos)
    }

    /** `Add`/`Update` on a DbSet: the entries wait for the next save. */
    method Rastrear(es: seq<Entrada>)
      modifies this`rastreadas
      ensures rastreadas == old(rastreadas) + es
    {
      rastreadas := rastreadas + es;
    }

    /** The save hook: stamps `DataAtualizacao` on every product in
        Modified state. */
    method AtualizarTimestamps(agora: Instante)
      modifies this`rastreadas
      ensures rastreadas == Carimbadas(old(rastreadas), agora)
    {
      var i := 0;
      while i < |rastreadas|
        invariant 0 <= i <= |rastreadas| == |old(rastreadas)|
        invariant forall k :: 0 <= k < i ==> rastreadas[k] == Carimbar(old(rastreadas)[k], agora)
        invariant forall k :: i <= k < |rastreadas| ==> rastreadas[k] == old(rastreadas)[k]
      {
        var e := rastreadas[i];
        if e.ProdutoModificado? {
          rastreadas := rastreadas[i := ProdutoModificado(e.produto.(dataAtualizacao := Some(agora)))];
        }
        i := i + 1;
      }
    }

    /** `SaveChangesAsync`: run the hook, then write every entry or none.
        A refused save leaves the tables as they were and the (stamped)
        entries tracked. */
    method SaveChanges(agora: Instante) returns (r: Result<nat, Excecao>)
      requires Valid()
      modifies this`rastreadas, this`tabelas
      ensures Valid()
      ensures match Aplicar(old(tabelas), Carimbadas(old(rastreadas), agora))
        case Success(t) => r == Success(|old(rastreadas)|) && tabelas == t && rastreadas == []
        case Failure(e) => r == Failure(DbUpdate(e)) && tabelas == old(tabelas)
                           && rastreadas == Carimbadas(old(rastreadas), agora)
    {
      AtualizarTimestamps(agora);
      var resultado := Aplicar(tabelas, rastreadas);
      match resultado {
        case Success(t) =>
          AplicarConsistente(tabelas, rastreadas);
          r := Success(|rastreadas|);
          tabelas := t;
          rastreadas := [];
        case Failure(e) =>
          r := Failure(DbUpdate(e));
      }
    }

    /** `Database.BeginTransactionAsync`: refused while one is open. */
    method BeginTransaction() returns (aberta: bool)
      requires Valid()
      modifies this`transacaoAtual
      ensures Valid()
      ensures aberta == old(transacaoAtual).None?
      ensures transacaoAtual == if aberta then Some(tabelas) else old(transacaoAtual)
    {
      aberta := transacaoAtual.None?;
      if aberta {
        transacaoAtual := Some(tabelas);
      }
    }

    /** Commit: what the transaction wrote stays. */
    method CommitTransaction()
      requires Valid() && transacaoAtual.Some?
      modifies this`transacaoAtual
      ensures Valid() && transacaoAtual == None
    {
      transacaoAtual := None;
    }

    /** Rollback: the tables return to their state at Begin. */
    method RollbackTransaction()
      requires Valid() && transacaoAtual.Some?
      modifies this`transacaoAtual, this`tabelas
      ensures Valid() && transacaoAtual == None
      ensures tabelas == old(transacaoAtual).value
    {
      tabelas := transacaoAtual.value;
      transacaoAtual := None;
    }
  }
}
