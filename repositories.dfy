/** ProdutoRepository and OperacaoRepository: the queries over the product
    table (every one behind the not-deleted filter), the listing's
    filter / order / page pipeline, and the writes, which only stage
    entries in the change tracker until the unit of work saves. */
module Repositories {
  import opened Wrappers
  import opened Domain
  import opened Strings
  import opened Data

  // ---- Lookups ----

  /** `FirstOrDefault(casa)` over rows in table order; `AnyAsync` is `.Some?`. */
  function Primeiro(ps: seq<Produto>, casa: Produto -> bool): (r: Option<Produto>)
    ensures r.Some? ==> r.value in ps && casa(r.value)
    ensures r.None? <==> forall p :: p in ps ==> !casa(p)
  {
    if ps == [] then None
    else if casa(ps[0]) then Some(ps[0])
    else Primeiro(ps[1..], casa)
  }

  /** `ObterPorCodigoAsync`: a visible product with that code, if any. */
  function ObterPorCodigo(ps: seq<Produto>, codigo: string): (r: Option<Produto>)
    ensures r.Some? ==> r.value in ps && !r.value.deletado && r.value.codigo == codigo
    ensures r.None? <==> forall p :: p in ps && p.codigo == codigo ==> p.deletado
  {
    Primeiro(Visiveis(ps), (p: Produto) => p.codigo == codigo)
  }

  /** `ObterPorIdAsync` (`Find` on a context that tracks nothing yet, so the
      query, with its filter, decides). */
  function ObterPorId(ps: seq<Produto>, id: int): (r: Option<Produto>)
    ensures r.Some? ==> r.value in ps && !r.value.deletado && r.value.id == id
    ensures r.None? <==> forall p :: p in ps && p.id == id ==> p.deletado
  {
    Primeiro(Visiveis(ps), (p: Produto) => p.id == id)
  }

  /** `ExisteCodigoAsync(codigo, excludeId)`. */
  function ExisteCodigo(ps: seq<Produto>, codigo: string, excludeId: Option<int>): (r: bool)
    ensures r <==> exists p :: p in ps && !p.deletado && p.codigo == codigo
                              && (excludeId.None? || p.id != excludeId.value)
  {
    Primeiro(Visiveis(ps), (p: Produto) => p.codigo == codigo && (excludeId.None? || p.id != excludeId.value)).Some?
  }

  /** `ProdutoTemNotasFiscaisAsync`: the call to the billing service is not
      written yet; every product may be deleted. */
  function ProdutoTemNotasFiscais(id: int): (r: bool)
    ensures !r
  {
    false
  }

  /** Under the unique code index the lookup by code finds THE product
      that holds the code, whichever row the scan meets first. */
  lemma ObterPorCodigoUnico(t: Tabelas, p: Produto)
    requires Consistente(t) && p in t.produtos && !p.deletado
    ensures ObterPorCodigo(t.produtos, p.codigo) == Some(p)
  {
    var q := ObterPorCodigo(t.produtos, p.codigo).value;
    var i :| 0 <= i < |t.produtos| && t.produtos[i] == q;
    var j :| 0 <= j < |t.produtos| && t.produtos[j] == p;
    assert i == j;
  }

  /** The same for the lookup by id, under distinct identity values. */
  lemma ObterPorIdUnico(t: Tabelas, p: Produto)
    requires Consistente(t) && p in t.produtos && !p.deletado
    ensures ObterPorId(t.produtos, p.id) == Some(p)
  {
    var q := ObterPorId(t.produtos, p.id).value;
    var i :| 0 <= i < |t.produtos| && t.produtos[i] == q;
    var j :| 0 <= j < |t.produtos| && t.produtos[j] == p;
    assert i == j;
  }

  // ---- Soft delete ----

  /** What `Deletar` does to the entity before staging it. */
  function MarcarDeletado(p: Produto, agora: Instante): (r: Produto)
    ensures r.deletado && r.dataDelecao == Some(agora)
    ensures r.(deletado := p.deletado, dataDelecao := p.dataDelecao) == p
  {
    p.(deletado := true, dataDelecao := Some(agora))
  }

  /** A saved soft delete keeps the row in the table under its id, and no
      lookup finds it any more: not by id, not by code, and its code no
      longer counts as existing. */
  lemma DelecaoEscondeLinha(t: Tabelas, q: Produto)
    requires Consistente(t) && q.deletado
    requires AplicarEntrada(t, ProdutoModificado(q)).Success?
    ensures var t2 := AplicarEntrada(t, ProdutoModificado(q)).value;
      && q in t2.produtos
      && ObterPorId(t2.produtos, q.id).None?
      && ObterPorCodigo(t2.produtos, q.codigo).None?
      && !ExisteCodigo(t2.produtos, q.codigo, None)
  {
    var ps := t.produtos;
    var qs := Substituir(ps, q);
    var k :| 0 <= k < |ps| && ps[k].id == q.id;
    assert qs[k] == q;
    forall p | p in qs && (p.id == q.id || p.codigo == q.codigo) ensures p.deletado {
      var i :| 0 <= i < |qs| && qs[i] == p;
      if ps[i].id != q.id {
        assert !CodigoEmUso(ps, q.codigo, q.id);
      }
    }
  }

  // ---- Listing: filter ----

  /** The search condition: code or description contains the text. */
  predicate CasaBusca(texto: string, p: Produto)
  {
    Contem(p.codigo, texto) || Contem(p.descricao, texto)
  }

  /** A null or blank search filters nothing. */
  predicate BuscaAtiva(busca: Option<string>)
  {
    busca.Some? && !EmBranco(busca.value)
  }

  /** `Where(... Like(Codigo, %busca%) || Like(Descricao, %busca%))`. */
  function Selecionar(ps: seq<Produto>, texto: string): (r: seq<Produto>)
    ensures |r| <= |ps|
    ensures forall p :: p in r <==> p in ps && CasaBusca(texto, p)
  {
    if ps == [] then []
    else (if CasaBusca(texto, ps[0]) then [ps[0]] else []) + Selecionar(ps[1..], texto)
  }

  function Filtrar(ps: seq<Produto>, busca: Option<string>): (r: seq<Produto>)
    ensures |r| <= |ps|
    ensures !BuscaAtiva(busca) ==> r == ps
    ensures forall p :: p in r <==> p in ps && (!BuscaAtiva(busca) || CasaBusca(busca.value, p))
  {
    if BuscaAtiva(busca) then Selecionar(ps, busca.value) else ps
  }

  // ---- Listing: order ----

  datatype Ordenacao = PorDescricao | MaisRecentes | MaisAtualizados

  /** `ordenacao?.ToLower() switch`: "alfabetico" and every unknown or
      missing key order by description. */
  function CriterioDe(ordenacao: Option<string>): (r: Ordenacao)
    ensures r == MaisRecentes <==> ordenacao.Some? && Minusculas(ordenacao.value) == "recente"
    ensures r == MaisAtualizados <==> ordenacao.Some? && Minusculas(ordenacao.value) == "atualizado"
  {
    if ordenacao.None? then PorDescricao
    else
      var chave := Minusculas(ordenacao.value);
      if chave == "alfabetico" then PorDescricao
      else if chave == "recente" then MaisRecentes
      else if chave == "atualizado" then MaisAtualizados
      else PorDescricao
  }

  /** "recente" selects the newest-first order in any mix of cases. */
  lemma RecenteEmQualquerCaixa(s: string)
    ensures CriterioDe(Some(s)) == MaisRecentes
      <==> |s| == 7 && forall i :: 0 <= i < |s| ==> s[i] == "recente"[i] || s[i] == "RECENTE"[i]
  {
    MinusculasIgualSse(s, "recente", "RECENTE");
  }

  /** "atualizado" selects the last-changed-first order in any mix of cases. */
  lemma AtualizadoEmQualquerCaixa(s: string)
    ensures CriterioDe(Some(s)) == MaisAtualizados
      <==> |s| == 10 && forall i :: 0 <= i < |s| ==> s[i] == "atualizado"[i] || s[i] == "ATUALIZADO"[i]
  {
    MinusculasIgualSse(s, "atualizado", "ATUALIZADO");
  }

  /** Ordinal string order. */
  predicate LexMenorIgual(a: string, b: string)
  {
    a == [] || (b != [] && (a[0] < b[0] || (a[0] == b[0] && LexMenorIgual(a[1..], b[1..]))))
  }

  /** `DataAtualizacao ?? DataCriacao`. */
  function UltimaAlteracao(p: Produto): Instante
  {
    if p.dataAtualizacao.Some? then p.dataAtualizacao.value else p.dataCriacao
  }

  /** `a` may be listed before `b`. */
  predicate Precede(o: Ordenacao, a: Produto, b: Produto)
  {
    match o
    case PorDescricao => LexMenorIgual(a.descricao, b.descricao)
    case MaisRecentes => a.dataCriacao >= b.dataCriacao
    case MaisAtualizados => UltimaAlteracao(a) >= UltimaAlteracao(b)
  }

  lemma {:induction false} LexTotal(a: string, b: string)
    ensures LexMenorIgual(a, b) || LexMenorIgual(b, a)
    decreases |a|
  {
    if a != [] && b != [] && a[0] == b[0] {
      LexTotal(a[1..], b[1..]);
    }
  }

  lemma {:induction false} LexTransitiva(a: string, b: string, c: string)
    requires LexMenorIgual(a, b) && LexMenorIgual(b, c)
    ensures LexMenorIgual(a, c)
    decreases |a|
  {
    if a != [] && a[0] == b[0] && b[0] == c[0] {
      LexTransitiva(a[1..], b[1..], c[1..]);
    }
  }

  lemma PrecedeTotal(o: Ordenacao, a: Produto, b: Produto)
    ensures Precede(o, a, b) || Precede(o, b, a)
  {
    if o.PorDescricao? {
      LexTotal(a.descricao, b.descricao);
    }
  }

  lemma PrecedeTransitiva(o: Ordenacao, a: Produto, b: Produto, c: Produto)
    requires Precede(o, a, b) && Precede(o, b, c)
    ensures Precede(o, a, c)
  {
    if o.PorDescricao? {
      LexTransitiva(a.descricao, b.descricao, c.descricao);
    }
  }

  predicate Ordenada(o: Ordenacao, s: seq<Produto>)
  {
    forall i, j :: 0 <= i < j < |s| ==> Precede(o, s[i], s[j])
  }

  /** One step of the ORDER BY, as an insertion. */
  function Inserir(o: Ordenacao, x: Produto, s: seq<Produto>): (r: seq<Produto>)
    ensures |r| == |s| + 1
    ensures forall p :: p in r <==> p in s || p == x
    ensures multiset(r) == multiset(s) + multiset{x}
  {
    if s == [] then [x]
    else if Precede(o, x, s[0]) then [x] + s
    else
      assert s == [s[0]] + s[1..];
      [s[0]] + Inserir(o, x, s[1..])
  }

  /** The ORDER BY: the same rows, rearranged. */
  function Ordenar(o: Ordenacao, xs: seq<Produto>): (r: seq<Produto>)
    ensures |r| == |xs|
    ensures forall p :: p in r <==> p in xs
    ensures multiset(r) == multiset(xs)
  {
    if xs == [] then []
    else
      assert xs == [xs[0]] + xs[1..];
      Inserir(o, xs[0], Ordenar(o, xs[1..]))
  }

  lemma {:induction false} InserirOrdenada(o: Ordenacao, x: Produto, s: seq<Produto>)
    requires Ordenada(o, s)
    ensures Ordenada(o, Inserir(o, x, s))
    decreases |s|
  {
    if s == [] {
    } else if Precede(o, x, s[0]) {
      var r := [x] + s;
      forall i, j | 0 <= i < j < |r| ensures Precede(o, r[i], r[j]) {
        if i == 0 && j > 1 {
          PrecedeTransitiva(o, x, s[0], s[j - 1]);
        }
      }
    } else {
      InserirOrdenada(o, x, s[1..]);
      PrecedeTotal(o, x, s[0]);
      CabecaAntesDoResto(o, x, s);
      OrdenadaComCabeca(o, s[0], Inserir(o, x, s[1..]));
    }
  }

  /** The head of a sorted list that `x` does not precede comes before
      every element of the rest with `x` inserted. */
  lemma CabecaAntesDoResto(o: Ordenacao, x: Produto, s: seq<Produto>)
    requires Ordenada(o, s) && s != [] && Precede(o, s[0], x)
    ensures forall y :: y in Inserir(o, x, s[1..]) ==> Precede(o, s[0], y)
  {
    forall y | y in Inserir(o, x, s[1..]) ensures Precede(o, s[0], y) {
      if y != x {
        var k :| 0 <= k < |s[1..]| && s[1..][k] == y;
        assert s[k + 1] == y;
      }
    }
  }

  /** A sorted list stays sorted under a head that precedes all of it. */
  lemma OrdenadaComCabeca(o: Ordenacao, a: Produto, r: seq<Produto>)
    requires Ordenada(o, r) && forall y :: y in r ==> Precede(o, a, y)
    ensures Ordenada(o, [a] + r)
  {
    var ar := [a] + r;
    forall i, j | 0 <= i < j < |ar| ensures Precede(o, ar[i], ar[j]) {
      assert ar[j] == r[j - 1];
      if i > 0 {
        assert ar[i] == r[i - 1];
      } else {
        assert r[j - 1] in r;
      }
    }
  }

  lemma {:induction false} OrdenarOrdena(o: Ordenacao, xs: seq<Produto>)
    ensures Ordenada(o, Ordenar(o, xs))
    decreases |xs|
  {
    if xs != [] {
      OrdenarOrdena(o, xs[1..]);
      InserirOrdenada(o, xs[0], Ordenar(o, xs[1..]));
    }
  }

  // ---- Listing: page ----

  function Min(a: int, b: int): int
  {
    if a <= b then a else b
  }

  /** `Skip(inicio).Take(tamanho)`. */
  function Janela(xs: seq<Produto>, inicio: nat, tamanho: nat): (r: seq<Produto>)
    ensures |r| <= tamanho
    ensures inicio >= |xs| ==> r == []
    ensures inicio < |xs| ==> |r| == Min(tamanho, |xs| - inicio)
    ensures forall i :: 0 <= i < |r| ==> r[i] == xs[inicio + i]
  {
    if inicio >= |xs| then [] else xs[inicio..Min(|xs|, inicio + tamanho)]
  }

  /** `Skip((pageNumber - 1) * pageSize).Take(pageSize)`. */
  function Paginar(xs: seq<Produto>, pageNumber: int, pageSize: int): (r: seq<Produto>)
    requires pageNumber >= 1 && pageSize >= 1
    ensures |r| <= pageSize
    ensures (pageNumber - 1) * pageSize >= |xs| ==> r == []
    ensures (pageNumber - 1) * pageSize < |xs| ==>
      |r| == Min(pageSize, |xs| - (pageNumber - 1) * pageSize)
    ensures forall i :: 0 <= i < |r| ==> r[i] == xs[(pageNumber - 1) * pageSize + i]
  {
    Janela(xs, Deslocamento(pageNumber, pageSize), pageSize)
  }

  /** Row k of the ordered list is on page k / pageSize + 1, at position
      k % pageSize: paging loses no row. */
  lemma PaginaDaLinha(xs: seq<Produto>, pageSize: int, k: int) returns (n: int)
    requires pageSize >= 1 && 0 <= k < |xs|
    ensures n == k / pageSize + 1 && n >= 1
    ensures k % pageSize < |Paginar(xs, n, pageSize)| && Paginar(xs, n, pageSize)[k % pageSize] == xs[k]
    ensures xs[k] in Paginar(xs, n, pageSize)
  {
    n := k / pageSize + 1;
    assert (n - 1) * pageSize + k % pageSize == k;
  }

  /** The listing's answer: a page of rows and the number of rows that
      passed the filter. */
  datatype Pagina = Pagina(items: seq<Produto>, total: int)

  /** `ObterTodosAsync`: filter, order, count, then take the page. */
  function ObterTodos(ps: seq<Produto>, pageNumber: int, pageSize: int,
                      ordenacao: Option<string>, busca: Option<string>): (r: Pagina)
    requires pageNumber >= 1 && pageSize >= 1
    ensures |r.items| <= pageSize && 0 <= r.total <= |ps|
    ensures forall p :: p in r.items ==>
      p in ps && !p.deletado && (!BuscaAtiva(busca) || CasaBusca(busca.value, p))
  {
    var filtrados := Filtrar(Visiveis(ps), busca);
    var ordenados := Ordenar(CriterioDe(ordenacao), filtrados);
    var itens := Paginar(ordenados, pageNumber, pageSize);
    assert forall p :: p in itens ==> p in ordenados;
    Pagina(itens, |ordenados|)
  }

  /** Every page is ordered by the requested criterion. */
  lemma ObterTodosOrdenada(ps: seq<Produto>, pageNumber: int, pageSize: int,
                           ordenacao: Option<string>, busca: Option<string>)
    requires pageNumber >= 1 && pageSize >= 1
    ensures Ordenada(CriterioDe(ordenacao), ObterTodos(ps, pageNumber, pageSize, ordenacao, busca).items)
  {
    var o := CriterioDe(ordenacao);
    var ordenados := Ordenar(o, Filtrar(Visiveis(ps), busca));
    OrdenarOrdena(o, Filtrar(Visiveis(ps), busca));
    PaginaOrdenada(o, ordenados, pageNumber, pageSize);
  }

  /** A page of an ordered list is ordered. */
  lemma PaginaOrdenada(o: Ordenacao, xs: seq<Produto>, pageNumber: int, pageSize: int)
    requires pageNumber >= 1 && pageSize >= 1 && Ordenada(o, xs)
    ensures Ordenada(o, Paginar(xs, pageNumber, pageSize))
  {
    var itens := Paginar(xs, pageNumber, pageSize);
    var inicio := (pageNumber - 1) * pageSize;
    forall i, j | 0 <= i < j < |itens| ensures Precede(o, itens[i], itens[j]) {
      assert itens[i] == xs[inicio + i] && itens[j] == xs[inicio + j];
    }
  }

  /** Every visible row that passes the filter is on some page, and the
      total counts exactly those rows. */
  lemma ObterTodosCompleta(ps: seq<Produto>, pageSize: int,
                           ordenacao: Option<string>, busca: Option<string>, p: Produto)
    requires pageSize >= 1
    requires p in ps && !p.deletado && (!BuscaAtiva(busca) || CasaBusca(busca.value, p))
    ensures exists n :: n >= 1 && p in ObterTodos(ps, n, pageSize, ordenacao, busca).items
  {
    var ordenados := Ordenar(CriterioDe(ordenacao), Filtrar(Visiveis(ps), busca));
    assert p in ordenados;
    var k :| 0 <= k < |ordenados| && ordenados[k] == p;
    var n := PaginaDaLinha(ordenados, pageSize, k);
    assert ObterTodos(ps, n, pageSize, ordenacao, busca).items == Paginar(ordenados, n, pageSize);
  }

  /** The page `ObterTodos` returns is the slice that starts at row
      (pageNumber - 1) * pageSize and is at most pageSize rows long, cut
      from some arrangement of the visible rows the filter keeps that is
      ordered by the requested criterion. */
  lemma ObterTodosPagina(ps: seq<Produto>, pageNumber: int, pageSize: int,
                         ordenacao: Option<string>, busca: Option<string>)
    requires pageNumber >= 1 && pageSize >= 1
    ensures exists s: seq<Produto> ::
      && multiset(s) == multiset(Filtrar(Visiveis(ps), busca))
      && Ordenada(CriterioDe(ordenacao), s)
      && FatiaDaPagina(ObterTodos(ps, pageNumber, pageSize, ordenacao, busca).items, s, pageNumber, pageSize)
  {
    var o := CriterioDe(ordenacao);
    var s := Ordenar(o, Filtrar(Visiveis(ps), busca));
    OrdenarOrdena(o, Filtrar(Visiveis(ps), busca));
    var d := Deslocamento(pageNumber, pageSize);
    assert ObterTodos(ps, pageNumber, pageSize, ordenacao, busca).items == Janela(s, d, pageSize);
    JanelaFatia(s, d, pageSize);
    assert FatiaDaPagina(ObterTodos(ps, pageNumber, pageSize, ordenacao, busca).items, s, pageNumber, pageSize);
  }

  /** `itens` is the slice of `s` that starts at row (pageNumber - 1) *
      pageSize and is at most pageSize rows long, both ends clamped to `s`. */
  predicate FatiaDaPagina(itens: seq<Produto>, s: seq<Produto>, pageNumber: int, pageSize: int)
    requires pageNumber >= 1 && pageSize >= 1
  {
    var inicio := Min(|s|, Deslocamento(pageNumber, pageSize));
    itens == s[inicio..Min(|s|, inicio + pageSize)]
  }

  /** The window, written as one slice clamped to the list. */
  lemma JanelaFatia(xs: seq<Produto>, inicio: nat, tamanho: nat)
    ensures var i := Min(|xs|, inicio); Janela(xs, inicio, tamanho) == xs[i..Min(|xs|, i + tamanho)]
  {
  }

  /** The number of rows `Skip` passes over: (pageNumber - 1) * pageSize. */
  function Deslocamento(pageNumber: int, pageSize: int): (r: nat)
    requires pageNumber >= 1 && pageSize >= 1
    ensures r == (pageNumber - 1) * pageSize
  {
    (pageNumber - 1) * pageSize
  }

  /** `Total` is the number of visible rows the filter keeps, whatever
      page is asked for. */
  lemma ObterTodosTotal(ps: seq<Produto>, pageNumber: int, pageSize: int,
                        ordenacao: Option<string>, busca: Option<string>)
    requires pageNumber >= 1 && pageSize >= 1
    ensures ObterTodos(ps, pageNumber, pageSize, ordenacao, busca).total == |Filtrar(Visiveis(ps), busca)|
  {
  }

  // ---- Ledger ----

  /** `ObterPorChaveAsync` (`Find` on the primary key). */
  function ObterPorChave(t: Tabelas, chave: string): (r: Option<OperacaoProcessada>)
    ensures r.None? <==> chave !in t.operacoes
    ensures Consistente(t) && r.Some? ==> r.value.idempotencyKey == chave
  {
    if chave in t.operacoes then Some(t.operacoes[chave]) else None
  }

  /** Inserting a record adds it under its own key and touches nothing
      else; it is refused exactly when the key is taken or a column
      overflows. */
  lemma AdicionarOperacaoSoAcrescenta(t: Tabelas, o: OperacaoProcessada)
    ensures AplicarEntrada(t, OperacaoAdicionada(o)).Success? <==>
      CabeOperacao(o) && o.idempotencyKey !in t.operacoes
    ensures AplicarEntrada(t, OperacaoAdicionada(o)).Success? ==>
      var t2 := AplicarEntrada(t, OperacaoAdicionada(o)).value;
      && t2.produtos == t.produtos
      && t2.operacoes == t.operacoes[o.idempotencyKey := o]
      && ObterPorChave(t2, o.idempotencyKey) == Some(o)
  {
  }

  // ---- The repositories ----

  class ProdutoRepository {
    const contexto: EstoqueDbContext

    constructor (contexto: EstoqueDbContext)
      ensures this.contexto == contexto
    {
      this.contexto := contexto;
    }

    /** `AdicionarAsync`: staged as Added, written at the next save. */
    method Adicionar(p: Produto)
      modifies contexto`rastreadas
      ensures contexto.rastreadas == old(contexto.rastreadas) + [ProdutoAdicionado(p)]
    {
      contexto.Rastrear([ProdutoAdicionado(p)]);
    }

    /** `Atualizar`: staged as Modified. */
    method Atualizar(p: Produto)
      modifies contexto`rastreadas
      ensures contexto.rastreadas == old(contexto.rastreadas) + [ProdutoModificado(p)]
    {
      contexto.Rastrear([ProdutoModificado(p)]);
    }

    /** `Deletar`: marks the entity deleted at `agora` and stages it as
        Modified; the row is never removed. */
    method Deletar(p: Produto, agora: Instante) returns (marcado: Produto)
      modifies contexto`rastreadas
      ensures marcado == MarcarDeletado(p, agora)
      ensures contexto.rastreadas == old(contexto.rastreadas) + [ProdutoModificado(marcado)]
    {
      marcado := p.(deletado := true, dataDelecao := Some(agora));
      contexto.Rastrear([ProdutoModificado(marcado)]);
    }
  }

  class OperacaoRepository {
    const contexto: EstoqueDbContext

    constructor (contexto: EstoqueDbContext)
      ensures this.contexto == contexto
    {
      this.contexto := contexto;
    }

    /** `AdicionarAsync`: staged as Added. */
    method Adicionar(o: OperacaoProcessada)
      modifies contexto`rastreadas
      ensures contexto.rastreadas == old(contexto.rastreadas) + [OperacaoAdicionada(o)]
    {
      contexto.Rastrear([OperacaoAdicionada(o)]);
    }
  }
}
