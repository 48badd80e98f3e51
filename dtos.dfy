/** The request and response records of the service, and the entity to
    response projection that the AutoMapper profile configures. */
module Dtos {
  import opened Wrappers
  import opened Domain

  datatype CriarProdutoDTO = CriarProdutoDTO(codigo: string, descricao: string, saldo: Int64)

  datatype AtualizarProdutoDTO = AtualizarProdutoDTO(descricao: string, saldo: Int64)

  datatype ProdutoResponseDTO = ProdutoResponseDTO(
    id: int,
    codigo: string,
    descricao: string,
    saldo: Int64,
    dataCriacao: Instante,
    dataAtualizacao: Option<Instante>)

  datatype ProdutosPaginadosDTO = ProdutosPaginadosDTO(
    items: seq<ProdutoResponseDTO>,
    totalItems: int,
    pageNumber: int,
    pageSize: int,
    totalPages: int)

  datatype BaixaEstoqueDTO = BaixaEstoqueDTO(codigoProduto: string, quantidade: Int64, idempotencyKey: string)

  datatype BaixaEstoqueResultDTO = BaixaEstoqueResultDTO(sucesso: bool, mensagem: string, saldoAtual: Int64)

  /** `CreateMap<Produto, ProdutoResponseDTO>()`: the same-named members are copied. */
  function ParaResposta(p: Produto): ProdutoResponseDTO
  {
    ProdutoResponseDTO(p.id, p.codigo, p.descricao, p.saldo, p.dataCriacao, p.dataAtualizacao)
  }

  /** The mapped list of a page of products. */
  function ParaRespostas(ps: seq<Produto>): (r: seq<ProdutoResponseDTO>)
    ensures |r| == |ps|
    ensures forall i :: 0 <= i < |ps| ==> r[i] == ParaResposta(ps[i])
  {
    seq(|ps|, i requires 0 <= i < |ps| => ParaResposta(ps[i]))
  }
}
