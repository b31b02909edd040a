/** `infrastructure.entities.Produto`: the entity of the `domain.services` lineage.
    Numbers are primitive doubles; `lativo` is a boxed Boolean that the six-argument
    constructor leaves null. */
module Entidades {
  import opened Common

  datatype Produto = Produto(
    hash: Option<string>,
    nome: Option<string>,
    descricao: Option<string>,
    ean13: Option<string>,
    preco: real,
    quantidade: real,
    estoqueMin: real,
    dtCreate: Option<Timestamp>,
    dtUpdate: Option<Timestamp>,
    lativo: Option<bool>)
}

/** `domain.model.Produto`: the entity of the `domain.model.services` lineage. `lativo`
    is a primitive boolean (false until set); the numbers are boxed but every path in
    the model fills them, so they are plain reals. */
module ModeloDominio {
  import opened Common

  datatype Produto = Produto(
    hash: Option<string>,
    nome: Option<string>,
    descricao: Option<string>,
    ean13: Option<string>,
    preco: real,
    quantidade: real,
    estoqueMin: real,
    dtCreate: Option<Timestamp>,
    dtUpdate: Option<Timestamp>,
    lativo: bool)
}

/** The `application.dtos` package: the product DTO (primitive doubles, `lativo` as text),
    the batch-adjustment DTO and the per-item batch response. */
module AppDtos {
  import opened Common
  import opened Json

  datatype ProdutoDTO = ProdutoDTO(
    hash: Option<string>,
    nome: Option<string>,
    descricao: Option<string>,
    ean13: Option<string>,
    preco: real,
    quantidade: real,
    estoqueMin: real,
    dtCreate: Option<Timestamp>,
    dtUpdate: Option<Timestamp>,
    lativo: Option<string>)

  /** `AtualizacaoLoteProdutoDTO`; `PrecoLoteDTO` has the same three fields and is not distinguished. */
  datatype AtualizacaoLoteProdutoDTO = AtualizacaoLoteProdutoDTO(
    hash: Option<string>,
    operacao: Option<string>,
    valor: real)

  /** The `Object` payload of a `RespostaDTO`: a product on success, the input object on error. */
  datatype Dado = DadoProduto(dto: ProdutoDTO) | DadoJson(obj: JObject)

  datatype RespostaDTO = RespostaDTO(status: string, messagem: string, dado: Dado)
}

/** `presentation.dtos.ProdutoDTO`: boxed (nullable) numbers, primitive boolean `lativo`. */
module ApresentacaoDtos {
  import opened Common

  datatype ProdutoDTO = ProdutoDTO(
    hash: Option<string>,
    nome: Option<string>,
    descricao: Option<string>,
    ean13: Option<string>,
    preco: Option<real>,
    quantidade: Option<real>,
    estoqueMin: Option<real>,
    dtCreate: Option<Timestamp>,
    dtUpdate: Option<Timestamp>,
    lativo: bool)
}
