/** No attribute list names a field twice. */
module Listas {
  predicate SemRepeticao(xs: seq<string>) {
    forall i, j :: 0 <= i < j < |xs| ==> xs[i] != xs[j]
  }
}

/** `application.utils.ProdutoAtributos`: the five attribute lists the application controller
    validates request objects against. */
module AppProdutoAtributos {
  import opened Listas

  datatype Entrada =
    | ATRIBUTOS_OBRIGATORIOS_SALVAR
    | ATRIBUTOS_OBRIGATORIOS_ATUALIZAR_PRECO_LOTE
    | ATRIBUTOS_OBRIGATORIOS_ATUALIZAR_ESTOQUE_LOTE
    | ATRIBUTOS_ATUALIZAVEIS
    | ATRIBUTO_STATUS

  function GetAtributos(e: Entrada): seq<string> {
    match e
    case ATRIBUTOS_OBRIGATORIOS_SALVAR => ["nome", "descricao", "ean13", "preco", "quantidade", "estoqueMin"]
    case ATRIBUTOS_OBRIGATORIOS_ATUALIZAR_PRECO_LOTE => ["hash", "operacao", "valor"]
    case ATRIBUTOS_OBRIGATORIOS_ATUALIZAR_ESTOQUE_LOTE => ["hash", "valor"]
    case ATRIBUTOS_ATUALIZAVEIS => ["descricao", "preco", "quantidade", "estoqueMin"]
    case ATRIBUTO_STATUS => ["lativo"]
  }

  /** The updatable fields are the creation fields minus the two identifying ones, in the same order. */
  lemma AtualizaveisSaoSalvarSemIdentificadores()
    ensures var salvar := GetAtributos(ATRIBUTOS_OBRIGATORIOS_SALVAR);
      && |salvar| == 6
      && GetAtributos(ATRIBUTOS_ATUALIZAVEIS) == [salvar[1]] + salvar[3..]
      && salvar[0] == "nome" && salvar[2] == "ean13"
      && "nome" !in GetAtributos(ATRIBUTOS_ATUALIZAVEIS)
      && "ean13" !in GetAtributos(ATRIBUTOS_ATUALIZAVEIS)
  {}

  /** The batch-stock list is a sub-list of the batch-price list: it only lacks `operacao`. */
  lemma EstoqueLoteContidoEmPrecoLote()
    ensures var preco := GetAtributos(ATRIBUTOS_OBRIGATORIOS_ATUALIZAR_PRECO_LOTE);
      && preco == ["hash", "operacao", "valor"]
      && (forall a :: a in GetAtributos(ATRIBUTOS_OBRIGATORIOS_ATUALIZAR_ESTOQUE_LOTE) ==> a in preco)
      && GetAtributos(ATRIBUTOS_OBRIGATORIOS_ATUALIZAR_ESTOQUE_LOTE) == [preco[0], preco[2]]
  {}

  /** `lativo` appears only in the status entry, and the status entry holds nothing else. */
  lemma StatusDisjuntoDosOutros(e: Entrada)
    ensures GetAtributos(ATRIBUTO_STATUS) == ["lativo"]
    ensures e != ATRIBUTO_STATUS ==> "lativo" !in GetAtributos(e)
  {}

  /** No entry lists a field twice. */
  lemma SemCamposRepetidos(e: Entrada)
    ensures SemRepeticao(GetAtributos(e))
  {}
}

/** `infrastructure.utils.ProdutoAtributos`: the three attribute lists of the older lineage,
    the enum `JsonProdutoValidador` is written against. */
module InfraProdutoAtributos {
  import opened Listas
  import AppProdutoAtributos

  datatype Entrada = ATRIBUTOS_OBRIGATORIOS | ATRIBUTOS_ATUALIZAVEIS | ATRIBUTO_STATUS

  function GetAtributos(e: Entrada): seq<string> {
    match e
    case ATRIBUTOS_OBRIGATORIOS => ["nome", "descricao", "ean13", "preco", "quantidade", "estoqueMin"]
    case ATRIBUTOS_ATUALIZAVEIS => ["descricao", "preco", "quantidade", "estoqueMin"]
    case ATRIBUTO_STATUS => ["lativo"]
  }

  /** The three entries agree with the application enum's create, update and status entries. */
  lemma MesmasListasQueAplicacao()
    ensures GetAtributos(ATRIBUTOS_OBRIGATORIOS)
         == AppProdutoAtributos.GetAtributos(AppProdutoAtributos.ATRIBUTOS_OBRIGATORIOS_SALVAR)
    ensures GetAtributos(ATRIBUTOS_ATUALIZAVEIS)
         == AppProdutoAtributos.GetAtributos(AppProdutoAtributos.ATRIBUTOS_ATUALIZAVEIS)
    ensures GetAtributos(ATRIBUTO_STATUS)
         == AppProdutoAtributos.GetAtributos(AppProdutoAtributos.ATRIBUTO_STATUS)
  {}

  /** The updatable fields are a proper subset of the required ones, lacking exactly nome and ean13. */
  lemma AtualizaveisContidosEmObrigatorios()
    ensures forall a :: a in GetAtributos(ATRIBUTOS_ATUALIZAVEIS) ==> a in GetAtributos(ATRIBUTOS_OBRIGATORIOS)
    ensures forall a :: a in GetAtributos(ATRIBUTOS_OBRIGATORIOS) && a !in GetAtributos(ATRIBUTOS_ATUALIZAVEIS)
                        <==> a == "nome" || a == "ean13"
  {}

  /** `lativo` appears only in the status entry, and the status entry holds nothing else. */
  lemma StatusDisjuntoDosOutros(e: Entrada)
    ensures GetAtributos(ATRIBUTO_STATUS) == ["lativo"]
    ensures e != ATRIBUTO_STATUS ==> "lativo" !in GetAtributos(e)
  {}

  /** No entry lists a field twice. */
  lemma SemCamposRepetidos(e: Entrada)
    ensures SemRepeticao(GetAtributos(e))
  {}
}
