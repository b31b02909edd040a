/** `domain.model.services.ProdutoService`: creation and lookup of the `domain.model`
    lineage, over the products table and the presentation DTO. */
module ModeloProdutoService {
  import opened Common
  import opened Repositorio
  import ModeloDominio
  import ApresentacaoDtos
  import InfraProdutoMapeador
  import ModeloProdutoValidacao

  const MSG_NAO_ENCONTRADO := "Produto não encontrado."

  /** The text of the IllegalArgumentException `UUID.fromString` throws for a malformed
      string (the JDK's own wording, not the service's). */
  function MsgUuidInvalido(hash: string): string {
    "Invalid UUID string: " + hash
  }

  /** The table after a call, and what the call returned or threw. */
  datatype Efeito = Efeito(tabela: Tabela, resultado: Result<ApresentacaoDtos.ProdutoDTO>)

  /** `obterPorHash`: the hash is parsed first (IllegalArgument when malformed, with no
      lookup), then an absent row is NoSuchElement. */
  function ObterPorHash(ehUuid: string -> bool, t: Tabela, hash: string): (r: Result<ModeloDominio.Produto>)
    ensures r.Ok? <==> ehUuid(hash) && hash in t.linhas
    ensures r.Ok? ==> r.value == CriarProduto(hash, t.linhas[hash])
    ensures !ehUuid(hash) ==> r == Err(Failure(IllegalArgument, MsgUuidInvalido(hash)))
    ensures ehUuid(hash) && hash !in t.linhas ==> r == Err(Failure(NoSuchElement, MSG_NAO_ENCONTRADO))
  {
    if !ehUuid(hash) then Err(Failure(IllegalArgument, MsgUuidInvalido(hash)))
    else
      match BuscarPorHash(t, hash)
      case None => Err(Failure(NoSuchElement, MSG_NAO_ENCONTRADO))
      case Some(l) => Ok(CriarProduto(hash, l))
  }

  /** `obterDtoPorHash`: the conversion of `obterPorHash`, with the same exceptions. */
  function ObterDtoPorHash(ehUuid: string -> bool, t: Tabela, hash: string): (r: Result<ApresentacaoDtos.ProdutoDTO>)
    ensures r.Ok? <==> ObterPorHash(ehUuid, t, hash).Ok?
    ensures r.Ok? ==> r.value == InfraProdutoMapeador.ConverterParaDTO(ObterPorHash(ehUuid, t, hash).value)
    ensures r.Ok? ==> var l := t.linhas[hash];
      && r.value.hash == Some(hash) && r.value.nome == l.nome && r.value.descricao == l.descricao
      && r.value.ean13 == l.ean13 && r.value.preco == Some(l.preco) && r.value.quantidade == Some(l.quantidade)
      && r.value.estoqueMin == Some(l.estoqueMin) && r.value.lativo == l.lativo
      && r.value.dtCreate == Some(l.dtCreate) && r.value.dtUpdate == l.dtUpdate
    ensures r.Err? ==> r.error == ObterPorHash(ehUuid, t, hash).error
  {
    match ObterPorHash(ehUuid, t, hash)
    case Err(e) => Err(e)
    case Ok(p) => Ok(InfraProdutoMapeador.ConverterParaDTO(p))
  }

  /** `criar`: convert the DTO, validate it against the table, insert it (the database
      generates `novoHash`) and return the DTO of the product read back by that hash. A
      validation failure writes nothing. The converter unboxes the three numbers, so they
      must be present. */
  function Criar(ehUuid: string -> bool, t: Tabela, d: ApresentacaoDtos.ProdutoDTO, novoHash: string, agora: Timestamp): (r: Efeito)
    requires d.preco.Some? && d.quantidade.Some? && d.estoqueMin.Some?
    requires novoHash !in t.linhas
    ensures ModeloProdutoValidacao.ValidarProduto(t, InfraProdutoMapeador.ConverterParaProduto(d)).Fail? ==>
      r == Efeito(t, Err(ModeloProdutoValidacao.ValidarProduto(t, InfraProdutoMapeador.ConverterParaProduto(d)).error))
    ensures r.resultado.Err? && r.tabela == t ==> r.resultado.error.kind == IllegalArgument
    ensures r.tabela != t ==>
      && r.tabela.linhas.Keys == t.linhas.Keys + {novoHash}
      && (forall h :: h in t.linhas ==> r.tabela.linhas[h] == t.linhas[h])
      && (r.resultado.Ok? <==> ehUuid(novoHash))
    ensures r.resultado.Ok? ==>
      && d.nome.Some? && d.nome.value != "" && !ExisteProdutoComNomeOuEan13(t, d.nome, d.ean13)
      && d.preco.value >= 0.0 && d.quantidade.value >= 0.0 && d.estoqueMin.value >= 0.0
      && r.resultado.value.hash == Some(novoHash)
      && r.resultado.value.(hash := None, dtCreate := None, dtUpdate := None, lativo := false) == d.(hash := None, dtCreate := None, dtUpdate := None, lativo := false)
      && r.resultado.value.dtCreate == Some(agora) && r.resultado.value.dtUpdate.None?
      && !r.resultado.value.lativo
  {
    var p := InfraProdutoMapeador.ConverterParaProduto(d);
    match ModeloProdutoValidacao.ValidarProduto(t, p)
    case Fail(e) => Efeito(t, Err(e))
    case Pass =>
      var (t', h) := Salvar(t, p.nome, p.descricao, p.ean13, p.preco, p.quantidade, p.estoqueMin, novoHash, agora);
      Efeito(t', ObterDtoPorHash(ehUuid, t', h))
  }

  /** What `criar` returns is what a later `obterDtoPorHash` of the new hash returns. */
  lemma CriarDepoisObter(ehUuid: string -> bool, t: Tabela, d: ApresentacaoDtos.ProdutoDTO, novoHash: string, agora: Timestamp)
    requires d.preco.Some? && d.quantidade.Some? && d.estoqueMin.Some?
    requires novoHash !in t.linhas
    requires ehUuid(novoHash)
    requires ModeloProdutoValidacao.ValidarProduto(t, InfraProdutoMapeador.ConverterParaProduto(d)).Pass?
    ensures var r := Criar(ehUuid, t, d, novoHash, agora);
      r.resultado.Ok? && ObterDtoPorHash(ehUuid, r.tabela, novoHash) == r.resultado
  {}

  /** Creating the same product twice: the second attempt finds the first by name and is
      refused without writing. */
  lemma CriarDuasVezesRecusaODuplicado(ehUuid: string -> bool, t: Tabela, d: ApresentacaoDtos.ProdutoDTO,
                                      h1: string, h2: string, agora: Timestamp)
    requires d.preco.Some? && d.quantidade.Some? && d.estoqueMin.Some?
    requires h1 !in t.linhas && h2 !in t.linhas && h1 != h2
    requires d.nome.Some?
    requires Criar(ehUuid, t, d, h1, agora).resultado.Ok?
    ensures var t1 := Criar(ehUuid, t, d, h1, agora).tabela;
      Criar(ehUuid, t1, d, h2, agora) == Efeito(t1, Err(Failure(IllegalArgument, ModeloProdutoValidacao.MSG_DUPLICADO)))
  {
    var t1 := Criar(ehUuid, t, d, h1, agora).tabela;
    assert Coincide(t1.linhas[h1], d.nome, d.ean13);
    ModeloProdutoValidacao.OrdemDasVerificacoes(t1, InfraProdutoMapeador.ConverterParaProduto(d));
  }
}
