/** `domain.services.ProdutoValidacao`: the DTO validator that fills null numbers with 0.0,
    over the presentation DTO and the products table. */
module ProdutoValidacao {
  import opened Common
  import opened Repositorio
  import ModeloDominio
  import opened ApresentacaoDtos

  const MSG_SEM_NOME := "Não é possível cadastrar um produto sem nome."
  const MSG_DUPLICADO := "Já existe um produto com o mesmo nome ou EAN-13."
  const MSG_NEGATIVOS := "Não é permitido cadastrar produtos com preço, quantidade ou estoque mínimo negativos."
  const MSG_HASH_INVALIDO := "Formato de hash inválido."
  const MSG_INATIVO := "Produto não está ativo."

  /** `validarNomeNuloOuVazio`. */
  function ValidarNomeNuloOuVazio(nome: Option<string>): (r: Outcome)
    ensures r.Pass? <==> nome.Some? && nome.value != ""
    ensures r.Fail? ==> r.error == Failure(IllegalArgument, MSG_SEM_NOME)
  {
    if nome.None? || nome.value == "" then Fail(Failure(IllegalArgument, MSG_SEM_NOME)) else Pass
  }

  /** `validarNomeOuEan13Duplicado`. */
  function ValidarNomeOuEan13Duplicado(t: Tabela, nome: Option<string>, ean13: Option<string>): (r: Outcome)
    ensures r.Pass? <==> forall h :: h in t.linhas ==> !Coincide(t.linhas[h], nome, ean13)
    ensures r.Fail? ==> r.error == Failure(IllegalArgument, MSG_DUPLICADO)
  {
    if ExisteProdutoComNomeOuEan13(t, nome, ean13) then Fail(Failure(IllegalArgument, MSG_DUPLICADO)) else Pass
  }

  /** `validarValoresNegativos`: one message for any negative among the three; zero is allowed. */
  function ValidarValoresNegativos(preco: real, quantidade: real, estoqueMin: real): (r: Outcome)
    ensures r.Pass? <==> preco >= 0.0 && quantidade >= 0.0 && estoqueMin >= 0.0
    ensures r.Fail? ==> r.error == Failure(IllegalArgument, MSG_NEGATIVOS)
  {
    if preco < 0.0 || quantidade < 0.0 || estoqueMin < 0.0 then Fail(Failure(IllegalArgument, MSG_NEGATIVOS)) else Pass
  }

  /** Java's `if (x == null) x = 0.0`. */
  function ZeroSeNulo(x: Option<real>): real {
    if x.None? then 0.0 else x.value
  }

  /** `validarValoresNulos`: a null preco, quantidade or estoqueMin becomes 0.0; present
      values and every other field are kept. */
  function ValidarValoresNulos(p: ProdutoDTO): (r: ProdutoDTO)
    ensures r.preco.Some? && r.quantidade.Some? && r.estoqueMin.Some?
    ensures p.preco.Some? ==> r.preco == p.preco
    ensures p.quantidade.Some? ==> r.quantidade == p.quantidade
    ensures p.estoqueMin.Some? ==> r.estoqueMin == p.estoqueMin
    ensures p.preco.None? ==> r.preco == Some(0.0)
    ensures p.quantidade.None? ==> r.quantidade == Some(0.0)
    ensures p.estoqueMin.None? ==> r.estoqueMin == Some(0.0)
    ensures r.(preco := p.preco, quantidade := p.quantidade, estoqueMin := p.estoqueMin) == p
  {
    p.(preco := Some(ZeroSeNulo(p.preco)),
       quantidade := Some(ZeroSeNulo(p.quantidade)),
       estoqueMin := Some(ZeroSeNulo(p.estoqueMin)))
  }

  /** Filling is idempotent: an already-filled DTO is returned unchanged. */
  lemma ValidarValoresNulosIdempotente(p: ProdutoDTO)
    ensures ValidarValoresNulos(ValidarValoresNulos(p)) == ValidarValoresNulos(p)
  {}

  /** `validarProduto`: nome, then uniqueness, then null filling, then negatives; on success the
      filled DTO is returned. */
  function ValidarProduto(t: Tabela, p: ProdutoDTO): (r: Result<ProdutoDTO>)
    ensures r.Ok? <==>
      && p.nome.Some? && p.nome.value != ""
      && !ExisteProdutoComNomeOuEan13(t, p.nome, p.ean13)
      && ZeroSeNulo(p.preco) >= 0.0 && ZeroSeNulo(p.quantidade) >= 0.0 && ZeroSeNulo(p.estoqueMin) >= 0.0
    ensures r.Ok? ==> r.value.preco.Some? && r.value.preco.value >= 0.0
    ensures r.Ok? ==> r.value.quantidade.Some? && r.value.quantidade.value >= 0.0
    ensures r.Ok? ==> r.value.estoqueMin.Some? && r.value.estoqueMin.value >= 0.0
    ensures r.Ok? ==> r.value.(preco := p.preco, quantidade := p.quantidade, estoqueMin := p.estoqueMin) == p
    ensures r.Err? ==> r.error.kind == IllegalArgument
  {
    match ValidarNomeNuloOuVazio(p.nome)
    case Fail(e) => Err(e)
    case Pass =>
      match ValidarNomeOuEan13Duplicado(t, p.nome, p.ean13)
      case Fail(e) => Err(e)
      case Pass =>
        var cheio := ValidarValoresNulos(p);
        match ValidarValoresNegativos(cheio.preco.value, cheio.quantidade.value, cheio.estoqueMin.value)
        case Fail(e) => Err(e)
        case Pass => Ok(cheio)
  }

  /** A null or empty nome is refused before the table or the numbers are looked at, and a
      duplicate before the numbers are. */
  lemma OrdemDasVerificacoes(t: Tabela, p: ProdutoDTO)
    ensures p.nome.None? || p.nome.value == "" ==> ValidarProduto(t, p) == Err(Failure(IllegalArgument, MSG_SEM_NOME))
    ensures p.nome.Some? && p.nome.value != "" && ExisteProdutoComNomeOuEan13(t, p.nome, p.ean13) ==>
      ValidarProduto(t, p) == Err(Failure(IllegalArgument, MSG_DUPLICADO))
  {}

  /** `validarHash`: a parse failure is rethrown as IllegalArgument with a fixed message. */
  function ValidarHash(ehUuid: string -> bool, hash: string): (r: Result<string>)
    ensures r.Ok? <==> ehUuid(hash)
    ensures r.Ok? ==> r.value == hash
    ensures r.Err? ==> r.error == Failure(IllegalArgument, MSG_HASH_INVALIDO)
  {
    if ehUuid(hash) then Ok(hash) else Err(Failure(IllegalArgument, MSG_HASH_INVALIDO))
  }

  /** `validarSeProdutoEstaAtivo`: IllegalState exactly when the product is inactive. */
  function ValidarSeProdutoEstaAtivo(produto: ModeloDominio.Produto): (r: Outcome)
    ensures r.Pass? <==> produto.lativo
    ensures r.Fail? ==> r.error == Failure(IllegalState, MSG_INATIVO)
  {
    if !produto.lativo then Fail(Failure(IllegalState, MSG_INATIVO)) else Pass
  }
}

/** `domain.model.services.ProdutoValidacao`: the entity validator of the `domain.model` lineage. */
module ModeloProdutoValidacao {
  import opened Common
  import opened Repositorio
  import opened ModeloDominio

  const MSG_SEM_NOME := "Não é possível cadastrar um produto sem nome."
  const MSG_DUPLICADO := "Já existe um produto com o mesmo nome ou EAN-13."
  const MSG_NEGATIVOS := "Não é permitido cadastrar produtos com preço, quantidade ou estoque mínimo negativos."

  /** `validarNome`. */
  function ValidarNome(p: Produto): (r: Outcome)
    ensures r.Pass? <==> p.nome.Some? && p.nome.value != ""
    ensures r.Fail? ==> r.error == Failure(IllegalArgument, MSG_SEM_NOME)
  {
    if p.nome.None? || p.nome.value == "" then Fail(Failure(IllegalArgument, MSG_SEM_NOME)) else Pass
  }

  /** `validarExistenciaDoProduto`: refused when a stored product has the same name or EAN-13. */
  function ValidarExistenciaDoProduto(t: Tabela, p: Produto): (r: Outcome)
    ensures r.Pass? <==> forall h :: h in t.linhas ==> !Coincide(t.linhas[h], p.nome, p.ean13)
    ensures r.Fail? ==> r.error == Failure(IllegalArgument, MSG_DUPLICADO)
  {
    if ExisteProdutoComNomeOuEan13(t, p.nome, p.ean13) then Fail(Failure(IllegalArgument, MSG_DUPLICADO)) else Pass
  }

  /** `validarValoresNegativos`: any negative among the three numbers; zero is allowed. */
  function ValidarValoresNegativos(p: Produto): (r: Outcome)
    ensures r.Pass? <==> p.preco >= 0.0 && p.quantidade >= 0.0 && p.estoqueMin >= 0.0
    ensures r.Fail? ==> r.error == Failure(IllegalArgument, MSG_NEGATIVOS)
  {
    if p.preco < 0.0 || p.quantidade < 0.0 || p.estoqueMin < 0.0 then Fail(Failure(IllegalArgument, MSG_NEGATIVOS)) else Pass
  }

  /** `validarProduto`: nome, then uniqueness, then negatives; the first failure is thrown. */
  function ValidarProduto(t: Tabela, p: Produto): (r: Outcome)
    ensures r.Pass? <==>
      && p.nome.Some? && p.nome.value != ""
      && !ExisteProdutoComNomeOuEan13(t, p.nome, p.ean13)
      && p.preco >= 0.0 && p.quantidade >= 0.0 && p.estoqueMin >= 0.0
    ensures r.Fail? ==> r.error.kind == IllegalArgument
  {
    match ValidarNome(p)
    case Fail(e) => Fail(e)
    case Pass =>
      match ValidarExistenciaDoProduto(t, p)
      case Fail(e) => Fail(e)
      case Pass => ValidarValoresNegativos(p)
  }

  /** The first failing check decides the message: nome before uniqueness before negatives. */
  lemma OrdemDasVerificacoes(t: Tabela, p: Produto)
    ensures p.nome.None? || p.nome.value == "" ==> ValidarProduto(t, p) == Fail(Failure(IllegalArgument, MSG_SEM_NOME))
    ensures p.nome.Some? && p.nome.value != "" && ExisteProdutoComNomeOuEan13(t, p.nome, p.ean13) ==>
      ValidarProduto(t, p) == Fail(Failure(IllegalArgument, MSG_DUPLICADO))
    ensures p.nome.Some? && p.nome.value != "" && !ExisteProdutoComNomeOuEan13(t, p.nome, p.ean13)
            && (p.preco < 0.0 || p.quantidade < 0.0 || p.estoqueMin < 0.0) ==>
      ValidarProduto(t, p) == Fail(Failure(IllegalArgument, MSG_NEGATIVOS))
  {}
}
