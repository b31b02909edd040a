/** `domain.services.ProdutoValidador`: the business rules of the `domain.services` lineage,
    over the application DTO and the products table. */
module ProdutoValidador {
  import opened Common
  import opened Repositorio
  import opened AppDtos

  function MsgNegativo(atributo: string): string {
    "O atributo '" + atributo + "' não pode ser negativo."
  }

  function MsgNuloOuVazio(atributo: string): string {
    "O atributo '" + atributo + "' não pode ser nulo ou vazio."
  }

  const MSG_DUPLICADO := "Já existe um produto com o mesmo nome ou EAN-13."
  const MSG_LATIVO := "O atributo lativo deve ter valor TRUE ou FALSE"
  const MSG_HASH_INVALIDO := "Formato de hash inválido."
  const MSG_INATIVO := "Produto não está ativo."

  /** `validarDoubleNegativo`: only a value below zero is rejected, naming the attribute. */
  function ValidarDoubleNegativo(valor: real, atributo: string): (r: Outcome)
    ensures r.Pass? <==> valor >= 0.0
    ensures r.Fail? ==> r.error == Failure(IllegalArgument, MsgNegativo(atributo))
  {
    if valor < 0.0 then Fail(Failure(IllegalArgument, MsgNegativo(atributo))) else Pass
  }

  /** `validarStringNulaOuVazia`. */
  function ValidarStringNulaOuVazia(valor: Option<string>, atributo: string): (r: Outcome)
    ensures r.Pass? <==> valor.Some? && valor.value != ""
    ensures r.Fail? ==> r.error == Failure(IllegalArgument, MsgNuloOuVazio(atributo))
  {
    if valor.None? || valor.value == "" then Fail(Failure(IllegalArgument, MsgNuloOuVazio(atributo))) else Pass
  }

  /** `validarNomeOuEan13Duplicado`: rejected when any stored product has that name or that EAN-13. */
  function ValidarNomeOuEan13Duplicado(t: Tabela, nome: Option<string>, ean13: Option<string>): (r: Outcome)
    ensures r.Pass? <==> forall h :: h in t.linhas ==> !Coincide(t.linhas[h], nome, ean13)
    ensures r.Fail? ==> r.error == Failure(IllegalArgument, MSG_DUPLICADO)
  {
    if ExisteProdutoComNomeOuEan13(t, nome, ean13) then Fail(Failure(IllegalArgument, MSG_DUPLICADO)) else Pass
  }

  /** The nome/ean13/uniqueness block of `validarProduto`, run only when nome is not null. */
  function ValidarIdentificacao(t: Tabela, p: ProdutoDTO): Outcome {
    if p.nome.None? then Pass
    else
      var nome := ValidarStringNulaOuVazia(p.nome, "nome");
      if nome.Fail? then nome
      else
        var ean13 := ValidarStringNulaOuVazia(p.ean13, "ean13");
        if ean13.Fail? then ean13
        else ValidarNomeOuEan13Duplicado(t, p.nome, p.ean13)
  }

  /** `validarProduto`: nome, ean13 and uniqueness when nome is present, then preco,
      quantidade and estoqueMin; the first failure is thrown. */
  function ValidarProduto(t: Tabela, p: ProdutoDTO): (r: Outcome)
    ensures r.Pass? <==>
      && (p.nome.None? ||
           (&& p.nome.value != ""
            && p.ean13.Some? && p.ean13.value != ""
            && !ExisteProdutoComNomeOuEan13(t, p.nome, p.ean13)))
      && p.preco >= 0.0 && p.quantidade >= 0.0 && p.estoqueMin >= 0.0
    ensures r.Fail? ==> r.error.kind == IllegalArgument
  {
    match ValidarIdentificacao(t, p)
    case Fail(e) => Fail(e)
    case Pass =>
      match ValidarDoubleNegativo(p.preco, "preco")
      case Fail(e) => Fail(e)
      case Pass =>
        match ValidarDoubleNegativo(p.quantidade, "quantidade")
        case Fail(e) => Fail(e)
        case Pass => ValidarDoubleNegativo(p.estoqueMin, "estoqueMin")
  }

  /** With a null nome, neither ean13 nor the table matters: only the numbers are checked. */
  lemma NomeNuloIgnoraIdentificacao(t: Tabela, t': Tabela, p: ProdutoDTO, ean13: Option<string>)
    requires p.nome.None?
    ensures ValidarProduto(t, p) == ValidarProduto(t', p.(ean13 := ean13))
  {}

  /** With a present nome the checks run in order: empty nome, then null or empty ean13,
      then a duplicate name or EAN-13, and only then the numbers. */
  lemma OrdemDaIdentificacao(t: Tabela, p: ProdutoDTO)
    requires p.nome.Some?
    ensures p.nome.value == "" ==> ValidarProduto(t, p) == Fail(Failure(IllegalArgument, MsgNuloOuVazio("nome")))
    ensures p.nome.value != "" && (p.ean13.None? || p.ean13.value == "") ==>
      ValidarProduto(t, p) == Fail(Failure(IllegalArgument, MsgNuloOuVazio("ean13")))
    ensures p.nome.value != "" && p.ean13.Some? && p.ean13.value != "" && ExisteProdutoComNomeOuEan13(t, p.nome, p.ean13) ==>
      ValidarProduto(t, p) == Fail(Failure(IllegalArgument, MSG_DUPLICADO))
  {}

  /** After the identification checks pass, the first negative among preco, quantidade and
      estoqueMin, in that order, is the one named. */
  lemma OrdemDosNumeros(t: Tabela, p: ProdutoDTO)
    requires ValidarIdentificacao(t, p).Pass?
    ensures p.preco < 0.0 ==> ValidarProduto(t, p) == Fail(Failure(IllegalArgument, MsgNegativo("preco")))
    ensures p.preco >= 0.0 && p.quantidade < 0.0 ==>
      ValidarProduto(t, p) == Fail(Failure(IllegalArgument, MsgNegativo("quantidade")))
    ensures p.preco >= 0.0 && p.quantidade >= 0.0 && p.estoqueMin < 0.0 ==>
      ValidarProduto(t, p) == Fail(Failure(IllegalArgument, MsgNegativo("estoqueMin")))
  {}

  /** `verificarLativo`: accepts exactly "true" or "false" in any letter case; a null value is
      dereferenced and throws. */
  function VerificarLativo(p: ProdutoDTO): (r: Outcome)
    ensures r.Pass? <==> p.lativo.Some? && (EqualsIgnoreCase(p.lativo.value, "true") || EqualsIgnoreCase(p.lativo.value, "false"))
    ensures p.lativo.Some? && r.Fail? ==> r.error == Failure(IllegalArgument, MSG_LATIVO)
    ensures p.lativo.None? ==> r.Fail? && r.error.kind == Runtime
  {
    match p.lativo
    case None => Fail(Failure(Runtime, "NullPointerException"))
    case Some(lativo) =>
      if !(EqualsIgnoreCase(lativo, "true") || EqualsIgnoreCase(lativo, "false"))
      then Fail(Failure(IllegalArgument, MSG_LATIVO))
      else Pass
  }

  /** `verificarLativo` on a few spellings: the case of the letters does not matter (a long s
      folds to s as well), anything
      other than the two words is refused. */
  lemma VerificarLativoExemplos(p: ProdutoDTO)
    ensures VerificarLativo(p.(lativo := Some("TRUE"))) == Pass
    ensures VerificarLativo(p.(lativo := Some("False"))) == Pass
    ensures VerificarLativo(p.(lativo := Some("fal\U{017F}e"))) == Pass
    ensures VerificarLativo(p.(lativo := Some("yes"))) == Fail(Failure(IllegalArgument, MSG_LATIVO))
    ensures VerificarLativo(p.(lativo := Some("true "))) == Fail(Failure(IllegalArgument, MSG_LATIVO))
  {
    assert EqualsIgnoreCase("TRUE", "true");
    assert EqualsIgnoreCase("False", "false");
    assert EqualsIgnoreCase("fal\U{017F}e", "false");
    assert FoldCase("true "[0]) != FoldCase("false"[0]);
  }

  /** `validarERetornarHash`: the hash parsed as a UUID; a parse failure is rethrown as
      IllegalArgument with a fixed message. UUID syntax is the parameter `ehUuid`. */
  function ValidarERetornarHash(ehUuid: string -> bool, hash: string): (r: Result<string>)
    ensures r.Ok? <==> ehUuid(hash)
    ensures r.Ok? ==> r.value == hash
    ensures r.Err? ==> r.error == Failure(IllegalArgument, MSG_HASH_INVALIDO)
  {
    if ehUuid(hash) then Ok(hash) else Err(Failure(IllegalArgument, MSG_HASH_INVALIDO))
  }

  /** `validarSeProdutoEstaAtivo`: IllegalState exactly when the product is inactive. */
  function ValidarSeProdutoEstaAtivo(lativo: bool): (r: Outcome)
    ensures r.Pass? <==> lativo
    ensures r.Fail? ==> r.error == Failure(IllegalState, MSG_INATIVO)
  {
    if !lativo then Fail(Failure(IllegalState, MSG_INATIVO)) else Pass
  }
}
