/** `domain.services.ProdutoService`: reads, writes and batch adjustments of the
    `domain.services` lineage, over the products table. Every operation returns the table
    as it stands after the call together with the DTO it returns or the exception it
    throws, so a write that happens before a later exception is kept. */
module ProdutoService {
  import opened Common
  import opened Repositorio
  import opened AppDtos
  import Entidades
  import AppProdutoMapeador
  import ProdutoValidador

  const MSG_NAO_ENCONTRADO := "Produto não encontrado."
  const MSG_NAO_DELETADO := "Produto não deletado."
  /** A null reference dereferenced by the service (a missing hash or operation). */
  const MSG_NULO := "NullPointerException"

  function MsgOperacaoInvalida(operacao: string): string {
    "A operação '" + operacao + "' é inválida!"
  }

  /** Methods the service calls whose definitions are not part of this model; their
      behaviour is supplied by the caller. `ehUuid` stands for `UUID.fromString`
      succeeding; `atualizarAtributoDouble(t, atributo, valor, hash, agora)` is the DAO
      write of one numeric column. */
  datatype Colaboradores = Colaboradores(
    ehUuid: string -> bool,
    validarAtributosCriarProduto: ProdutoDTO -> Outcome,
    validarAtributosDoubleEmProdutoDTO: ProdutoDTO -> Outcome,
    validarDoubleZero: (real, string) -> Outcome,
    atualizarAtributoDouble: (Tabela, string, real, string, Timestamp) -> Tabela)

  /** The table after a call, and what the call returned or threw. */
  datatype Efeito = Efeito(tabela: Tabela, resultado: Result<ProdutoDTO>)

  /** The entity a row read by hash becomes (the DAO's row mapping). */
  function ParaEntidade(hash: string, l: Linha): (p: Entidades.Produto)
    ensures p.hash == Some(hash) && p.lativo == Some(l.lativo)
    ensures p.nome == l.nome && p.descricao == l.descricao && p.ean13 == l.ean13
    ensures p.preco == l.preco && p.quantidade == l.quantidade && p.estoqueMin == l.estoqueMin
    ensures p.dtCreate == Some(l.dtCreate) && p.dtUpdate == l.dtUpdate
  {
    Entidades.Produto(Some(hash), l.nome, l.descricao, l.ean13, l.preco, l.quantidade, l.estoqueMin,
                      Some(l.dtCreate), l.dtUpdate, Some(l.lativo))
  }

  /** The DTO the service returns for the row stored under `hash`. */
  function Dto(hash: string, l: Linha): (d: ProdutoDTO)
    ensures d.hash == Some(hash) && d.lativo == Some(BooleanToString(l.lativo))
    ensures d.nome == l.nome && d.descricao == l.descricao && d.ean13 == l.ean13
    ensures d.preco == l.preco && d.quantidade == l.quantidade && d.estoqueMin == l.estoqueMin
    ensures d.dtCreate == Some(l.dtCreate) && d.dtUpdate == l.dtUpdate
  {
    AppProdutoMapeador.MapearParaDTO(ParaEntidade(hash, l))
  }

  /** `hash` is present, parses as a UUID and names a stored row. */
  predicate Encontrado(c: Colaboradores, t: Tabela, hash: Option<string>) {
    hash.Some? && c.ehUuid(hash.value) && hash.value in t.linhas
  }

  /** `obterPorHash`: a null hash is dereferenced by the UUID parser; a malformed one is
      IllegalArgument; an unknown one NoSuchElement. */
  function ObterPorHash(c: Colaboradores, t: Tabela, hash: Option<string>): (r: Result<Entidades.Produto>)
    ensures r.Ok? <==> Encontrado(c, t, hash)
    ensures r.Ok? ==> r.value == ParaEntidade(hash.value, t.linhas[hash.value])
    ensures hash.None? ==> r == Err(Failure(Runtime, MSG_NULO))
    ensures hash.Some? && !c.ehUuid(hash.value) ==>
      r == Err(Failure(IllegalArgument, ProdutoValidador.MSG_HASH_INVALIDO))
    ensures hash.Some? && c.ehUuid(hash.value) && hash.value !in t.linhas ==>
      r == Err(Failure(NoSuchElement, MSG_NAO_ENCONTRADO))
  {
    if hash.None? then Err(Failure(Runtime, MSG_NULO))
    else
      match ProdutoValidador.ValidarERetornarHash(c.ehUuid, hash.value)
      case Err(e) => Err(e)
      case Ok(h) =>
        match BuscarPorHash(t, h)
        case None => Err(Failure(NoSuchElement, MSG_NAO_ENCONTRADO))
        case Some(l) => Ok(ParaEntidade(h, l))
  }

  /** `obterDtoPorHash`: the DTO of the stored row, or the lookup's exception. */
  function ObterDtoPorHash(c: Colaboradores, t: Tabela, hash: string): (r: Result<ProdutoDTO>)
    ensures r.Ok? <==> Encontrado(c, t, Some(hash))
    ensures r.Ok? ==> r.value == Dto(hash, t.linhas[hash])
    ensures r.Err? ==> r.error == ObterPorHash(c, t, Some(hash)).error
  {
    match ObterPorHash(c, t, Some(hash))
    case Err(e) => Err(e)
    case Ok(p) => Ok(AppProdutoMapeador.MapearParaDTO(p))
  }

  /** `obterDtoAtivoPorHash`: as `obterDtoPorHash`, then IllegalState for an inactive row. */
  function ObterDtoAtivoPorHash(c: Colaboradores, t: Tabela, hash: string): (r: Result<ProdutoDTO>)
    ensures r.Ok? <==> Encontrado(c, t, Some(hash)) && t.linhas[hash].lativo
    ensures r.Ok? ==> r.value == Dto(hash, t.linhas[hash])
    ensures Encontrado(c, t, Some(hash)) && !t.linhas[hash].lativo ==>
      r == Err(Failure(IllegalState, ProdutoValidador.MSG_INATIVO))
    ensures !Encontrado(c, t, Some(hash)) ==> r == ObterDtoPorHash(c, t, hash)
  {
    match ObterDtoPorHash(c, t, hash)
    case Err(e) => Err(e)
    case Ok(d) =>
      match ProdutoValidador.ValidarSeProdutoEstaAtivo(ParseBoolean(d.lativo))
      case Fail(e) => Err(e)
      case Pass => Ok(d)
  }

  /** `atualizarInformacoesProduto`: a non-null descricao replaces the stored one, a non-zero
      number replaces the stored number, and nothing else changes. */
  function AtualizarInformacoesProduto(p: Entidades.Produto, d: ProdutoDTO): (r: Entidades.Produto)
    ensures r.descricao == (if d.descricao.Some? then d.descricao else p.descricao)
    ensures r.preco == (if d.preco != 0.0 then d.preco else p.preco)
    ensures r.quantidade == (if d.quantidade != 0.0 then d.quantidade else p.quantidade)
    ensures r.estoqueMin == (if d.estoqueMin != 0.0 then d.estoqueMin else p.estoqueMin)
    ensures r.hash == p.hash && r.nome == p.nome && r.ean13 == p.ean13 && r.lativo == p.lativo
    ensures r.dtCreate == p.dtCreate && r.dtUpdate == p.dtUpdate
  {
    var p1 := if d.descricao.Some? && d.descricao != p.descricao then p.(descricao := d.descricao) else p;
    var p2 := if d.preco != 0.0 && d.preco != p1.preco then p1.(preco := d.preco) else p1;
    var p3 := if d.quantidade != 0.0 && d.quantidade != p2.quantidade then p2.(quantidade := d.quantidade) else p2;
    if d.estoqueMin != 0.0 && d.estoqueMin != p3.estoqueMin then p3.(estoqueMin := d.estoqueMin) else p3
  }

  /** Applying the same DTO twice changes nothing more than applying it once. */
  lemma AtualizarInformacoesIdempotente(p: Entidades.Produto, d: ProdutoDTO)
    ensures AtualizarInformacoesProduto(AtualizarInformacoesProduto(p, d), d) == AtualizarInformacoesProduto(p, d)
  {}

  /** A DTO with no descricao and every number zero leaves the product as it was. */
  lemma DtoVazioNaoAltera(p: Entidades.Produto, d: ProdutoDTO)
    requires d.descricao.None? && d.preco == 0.0 && d.quantidade == 0.0 && d.estoqueMin == 0.0
    ensures AtualizarInformacoesProduto(p, d) == p
  {}

  /** The five price operations, matched ignoring case. */
  predicate OperacaoDePreco(operacao: string) {
    || EqualsIgnoreCase(operacao, "fixo")
    || EqualsIgnoreCase(operacao, "aumentar-valor")
    || EqualsIgnoreCase(operacao, "diminuir-valor")
    || EqualsIgnoreCase(operacao, "aumentar-percentualmente")
    || EqualsIgnoreCase(operacao, "diminuir-percentualmente")
  }

  /** The two operations of equal length differ in their first letter, so at most one of
      each pair matches. */
  lemma OperacoesExclusivas(op: string)
    ensures EqualsIgnoreCase(op, "aumentar-valor") ==> !EqualsIgnoreCase(op, "diminuir-valor")
    ensures EqualsIgnoreCase(op, "aumentar-percentualmente") ==> !EqualsIgnoreCase(op, "diminuir-percentualmente")
  {
    if EqualsIgnoreCase(op, "aumentar-valor") {
      assert FoldCase(op[0]) == FoldCase("aumentar-valor"[0]);
    }
    if EqualsIgnoreCase(op, "aumentar-percentualmente") {
      assert FoldCase(op[0]) == FoldCase("aumentar-percentualmente"[0]);
    }
  }

  /** A computed price, accepted unless negative. */
  function PrecoValidado(novo: real): (r: Result<real>)
    ensures r.Ok? <==> novo >= 0.0
    ensures r.Ok? ==> r.value == novo
    ensures r.Err? ==> r.error == Failure(IllegalArgument, ProdutoValidador.MsgNegativo("novo preço"))
  {
    match ProdutoValidador.ValidarDoubleNegativo(novo, "novo preço")
    case Fail(e) => Err(e)
    case Pass => Ok(novo)
  }

  /** `obterNovoPreco`: the price the operation gives, rejected when negative; an unknown
      operation is IllegalArgument quoting it, and a null one is dereferenced. */
  function ObterNovoPreco(atual: real, operacao: Option<string>, valor: real): (r: Result<real>)
    ensures operacao.None? ==> r == Err(Failure(Runtime, MSG_NULO))
    ensures operacao.Some? && !OperacaoDePreco(operacao.value) ==>
      r == Err(Failure(IllegalArgument, MsgOperacaoInvalida(operacao.value)))
    ensures operacao.Some? && EqualsIgnoreCase(operacao.value, "fixo") ==> r == PrecoValidado(valor)
    ensures operacao.Some? && EqualsIgnoreCase(operacao.value, "aumentar-valor") ==> r == PrecoValidado(atual + valor)
    ensures operacao.Some? && EqualsIgnoreCase(operacao.value, "diminuir-valor") ==> r == PrecoValidado(atual - valor)
    ensures operacao.Some? && EqualsIgnoreCase(operacao.value, "aumentar-percentualmente") ==>
      r == PrecoValidado(atual + atual * (valor / 100.0))
    ensures operacao.Some? && EqualsIgnoreCase(operacao.value, "diminuir-percentualmente") ==>
      r == PrecoValidado(atual - atual * (valor / 100.0))
    ensures r.Ok? ==> r.value >= 0.0
    ensures r.Err? ==> r.error.kind != NoSuchElement && r.error.kind != IllegalState
  {
    match operacao
    case None => Err(Failure(Runtime, MSG_NULO))
    case Some(op) =>
      OperacoesExclusivas(op);
      if EqualsIgnoreCase(op, "fixo") then PrecoValidado(valor)
      else if EqualsIgnoreCase(op, "aumentar-valor") then PrecoValidado(atual + valor)
      else if EqualsIgnoreCase(op, "diminuir-valor") then PrecoValidado(atual - valor)
      else if EqualsIgnoreCase(op, "aumentar-percentualmente") then PrecoValidado(atual + atual * (valor / 100.0))
      else if EqualsIgnoreCase(op, "diminuir-percentualmente") then PrecoValidado(atual - atual * (valor / 100.0))
      else Err(Failure(IllegalArgument, MsgOperacaoInvalida(op)))
  }

  /** A few adjustments worked through, including an upper-case operation name, one spelled
      with a dotless i, and an operation the service does not know. */
  lemma ObterNovoPrecoExemplos()
    ensures ObterNovoPreco(100.0, Some("fixo"), 50.0) == Ok(50.0)
    ensures ObterNovoPreco(100.0, Some("FIXO"), 50.0) == Ok(50.0)
    ensures ObterNovoPreco(100.0, Some("f\U{0131}xo"), 50.0) == Ok(50.0)
    ensures ObterNovoPreco(100.0, Some("aumentar-percentualmente"), 10.0) == Ok(110.0)
    ensures ObterNovoPreco(100.0, Some("diminuir-valor"), 150.0) ==
      Err(Failure(IllegalArgument, ProdutoValidador.MsgNegativo("novo preço")))
    ensures ObterNovoPreco(100.0, Some("dobrar"), 2.0) ==
      Err(Failure(IllegalArgument, MsgOperacaoInvalida("dobrar")))
  {
    assert EqualsIgnoreCase("FIXO", "fixo");
    assert EqualsIgnoreCase("f\U{0131}xo", "fixo");
  }

  /** Subtracting an amount succeeds exactly when the amount does not exceed the price. */
  lemma DiminuirValorAteOPrecoAtual(atual: real, valor: real)
    ensures ObterNovoPreco(atual, Some("diminuir-valor"), valor).Ok? <==> valor <= atual
  {}

  /** On a positive price, a percentage decrease succeeds exactly up to 100%, and 100%
      brings the price to zero. */
  lemma {:induction false} DiminuirPercentualAteCem(atual: real, valor: real)
    requires atual > 0.0
    ensures ObterNovoPreco(atual, Some("diminuir-percentualmente"), valor).Ok? <==> valor <= 100.0
    ensures ObterNovoPreco(atual, Some("diminuir-percentualmente"), 100.0) == Ok(0.0)
  {
    var novo := atual - atual * (valor / 100.0);
    assert novo == atual * ((100.0 - valor) / 100.0);
    if valor <= 100.0 {
      assert (100.0 - valor) / 100.0 >= 0.0;
      assert novo >= 0.0;
    } else {
      assert (100.0 - valor) / 100.0 < 0.0;
      assert novo < 0.0;
    }
  }

  /** `obterNovoValorEstoque`: the stock plus the amount, rejected when negative. */
  function ObterNovoValorEstoque(atual: real, valor: real): (r: Result<real>)
    ensures r.Ok? <==> atual + valor >= 0.0
    ensures r.Ok? ==> r.value == atual + valor
    ensures r.Err? ==> r.error == Failure(IllegalArgument, ProdutoValidador.MsgNegativo("novo estoque"))
  {
    match ProdutoValidador.ValidarDoubleNegativo(atual + valor, "novo estoque")
    case Fail(e) => Err(e)
    case Pass => Ok(atual + valor)
  }

  /** Removing more than is in stock is refused; removing part of it is not. */
  lemma ObterNovoValorEstoqueExemplos()
    ensures ObterNovoValorEstoque(5.0, -10.0).Err?
    ensures ObterNovoValorEstoque(5.0, 3.0) == Ok(8.0)
    ensures ObterNovoValorEstoque(5.0, -5.0) == Ok(0.0)
  {}

  /** `atualizarPrecoEmLote`: look the product up, refuse an inactive one, refuse a negative
      amount, compute the new price, write only the preco column, and return the product
      read again by its hash. */
  function AtualizarPrecoEmLote(c: Colaboradores, t: Tabela, d: AtualizacaoLoteProdutoDTO, agora: Timestamp): (r: Efeito)
    ensures !Encontrado(c, t, d.hash) ==> r == Efeito(t, Err(ObterPorHash(c, t, d.hash).error))
    ensures Encontrado(c, t, d.hash) && !t.linhas[d.hash.value].lativo ==>
      r == Efeito(t, Err(Failure(IllegalState, ProdutoValidador.MSG_INATIVO)))
    ensures Encontrado(c, t, d.hash) && t.linhas[d.hash.value].lativo && d.valor < 0.0 ==>
      r == Efeito(t, Err(Failure(IllegalArgument, ProdutoValidador.MsgNegativo("valor"))))
    ensures Encontrado(c, t, d.hash) && t.linhas[d.hash.value].lativo && d.valor >= 0.0 ==>
      var novo := ObterNovoPreco(t.linhas[d.hash.value].preco, d.operacao, d.valor);
      if novo.Err? then r == Efeito(t, Err(novo.error))
      else r.tabela == c.atualizarAtributoDouble(t, "preco", novo.value, d.hash.value, agora)
           && r.resultado == ObterDtoPorHash(c, r.tabela, d.hash.value)
    ensures r.tabela != t ==> d.hash.Some? && exists novo: real ::
      (novo >= 0.0 && r.tabela == c.atualizarAtributoDouble(t, "preco", novo, d.hash.value, agora))
  {
    match ObterPorHash(c, t, d.hash)
    case Err(e) => Efeito(t, Err(e))
    case Ok(produto) =>
      match ProdutoValidador.ValidarSeProdutoEstaAtivo(produto.lativo.value)
      case Fail(e) => Efeito(t, Err(e))
      case Pass =>
        match ProdutoValidador.ValidarDoubleNegativo(d.valor, "valor")
        case Fail(e) => Efeito(t, Err(e))
        case Pass =>
          match ObterNovoPreco(produto.preco, d.operacao, d.valor)
          case Err(e) => Efeito(t, Err(e))
          case Ok(novo) =>
            var h := produto.hash.value;
            var t' := c.atualizarAtributoDouble(t, "preco", novo, h, agora);
            Efeito(t', ObterDtoPorHash(c, t', h))
  }

  /** `atualizarAtributoDouble` keeps to its brief on this call: it sets the named column of
      the named row and touches nothing else. */
  predicate EscreveSoAColuna(c: Colaboradores, t: Tabela, atributo: string, valor: real, hash: string, agora: Timestamp)
    requires hash in t.linhas
  {
    var l := t.linhas[hash];
    c.atualizarAtributoDouble(t, atributo, valor, hash, agora) ==
      Tabela(t.linhas[hash := if atributo == "preco" then l.(preco := valor)
                              else if atributo == "quantidade" then l.(quantidade := valor)
                              else l])
  }

  /** When the column write behaves, a successful batch price update returns the stored
      product with only its price replaced by the computed one. */
  lemma PrecoEmLoteMudaSoOPreco(c: Colaboradores, t: Tabela, d: AtualizacaoLoteProdutoDTO, agora: Timestamp)
    requires Encontrado(c, t, d.hash) && t.linhas[d.hash.value].lativo && d.valor >= 0.0
    requires ObterNovoPreco(t.linhas[d.hash.value].preco, d.operacao, d.valor).Ok?
    requires EscreveSoAColuna(c, t, "preco", ObterNovoPreco(t.linhas[d.hash.value].preco, d.operacao, d.valor).value,
                              d.hash.value, agora)
    ensures var h := d.hash.value;
      var novo := ObterNovoPreco(t.linhas[h].preco, d.operacao, d.valor).value;
      AtualizarPrecoEmLote(c, t, d, agora) ==
        Efeito(Tabela(t.linhas[h := t.linhas[h].(preco := novo)]), Ok(Dto(h, t.linhas[h].(preco := novo))))
  {}

  /** `atualizarEstoqueEmLote`: as the price batch, with the zero check supplied by the
      caller and the new stock written to the quantidade column. */
  function AtualizarEstoqueEmLote(c: Colaboradores, t: Tabela, d: AtualizacaoLoteProdutoDTO, agora: Timestamp): (r: Efeito)
    ensures !Encontrado(c, t, d.hash) ==> r == Efeito(t, Err(ObterPorHash(c, t, d.hash).error))
    ensures Encontrado(c, t, d.hash) && !t.linhas[d.hash.value].lativo ==>
      r == Efeito(t, Err(Failure(IllegalState, ProdutoValidador.MSG_INATIVO)))
    ensures Encontrado(c, t, d.hash) && t.linhas[d.hash.value].lativo && c.validarDoubleZero(d.valor, "valor").Fail? ==>
      r == Efeito(t, Err(c.validarDoubleZero(d.valor, "valor").error))
    ensures Encontrado(c, t, d.hash) && t.linhas[d.hash.value].lativo && c.validarDoubleZero(d.valor, "valor").Pass? ==>
      var atual := t.linhas[d.hash.value].quantidade;
      if atual + d.valor < 0.0
      then r == Efeito(t, Err(Failure(IllegalArgument, ProdutoValidador.MsgNegativo("novo estoque"))))
      else r.tabela == c.atualizarAtributoDouble(t, "quantidade", atual + d.valor, d.hash.value, agora)
           && r.resultado == ObterDtoPorHash(c, r.tabela, d.hash.value)
  {
    match ObterPorHash(c, t, d.hash)
    case Err(e) => Efeito(t, Err(e))
    case Ok(produto) =>
      match ProdutoValidador.ValidarSeProdutoEstaAtivo(produto.lativo.value)
      case Fail(e) => Efeito(t, Err(e))
      case Pass =>
        match c.validarDoubleZero(d.valor, "valor")
        case Fail(e) => Efeito(t, Err(e))
        case Pass =>
          match ObterNovoValorEstoque(produto.quantidade, d.valor)
          case Err(e) => Efeito(t, Err(e))
          case Ok(novo) =>
            var h := produto.hash.value;
            var t' := c.atualizarAtributoDouble(t, "quantidade", novo, h, agora);
            Efeito(t', ObterDtoPorHash(c, t', h))
  }

  /** `atualizar`: look the product up, refuse an inactive one, run the supplied numeric
      check, merge the DTO into the product, write it, and return it read again. */
  function Atualizar(c: Colaboradores, t: Tabela, hash: string, d: ProdutoDTO, agora: Timestamp): (r: Efeito)
    ensures r.resultado.Ok? <==>
      Encontrado(c, t, Some(hash)) && t.linhas[hash].lativo && c.validarAtributosDoubleEmProdutoDTO(d).Pass?
    ensures r.resultado.Err? ==> r.tabela == t
    ensures !Encontrado(c, t, Some(hash)) ==> r.resultado == Err(ObterPorHash(c, t, Some(hash)).error)
    ensures Encontrado(c, t, Some(hash)) && !t.linhas[hash].lativo ==>
      r.resultado == Err(Failure(IllegalState, ProdutoValidador.MSG_INATIVO))
    ensures Encontrado(c, t, Some(hash)) && t.linhas[hash].lativo && c.validarAtributosDoubleEmProdutoDTO(d).Fail? ==>
      r.resultado == Err(c.validarAtributosDoubleEmProdutoDTO(d).error)
    ensures r.resultado.Ok? ==>
      && r.tabela.linhas.Keys == t.linhas.Keys
      && (forall h :: h in t.linhas && h != hash ==> r.tabela.linhas[h] == t.linhas[h])
      && var antes, depois := t.linhas[hash], r.tabela.linhas[hash];
         && depois.descricao == (if d.descricao.Some? then d.descricao else antes.descricao)
         && depois.preco == (if d.preco != 0.0 then d.preco else antes.preco)
         && depois.quantidade == (if d.quantidade != 0.0 then d.quantidade else antes.quantidade)
         && depois.estoqueMin == (if d.estoqueMin != 0.0 then d.estoqueMin else antes.estoqueMin)
         && depois.nome == antes.nome && depois.ean13 == antes.ean13
         && depois.lativo == antes.lativo && depois.dtCreate == antes.dtCreate
         && depois.dtUpdate == Some(agora)
         && r.resultado.value == Dto(hash, depois)
  {
    match ObterPorHash(c, t, Some(hash))
    case Err(e) => Efeito(t, Err(e))
    case Ok(produto) =>
      match ProdutoValidador.ValidarSeProdutoEstaAtivo(produto.lativo.value)
      case Fail(e) => Efeito(t, Err(e))
      case Pass =>
        match c.validarAtributosDoubleEmProdutoDTO(d)
        case Fail(e) => Efeito(t, Err(e))
        case Pass =>
          var p := AtualizarInformacoesProduto(produto, d);
          match Repositorio.Atualizar(t, p.hash, p.descricao, p.preco, p.quantidade, p.estoqueMin, agora)
          case Err(e) => Efeito(t, Err(e))
          case Ok(t') => Efeito(t', ObterDtoPorHash(c, t', hash))
  }

  /** `atualizarStatusLativo`: check the spelling of lativo, look the product up, store the
      flag and return the product read again. There is no active gate: an inactive product
      can be switched on. */
  function AtualizarStatusLativo(c: Colaboradores, t: Tabela, hash: string, d: ProdutoDTO, agora: Timestamp): (r: Efeito)
    ensures r.resultado.Ok? <==> ProdutoValidador.VerificarLativo(d).Pass? && Encontrado(c, t, Some(hash))
    ensures r.resultado.Err? ==> r.tabela == t
    ensures ProdutoValidador.VerificarLativo(d).Fail? ==> r.resultado == Err(ProdutoValidador.VerificarLativo(d).error)
    ensures ProdutoValidador.VerificarLativo(d).Pass? && !Encontrado(c, t, Some(hash)) ==>
      r.resultado == Err(ObterPorHash(c, t, Some(hash)).error)
    ensures r.resultado.Ok? ==>
      && r.tabela.linhas == t.linhas[hash := t.linhas[hash].(lativo := ParseBoolean(d.lativo), dtUpdate := Some(agora))]
      && r.resultado.value == Dto(hash, r.tabela.linhas[hash])
      && r.resultado.value.lativo == Some(BooleanToString(ParseBoolean(d.lativo)))
  {
    match ProdutoValidador.VerificarLativo(d)
    case Fail(e) => Efeito(t, Err(e))
    case Pass =>
      var lativo := ParseBoolean(d.lativo);
      match ObterPorHash(c, t, Some(hash))
      case Err(e) => Efeito(t, Err(e))
      case Ok(produto) =>
        var (t', _) := Repositorio.AtualizarStatusLativo(t, lativo, produto.hash, agora);
        Efeito(t', ObterDtoPorHash(c, t', hash))
  }

  /** An inactive product sent "TRUE" comes back active. */
  lemma StatusAtivaProdutoInativo(c: Colaboradores, t: Tabela, hash: string, d: ProdutoDTO, agora: Timestamp)
    requires Encontrado(c, t, Some(hash)) && !t.linhas[hash].lativo
    requires d.lativo == Some("TRUE")
    ensures var r := AtualizarStatusLativo(c, t, hash, d, agora);
      r.resultado.Ok? && r.tabela.linhas[hash].lativo && r.resultado.value.lativo == Some("true")
  {
    assert EqualsIgnoreCase("TRUE", "true");
  }

  /** `deletar`: a malformed hash is IllegalArgument; removing nothing is NoSuchElement. */
  function Deletar(c: Colaboradores, t: Tabela, hash: string): (r: (Tabela, Outcome))
    ensures r.1.Pass? <==> Encontrado(c, t, Some(hash))
    ensures c.ehUuid(hash) ==> r.0.linhas == t.linhas - {hash}
    ensures !c.ehUuid(hash) ==> r == (t, Fail(Failure(IllegalArgument, ProdutoValidador.MSG_HASH_INVALIDO)))
    ensures c.ehUuid(hash) && hash !in t.linhas ==> r.1 == Fail(Failure(NoSuchElement, MSG_NAO_DELETADO))
  {
    match ProdutoValidador.ValidarERetornarHash(c.ehUuid, hash)
    case Err(e) => (t, Fail(e))
    case Ok(h) =>
      var (t', removido) := Repositorio.Deletar(t, h);
      if !removido then (t', Fail(Failure(NoSuchElement, MSG_NAO_DELETADO))) else (t', Pass)
  }

  /** A deleted product can no longer be found, and deleting it again fails. */
  lemma DeletarDuasVezes(c: Colaboradores, t: Tabela, hash: string)
    requires Encontrado(c, t, Some(hash))
    ensures var (t', _) := Deletar(c, t, hash);
      && ObterPorHash(c, t', Some(hash)) == Err(Failure(NoSuchElement, MSG_NAO_ENCONTRADO))
      && Deletar(c, t', hash).1 == Fail(Failure(NoSuchElement, MSG_NAO_DELETADO))
  {}

  /** `criar` with `salvarEObterDto`: run the supplied attribute check, insert the DTO's
      content (the database generates `novoHash`), and return the product read back. */
  function Criar(c: Colaboradores, t: Tabela, d: ProdutoDTO, novoHash: string, agora: Timestamp): (r: Efeito)
    requires novoHash !in t.linhas
    ensures c.validarAtributosCriarProduto(d).Fail? ==>
      r == Efeito(t, Err(c.validarAtributosCriarProduto(d).error))
    ensures c.validarAtributosCriarProduto(d).Pass? ==>
      && r.tabela.linhas.Keys == t.linhas.Keys + {novoHash}
      && (forall h :: h in t.linhas ==> r.tabela.linhas[h] == t.linhas[h])
      && (r.resultado.Ok? <==> c.ehUuid(novoHash))
    ensures r.resultado.Ok? ==>
      var dto := r.resultado.value;
      && dto.hash == Some(novoHash)
      && dto.nome == d.nome && dto.descricao == d.descricao && dto.ean13 == d.ean13
      && dto.preco == d.preco && dto.quantidade == d.quantidade && dto.estoqueMin == d.estoqueMin
      && dto.dtCreate == Some(agora) && dto.dtUpdate.None? && dto.lativo == Some("false")
  {
    match c.validarAtributosCriarProduto(d)
    case Fail(e) => Efeito(t, Err(e))
    case Pass =>
      var p := AppProdutoMapeador.MapearParaProduto(d);
      var (t', h) := Salvar(t, p.nome, p.descricao, p.ean13, p.preco, p.quantidade, p.estoqueMin, novoHash, agora);
      Efeito(t', ObterDtoPorHash(c, t', h))
  }

  /** A created product reads back, by its hash, as the DTO `criar` returned. */
  lemma CriarDepoisObter(c: Colaboradores, t: Tabela, d: ProdutoDTO, novoHash: string, agora: Timestamp)
    requires novoHash !in t.linhas
    requires c.validarAtributosCriarProduto(d).Pass? && c.ehUuid(novoHash)
    ensures var r := Criar(c, t, d, novoHash, agora);
      r.resultado.Ok? && ObterDtoPorHash(c, r.tabela, novoHash) == r.resultado
  {}
}
