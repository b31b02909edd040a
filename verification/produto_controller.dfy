/** `application.controller.ProdutoController`: single and batch create, update, status
    change and batch price change, each schema-checked before the service is called.
    The service (over a state `S`) and the Gson mapping of a request object are supplied. */
module ProdutoController {
  import opened Common
  import opened Json
  import opened AppDtos
  import AppProdutoAtributos
  import JsonProdutoValidador

  const SUCESSO := "Sucesso"
  const ERRO := "Erro"
  const MSG_CADASTRADO := "Produto cadastrado com sucesso."
  const MSG_ATUALIZADO := "Produto atualizado com sucesso."
  const MSG_PRECO_ATUALIZADO := "Preço atualizado com sucesso."

  /** The service methods the controller calls, each threading the service state. */
  datatype Servico<!S> = Servico(
    criar: (S, ProdutoDTO) -> (S, Result<ProdutoDTO>),
    atualizar: (S, string, ProdutoDTO) -> (S, Result<ProdutoDTO>),
    atualizarStatusLativo: (S, string, ProdutoDTO) -> (S, Result<ProdutoDTO>),
    atualizarPrecoEmLote: (S, AtualizacaoLoteProdutoDTO) -> (S, Result<ProdutoDTO>))

  /** The Gson mappings of a validated request object (`mapearParaDTO(JsonObject)` and
      `mapearParaPrecoLoteDTO`); a conversion error is thrown. */
  datatype Mapeamento = Mapeamento(
    paraDTO: JObject -> Result<ProdutoDTO>,
    paraPrecoLote: JObject -> Result<AtualizacaoLoteProdutoDTO>)

  /** The service state after a call, and what the call returned or threw. */
  datatype Saida<S, T> = Saida(estado: S, resultado: Result<T>)

  /** `validarObjetoJson(objetoJson, e)` for an entry of the application schema. */
  function ValidarEsquema(o: JObject, e: AppProdutoAtributos.Entrada): (r: Outcome)
    ensures r.Pass? <==>
      && (e == AppProdutoAtributos.ATRIBUTOS_ATUALIZAVEIS
          || forall i :: 0 <= i < |AppProdutoAtributos.GetAtributos(e)| ==> Has(o, AppProdutoAtributos.GetAtributos(e)[i]))
      && (forall i :: 0 <= i < |o| ==> o[i].0 in AppProdutoAtributos.GetAtributos(e))
    ensures r.Fail? ==> r.error.kind == IllegalArgument
  {
    JsonProdutoValidador.ValidarObjeto(o, AppProdutoAtributos.GetAtributos(e), e == AppProdutoAtributos.ATRIBUTOS_ATUALIZAVEIS)
  }

  /** `addRespostaSucesso`: appends a success entry carrying the DTO. */
  function AddRespostaSucesso(d: ProdutoDTO, mensagem: string, respostas: seq<RespostaDTO>): (r: seq<RespostaDTO>)
    ensures |r| == |respostas| + 1 && r[..|respostas|] == respostas
    ensures r[|respostas|].status == SUCESSO && r[|respostas|].messagem == mensagem
    ensures r[|respostas|].dado == DadoProduto(d)
  {
    respostas + [RespostaDTO(SUCESSO, mensagem, DadoProduto(d))]
  }

  /** `addRespostaErro`: appends an error entry echoing the unmodified request object. */
  function AddRespostaErro(o: JObject, mensagem: string, respostas: seq<RespostaDTO>): (r: seq<RespostaDTO>)
    ensures |r| == |respostas| + 1 && r[..|respostas|] == respostas
    ensures r[|respostas|].status == ERRO && r[|respostas|].messagem == mensagem
    ensures r[|respostas|].dado == DadoJson(o)
  {
    respostas + [RespostaDTO(ERRO, mensagem, DadoJson(o))]
  }

  /** `salvarProduto`: the create schema, then the mapping, then the service. A schema or
      mapping failure leaves the state alone. */
  function SalvarProduto<S>(svc: Servico<S>, g: Mapeamento, st: S, o: JObject): (r: Saida<S, ProdutoDTO>)
    ensures ValidarEsquema(o, AppProdutoAtributos.ATRIBUTOS_OBRIGATORIOS_SALVAR).Fail? ==>
      r == Saida(st, Err(ValidarEsquema(o, AppProdutoAtributos.ATRIBUTOS_OBRIGATORIOS_SALVAR).error))
    ensures ValidarEsquema(o, AppProdutoAtributos.ATRIBUTOS_OBRIGATORIOS_SALVAR).Pass? && g.paraDTO(o).Err? ==>
      r == Saida(st, Err(g.paraDTO(o).error))
    ensures ValidarEsquema(o, AppProdutoAtributos.ATRIBUTOS_OBRIGATORIOS_SALVAR).Pass? && g.paraDTO(o).Ok? ==>
      r == Saida(svc.criar(st, g.paraDTO(o).value).0, svc.criar(st, g.paraDTO(o).value).1)
  {
    match ValidarEsquema(o, AppProdutoAtributos.ATRIBUTOS_OBRIGATORIOS_SALVAR)
    case Fail(e) => Saida(st, Err(e))
    case Pass =>
      match g.paraDTO(o)
      case Err(e) => Saida(st, Err(e))
      case Ok(d) =>
        var (st', res) := svc.criar(st, d);
        Saida(st', res)
  }

  /** `criar`: one product, answered with a success entry; every exception propagates. */
  function Criar<S>(svc: Servico<S>, g: Mapeamento, st: S, o: JObject): (r: Saida<S, RespostaDTO>)
    ensures r.resultado.Ok? <==> SalvarProduto(svc, g, st, o).resultado.Ok?
    ensures r.estado == SalvarProduto(svc, g, st, o).estado
    ensures r.resultado.Ok? ==>
      r.resultado.value == RespostaDTO(SUCESSO, MSG_CADASTRADO, DadoProduto(SalvarProduto(svc, g, st, o).resultado.value))
    ensures r.resultado.Err? ==> r.resultado.error == SalvarProduto(svc, g, st, o).resultado.error
  {
    var s := SalvarProduto(svc, g, st, o);
    match s.resultado
    case Err(e) => Saida(s.estado, Err(e))
    case Ok(d) => Saida(s.estado, Ok(RespostaDTO(SUCESSO, MSG_CADASTRADO, DadoProduto(d))))
  }

  /** The entry a batch records for one item: success with the DTO, or error with the
      exception's message and the item itself. */
  predicate EntradaDoItem(x: RespostaDTO, o: JObject, mensagem: string) {
    || (x.status == SUCESSO && x.messagem == mensagem && x.dado.DadoProduto?)
    || (x.status == ERRO && x.dado == DadoJson(o))
  }

  /** The loop shared by `criarLote` and `atualizarPrecoLote`: items are processed in order,
      one entry is appended per item, an exception whose kind `capturada` accepts becomes an
      error entry, and any other exception ends the batch. */
  function Lote<S>(passo: (S, JObject) -> Saida<S, ProdutoDTO>, capturada: ErrorKind -> bool, mensagem: string,
                   st: S, itens: seq<JObject>, respostas: seq<RespostaDTO>): (r: Saida<S, seq<RespostaDTO>>)
    ensures r.resultado.Ok? ==>
      && |r.resultado.value| == |respostas| + |itens|
      && r.resultado.value[..|respostas|] == respostas
      && forall i :: 0 <= i < |itens| ==> EntradaDoItem(r.resultado.value[|respostas| + i], itens[i], mensagem)
    ensures r.resultado.Err? ==> !capturada(r.resultado.error.kind)
    decreases |itens|
  {
    if |itens| == 0 then Saida(st, Ok(respostas))
    else
      var s := passo(st, itens[0]);
      match s.resultado
      case Ok(d) =>
        var r := Lote(passo, capturada, mensagem, s.estado, itens[1..], AddRespostaSucesso(d, mensagem, respostas));
        LoteEntradas(respostas, AddRespostaSucesso(d, mensagem, respostas), r, itens, mensagem);
        r
      case Err(e) =>
        if capturada(e.kind) then
          var r := Lote(passo, capturada, mensagem, s.estado, itens[1..], AddRespostaErro(itens[0], e.message, respostas));
          LoteEntradas(respostas, AddRespostaErro(itens[0], e.message, respostas), r, itens, mensagem);
          r
        else Saida(s.estado, Err(e))
  }

  /** Lifts the entries of the rest of the batch to the whole batch. */
  lemma LoteEntradas<S>(respostas: seq<RespostaDTO>, mais: seq<RespostaDTO>, r: Saida<S, seq<RespostaDTO>>,
                        itens: seq<JObject>, mensagem: string)
    requires |itens| >= 1
    requires |mais| == |respostas| + 1 && mais[..|respostas|] == respostas
    requires EntradaDoItem(mais[|respostas|], itens[0], mensagem)
    requires r.resultado.Ok? ==>
      && |r.resultado.value| == |mais| + |itens[1..]|
      && r.resultado.value[..|mais|] == mais
      && forall i :: 0 <= i < |itens[1..]| ==> EntradaDoItem(r.resultado.value[|mais| + i], itens[1..][i], mensagem)
    ensures r.resultado.Ok? ==>
      && |r.resultado.value| == |respostas| + |itens|
      && r.resultado.value[..|respostas|] == respostas
      && forall i :: 0 <= i < |itens| ==> EntradaDoItem(r.resultado.value[|respostas| + i], itens[i], mensagem)
  {
    if r.resultado.Ok? {
      var v := r.resultado.value;
      assert v[..|respostas|] == v[..|mais|][..|respostas|];
      forall i | 0 <= i < |itens| ensures EntradaDoItem(v[|respostas| + i], itens[i], mensagem) {
        if i == 0 {
          assert v[|respostas|] == v[..|mais|][|respostas|];
        } else {
          assert itens[i] == itens[1..][i - 1];
          assert |respostas| + i == |mais| + (i - 1);
        }
      }
    }
  }

  /** The batch can only end early on an exception it does not catch: when no item step
      ever throws one, every item gets its entry. */
  lemma {:induction false} LoteCompleto<S>(passo: (S, JObject) -> Saida<S, ProdutoDTO>, capturada: ErrorKind -> bool,
                                            mensagem: string, st: S, itens: seq<JObject>, respostas: seq<RespostaDTO>)
    requires forall s: S, o: JObject :: passo(s, o).resultado.Err? ==> capturada(passo(s, o).resultado.error.kind)
    ensures Lote(passo, capturada, mensagem, st, itens, respostas).resultado.Ok?
    decreases |itens|
  {
    if |itens| > 0 {
      var s := passo(st, itens[0]);
      match s.resultado
      case Ok(d) =>
        LoteCompleto(passo, capturada, mensagem, s.estado, itens[1..], AddRespostaSucesso(d, mensagem, respostas));
      case Err(e) =>
        LoteCompleto(passo, capturada, mensagem, s.estado, itens[1..], AddRespostaErro(itens[0], e.message, respostas));
    }
  }

  /** A batch split in two is the first part followed by the second, started from the state
      and the entries the first part left. */
  lemma {:induction false} LoteConcatena<S>(passo: (S, JObject) -> Saida<S, ProdutoDTO>, capturada: ErrorKind -> bool,
                                             mensagem: string, st: S, a: seq<JObject>, b: seq<JObject>,
                                             respostas: seq<RespostaDTO>)
    requires Lote(passo, capturada, mensagem, st, a, respostas).resultado.Ok?
    ensures var ra := Lote(passo, capturada, mensagem, st, a, respostas);
      Lote(passo, capturada, mensagem, st, a + b, respostas) ==
        Lote(passo, capturada, mensagem, ra.estado, b, ra.resultado.value)
    decreases |a|
  {
    if |a| == 0 {
      assert a + b == b;
    } else {
      assert (a + b)[0] == a[0];
      assert (a + b)[1..] == a[1..] + b;
      var s := passo(st, a[0]);
      match s.resultado
      case Ok(d) =>
        LoteConcatena(passo, capturada, mensagem, s.estado, a[1..], b, AddRespostaSucesso(d, mensagem, respostas));
      case Err(e) =>
        LoteConcatena(passo, capturada, mensagem, s.estado, a[1..], b, AddRespostaErro(a[0], e.message, respostas));
    }
  }

  /** The entry the batch records for an item whose step ended as `s`: a success with the DTO
      and the batch's message, or an error with the exception's message and the item itself. */
  function EntradaDe<S>(s: Saida<S, ProdutoDTO>, o: JObject, mensagem: string): RespostaDTO {
    match s.resultado
    case Ok(d) => RespostaDTO(SUCESSO, mensagem, DadoProduto(d))
    case Err(e) => RespostaDTO(ERRO, e.message, DadoJson(o))
  }

  /** A batch that finishes has finished every prefix of it. */
  lemma {:induction false} LotePrefixoOk<S>(passo: (S, JObject) -> Saida<S, ProdutoDTO>, capturada: ErrorKind -> bool,
                                            mensagem: string, st: S, a: seq<JObject>, b: seq<JObject>,
                                            respostas: seq<RespostaDTO>)
    requires Lote(passo, capturada, mensagem, st, a + b, respostas).resultado.Ok?
    ensures Lote(passo, capturada, mensagem, st, a, respostas).resultado.Ok?
    decreases |a|
  {
    if |a| > 0 {
      assert (a + b)[0] == a[0];
      assert (a + b)[1..] == a[1..] + b;
      var s := passo(st, a[0]);
      match s.resultado
      case Ok(d) =>
        LotePrefixoOk(passo, capturada, mensagem, s.estado, a[1..], b, AddRespostaSucesso(d, mensagem, respostas));
      case Err(e) =>
        LotePrefixoOk(passo, capturada, mensagem, s.estado, a[1..], b, AddRespostaErro(a[0], e.message, respostas));
    }
  }

  /** In a finished batch, item `i`'s entry is what its step gives when run from the state
      the items before it left: a success with the returned DTO, or an error with the
      exception's message. */
  lemma LoteItem<S>(passo: (S, JObject) -> Saida<S, ProdutoDTO>, capturada: ErrorKind -> bool,
                    mensagem: string, st: S, itens: seq<JObject>, respostas: seq<RespostaDTO>, i: int)
    requires 0 <= i < |itens|
    requires Lote(passo, capturada, mensagem, st, itens, respostas).resultado.Ok?
    ensures var pre := Lote(passo, capturada, mensagem, st, itens[..i], respostas);
      && pre.resultado.Ok?
      && Lote(passo, capturada, mensagem, st, itens, respostas).resultado.value[|respostas| + i] ==
           EntradaDe(passo(pre.estado, itens[i]), itens[i], mensagem)
  {
    assert itens == itens[..i] + itens[i..];
    LotePrefixoOk(passo, capturada, mensagem, st, itens[..i], itens[i..], respostas);
    LoteConcatena(passo, capturada, mensagem, st, itens[..i], itens[i..], respostas);
    var pre := Lote(passo, capturada, mensagem, st, itens[..i], respostas);
    var v := pre.resultado.value;
    var resto := itens[i..];
    assert resto[0] == itens[i];
    var p := passo(pre.estado, itens[i]);
    var mais := if p.resultado.Ok? then AddRespostaSucesso(p.resultado.value, mensagem, v)
                else AddRespostaErro(itens[i], p.resultado.error.message, v);
    assert mais[|v|] == EntradaDe(p, itens[i], mensagem);
    var r := Lote(passo, capturada, mensagem, p.estado, resto[1..], mais);
    assert Lote(passo, capturada, mensagem, pre.estado, resto, v) == r;
    assert r.resultado.value[..|mais|] == mais;
    assert r.resultado.value[|v|] == mais[|v|];
  }

  /** An item whose step throws an uncaught exception, once the items before it have been
      answered, ends the batch with that exception and the state the step left. */
  lemma LoteAborta<S>(passo: (S, JObject) -> Saida<S, ProdutoDTO>, capturada: ErrorKind -> bool,
                      mensagem: string, st: S, itens: seq<JObject>, respostas: seq<RespostaDTO>, i: int)
    requires 0 <= i < |itens|
    requires Lote(passo, capturada, mensagem, st, itens[..i], respostas).resultado.Ok?
    requires var p := passo(Lote(passo, capturada, mensagem, st, itens[..i], respostas).estado, itens[i]);
      p.resultado.Err? && !capturada(p.resultado.error.kind)
    ensures var p := passo(Lote(passo, capturada, mensagem, st, itens[..i], respostas).estado, itens[i]);
      Lote(passo, capturada, mensagem, st, itens, respostas) == Saida(p.estado, Err(p.resultado.error))
  {
    assert itens == itens[..i] + itens[i..];
    LoteConcatena(passo, capturada, mensagem, st, itens[..i], itens[i..], respostas);
    assert itens[i..][0] == itens[i];
  }

  /** The item step of `criarLote`. */
  function PassoCriar<S>(svc: Servico<S>, g: Mapeamento): (S, JObject) -> Saida<S, ProdutoDTO> {
    (st: S, o: JObject) => SalvarProduto(svc, g, st, o)
  }

  /** Only IllegalArgumentException is caught by `criarLote`. */
  predicate CapturadaCriar(k: ErrorKind) {
    k == IllegalArgument
  }

  /** `criarLote`: one entry per item in order, unless an exception other than
      IllegalArgument ends the batch. */
  function CriarLote<S>(svc: Servico<S>, g: Mapeamento, st: S, itens: seq<JObject>): (r: Saida<S, seq<RespostaDTO>>)
    ensures r.resultado.Ok? ==>
      && |r.resultado.value| == |itens|
      && forall i :: 0 <= i < |itens| ==> EntradaDoItem(r.resultado.value[i], itens[i], MSG_CADASTRADO)
    ensures r.resultado.Err? ==> r.resultado.error.kind != IllegalArgument
  {
    var r := Lote(PassoCriar(svc, g), CapturadaCriar, MSG_CADASTRADO, st, itens, []);
    assert r.resultado.Err? ==> !CapturadaCriar(r.resultado.error.kind);
    r
  }

  /** In a finished `criarLote`, item `i` is answered with what `salvarProduto` gives it from
      the state the earlier items left: the created DTO, or the caught exception's message. */
  lemma CriarLoteItem<S>(svc: Servico<S>, g: Mapeamento, st: S, itens: seq<JObject>, i: int)
    requires 0 <= i < |itens|
    requires CriarLote(svc, g, st, itens).resultado.Ok?
    ensures var pre := CriarLote(svc, g, st, itens[..i]);
      && pre.resultado.Ok?
      && CriarLote(svc, g, st, itens).resultado.value[i] ==
           EntradaDe(SalvarProduto(svc, g, pre.estado, itens[i]), itens[i], MSG_CADASTRADO)
  {
    LoteItem(PassoCriar(svc, g), CapturadaCriar, MSG_CADASTRADO, st, itens, [], i);
  }

  /** An item of `criarLote` that throws anything but IllegalArgument, after the earlier
      items were answered, ends the batch with that exception, whatever items follow. */
  lemma CriarLoteAborta<S>(svc: Servico<S>, g: Mapeamento, st: S, itens: seq<JObject>, i: int)
    requires 0 <= i < |itens|
    requires CriarLote(svc, g, st, itens[..i]).resultado.Ok?
    requires var p := SalvarProduto(svc, g, CriarLote(svc, g, st, itens[..i]).estado, itens[i]);
      p.resultado.Err? && p.resultado.error.kind != IllegalArgument
    ensures var p := SalvarProduto(svc, g, CriarLote(svc, g, st, itens[..i]).estado, itens[i]);
      CriarLote(svc, g, st, itens) == Saida(p.estado, Err(p.resultado.error))
  {
    LoteAborta(PassoCriar(svc, g), CapturadaCriar, MSG_CADASTRADO, st, itens, [], i);
  }

  /** An item failing the create schema is answered with the schema's message and the item
      itself, whatever the state the earlier items left. */
  lemma EsquemaFalhoViraErro<S>(svc: Servico<S>, g: Mapeamento, st: S, itens: seq<JObject>, i: int)
    requires 0 <= i < |itens|
    requires ValidarEsquema(itens[i], AppProdutoAtributos.ATRIBUTOS_OBRIGATORIOS_SALVAR).Fail?
    requires CriarLote(svc, g, st, itens).resultado.Ok?
    ensures CriarLote(svc, g, st, itens).resultado.value[i] ==
      RespostaDTO(ERRO, ValidarEsquema(itens[i], AppProdutoAtributos.ATRIBUTOS_OBRIGATORIOS_SALVAR).error.message, DadoJson(itens[i]))
  {
    var e := ValidarEsquema(itens[i], AppProdutoAtributos.ATRIBUTOS_OBRIGATORIOS_SALVAR).error;
    forall s: S ensures PassoCriar(svc, g)(s, itens[i]) == Saida(s, Err(e)) {
      assert SalvarProduto(svc, g, s, itens[i]) == Saida(s, Err(e));
    }
    LoteRecusaSemEfeito(PassoCriar(svc, g), CapturadaCriar, MSG_CADASTRADO, st, itens, [], i, e);
  }

  /** An item every state refuses with the same caught exception, without effect, gets an
      error entry with that exception's message and the item itself. */
  lemma {:induction false} LoteRecusaSemEfeito<S>(passo: (S, JObject) -> Saida<S, ProdutoDTO>, capturada: ErrorKind -> bool,
                                                 mensagem: string, st: S, itens: seq<JObject>,
                                                 respostas: seq<RespostaDTO>, i: int, e: Failure)
    requires 0 <= i < |itens|
    requires capturada(e.kind)
    requires forall s: S :: passo(s, itens[i]) == Saida(s, Err(e))
    requires Lote(passo, capturada, mensagem, st, itens, respostas).resultado.Ok?
    ensures |respostas| + i < |Lote(passo, capturada, mensagem, st, itens, respostas).resultado.value|
    ensures Lote(passo, capturada, mensagem, st, itens, respostas).resultado.value[|respostas| + i] ==
      RespostaDTO(ERRO, e.message, DadoJson(itens[i]))
    decreases |itens|
  {
    var r := Lote(passo, capturada, mensagem, st, itens, respostas);
    var s := passo(st, itens[0]);
    var mais := if s.resultado.Ok? then AddRespostaSucesso(s.resultado.value, mensagem, respostas)
                else AddRespostaErro(itens[0], s.resultado.error.message, respostas);
    assert r == Lote(passo, capturada, mensagem, s.estado, itens[1..], mais);
    if i == 0 {
      assert s == Saida(st, Err(e));
      assert r.resultado.value[..|mais|] == mais;
      assert r.resultado.value[|respostas|] == mais[|respostas|];
    } else {
      assert itens[1..][i - 1] == itens[i];
      LoteRecusaSemEfeito(passo, capturada, mensagem, s.estado, itens[1..], mais, i - 1, e);
    }
  }

  /** When the service and the mapping only ever throw IllegalArgument, `criarLote` answers
      every item. */
  lemma CriarLoteCompleto<S>(svc: Servico<S>, g: Mapeamento, st: S, itens: seq<JObject>)
    requires forall s: S, d: ProdutoDTO :: svc.criar(s, d).1.Err? ==> svc.criar(s, d).1.error.kind == IllegalArgument
    requires forall o: JObject :: g.paraDTO(o).Err? ==> g.paraDTO(o).error.kind == IllegalArgument
    ensures CriarLote(svc, g, st, itens).resultado.Ok?
    ensures |CriarLote(svc, g, st, itens).resultado.value| == |itens|
  {
    LoteCompleto(PassoCriar(svc, g), CapturadaCriar, MSG_CADASTRADO, st, itens, []);
  }

  /** A batch whose every item fails the create schema never reaches the service: the state
      is unchanged and every entry is an error. */
  lemma CriarLoteSemEsquemaNaoChamaServico<S>(svc: Servico<S>, g: Mapeamento, st: S, itens: seq<JObject>)
    requires forall i :: 0 <= i < |itens| ==> ValidarEsquema(itens[i], AppProdutoAtributos.ATRIBUTOS_OBRIGATORIOS_SALVAR).Fail?
    ensures var r := CriarLote(svc, g, st, itens);
      r.estado == st && r.resultado.Ok? && forall x :: x in r.resultado.value ==> x.status == ERRO
  {
    forall s: S, i | 0 <= i < |itens|
      ensures PassoCriar(svc, g)(s, itens[i]).estado == s
      ensures PassoCriar(svc, g)(s, itens[i]).resultado.Err?
      ensures CapturadaCriar(PassoCriar(svc, g)(s, itens[i]).resultado.error.kind)
    {
      assert SalvarProduto(svc, g, s, itens[i]).resultado.Err?;
    }
    LoteTodosRecusados(PassoCriar(svc, g), CapturadaCriar, MSG_CADASTRADO, st, itens, []);
  }

  /** When every item is refused with a caught exception and no effect, the state is
      unchanged and every appended entry is an error. */
  lemma {:induction false} LoteTodosRecusados<S>(passo: (S, JObject) -> Saida<S, ProdutoDTO>, capturada: ErrorKind -> bool,
                                                mensagem: string, st: S, itens: seq<JObject>, respostas: seq<RespostaDTO>)
    requires forall s: S, i :: 0 <= i < |itens| ==>
      passo(s, itens[i]).estado == s && passo(s, itens[i]).resultado.Err?
      && capturada(passo(s, itens[i]).resultado.error.kind)
    ensures var r := Lote(passo, capturada, mensagem, st, itens, respostas);
      r.estado == st && r.resultado.Ok?
      && forall x :: x in r.resultado.value[|respostas|..] ==> x.status == ERRO
    decreases |itens|
  {
    var r := Lote(passo, capturada, mensagem, st, itens, respostas);
    if |itens| == 0 {
      assert r.resultado.value[|respostas|..] == [];
    } else {
      var s := passo(st, itens[0]);
      assert s.estado == st && s.resultado.Err? && capturada(s.resultado.error.kind);
      var mais := AddRespostaErro(itens[0], s.resultado.error.message, respostas);
      assert r == Lote(passo, capturada, mensagem, st, itens[1..], mais);
      forall s': S, i | 0 <= i < |itens[1..]|
        ensures passo(s', itens[1..][i]).estado == s' && passo(s', itens[1..][i]).resultado.Err?
        ensures capturada(passo(s', itens[1..][i]).resultado.error.kind)
      {
        assert itens[1..][i] == itens[i + 1];
      }
      LoteTodosRecusados(passo, capturada, mensagem, st, itens[1..], mais);
      var v := r.resultado.value;
      assert v[|respostas|..] == [v[|respostas|]] + v[|mais|..];
      assert v[..|mais|] == mais;
      assert v[|respostas|] == mais[|respostas|];
    }
  }

  /** One item of `atualizarPrecoLote`: batch-price schema, mapping, service. */
  function AtualizarPrecoItem<S>(svc: Servico<S>, g: Mapeamento, st: S, o: JObject): (r: Saida<S, ProdutoDTO>)
    ensures ValidarEsquema(o, AppProdutoAtributos.ATRIBUTOS_OBRIGATORIOS_ATUALIZAR_PRECO_LOTE).Fail? ==>
      r == Saida(st, Err(ValidarEsquema(o, AppProdutoAtributos.ATRIBUTOS_OBRIGATORIOS_ATUALIZAR_PRECO_LOTE).error))
    ensures ValidarEsquema(o, AppProdutoAtributos.ATRIBUTOS_OBRIGATORIOS_ATUALIZAR_PRECO_LOTE).Pass? && g.paraPrecoLote(o).Err? ==>
      r == Saida(st, Err(g.paraPrecoLote(o).error))
    ensures r.estado != st ==> ValidarEsquema(o, AppProdutoAtributos.ATRIBUTOS_OBRIGATORIOS_ATUALIZAR_PRECO_LOTE).Pass? && g.paraPrecoLote(o).Ok?
  {
    match ValidarEsquema(o, AppProdutoAtributos.ATRIBUTOS_OBRIGATORIOS_ATUALIZAR_PRECO_LOTE)
    case Fail(e) => Saida(st, Err(e))
    case Pass =>
      match g.paraPrecoLote(o)
      case Err(e) => Saida(st, Err(e))
      case Ok(d) =>
        var (st', res) := svc.atualizarPrecoEmLote(st, d);
        Saida(st', res)
  }

  /** The item step of `atualizarPrecoLote`. */
  function PassoPrecoLote<S>(svc: Servico<S>, g: Mapeamento): (S, JObject) -> Saida<S, ProdutoDTO> {
    (st: S, o: JObject) => AtualizarPrecoItem(svc, g, st, o)
  }

  /** IllegalArgumentException and IllegalStateException are caught by `atualizarPrecoLote`. */
  predicate CapturadaPrecoLote(k: ErrorKind) {
    k == IllegalArgument || k == IllegalState
  }

  /** `atualizarPrecoLote`: one entry per item in order; an inactive product (IllegalState)
      becomes an error entry, while an unknown hash (NoSuchElement) ends the batch. */
  function AtualizarPrecoLote<S>(svc: Servico<S>, g: Mapeamento, st: S, itens: seq<JObject>): (r: Saida<S, seq<RespostaDTO>>)
    ensures r.resultado.Ok? ==>
      && |r.resultado.value| == |itens|
      && forall i :: 0 <= i < |itens| ==> EntradaDoItem(r.resultado.value[i], itens[i], MSG_PRECO_ATUALIZADO)
    ensures r.resultado.Err? ==> r.resultado.error.kind != IllegalArgument && r.resultado.error.kind != IllegalState
  {
    var r := Lote(PassoPrecoLote(svc, g), CapturadaPrecoLote, MSG_PRECO_ATUALIZADO, st, itens, []);
    assert r.resultado.Err? ==> !CapturadaPrecoLote(r.resultado.error.kind);
    r
  }

  /** A first item the service refuses as inactive is answered with an error entry, and the
      rest of the batch carries on from the state the service left. */
  lemma PrecoLoteInativoViraErro<S>(svc: Servico<S>, g: Mapeamento, st: S, itens: seq<JObject>, msg: string)
    requires |itens| > 0
    requires ValidarEsquema(itens[0], AppProdutoAtributos.ATRIBUTOS_OBRIGATORIOS_ATUALIZAR_PRECO_LOTE).Pass?
    requires g.paraPrecoLote(itens[0]).Ok?
    requires svc.atualizarPrecoEmLote(st, g.paraPrecoLote(itens[0]).value).1 == Err(Failure(IllegalState, msg))
    ensures var st1 := svc.atualizarPrecoEmLote(st, g.paraPrecoLote(itens[0]).value).0;
      AtualizarPrecoLote(svc, g, st, itens) ==
        Lote(PassoPrecoLote(svc, g), CapturadaPrecoLote, MSG_PRECO_ATUALIZADO, st1, itens[1..],
             [RespostaDTO(ERRO, msg, DadoJson(itens[0]))])
  {}

  /** A first item whose hash the service cannot find ends the batch with that exception. */
  lemma PrecoLoteDesconhecidoAborta<S>(svc: Servico<S>, g: Mapeamento, st: S, itens: seq<JObject>, msg: string)
    requires |itens| > 0
    requires ValidarEsquema(itens[0], AppProdutoAtributos.ATRIBUTOS_OBRIGATORIOS_ATUALIZAR_PRECO_LOTE).Pass?
    requires g.paraPrecoLote(itens[0]).Ok?
    requires svc.atualizarPrecoEmLote(st, g.paraPrecoLote(itens[0]).value).1 == Err(Failure(NoSuchElement, msg))
    ensures AtualizarPrecoLote(svc, g, st, itens).resultado == Err(Failure(NoSuchElement, msg))
  {}

  /** In a finished `atualizarPrecoLote`, item `i` is answered with what its step gives it
      from the state the earlier items left: the updated DTO, or the caught exception's message. */
  lemma PrecoLoteItem<S>(svc: Servico<S>, g: Mapeamento, st: S, itens: seq<JObject>, i: int)
    requires 0 <= i < |itens|
    requires AtualizarPrecoLote(svc, g, st, itens).resultado.Ok?
    ensures var pre := AtualizarPrecoLote(svc, g, st, itens[..i]);
      && pre.resultado.Ok?
      && AtualizarPrecoLote(svc, g, st, itens).resultado.value[i] ==
           EntradaDe(AtualizarPrecoItem(svc, g, pre.estado, itens[i]), itens[i], MSG_PRECO_ATUALIZADO)
  {
    var passo := PassoPrecoLote(svc, g);
    var pre := Lote(passo, CapturadaPrecoLote, MSG_PRECO_ATUALIZADO, st, itens[..i], []);
    assert AtualizarPrecoLote(svc, g, st, itens[..i]) == pre;
    LoteItem(passo, CapturadaPrecoLote, MSG_PRECO_ATUALIZADO, st, itens, [], i);
    assert passo(pre.estado, itens[i]) == AtualizarPrecoItem(svc, g, pre.estado, itens[i]);
  }

  /** An item of `atualizarPrecoLote` that throws neither IllegalArgument nor IllegalState
      (an unknown hash, say), after the earlier items were answered, ends the batch with that
      exception, whatever items follow. */
  lemma PrecoLoteAborta<S>(svc: Servico<S>, g: Mapeamento, st: S, itens: seq<JObject>, i: int)
    requires 0 <= i < |itens|
    requires AtualizarPrecoLote(svc, g, st, itens[..i]).resultado.Ok?
    requires var p := AtualizarPrecoItem(svc, g, AtualizarPrecoLote(svc, g, st, itens[..i]).estado, itens[i]);
      p.resultado.Err? && !CapturadaPrecoLote(p.resultado.error.kind)
    ensures var p := AtualizarPrecoItem(svc, g, AtualizarPrecoLote(svc, g, st, itens[..i]).estado, itens[i]);
      AtualizarPrecoLote(svc, g, st, itens) == Saida(p.estado, Err(p.resultado.error))
  {
    LoteAborta(PassoPrecoLote(svc, g), CapturadaPrecoLote, MSG_PRECO_ATUALIZADO, st, itens, [], i);
  }

  /** `atualizar`: the updatable-fields schema (no required fields), the mapping, then the
      service; success is answered with the updated DTO. */
  function Atualizar<S>(svc: Servico<S>, g: Mapeamento, st: S, hash: string, o: JObject): (r: Saida<S, RespostaDTO>)
    ensures ValidarEsquema(o, AppProdutoAtributos.ATRIBUTOS_ATUALIZAVEIS).Fail? ==>
      r == Saida(st, Err(ValidarEsquema(o, AppProdutoAtributos.ATRIBUTOS_ATUALIZAVEIS).error))
    ensures r.estado != st ==> ValidarEsquema(o, AppProdutoAtributos.ATRIBUTOS_ATUALIZAVEIS).Pass? && g.paraDTO(o).Ok?
    ensures ValidarEsquema(o, AppProdutoAtributos.ATRIBUTOS_ATUALIZAVEIS).Pass? && g.paraDTO(o).Ok? ==>
      var (st', res) := svc.atualizar(st, hash, g.paraDTO(o).value);
      r.estado == st' && (r.resultado.Ok? <==> res.Ok?)
      && (res.Ok? ==> r.resultado.value == RespostaDTO(SUCESSO, MSG_ATUALIZADO, DadoProduto(res.value)))
  {
    match ValidarEsquema(o, AppProdutoAtributos.ATRIBUTOS_ATUALIZAVEIS)
    case Fail(e) => Saida(st, Err(e))
    case Pass =>
      match g.paraDTO(o)
      case Err(e) => Saida(st, Err(e))
      case Ok(d) =>
        var (st', res) := svc.atualizar(st, hash, d);
        match res
        case Err(e) => Saida(st', Err(e))
        case Ok(dto) => Saida(st', Ok(RespostaDTO(SUCESSO, MSG_ATUALIZADO, DadoProduto(dto))))
  }

  /** An update naming nome or ean13 never reaches the service. */
  lemma AtualizarRecusaIdentificadores<S>(svc: Servico<S>, g: Mapeamento, st: S, hash: string, o: JObject, i: int)
    requires 0 <= i < |o| && (o[i].0 == "nome" || o[i].0 == "ean13")
    ensures Atualizar(svc, g, st, hash, o).estado == st
    ensures Atualizar(svc, g, st, hash, o).resultado.Err?
  {
    assert o[i].0 !in AppProdutoAtributos.GetAtributos(AppProdutoAtributos.ATRIBUTOS_ATUALIZAVEIS);
  }

  /** `atualizarStatus`: the status schema (exactly `lativo`), the mapping, then the service. */
  function AtualizarStatus<S>(svc: Servico<S>, g: Mapeamento, st: S, hash: string, o: JObject): (r: Saida<S, RespostaDTO>)
    ensures ValidarEsquema(o, AppProdutoAtributos.ATRIBUTO_STATUS).Fail? ==>
      r == Saida(st, Err(ValidarEsquema(o, AppProdutoAtributos.ATRIBUTO_STATUS).error))
    ensures ValidarEsquema(o, AppProdutoAtributos.ATRIBUTO_STATUS).Pass? <==>
      Has(o, "lativo") && forall i :: 0 <= i < |o| ==> o[i].0 == "lativo"
    ensures r.estado != st ==> ValidarEsquema(o, AppProdutoAtributos.ATRIBUTO_STATUS).Pass? && g.paraDTO(o).Ok?
    ensures ValidarEsquema(o, AppProdutoAtributos.ATRIBUTO_STATUS).Pass? && g.paraDTO(o).Ok? ==>
      var (st', res) := svc.atualizarStatusLativo(st, hash, g.paraDTO(o).value);
      r.estado == st' && (r.resultado.Ok? <==> res.Ok?)
      && (res.Ok? ==> r.resultado.value == RespostaDTO(SUCESSO, MSG_ATUALIZADO, DadoProduto(res.value)))
  {
    match ValidarEsquema(o, AppProdutoAtributos.ATRIBUTO_STATUS)
    case Fail(e) => Saida(st, Err(e))
    case Pass =>
      match g.paraDTO(o)
      case Err(e) => Saida(st, Err(e))
      case Ok(d) =>
        var (st', res) := svc.atualizarStatusLativo(st, hash, d);
        match res
        case Err(e) => Saida(st', Err(e))
        case Ok(dto) => Saida(st', Ok(RespostaDTO(SUCESSO, MSG_ATUALIZADO, DadoProduto(dto))))
  }
}
