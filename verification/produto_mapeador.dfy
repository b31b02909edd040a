/** `application.utils.ProdutoMapeador`: entity <-> application DTO copies. */
module AppProdutoMapeador {
  import opened Common
  import Entidades
  import AppDtos

  /** The six fields a client supplies: nome, descricao, ean13, preco, quantidade, estoqueMin. */
  predicate MesmoConteudo(p: Entidades.Produto, d: AppDtos.ProdutoDTO) {
    && p.nome == d.nome && p.descricao == d.descricao && p.ean13 == d.ean13
    && p.preco == d.preco && p.quantidade == d.quantidade && p.estoqueMin == d.estoqueMin
  }

  /** `mapearParaDTO(Produto)`: copies nine fields and renders lativo as "true"/"false".
      `isLativo().toString()` dereferences the boxed flag, so it must not be null. */
  function MapearParaDTO(p: Entidades.Produto): (d: AppDtos.ProdutoDTO)
    requires p.lativo.Some?
    ensures MesmoConteudo(p, d)
    ensures d.hash == p.hash && d.dtCreate == p.dtCreate && d.dtUpdate == p.dtUpdate
    ensures d.lativo == Some(if p.lativo.value then "true" else "false")
    ensures ParseBoolean(d.lativo) <==> p.lativo.value
  {
    AppDtos.ProdutoDTO(p.hash, p.nome, p.descricao, p.ean13, p.preco, p.quantidade, p.estoqueMin,
                       p.dtCreate, p.dtUpdate, Some(BooleanToString(p.lativo.value)))
  }

  /** `mapearParaProduto`: the six-argument constructor; hash, timestamps and lativo stay null. */
  function MapearParaProduto(d: AppDtos.ProdutoDTO): (p: Entidades.Produto)
    ensures MesmoConteudo(p, d)
    ensures p.hash.None? && p.dtCreate.None? && p.dtUpdate.None? && p.lativo.None?
  {
    Entidades.Produto(None, d.nome, d.descricao, d.ean13, d.preco, d.quantidade, d.estoqueMin, None, None, None)
  }

  /** `mapearParaListaDeDTOS`: element-wise, same length, same order. */
  function MapearParaListaDeDTOS(ps: seq<Entidades.Produto>): (ds: seq<AppDtos.ProdutoDTO>)
    requires forall i :: 0 <= i < |ps| ==> ps[i].lativo.Some?
    ensures |ds| == |ps|
    ensures forall i :: 0 <= i < |ps| ==> ds[i] == MapearParaDTO(ps[i])
    decreases |ps|
  {
    if |ps| == 0 then [] else [MapearParaDTO(ps[0])] + MapearParaListaDeDTOS(ps[1..])
  }

  /** Entity -> DTO -> entity keeps the six content fields. */
  lemma IdaEVoltaPreservaConteudo(p: Entidades.Produto)
    requires p.lativo.Some?
    ensures var q := MapearParaProduto(MapearParaDTO(p));
      q.nome == p.nome && q.descricao == p.descricao && q.ean13 == p.ean13
      && q.preco == p.preco && q.quantidade == p.quantidade && q.estoqueMin == p.estoqueMin
  {}

  /** The list mapping distributes over concatenation, so order is preserved. */
  lemma {:induction false} ListaDistribuiSobreConcatenacao(xs: seq<Entidades.Produto>, ys: seq<Entidades.Produto>)
    requires forall i :: 0 <= i < |xs| ==> xs[i].lativo.Some?
    requires forall i :: 0 <= i < |ys| ==> ys[i].lativo.Some?
    ensures forall i :: 0 <= i < |xs + ys| ==> (xs + ys)[i].lativo.Some?
    ensures MapearParaListaDeDTOS(xs + ys) == MapearParaListaDeDTOS(xs) + MapearParaListaDeDTOS(ys)
  {
    var l := MapearParaListaDeDTOS(xs + ys);
    var r := MapearParaListaDeDTOS(xs) + MapearParaListaDeDTOS(ys);
    assert |l| == |r|;
    forall i | 0 <= i < |l| ensures l[i] == r[i] {
      if i < |xs| { assert (xs + ys)[i] == xs[i]; } else { assert (xs + ys)[i] == ys[i - |xs|]; }
    }
  }
}

/** `infrastructure.utils.ProdutoMapeador`: domain entity <-> presentation DTO copies. */
module InfraProdutoMapeador {
  import opened Common
  import ModeloDominio
  import ApresentacaoDtos

  /** `converterParaDTO`: the `ProdutoDTO(Produto)` constructor copies all ten fields. */
  function ConverterParaDTO(p: ModeloDominio.Produto): (d: ApresentacaoDtos.ProdutoDTO)
    ensures d.hash == p.hash && d.nome == p.nome && d.descricao == p.descricao && d.ean13 == p.ean13
    ensures d.preco == Some(p.preco) && d.quantidade == Some(p.quantidade) && d.estoqueMin == Some(p.estoqueMin)
    ensures d.dtCreate == p.dtCreate && d.dtUpdate == p.dtUpdate && d.lativo == p.lativo
  {
    ApresentacaoDtos.ProdutoDTO(p.hash, p.nome, p.descricao, p.ean13, Some(p.preco), Some(p.quantidade),
                                Some(p.estoqueMin), p.dtCreate, p.dtUpdate, p.lativo)
  }

  /** `converterParaProduto`: the six-argument constructor takes primitive doubles, so the
      boxed numbers are unboxed and must not be null; hash and timestamps stay null and
      lativo false. */
  function ConverterParaProduto(d: ApresentacaoDtos.ProdutoDTO): (p: ModeloDominio.Produto)
    requires d.preco.Some? && d.quantidade.Some? && d.estoqueMin.Some?
    ensures p.nome == d.nome && p.descricao == d.descricao && p.ean13 == d.ean13
    ensures Some(p.preco) == d.preco && Some(p.quantidade) == d.quantidade && Some(p.estoqueMin) == d.estoqueMin
    ensures p.hash.None? && p.dtCreate.None? && p.dtUpdate.None? && !p.lativo
  {
    ModeloDominio.Produto(None, d.nome, d.descricao, d.ean13, d.preco.value, d.quantidade.value,
                          d.estoqueMin.value, None, None, false)
  }

  /** Entity -> DTO -> entity keeps the six content fields, and equals the original outright
      when the original had no hash, no timestamps and lativo false. */
  lemma IdaEVoltaPreservaConteudo(p: ModeloDominio.Produto)
    ensures var q := ConverterParaProduto(ConverterParaDTO(p));
      && q.nome == p.nome && q.descricao == p.descricao && q.ean13 == p.ean13
      && q.preco == p.preco && q.quantidade == p.quantidade && q.estoqueMin == p.estoqueMin
      && (p.hash.None? && p.dtCreate.None? && p.dtUpdate.None? && !p.lativo ==> q == p)
  {}
}
