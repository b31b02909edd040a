/** The PRODUTOS table and the effects of `ProdutoDAO` on it, keyed by the product hash.
    The SQL text and JDBC plumbing are not modelled; each effect follows the parameters the
    DAO binds to its statement. */
module Repositorio {
  import opened Common
  import ModeloDominio

  /** One row of PRODUTOS (the internal numeric id is never read by the core). */
  datatype Linha = Linha(
    nome: Option<string>,
    descricao: Option<string>,
    ean13: Option<string>,
    preco: real,
    quantidade: real,
    estoqueMin: real,
    dtCreate: Timestamp,
    dtUpdate: Option<Timestamp>,
    lativo: bool)

  datatype Tabela = Tabela(linhas: map<string, Linha>)

  /** `nome = ? OR ean13 = ?`: a SQL comparison with NULL never matches. */
  predicate Coincide(l: Linha, nome: Option<string>, ean13: Option<string>) {
    (nome.Some? && l.nome == nome) || (ean13.Some? && l.ean13 == ean13)
  }

  /** `SELECT COUNT(*) FROM PRODUTOS WHERE nome = ? OR ean13 = ?`. */
  function ContarCoincidentes(t: Tabela, nome: Option<string>, ean13: Option<string>): nat {
    |set h | h in t.linhas && Coincide(t.linhas[h], nome, ean13)|
  }

  /** `existeProdutoComNomeOuEan13`: the count is positive exactly when some row matches the
      name or the EAN-13; with both parameters null nothing matches. */
  function ExisteProdutoComNomeOuEan13(t: Tabela, nome: Option<string>, ean13: Option<string>): (r: bool)
    ensures r <==> exists h :: h in t.linhas && Coincide(t.linhas[h], nome, ean13)
    ensures nome.None? && ean13.None? ==> !r
  {
    var c := set h | h in t.linhas && Coincide(t.linhas[h], nome, ean13);
    assert (exists h :: h in t.linhas && Coincide(t.linhas[h], nome, ean13)) ==> |c| > 0 by {
      if exists h :: h in t.linhas && Coincide(t.linhas[h], nome, ean13) {
        var h :| h in t.linhas && Coincide(t.linhas[h], nome, ean13);
        assert h in c;
      }
    }
    assert |c| > 0 ==> exists h :: h in t.linhas && Coincide(t.linhas[h], nome, ean13) by {
      if |c| > 0 {
        var h :| h in c;
      }
    }
    ContarCoincidentes(t, nome, ean13) > 0
  }

  /** `salvar`: inserts the six content columns with `dtcreate` = now, `dtupdate` = NULL and
      `lativo` = false, and returns the hash the database generated (`novoHash`). */
  function Salvar(t: Tabela, nome: Option<string>, descricao: Option<string>, ean13: Option<string>,
                  preco: real, quantidade: real, estoqueMin: real,
                  novoHash: string, agora: Timestamp): (r: (Tabela, string))
    requires novoHash !in t.linhas
    ensures r.1 == novoHash
    ensures r.0.linhas.Keys == t.linhas.Keys + {novoHash}
    ensures forall h :: h in t.linhas ==> r.0.linhas[h] == t.linhas[h]
    ensures var l := r.0.linhas[novoHash];
      && l.nome == nome && l.descricao == descricao && l.ean13 == ean13
      && l.preco == preco && l.quantidade == quantidade && l.estoqueMin == estoqueMin
      && l.dtCreate == agora && l.dtUpdate == None && !l.lativo
  {
    (Tabela(t.linhas[novoHash := Linha(nome, descricao, ean13, preco, quantidade, estoqueMin, agora, None, false)]),
     novoHash)
  }

  /** `buscarPorHash`: the row stored under `hash`, or null. */
  function BuscarPorHash(t: Tabela, hash: string): (r: Option<Linha>)
    ensures r.Some? <==> hash in t.linhas
    ensures r.Some? ==> r.value == t.linhas[hash]
  {
    if hash in t.linhas then Some(t.linhas[hash]) else None
  }

  /** `criarProduto`: the entity built from a row read by hash. */
  function CriarProduto(hash: string, l: Linha): (p: ModeloDominio.Produto)
    ensures p.hash == Some(hash) && p.lativo == l.lativo
    ensures p.nome == l.nome && p.descricao == l.descricao && p.ean13 == l.ean13
    ensures p.preco == l.preco && p.quantidade == l.quantidade && p.estoqueMin == l.estoqueMin
    ensures p.dtCreate == Some(l.dtCreate) && p.dtUpdate == l.dtUpdate
  {
    ModeloDominio.Produto(Some(hash), l.nome, l.descricao, l.ean13, l.preco, l.quantidade, l.estoqueMin,
                          Some(l.dtCreate), l.dtUpdate, l.lativo)
  }

  /** `atualizar`: rewrites descricao, preco, quantidade, estoque_min and dtupdate of the row
      with the given hash; zero rows affected is a RuntimeException. */
  function Atualizar(t: Tabela, hash: Option<string>, descricao: Option<string>,
                     preco: real, quantidade: real, estoqueMin: real, agora: Timestamp): (r: Result<Tabela>)
    ensures r.Ok? <==> hash.Some? && hash.value in t.linhas
    ensures r.Err? ==> r.error.kind == Runtime
    ensures r.Ok? ==> r.value.linhas.Keys == t.linhas.Keys
    ensures r.Ok? ==> forall h :: h in t.linhas && h != hash.value ==> r.value.linhas[h] == t.linhas[h]
    ensures r.Ok? ==> var antes, depois := t.linhas[hash.value], r.value.linhas[hash.value];
      && depois.descricao == descricao && depois.preco == preco
      && depois.quantidade == quantidade && depois.estoqueMin == estoqueMin
      && depois.dtUpdate == Some(agora)
      && depois.nome == antes.nome && depois.ean13 == antes.ean13
      && depois.dtCreate == antes.dtCreate && depois.lativo == antes.lativo
  {
    if hash.Some? && hash.value in t.linhas then
      var l := t.linhas[hash.value];
      Ok(Tabela(t.linhas[hash.value := l.(descricao := descricao, preco := preco, quantidade := quantidade,
                                         estoqueMin := estoqueMin, dtUpdate := Some(agora))]))
    else
      Err(Failure(Runtime, "A operação de atualizar o produto falhou. Nenhuma linha foi afetada."))
  }

  /** `atualizarStatusLativo`: sets lativo and dtupdate of the row with the given hash and
      reports whether a row was changed. */
  function AtualizarStatusLativo(t: Tabela, lativo: bool, hash: Option<string>, agora: Timestamp): (r: (Tabela, bool))
    ensures r.1 <==> hash.Some? && hash.value in t.linhas
    ensures !r.1 ==> r.0 == t
    ensures r.1 ==> r.0.linhas == t.linhas[hash.value := t.linhas[hash.value].(lativo := lativo, dtUpdate := Some(agora))]
  {
    if hash.Some? && hash.value in t.linhas then
      (Tabela(t.linhas[hash.value := t.linhas[hash.value].(lativo := lativo, dtUpdate := Some(agora))]), true)
    else (t, false)
  }

  /** `deletar`: removes the row with the given hash and reports whether one was removed. */
  function Deletar(t: Tabela, hash: string): (r: (Tabela, bool))
    ensures r.1 <==> hash in t.linhas
    ensures r.0.linhas == t.linhas - {hash}
  {
    (Tabela(t.linhas - {hash}), hash in t.linhas)
  }
}
