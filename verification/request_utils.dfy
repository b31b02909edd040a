/** The parts of an `HttpServletRequest` the helpers read: the request URL and the
    path info (null when the request has no extra path). */
module Requisicoes {
  import opened Common

  datatype Requisicao = Requisicao(url: string, pathInfo: Option<string>)

  /** String concatenation with a possibly-null reference: null prints as "null". */
  function HashTexto(h: Option<string>): (r: string)
    ensures h.Some? ==> r == h.value
    ensures h.None? ==> r == "null"
  {
    if h.Some? then h.value else "null"
  }

  /** One Location URI: the request URL, a slash, and the hash. */
  function Uri(url: string, hash: Option<string>): (r: string)
    ensures |r| > |url| && r[|url|] == '/'
    ensures r[..|url|] == url && r[|url| + 1..] == HashTexto(hash)
  {
    url + "/" + HashTexto(hash)
  }

  /** `getPathInfo().substring(1)`: a null path info is a NullPointerException and an
      empty one a StringIndexOutOfBoundsException; otherwise the first character (the
      leading slash) is dropped. */
  function ExtrairHash(req: Requisicao): (r: Result<string>)
    ensures req.pathInfo.None? ==> r.Err?
    ensures req.pathInfo == Some("") ==> r.Err?
    ensures r.Err? ==> r.error.kind == Runtime
    ensures r.Ok? ==> req.pathInfo.Some? && |req.pathInfo.value| >= 1
                      && [req.pathInfo.value[0]] + r.value == req.pathInfo.value
  {
    match req.pathInfo
    case None => Err(Failure(Runtime, "getPathInfo() returned null"))
    case Some(p) =>
      if |p| == 0 then Err(Failure(Runtime, "begin 1, end 0, length 0"))
      else Ok(p[1..])
  }

  /** A hash placed after a slash in the path is extracted unchanged. */
  lemma ExtrairHashIdaEVolta(url: string, h: string)
    ensures ExtrairHash(Requisicao(url, Some("/" + h))) == Ok(h)
  {
    assert ("/" + h)[1..] == h;
  }

  /** Joining non-empty pieces with "," is empty only when there are no pieces. */
  lemma {:induction false} JoinVazio(parts: seq<string>)
    requires forall i :: 0 <= i < |parts| ==> |parts[i]| > 0
    ensures Join(",", parts) == "" <==> |parts| == 0
    decreases |parts|
  {
    if |parts| > 1 {
      JoinVazio(parts[1..]);
      assert |parts[0]| > 0;
    }
  }
}

/** `application.utils.RequestUtils`: Location header for a batch of responses and the
    hash taken from the path. */
module AppRequestUtils {
  import opened Common
  import opened AppDtos
  import opened Requisicoes

  /** `u` is the URI of response `x`, which carries a product. */
  predicate UriDeProduto(url: string, x: RespostaDTO, u: string) {
    x.dado.DadoProduto? && u == Uri(url, x.dado.dto.hash)
  }

  /** The URIs of the responses whose payload is a product DTO, in response order. */
  function Uris(url: string, respostas: seq<RespostaDTO>): (r: seq<string>)
    ensures |r| <= |respostas|
    ensures |r| == 0 <==> forall i :: 0 <= i < |respostas| ==> !respostas[i].dado.DadoProduto?
    ensures |r| == |respostas| <==> forall i :: 0 <= i < |respostas| ==> respostas[i].dado.DadoProduto?
    ensures forall j :: 0 <= j < |r| ==> exists i :: 0 <= i < |respostas| && UriDeProduto(url, respostas[i], r[j])
    decreases |respostas|
  {
    if |respostas| == 0 then []
    else
      var resto := Uris(url, respostas[1..]);
      var r := if respostas[0].dado.DadoProduto? then [Uri(url, respostas[0].dado.dto.hash)] + resto else resto;
      assert forall i :: 1 <= i < |respostas| ==> respostas[i] == respostas[1..][i - 1];
      UrisOrigemCauda(url, respostas, resto, r);
      r
  }

  /** Lifts "every URI comes from a product response" from the rest of the responses to
      all of them. */
  lemma UrisOrigemCauda(url: string, respostas: seq<RespostaDTO>, resto: seq<string>, r: seq<string>)
    requires |respostas| > 0
    requires forall j :: 0 <= j < |resto| ==> exists i :: 0 <= i < |respostas[1..]| && UriDeProduto(url, respostas[1..][i], resto[j])
    requires r == if respostas[0].dado.DadoProduto? then [Uri(url, respostas[0].dado.dto.hash)] + resto else resto
    ensures forall j :: 0 <= j < |r| ==> exists i :: 0 <= i < |respostas| && UriDeProduto(url, respostas[i], r[j])
  {
    forall j | 0 <= j < |r|
      ensures exists i :: 0 <= i < |respostas| && UriDeProduto(url, respostas[i], r[j])
    {
      if respostas[0].dado.DadoProduto? && j == 0 {
        assert UriDeProduto(url, respostas[0], r[0]);
      } else {
        var jj := if respostas[0].dado.DadoProduto? then j - 1 else j;
        assert r[j] == resto[jj];
        var k :| 0 <= k < |respostas[1..]| && UriDeProduto(url, respostas[1..][k], resto[jj]);
        assert respostas[k + 1] == respostas[1..][k];
      }
    }
  }

  /** `gerarLocationHeader`: the URIs joined by ","; empty exactly when no response
      carries a product. */
  function GerarLocationHeader(req: Requisicao, respostas: seq<RespostaDTO>): (r: string)
    ensures r == "" <==> forall i :: 0 <= i < |respostas| ==> !respostas[i].dado.DadoProduto?
  {
    var uris := Uris(req.url, respostas);
    JoinVazio(uris);
    Join(",", uris)
  }

  /** `extrairHash`. */
  function ExtrairHash(req: Requisicao): (r: Result<string>)
    ensures r.Err? <==> req.pathInfo.None? || req.pathInfo == Some("")
    ensures r.Err? ==> r.error.kind == Runtime
    ensures r.Ok? ==> [req.pathInfo.value[0]] + r.value == req.pathInfo.value
  {
    Requisicoes.ExtrairHash(req)
  }

  /** Responses keep their order: the URIs of a concatenation are the concatenated URIs. */
  lemma {:induction false} UrisPreservaOrdem(url: string, a: seq<RespostaDTO>, b: seq<RespostaDTO>)
    ensures Uris(url, a + b) == Uris(url, a) + Uris(url, b)
    decreases |a|
  {
    if |a| > 0 {
      assert (a + b)[0] == a[0];
      assert (a + b)[1..] == a[1..] + b;
      UrisPreservaOrdem(url, a[1..], b);
    } else {
      assert a + b == b;
    }
  }

  /** An error entry contributes nothing; a success entry contributes its own URI. */
  lemma UrisDeUmaResposta(url: string, x: RespostaDTO)
    ensures !x.dado.DadoProduto? ==> Uris(url, [x]) == []
    ensures x.dado.DadoProduto? ==> Uris(url, [x]) == [Uri(url, x.dado.dto.hash)]
  {
    assert [x][1..] == [];
  }

  /** When neither the URL nor any hash contains ",", splitting the header at "," gives
      back the URIs one by one. */
  lemma {:induction false} HeaderSeparavel(req: Requisicao, respostas: seq<RespostaDTO>)
    requires ',' !in req.url
    requires forall i :: 0 <= i < |respostas| ==> ',' !in HashTexto(DadoHash(respostas[i].dado))
    requires exists i :: 0 <= i < |respostas| && respostas[i].dado.DadoProduto?
    ensures Split(GerarLocationHeader(req, respostas), ',') == Uris(req.url, respostas)
  {
    var uris := Uris(req.url, respostas);
    assert |uris| >= 1;
    forall j | 0 <= j < |uris| ensures ',' !in uris[j] {
      var i :| 0 <= i < |respostas| && UriDeProduto(req.url, respostas[i], uris[j]);
      assert uris[j] == req.url + "/" + HashTexto(respostas[i].dado.dto.hash);
      assert DadoHash(respostas[i].dado) == respostas[i].dado.dto.hash;
    }
    SplitJoin(uris, ',');
  }

  /** The hash a payload would contribute (none for an echoed JSON object). */
  function DadoHash(d: Dado): Option<string> {
    if d.DadoProduto? then d.dto.hash else None
  }
}

/** `infrastructure.utils.RequestUtils`: Location header for a list of created products. */
module InfraRequestUtils {
  import opened Common
  import ApresentacaoDtos
  import opened Requisicoes

  /** One URI per product, in list order. */
  function Uris(url: string, produtos: seq<ApresentacaoDtos.ProdutoDTO>): (r: seq<string>)
    ensures |r| == |produtos|
    ensures forall i :: 0 <= i < |produtos| ==> r[i] == Uri(url, produtos[i].hash)
    decreases |produtos|
  {
    if |produtos| == 0 then [] else [Uri(url, produtos[0].hash)] + Uris(url, produtos[1..])
  }

  /** `gerarLocationHeader`: the URIs joined by ","; empty exactly for an empty list. */
  function GerarLocationHeader(req: Requisicao, produtos: seq<ApresentacaoDtos.ProdutoDTO>): (r: string)
    ensures r == "" <==> |produtos| == 0
  {
    var uris := Uris(req.url, produtos);
    JoinVazio(uris);
    Join(",", uris)
  }

  /** `extrairHash`. */
  function ExtrairHash(req: Requisicao): (r: Result<string>)
    ensures r.Err? <==> req.pathInfo.None? || req.pathInfo == Some("")
    ensures r.Err? ==> r.error.kind == Runtime
    ensures r.Ok? ==> [req.pathInfo.value[0]] + r.value == req.pathInfo.value
  {
    Requisicoes.ExtrairHash(req)
  }

  /** When neither the URL nor any hash contains ",", splitting the header at "," gives
      back exactly one URI per product, in order. */
  lemma HeaderSeparavel(req: Requisicao, produtos: seq<ApresentacaoDtos.ProdutoDTO>)
    requires ',' !in req.url
    requires forall i :: 0 <= i < |produtos| ==> ',' !in HashTexto(produtos[i].hash)
    requires |produtos| >= 1
    ensures var partes := Split(GerarLocationHeader(req, produtos), ',');
      |partes| == |produtos| && forall i :: 0 <= i < |produtos| ==> partes[i] == Uri(req.url, produtos[i].hash)
  {
    var uris := Uris(req.url, produtos);
    forall j | 0 <= j < |uris| ensures ',' !in uris[j] {
      assert uris[j] == req.url + "/" + HashTexto(produtos[j].hash);
    }
    SplitJoin(uris, ',');
  }
}
