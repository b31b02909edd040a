/** `domain.services.JsonValidacao`: the hard-coded-field JSON validator. Required fields are
    matched exactly, allowed fields ignoring case, and a primitive that prints as "" is empty. */
module JsonValidacao {
  import opened Common
  import opened Json

  const CAMPOS_OBRIGATORIOS: seq<string> := ["nome", "descricao", "ean13", "preco", "quantidade", "estoqueMin"]

  /** The fields `validarJsonAtualizacao` allows. */
  const CAMPOS_ATUALIZACAO: seq<string> := ["descricao", "preco", "quantidade", "estoqueMin"]

  /** What `JsonParser.parseString(json).getAsJsonObject()` produced from the request text. */
  datatype Analise = Objeto(o: JObject) | NaoObjeto | SintaxeInvalida

  /** `parseJson`: a syntax error becomes IllegalArgument; valid JSON that is not an object
      makes `getAsJsonObject` throw IllegalStateException, which is not caught. */
  function ParseJson(a: Analise): (r: Result<JObject>)
    ensures r.Ok? <==> a.Objeto?
    ensures a.SintaxeInvalida? ==> r == Err(Failure(IllegalArgument, "Formato JSON inválido"))
    ensures a.NaoObjeto? ==> r.Err? && r.error.kind == IllegalState
  {
    match a
    case Objeto(o) => Ok(o)
    case NaoObjeto => Err(Failure(IllegalState, "Not a JSON Object"))
    case SintaxeInvalida => Err(Failure(IllegalArgument, "Formato JSON inválido"))
  }

  function MsgAusente(campo: string): string {
    "JSON inválido. O campo obrigatório '" + campo + "' está ausente."
  }

  function MsgNaoPermitido(campo: string): string {
    "JSON inválido. O campo '" + campo + "' não é permitido."
  }

  function MsgVazio(campo: string): string {
    "JSON inválido. O valor do campo '" + campo + "' está vazio."
  }

  /** `containsIgnoreCase`: some entry of the array equals the target ignoring case. */
  function ContainsIgnoreCase(lista: seq<string>, target: string): (r: bool)
    ensures r <==> exists i :: 0 <= i < |lista| && EqualsIgnoreCase(lista[i], target)
    decreases |lista|
  {
    if |lista| == 0 then false
    else if EqualsIgnoreCase(lista[0], target) then true
    else
      var r := ContainsIgnoreCase(lista[1..], target);
      assert r ==> exists i :: 0 <= i < |lista| && EqualsIgnoreCase(lista[i], target) by {
        if r {
          var k :| 0 <= k < |lista[1..]| && EqualsIgnoreCase(lista[1..][k], target);
          assert lista[k + 1] == lista[1..][k];
        }
      }
      assert (exists i :: 0 <= i < |lista| && EqualsIgnoreCase(lista[i], target)) ==> r by {
        if exists i :: 0 <= i < |lista| && EqualsIgnoreCase(lista[i], target) {
          var k :| 0 <= k < |lista| && EqualsIgnoreCase(lista[k], target);
          assert k != 0;
          assert lista[1..][k - 1] == lista[k];
        }
      }
      r
  }

  /** `campos[i]` is the first required field the object lacks. */
  predicate PrimeiroAusente(o: JObject, campos: seq<string>, i: int) {
    && 0 <= i < |campos|
    && !Has(o, campos[i])
    && forall j :: 0 <= j < i ==> Has(o, campos[j])
  }

  /** `verificarCamposObrigatorios`: every field must be a key, compared exactly; the first
      missing field, in lista order, is reported. */
  function VerificarCamposObrigatorios(o: JObject, campos: seq<string>): (r: Outcome)
    ensures r.Pass? <==> forall i :: 0 <= i < |campos| ==> Has(o, campos[i])
    ensures r.Fail? ==> r.error.kind == IllegalArgument
    ensures forall i :: PrimeiroAusente(o, campos, i) ==> r == Fail(Failure(IllegalArgument, MsgAusente(campos[i])))
    decreases |campos|
  {
    if |campos| == 0 then Pass
    else if !Has(o, campos[0]) then Fail(Failure(IllegalArgument, MsgAusente(campos[0])))
    else
      var r := VerificarCamposObrigatorios(o, campos[1..]);
      assert forall i :: PrimeiroAusente(o, campos, i) ==> PrimeiroAusente(o, campos[1..], i - 1) by {
        forall i | PrimeiroAusente(o, campos, i)
          ensures PrimeiroAusente(o, campos[1..], i - 1)
        {
          assert i != 0;
          forall j | 0 <= j < i - 1 ensures Has(o, campos[1..][j]) {
            assert campos[1..][j] == campos[j + 1];
          }
        }
      }
      r
  }

  /** `o[i]` is the first member whose key matches no allowed field, even ignoring case. */
  predicate PrimeiroNaoPermitido(o: JObject, campos: seq<string>, i: int) {
    && 0 <= i < |o|
    && !ContainsIgnoreCase(campos, o[i].0)
    && forall j :: 0 <= j < i ==> ContainsIgnoreCase(campos, o[j].0)
  }

  /** `verificarCamposNaoPermitidos`: every key must match an allowed field ignoring case; the
      first key that matches none, in object order, is reported. */
  function VerificarCamposNaoPermitidos(o: JObject, campos: seq<string>): (r: Outcome)
    ensures r.Pass? <==> forall i :: 0 <= i < |o| ==> ContainsIgnoreCase(campos, o[i].0)
    ensures r.Fail? ==> r.error.kind == IllegalArgument
    ensures forall i :: PrimeiroNaoPermitido(o, campos, i) ==> r == Fail(Failure(IllegalArgument, MsgNaoPermitido(o[i].0)))
    decreases |o|
  {
    if |o| == 0 then Pass
    else if !ContainsIgnoreCase(campos, o[0].0) then Fail(Failure(IllegalArgument, MsgNaoPermitido(o[0].0)))
    else
      var r := VerificarCamposNaoPermitidos(o[1..], campos);
      assert forall i :: PrimeiroNaoPermitido(o, campos, i) ==> PrimeiroNaoPermitido(o[1..], campos, i - 1) by {
        forall i | PrimeiroNaoPermitido(o, campos, i)
          ensures PrimeiroNaoPermitido(o[1..], campos, i - 1)
        {
          assert i != 0;
          forall j | 0 <= j < i - 1 ensures ContainsIgnoreCase(campos, o[1..][j].0) {
            assert o[1..][j] == o[j + 1];
          }
        }
      }
      assert (forall i :: 0 <= i < |o[1..]| ==> ContainsIgnoreCase(campos, o[1..][i].0))
         ==> (forall i :: 0 <= i < |o| ==> ContainsIgnoreCase(campos, o[i].0)) by {
        if forall i :: 0 <= i < |o[1..]| ==> ContainsIgnoreCase(campos, o[1..][i].0) {
          forall i | 0 <= i < |o| ensures ContainsIgnoreCase(campos, o[i].0) {
            if i > 0 { assert o[i] == o[1..][i - 1]; }
          }
        }
      }
      r
  }

  /** A value `verificarValoresEmpty` rejects: a primitive whose string form is empty. JSON
      null, objects and arrays are not primitives and pass. */
  predicate ValorVazio(v: JVal) {
    IsPrimitive(v) && PrimitiveStringEmpty(v)
  }

  /** `o[i]` is the first member, in object order, whose value is the empty string. */
  predicate PrimeiroVazio(o: JObject, i: int) {
    && 0 <= i < |o|
    && o[i].1 == JStr("")
    && forall j :: 0 <= j < i ==> o[j].1 != JStr("")
  }

  /** `verificarValoresEmpty`: the first member whose value is empty, in object order, is reported. */
  function VerificarValoresEmpty(o: JObject): (r: Outcome)
    ensures r.Pass? <==> forall i :: 0 <= i < |o| ==> o[i].1 != JStr("")
    ensures r.Fail? ==> r.error.kind == IllegalArgument
    ensures r.Fail? ==> exists i :: 0 <= i < |o| && o[i].1 == JStr("") && r.error.message == MsgVazio(o[i].0)
    ensures forall i :: PrimeiroVazio(o, i) ==> r == Fail(Failure(IllegalArgument, MsgVazio(o[i].0)))
    decreases |o|
  {
    if |o| == 0 then Pass
    else if ValorVazio(o[0].1) then Fail(Failure(IllegalArgument, MsgVazio(o[0].0)))
    else
      var r := VerificarValoresEmpty(o[1..]);
      assert forall i :: PrimeiroVazio(o, i) ==> PrimeiroVazio(o[1..], i - 1) by {
        forall i | PrimeiroVazio(o, i)
          ensures PrimeiroVazio(o[1..], i - 1)
        {
          assert i != 0;
          forall j | 0 <= j < i - 1 ensures o[1..][j].1 != JStr("") {
            assert o[1..][j] == o[j + 1];
          }
        }
      }
      assert r.Fail? ==> exists i :: 0 <= i < |o| && o[i].1 == JStr("") && r.error.message == MsgVazio(o[i].0) by {
        if r.Fail? {
          var k :| 0 <= k < |o[1..]| && o[1..][k].1 == JStr("") && r.error.message == MsgVazio(o[1..][k].0);
          assert o[k + 1] == o[1..][k];
        }
      }
      assert (forall i :: 0 <= i < |o[1..]| ==> o[1..][i].1 != JStr(""))
         ==> (forall i :: 0 <= i < |o| ==> o[i].1 != JStr("")) by {
        if forall i :: 0 <= i < |o[1..]| ==> o[1..][i].1 != JStr("") {
          forall i | 0 <= i < |o| ensures o[i].1 != JStr("") {
            if i > 0 { assert o[i] == o[1..][i - 1]; }
          }
        }
      }
      r
  }

  /** The three checks in the order the public methods run them; the required check is optional. */
  function Verificar(o: JObject, obrigatorios: seq<string>, permitidos: seq<string>): (r: Outcome)
    ensures r.Pass? <==>
      && (forall i :: 0 <= i < |obrigatorios| ==> Has(o, obrigatorios[i]))
      && (forall i :: 0 <= i < |o| ==> ContainsIgnoreCase(permitidos, o[i].0))
      && (forall i :: 0 <= i < |o| ==> o[i].1 != JStr(""))
    ensures r.Fail? ==> r.error.kind == IllegalArgument
  {
    var c1 := VerificarCamposObrigatorios(o, obrigatorios);
    if c1.Fail? then c1
    else
      var c2 := VerificarCamposNaoPermitidos(o, permitidos);
      if c2.Fail? then c2
      else VerificarValoresEmpty(o)
  }

  /** `validarJson`: the six product fields, required (exactly) and the only ones allowed (ignoring case). */
  function ValidarJson(a: Analise): (r: Outcome)
    ensures r.Pass? <==> a.Objeto? && Verificar(a.o, CAMPOS_OBRIGATORIOS, CAMPOS_OBRIGATORIOS).Pass?
    ensures a.Objeto? ==> r == Verificar(a.o, CAMPOS_OBRIGATORIOS, CAMPOS_OBRIGATORIOS)
  {
    match ParseJson(a)
    case Err(e) => Fail(e)
    case Ok(o) => Verificar(o, CAMPOS_OBRIGATORIOS, CAMPOS_OBRIGATORIOS)
  }

  /** `validarJsonAtualizacao`: nothing required; only the four updatable fields allowed. */
  function ValidarJsonAtualizacao(a: Analise): (r: Outcome)
    ensures a.Objeto? ==> (r.Pass? <==>
      && (forall i :: 0 <= i < |a.o| ==> ContainsIgnoreCase(CAMPOS_ATUALIZACAO, a.o[i].0))
      && (forall i :: 0 <= i < |a.o| ==> a.o[i].1 != JStr("")))
    ensures !a.Objeto? ==> r.Fail?
  {
    match ParseJson(a)
    case Err(e) => Fail(e)
    case Ok(o) => Verificar(o, [], CAMPOS_ATUALIZACAO)
  }

  /** `JsonElement.getAsBoolean`: a boolean is itself, a string goes through `Boolean.parseBoolean`,
      a number's text is never "true", an array of exactly one element reads that element, any
      other array throws IllegalStateException; JSON null and objects throw. */
  function GetAsBoolean(v: JVal): (r: Result<bool>)
    ensures IsPrimitive(v) ==> r.Ok?
    ensures v.JBool? ==> r == Ok(v.b)
    ensures v.JStr? ==> r == Ok(EqualsIgnoreCase(v.s, "true"))
    ensures v.JArr? && |v.elems| == 1 ==> r == GetAsBoolean(v.elems[0])
    ensures v.JArr? && |v.elems| != 1 ==> r.Err? && r.error.kind == IllegalState
    ensures v.JNull? || v.JOther? ==> r.Err? && r.error.kind == Runtime
    decreases v
  {
    match v
    case JBool(b) => Ok(b)
    case JStr(s) => Ok(ParseBoolean(Some(s)))
    case JNum(_) => Ok(false)
    case JArr(elems) =>
      if |elems| == 1 then GetAsBoolean(elems[0])
      else Err(Failure(IllegalState, "Array must have size 1"))
    case JNull => Err(Failure(Runtime, "UnsupportedOperationException: JsonNull"))
    case JOther => Err(Failure(Runtime, "UnsupportedOperationException: JsonObject"))
  }

  /** What is left after unwrapping single-element arrays. */
  function Desembrulhar(v: JVal): JVal
    decreases v
  {
    if v.JArr? && |v.elems| == 1 then Desembrulhar(v.elems[0]) else v
  }

  /** An array reads as a boolean exactly when, after unwrapping single-element arrays, a
      primitive is left. */
  lemma {:induction false} GetAsBooleanDesembrulha(v: JVal)
    ensures GetAsBoolean(v).Ok? <==> IsPrimitive(Desembrulhar(v))
    ensures GetAsBoolean(v).Ok? ==> GetAsBoolean(v) == GetAsBoolean(Desembrulhar(v))
    decreases v
  {
    if v.JArr? && |v.elems| == 1 {
      GetAsBooleanDesembrulha(v.elems[0]);
    }
  }

  /** What the status check accepts: `lativo` present, every key `lativo` up to case, and no
      empty value. */
  predicate StatusAceito(o: JObject) {
    && Has(o, "lativo")
    && (forall i :: 0 <= i < |o| ==> EqualsIgnoreCase(o[i].0, "lativo"))
    && (forall i :: 0 <= i < |o| ==> o[i].1 != JStr(""))
  }

  /** The three checks with `lativo` as the one required and the one allowed field accept
      exactly the objects `StatusAceito` describes. */
  lemma VerificarStatus(o: JObject)
    ensures Verificar(o, ["lativo"], ["lativo"]).Pass? <==> StatusAceito(o)
  {}

  /** `validarJsonStatusERetornarValor`: `lativo` is required, no other key is allowed, and the
      result is the value stored under `lativo` read as a boolean. */
  function ValidarJsonStatusERetornarValor(a: Analise): (r: Result<bool>)
    ensures r.Ok? ==> a.Objeto? && StatusAceito(a.o)
    ensures a.Objeto? && !Has(a.o, "lativo") ==> r == Err(Failure(IllegalArgument, MsgAusente("lativo")))
    ensures a.Objeto? && StatusAceito(a.o) ==>
      Get(a.o, "lativo").Some? && r == GetAsBoolean(Get(a.o, "lativo").value)
    ensures a.Objeto? && !StatusAceito(a.o) ==> r.Err? && r.error.kind == IllegalArgument
    ensures !a.Objeto? ==> r == Err(ParseJson(a).error)
  {
    match a
    case Objeto(o) =>
      VerificarStatus(o);
      (match Verificar(o, ["lativo"], ["lativo"])
       case Fail(e) => Err(e)
       case Pass =>
         assert Has(o, ["lativo"][0]);
         GetAsBoolean(Get(o, "lativo").value))
    case _ => Err(ParseJson(a).error)
  }

  /** The allowed-field check ignores case: an upper-case "PRECO" is accepted for updates. */
  lemma AtualizacaoAceitaMaiusculas()
    ensures ValidarJsonAtualizacao(Objeto([("PRECO", JNum(10.0))])) == Pass
  {
    assert EqualsIgnoreCase(CAMPOS_ATUALIZACAO[1], "PRECO");
    assert ContainsIgnoreCase(CAMPOS_ATUALIZACAO, "PRECO");
  }

  /** The required-field check does not ignore case: "NOME" does not supply "nome". */
  lemma ObrigatoriosSensiveisAMaiusculas(o: JObject)
    requires !Has(o, "nome")
    ensures ValidarJson(Objeto(o)) == Fail(Failure(IllegalArgument, MsgAusente("nome")))
  {
    assert PrimeiroAusente(o, CAMPOS_OBRIGATORIOS, 0);
  }
}
