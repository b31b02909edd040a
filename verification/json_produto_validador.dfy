/** `domain.services.JsonProdutoValidador`: checks a request object against an attribute list,
    fail-fast: required attributes (skipped for the updatable list), then allowed attributes,
    then empty values. */
module JsonProdutoValidador {
  import opened Common
  import opened Json
  import InfraProdutoAtributos

  function MsgAusente(atributo: string): string {
    "JSON inválido. O atributo obrigatório '" + atributo + "' está ausente."
  }

  function MsgNaoPermitido(atributo: string): string {
    "JSON inválido. O atributo '" + atributo + "' não é permitido."
  }

  function MsgVazio(atributo: string): string {
    "JSON inválido. O valor do atributo '" + atributo + "' está vazio."
  }

  /** `atributos[i]` is the first attribute of the list the object lacks. */
  predicate PrimeiroAusente(o: JObject, atributos: seq<string>, i: int) {
    && 0 <= i < |atributos|
    && !Has(o, atributos[i])
    && forall j :: 0 <= j < i ==> Has(o, atributos[j])
  }

  /** `o[i]` is the first member, in object order, whose key is not in the list. */
  predicate PrimeiroNaoPermitido(o: JObject, atributos: seq<string>, i: int) {
    && 0 <= i < |o|
    && o[i].0 !in atributos
    && forall j :: 0 <= j < i ==> o[j].0 in atributos
  }

  /** `validarAtributosObrigatorios`: every listed attribute must be a key of the object;
      the first one missing, in list order, is reported. */
  function ValidarAtributosObrigatorios(o: JObject, atributos: seq<string>): (r: Outcome)
    ensures r.Pass? <==> forall i :: 0 <= i < |atributos| ==> Has(o, atributos[i])
    ensures r.Fail? ==> r.error.kind == IllegalArgument
    ensures forall i :: PrimeiroAusente(o, atributos, i) ==>
              r == Fail(Failure(IllegalArgument, MsgAusente(atributos[i])))
    decreases |atributos|
  {
    if |atributos| == 0 then Pass
    else if !Has(o, atributos[0]) then Fail(Failure(IllegalArgument, MsgAusente(atributos[0])))
    else
      var r := ValidarAtributosObrigatorios(o, atributos[1..]);
      assert forall i :: PrimeiroAusente(o, atributos, i) ==> PrimeiroAusente(o, atributos[1..], i - 1) by {
        forall i | PrimeiroAusente(o, atributos, i)
          ensures PrimeiroAusente(o, atributos[1..], i - 1)
        {
          assert i != 0;
          forall j | 0 <= j < i - 1 ensures Has(o, atributos[1..][j]) {
            assert atributos[1..][j] == atributos[j + 1];
          }
        }
      }
      r
  }

  /** `validarAtributosPermitidos`: every key of the object must be in the list (exact,
      case-sensitive `List.contains`); the first offending key, in object order, is reported. */
  function ValidarAtributosPermitidos(o: JObject, atributos: seq<string>): (r: Outcome)
    ensures r.Pass? <==> forall i :: 0 <= i < |o| ==> o[i].0 in atributos
    ensures r.Fail? ==> r.error.kind == IllegalArgument
    ensures forall i :: PrimeiroNaoPermitido(o, atributos, i) ==>
              r == Fail(Failure(IllegalArgument, MsgNaoPermitido(o[i].0)))
    decreases |o|
  {
    if |o| == 0 then Pass
    else if o[0].0 !in atributos then Fail(Failure(IllegalArgument, MsgNaoPermitido(o[0].0)))
    else
      var r := ValidarAtributosPermitidos(o[1..], atributos);
      assert forall i :: PrimeiroNaoPermitido(o, atributos, i) ==> PrimeiroNaoPermitido(o[1..], atributos, i - 1) by {
        forall i | PrimeiroNaoPermitido(o, atributos, i)
          ensures PrimeiroNaoPermitido(o[1..], atributos, i - 1)
        {
          assert i != 0;
          forall j | 0 <= j < i - 1 ensures o[1..][j].0 in atributos {
            assert o[1..][j] == o[j + 1];
          }
        }
      }
      assert (forall i :: 0 <= i < |o[1..]| ==> o[1..][i].0 in atributos)
         ==> (forall i :: 0 <= i < |o| ==> o[i].0 in atributos) by {
        if forall i :: 0 <= i < |o[1..]| ==> o[1..][i].0 in atributos {
          forall i | 0 <= i < |o| ensures o[i].0 in atributos {
            if i > 0 { assert o[i] == o[1..][i - 1]; }
          }
        }
      }
      r
  }

  /** `validarValoresVazios` as written: it would reject a value that is at the same time JSON
      null and a primitive, which no value is, so it never rejects. */
  function ValidarValoresVazios(o: JObject): (r: Outcome)
    ensures r == Pass
    decreases |o|
  {
    if |o| == 0 then Pass
    else
      var (atributo, v) := o[0];
      if v.JNull? && IsPrimitive(v) && PrimitiveStringEmpty(v) then Fail(Failure(IllegalArgument, MsgVazio(atributo)))
      else ValidarValoresVazios(o[1..])
  }

  /** `validarObjetoJson` against an attribute list; `atualizaveis` tells whether the list is
      the ATRIBUTOS_ATUALIZAVEIS constant, the one entry whose required check is skipped. */
  function ValidarObjeto(o: JObject, atributos: seq<string>, atualizaveis: bool): (r: Outcome)
    ensures r.Pass? <==>
      && (atualizaveis || forall i :: 0 <= i < |atributos| ==> Has(o, atributos[i]))
      && (forall i :: 0 <= i < |o| ==> o[i].0 in atributos)
    ensures r.Fail? ==> r.error.kind == IllegalArgument
  {
    var obrigatorios := if atualizaveis then Pass else ValidarAtributosObrigatorios(o, atributos);
    if obrigatorios.Fail? then obrigatorios
    else
      var permitidos := ValidarAtributosPermitidos(o, atributos);
      if permitidos.Fail? then permitidos
      else ValidarValoresVazios(o)
  }

  /** `validarObjetoJson(objetoJson, atributos)` over the enum it is declared with. */
  function ValidarObjetoJson(o: JObject, e: InfraProdutoAtributos.Entrada): (r: Outcome)
    ensures e == InfraProdutoAtributos.ATRIBUTOS_ATUALIZAVEIS ==>
      (r.Pass? <==> forall i :: 0 <= i < |o| ==> o[i].0 in ["descricao", "preco", "quantidade", "estoqueMin"])
    ensures e == InfraProdutoAtributos.ATRIBUTO_STATUS ==>
      (r.Pass? <==> Has(o, "lativo") && forall i :: 0 <= i < |o| ==> o[i].0 == "lativo")
    ensures r.Fail? ==> r.error.kind == IllegalArgument
  {
    ValidarObjeto(o, InfraProdutoAtributos.GetAtributos(e), e == InfraProdutoAtributos.ATRIBUTOS_ATUALIZAVEIS)
  }

  /** Some attribute is missing exactly when there is a first missing one. */
  lemma {:induction false} ExistePrimeiroAusente(o: JObject, atributos: seq<string>)
    requires exists k :: 0 <= k < |atributos| && !Has(o, atributos[k])
    ensures exists i :: PrimeiroAusente(o, atributos, i)
    decreases |atributos|
  {
    if Has(o, atributos[0]) {
      var k :| 0 <= k < |atributos| && !Has(o, atributos[k]);
      assert atributos[1..][k - 1] == atributos[k];
      ExistePrimeiroAusente(o, atributos[1..]);
      var i :| PrimeiroAusente(o, atributos[1..], i);
      forall j | 0 <= j < i + 1 ensures Has(o, atributos[j]) {
        if j > 0 { assert atributos[j] == atributos[1..][j - 1]; }
      }
      assert PrimeiroAusente(o, atributos, i + 1);
    } else {
      assert PrimeiroAusente(o, atributos, 0);
    }
  }

  /** For every list other than the updatable one, an accepted object has exactly the
      listed attributes as its keys. */
  lemma AceitoTemExatamenteOsAtributos(o: JObject, e: InfraProdutoAtributos.Entrada)
    requires e != InfraProdutoAtributos.ATRIBUTOS_ATUALIZAVEIS
    requires ValidarObjetoJson(o, e).Pass?
    ensures KeySet(o) == set a | a in InfraProdutoAtributos.GetAtributos(e)
  {
    var atributos := InfraProdutoAtributos.GetAtributos(e);
    forall a | a in atributos ensures a in KeySet(o) {
      var k :| 0 <= k < |atributos| && atributos[k] == a;
      assert Has(o, atributos[k]);
    }
  }

  /** For the updatable list, an accepted object's keys are among the listed ones, and the
      empty object is accepted. */
  lemma AtualizaveisAceitaSubconjunto(o: JObject)
    requires ValidarObjetoJson(o, InfraProdutoAtributos.ATRIBUTOS_ATUALIZAVEIS).Pass?
    ensures KeySet(o) <= set a | a in InfraProdutoAtributos.GetAtributos(InfraProdutoAtributos.ATRIBUTOS_ATUALIZAVEIS)
    ensures ValidarObjetoJson([], InfraProdutoAtributos.ATRIBUTOS_ATUALIZAVEIS) == Pass
  {}

  /** Outside the updatable list, the first missing attribute is reported, before any disallowed key. */
  lemma AusenteAntesDeNaoPermitido(o: JObject, atributos: seq<string>)
    requires exists k :: 0 <= k < |atributos| && !Has(o, atributos[k])
    ensures exists i :: PrimeiroAusente(o, atributos, i)
                     && ValidarObjeto(o, atributos, false) == Fail(Failure(IllegalArgument, MsgAusente(atributos[i])))
  {
    ExistePrimeiroAusente(o, atributos);
  }

  /** Once the required check passes (or is skipped), the first disallowed key in object order is reported. */
  lemma NaoPermitidoReportaPrimeiraChave(o: JObject, atributos: seq<string>, atualizaveis: bool, i: int)
    requires atualizaveis || forall k :: 0 <= k < |atributos| ==> Has(o, atributos[k])
    requires PrimeiroNaoPermitido(o, atributos, i)
    ensures ValidarObjeto(o, atributos, atualizaveis) == Fail(Failure(IllegalArgument, MsgNaoPermitido(o[i].0)))
  {}
}
