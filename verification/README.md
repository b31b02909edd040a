# Product catalogue rules, modelled in Dafny

This project models the core of the NewGo product API: a REST service that keeps a catalogue
of products (name, description, EAN-13, price, quantity, minimum stock, an active flag and two
timestamps) in a PRODUTOS table keyed by a UUID hash. The model covers:

- the validators that guard every write;
- the JSON schema checks run on request objects;
- the price and stock adjustments;
- the service operations (create, update, status change, batch price and stock change, delete, lookup);
- the application controller's batch loops;
- the mappers between entities and DTOs;
- the Location-header and path helpers.

The repository carries several rewrites of the same logic side by side. Each is modelled in
its own module and none are merged:

- two `ProdutoValidacao`s;
- `ProdutoValidador`;
- `JsonValidacao`;
- `JsonProdutoValidador`;
- two `ProdutoService`s;
- two `ProdutoAtributos`;
- two `ProdutoMapeador`s;
- two `RequestUtils`.

Conventions:

- A Java exception is a `Failure(kind, message)`. Kinds: IllegalArgument, IllegalState,
  NoSuchElement, and Runtime for NullPointerException, StringIndexOutOfBounds and the like.
- A method that returns or throws gives a `Result`; a `void` check gives an `Outcome`.
- `double` is `real`.
- A Java `null` is `Option`.
- The clock (`LocalDateTime.now()`) is a parameter `agora`.
- Whether `UUID.fromString` accepts a string is a parameter `ehUuid`.
- The products table is `Repositorio.Tabela`, a map from hash to row. Each DAO method's
  effect is read off the parameters it binds to its statement.
- A service operation returns the table after the call together with its result
  (`Efeito`), so a write made before a later exception is kept.
- Methods the service calls whose definitions are not part of this model are function-valued
  fields of `ProdutoService.Colaboradores`. These are `validarAtributosCriarProduto`,
  `validarAtributosDoubleEmProdutoDTO`, `validarDoubleZero` and `atualizarAtributoDouble`.
- The controller is generic over the service state. The service and the Gson mapping of a
  request object are supplied as values (`Servico`, `Mapeamento`).

Files: `common.dfy` (results, case-insensitive comparison, join/split), `json.dfy` (parsed
JSON objects), `entidades.dfy` (entities and DTOs), `repositorio.dfy` (table and DAO
effects), `produto_atributos.dfy`, `json_produto_validador.dfy`, `json_validacao.dfy`,
`produto_validador.dfy`, `produto_validacao.dfy`, `produto_mapeador.dfy`,
`request_utils.dfy`, `produto_service.dfy`, `modelo_produto_service.dfy`,
`produto_controller.dfy`.

## Model

| member | source | states |
|---|---|---|
| Repositorio.ExisteProdutoComNomeOuEan13 | src/main/java/br/newgo/apis/infrastructure/dao/ProdutoDAO.java:57-75 | the count of rows matching name OR EAN-13 is positive exactly when such a row exists; a null parameter matches nothing, so two nulls never find a row |
| Repositorio.Salvar | src/main/java/br/newgo/apis/infrastructure/dao/ProdutoDAO.java:225-235 | the insert adds exactly one row under the generated hash with the six content fields, dtcreate now, no dtupdate and lativo false; every other row is untouched |
| Repositorio.BuscarPorHash | src/main/java/br/newgo/apis/infrastructure/dao/ProdutoDAO.java:84-100 | a row is found exactly when one is stored under the hash, and it is that row |
| Repositorio.CriarProduto | src/main/java/br/newgo/apis/infrastructure/dao/ProdutoDAO.java:260-275 | the entity read from a row carries the row's fields, its hash and its creation time |
| Repositorio.Atualizar | src/main/java/br/newgo/apis/infrastructure/dao/ProdutoDAO.java:191-251 | the update succeeds exactly when the hash names a row, otherwise it is a RuntimeException; no row is added or removed, the other rows are unchanged, and in that row only descricao, preco, quantidade, estoque_min and dtupdate are rewritten while nome, ean13, dtcreate and lativo keep their stored values |
| Repositorio.AtualizarStatusLativo | src/main/java/br/newgo/apis/infrastructure/dao/ProdutoDAO.java:171-183 | reports true exactly when a row was changed; only that row's lativo and dtupdate change, and nothing changes when it reports false |
| Repositorio.Deletar | src/main/java/br/newgo/apis/infrastructure/dao/ProdutoDAO.java:209-216 | the row is gone afterwards and the call reports whether it existed |
| AppProdutoAtributos.AtualizaveisSaoSalvarSemIdentificadores | src/main/java/br/newgo/apis/application/utils/ProdutoAtributos.java:7-10 | the updatable list is the creation list without nome and ean13, in the same order |
| AppProdutoAtributos.EstoqueLoteContidoEmPrecoLote | src/main/java/br/newgo/apis/application/utils/ProdutoAtributos.java:8-9 | the batch-price list is hash, operacao, valor and the batch-stock list is the same without operacao |
| AppProdutoAtributos.StatusDisjuntoDosOutros | src/main/java/br/newgo/apis/application/utils/ProdutoAtributos.java:7-11 | the status entry is exactly lativo and no other entry names lativo |
| AppProdutoAtributos.SemCamposRepetidos | src/main/java/br/newgo/apis/application/utils/ProdutoAtributos.java:7-11 | no entry names a field twice |
| InfraProdutoAtributos.MesmasListasQueAplicacao | src/main/java/br/newgo/apis/infrastructure/utils/ProdutoAtributos.java:7-9 | the three lists coincide with the application's creation, updatable and status lists |
| InfraProdutoAtributos.AtualizaveisContidosEmObrigatorios | src/main/java/br/newgo/apis/infrastructure/utils/ProdutoAtributos.java:7-8 | every updatable field is required for creation, and nome and ean13 are not updatable |
| InfraProdutoAtributos.StatusDisjuntoDosOutros | src/main/java/br/newgo/apis/infrastructure/utils/ProdutoAtributos.java:9 | the status entry is exactly lativo and the other entries do not name it |
| InfraProdutoAtributos.SemCamposRepetidos | src/main/java/br/newgo/apis/infrastructure/utils/ProdutoAtributos.java:7-9 | no entry names a field twice |
| JsonProdutoValidador.ValidarAtributosObrigatorios | src/main/java/br/newgo/apis/domain/services/JsonProdutoValidador.java:35-40 | passes exactly when every listed attribute is a key; otherwise the first missing attribute in list order is named |
| JsonProdutoValidador.ValidarAtributosPermitidos | src/main/java/br/newgo/apis/domain/services/JsonProdutoValidador.java:49-55 | passes exactly when every key is in the list, compared case-sensitively; otherwise the first offending key in object order is named |
| JsonProdutoValidador.ValidarValoresVazios | src/main/java/br/newgo/apis/domain/services/JsonProdutoValidador.java:63-69 | never rejects, because no value is both JSON null and a primitive |
| JsonProdutoValidador.ValidarObjeto | src/main/java/br/newgo/apis/domain/services/JsonProdutoValidador.java:21-26 | accepts exactly when the required attributes are present (not asked for the updatable list) and every key is allowed; any refusal is IllegalArgument |
| JsonProdutoValidador.ValidarObjetoJson | src/main/java/br/newgo/apis/domain/services/JsonProdutoValidador.java:21-26 | the updatable entry accepts any object whose keys are among the four updatable fields; the status entry accepts exactly objects whose only key is lativo |
| JsonProdutoValidador.ExistePrimeiroAusente | src/main/java/br/newgo/apis/domain/services/JsonProdutoValidador.java:35-40 | if some listed attribute is missing, there is a first missing one to report |
| JsonProdutoValidador.AceitoTemExatamenteOsAtributos | src/main/java/br/newgo/apis/domain/services/JsonProdutoValidador.java:21-55 | outside the updatable list, an accepted object's key set equals the attribute set |
| JsonProdutoValidador.AtualizaveisAceitaSubconjunto | src/main/java/br/newgo/apis/domain/services/JsonProdutoValidador.java:22-25 | for the updatable list, an accepted object's keys are a subset of the attributes, and the empty object is accepted |
| JsonProdutoValidador.AusenteAntesDeNaoPermitido | src/main/java/br/newgo/apis/domain/services/JsonProdutoValidador.java:21-26 | when an attribute is missing, the first missing one is reported even if disallowed keys are present too |
| JsonProdutoValidador.NaoPermitidoReportaPrimeiraChave | src/main/java/br/newgo/apis/domain/services/JsonProdutoValidador.java:49-55 | once the required check passes or is skipped, the first disallowed key in object order is reported |
| JsonValidacao.ParseJson | src/main/java/br/newgo/apis/domain/services/JsonValidacao.java:55-61 | only an object parses; a syntax error is IllegalArgument "Formato JSON inválido" and a non-object escapes as IllegalState |
| JsonValidacao.ContainsIgnoreCase | src/main/java/br/newgo/apis/domain/services/JsonValidacao.java:113-120 | true exactly when some entry equals the target ignoring case |
| JsonValidacao.VerificarCamposObrigatorios | src/main/java/br/newgo/apis/domain/services/JsonValidacao.java:69-75 | passes exactly when every field is a key, compared exactly; otherwise the first missing field is named |
| JsonValidacao.VerificarCamposNaoPermitidos | src/main/java/br/newgo/apis/domain/services/JsonValidacao.java:83-89 | passes exactly when every key matches an allowed field ignoring case; otherwise the first such key is named |
| JsonValidacao.VerificarValoresEmpty | src/main/java/br/newgo/apis/domain/services/JsonValidacao.java:97-104 | rejects exactly when some value is the empty string, and then names the first such member in object order; null, object and array values pass |
| JsonValidacao.Verificar | src/main/java/br/newgo/apis/domain/services/JsonValidacao.java:24-29 | passes exactly when required fields are present, all keys are allowed and no value is empty; every refusal is IllegalArgument |
| JsonValidacao.ValidarJson | src/main/java/br/newgo/apis/domain/services/JsonValidacao.java:24-29 | a parsed object passes exactly when the six product fields are present and are the only keys allowed, with no empty value |
| JsonValidacao.ValidarJsonAtualizacao | src/main/java/br/newgo/apis/domain/services/JsonValidacao.java:40-46 | nothing is required; an object passes exactly when its keys are among the four updatable fields ignoring case and no value is empty |
| JsonValidacao.GetAsBoolean | src/main/java/br/newgo/apis/domain/services/JsonValidacao.java:36 | a boolean reads as itself, a string as "true" ignoring case, a one-element array as its element; other arrays throw IllegalState, null and objects throw |
| JsonValidacao.GetAsBooleanDesembrulha | src/main/java/br/newgo/apis/domain/services/JsonValidacao.java:36 | a value reads as a boolean exactly when unwrapping one-element arrays leaves a primitive, and reads as that primitive |
| JsonValidacao.VerificarStatus | src/main/java/br/newgo/apis/domain/services/JsonValidacao.java:33-35 | with lativo as the one required and one allowed field, the checks pass exactly when lativo is present, every key is lativo ignoring case and no value is empty |
| JsonValidacao.ValidarJsonStatusERetornarValor | src/main/java/br/newgo/apis/domain/services/JsonValidacao.java:31-37 | an accepted object yields lativo's value read as a boolean (its errors included); any other object is IllegalArgument, a missing lativo named first; a parse failure propagates |
| JsonValidacao.AtualizacaoAceitaMaiusculas | src/main/java/br/newgo/apis/domain/services/JsonValidacao.java:83-89 | an update object with key "PRECO" is accepted |
| JsonValidacao.ObrigatoriosSensiveisAMaiusculas | src/main/java/br/newgo/apis/domain/services/JsonValidacao.java:69-75 | without an exact "nome" key the object is refused as missing nome, whatever other spellings it has |
| ProdutoValidador.ValidarDoubleNegativo | src/main/java/br/newgo/apis/domain/services/ProdutoValidador.java:25-28 | rejects exactly the values below zero, naming the attribute; zero is accepted |
| ProdutoValidador.ValidarStringNulaOuVazia | src/main/java/br/newgo/apis/domain/services/ProdutoValidador.java:30-33 | rejects exactly a null or empty string, naming the attribute |
| ProdutoValidador.ValidarNomeOuEan13Duplicado | src/main/java/br/newgo/apis/domain/services/ProdutoValidador.java:42-46 | passes exactly when no stored row has that name or that EAN-13 |
| ProdutoValidador.ValidarProduto | src/main/java/br/newgo/apis/domain/services/ProdutoValidador.java:14-23 | passes exactly when (nome is null, or nome and ean13 are non-empty and unused) and the three numbers are non-negative |
| ProdutoValidador.NomeNuloIgnoraIdentificacao | src/main/java/br/newgo/apis/domain/services/ProdutoValidador.java:15-19 | with a null nome, neither ean13 nor the table affects the outcome |
| ProdutoValidador.OrdemDaIdentificacao | src/main/java/br/newgo/apis/domain/services/ProdutoValidador.java:15-19 | with a nome, the errors come in order: empty nome, then null or empty ean13, then duplicate |
| ProdutoValidador.OrdemDosNumeros | src/main/java/br/newgo/apis/domain/services/ProdutoValidador.java:20-22 | after identification passes, the first negative among preco, quantidade, estoqueMin is the one named |
| ProdutoValidador.VerificarLativo | src/main/java/br/newgo/apis/domain/services/ProdutoValidador.java:48-52 | accepts exactly "true" or "false" in any letter case; a null value throws |
| ProdutoValidador.VerificarLativoExemplos | src/main/java/br/newgo/apis/domain/services/ProdutoValidador.java:48-52 | "TRUE" and "False" are accepted; "yes" and "true " are refused |
| ProdutoValidador.ValidarERetornarHash | src/main/java/br/newgo/apis/domain/services/ProdutoValidador.java:61-67 | a parseable hash is returned; otherwise IllegalArgument "Formato de hash inválido." |
| ProdutoValidador.ValidarSeProdutoEstaAtivo | src/main/java/br/newgo/apis/domain/services/ProdutoValidador.java:75-78 | IllegalState exactly when lativo is false |
| ProdutoValidacao.ValidarNomeNuloOuVazio | src/main/java/br/newgo/apis/domain/services/ProdutoValidacao.java:40-44 | rejects exactly a null or empty nome |
| ProdutoValidacao.ValidarNomeOuEan13Duplicado | src/main/java/br/newgo/apis/domain/services/ProdutoValidacao.java:53-57 | passes exactly when no stored row shares the name or the EAN-13 |
| ProdutoValidacao.ValidarValoresNegativos | src/main/java/br/newgo/apis/domain/services/ProdutoValidacao.java:67-71 | one IllegalArgument exactly when any of the three is negative; zero is allowed |
| ProdutoValidacao.ValidarValoresNulos | src/main/java/br/newgo/apis/domain/services/ProdutoValidacao.java:79-90 | afterwards all three numbers are present: null ones are 0.0, present ones and every other field unchanged |
| ProdutoValidacao.ValidarValoresNulosIdempotente | src/main/java/br/newgo/apis/domain/services/ProdutoValidacao.java:79-90 | filling an already-filled DTO changes nothing |
| ProdutoValidacao.ValidarProduto | src/main/java/br/newgo/apis/domain/services/ProdutoValidacao.java:26-32 | succeeds exactly for a non-empty unused nome/ean13 whose numbers, nulls read as zero, are non-negative; the result has all three numbers present and non-negative and otherwise equals the input |
| ProdutoValidacao.OrdemDasVerificacoes | src/main/java/br/newgo/apis/domain/services/ProdutoValidacao.java:26-28 | a null or empty nome is refused first, and a duplicate before the numbers |
| ProdutoValidacao.ValidarHash | src/main/java/br/newgo/apis/domain/services/ProdutoValidacao.java:99-105 | a parseable hash is returned; otherwise IllegalArgument with the fixed message |
| ProdutoValidacao.ValidarSeProdutoEstaAtivo | src/main/java/br/newgo/apis/domain/services/ProdutoValidacao.java:107-110 | IllegalState "Produto não está ativo." exactly for an inactive product |
| ModeloProdutoValidacao.ValidarNome | src/main/java/br/newgo/apis/domain/model/services/ProdutoValidacao.java:35-39 | rejects exactly a null or empty nome |
| ModeloProdutoValidacao.ValidarExistenciaDoProduto | src/main/java/br/newgo/apis/domain/model/services/ProdutoValidacao.java:46-50 | rejects exactly when a stored row has the same name or EAN-13 |
| ModeloProdutoValidacao.ValidarValoresNegativos | src/main/java/br/newgo/apis/domain/model/services/ProdutoValidacao.java:57-61 | rejects exactly when a number is negative; zero is accepted |
| ModeloProdutoValidacao.ValidarProduto | src/main/java/br/newgo/apis/domain/model/services/ProdutoValidacao.java:22-28 | passes exactly when the three checks all pass; any refusal is IllegalArgument |
| ModeloProdutoValidacao.OrdemDasVerificacoes | src/main/java/br/newgo/apis/domain/model/services/ProdutoValidacao.java:22-28 | the first failing check decides the message: nome, then duplicate, then negatives |
| AppProdutoMapeador.MapearParaDTO | src/main/java/br/newgo/apis/application/utils/ProdutoMapeador.java:23-36 | the nine fields are copied, and lativo becomes "true" or "false", which parses back to the entity's flag |
| AppProdutoMapeador.MapearParaProduto | src/main/java/br/newgo/apis/application/utils/ProdutoMapeador.java:42-50 | the six content fields are copied; hash, timestamps and lativo stay unset |
| AppProdutoMapeador.MapearParaListaDeDTOS | src/main/java/br/newgo/apis/application/utils/ProdutoMapeador.java:55-59 | same length, and each element is the mapping of the element at the same position |
| AppProdutoMapeador.IdaEVoltaPreservaConteudo | src/main/java/br/newgo/apis/application/utils/ProdutoMapeador.java:23-50 | entity to DTO and back keeps the six content fields |
| AppProdutoMapeador.ListaDistribuiSobreConcatenacao | src/main/java/br/newgo/apis/application/utils/ProdutoMapeador.java:55-59 | mapping a concatenation is the concatenation of the mappings |
| InfraProdutoMapeador.ConverterParaDTO | src/main/java/br/newgo/apis/infrastructure/utils/ProdutoMapeador.java:17-19 | all ten fields are copied unchanged |
| InfraProdutoMapeador.ConverterParaProduto | src/main/java/br/newgo/apis/infrastructure/utils/ProdutoMapeador.java:27-31 | the six content fields are copied; hash and timestamps are null and lativo false |
| InfraProdutoMapeador.IdaEVoltaPreservaConteudo | src/main/java/br/newgo/apis/infrastructure/utils/ProdutoMapeador.java:17-31 | entity to DTO and back keeps the content fields, and is the identity on an entity with no hash, no timestamps and lativo false |
| Requisicoes.Uri | src/main/java/br/newgo/apis/application/utils/RequestUtils.java:34-38 | a URI is the request URL, a slash, then the hash ("null" for a null hash) |
| Requisicoes.ExtrairHash | src/main/java/br/newgo/apis/application/utils/RequestUtils.java:50-52 | a null or empty path info throws; otherwise its first character followed by the result is the path info |
| Requisicoes.ExtrairHashIdaEVolta | src/main/java/br/newgo/apis/application/utils/RequestUtils.java:50-52 | a hash placed after a slash in the path is extracted unchanged |
| Requisicoes.JoinVazio | src/main/java/br/newgo/apis/application/utils/RequestUtils.java:41 | joining non-empty pieces with "," is empty exactly when there are none |
| AppRequestUtils.Uris | src/main/java/br/newgo/apis/application/utils/RequestUtils.java:36-39 | every URI comes from a response carrying a product; none exactly when no response carries one, all exactly when all do |
| AppRequestUtils.GerarLocationHeader | src/main/java/br/newgo/apis/application/utils/RequestUtils.java:33-42 | the header is empty exactly when no response carries a product |
| AppRequestUtils.ExtrairHash | src/main/java/br/newgo/apis/application/utils/RequestUtils.java:50-52 | fails exactly for a null or empty path info; otherwise drops the leading character |
| AppRequestUtils.UrisPreservaOrdem | src/main/java/br/newgo/apis/application/utils/RequestUtils.java:36-39 | the URIs of concatenated responses are the concatenated URIs, so response order is kept |
| AppRequestUtils.UrisDeUmaResposta | src/main/java/br/newgo/apis/application/utils/RequestUtils.java:37-38 | an error entry contributes no URI and a success entry its own |
| AppRequestUtils.HeaderSeparavel | src/main/java/br/newgo/apis/application/utils/RequestUtils.java:33-42 | with no comma in URL or hashes, splitting the header at "," gives back the URIs |
| InfraRequestUtils.Uris | src/main/java/br/newgo/apis/infrastructure/utils/RequestUtils.java:40-43 | one URI per product, in list order |
| InfraRequestUtils.GerarLocationHeader | src/main/java/br/newgo/apis/infrastructure/utils/RequestUtils.java:39-45 | the header is empty exactly for an empty list |
| InfraRequestUtils.ExtrairHash | src/main/java/br/newgo/apis/infrastructure/utils/RequestUtils.java:53-55 | fails exactly for a null or empty path info; otherwise drops the leading character |
| InfraRequestUtils.HeaderSeparavel | src/main/java/br/newgo/apis/infrastructure/utils/RequestUtils.java:39-45 | with no comma in URL or hashes, splitting the header gives exactly one URI per product, in order |
| ProdutoService.ParaEntidade | src/main/java/br/newgo/apis/infrastructure/dao/ProdutoDAO.java:260-275 | the entity read for a hash carries the row's fields, its hash and its flag |
| ProdutoService.ObterPorHash | src/main/java/br/newgo/apis/domain/services/ProdutoService.java:155-161 | found exactly for a present, parseable, stored hash; otherwise null dereference, malformed hash or not found, in that order |
| ProdutoService.ObterDtoPorHash | src/main/java/br/newgo/apis/domain/services/ProdutoService.java:36-38 | the DTO of the stored row, with the lookup's exception otherwise |
| ProdutoService.ObterDtoAtivoPorHash | src/main/java/br/newgo/apis/domain/services/ProdutoService.java:47-52 | succeeds exactly for a stored active product; a stored inactive one is IllegalState |
| ProdutoService.AtualizarInformacoesProduto | src/main/java/br/newgo/apis/domain/services/ProdutoService.java:163-175 | a present descricao and non-zero numbers replace the stored values; nome, ean13, hash, flag and timestamps are never changed |
| ProdutoService.AtualizarInformacoesIdempotente | src/main/java/br/newgo/apis/domain/services/ProdutoService.java:163-175 | merging the same DTO twice equals merging it once |
| ProdutoService.DtoVazioNaoAltera | src/main/java/br/newgo/apis/domain/services/ProdutoService.java:163-175 | a DTO with no descricao and zero numbers leaves the product unchanged |
| ProdutoService.OperacoesExclusivas | src/main/java/br/newgo/apis/domain/services/ProdutoService.java:180-189 | an operation name cannot match both the increase and the decrease of a pair |
| ProdutoService.PrecoValidado | src/main/java/br/newgo/apis/domain/services/ProdutoService.java:193 | a computed price is accepted exactly when non-negative, else named "novo preço" |
| ProdutoService.ObterNovoPreco | src/main/java/br/newgo/apis/domain/services/ProdutoService.java:177-196 | each of the five operations, matched ignoring case, gives its formula; an unknown one is IllegalArgument quoting it; a null one throws; any result is non-negative |
| ProdutoService.ObterNovoPrecoExemplos | src/main/java/br/newgo/apis/domain/services/ProdutoService.java:180-191 | worked cases: fixed, upper-case fixed, +10%, a subtraction below zero, an unknown operation |
| ProdutoService.DiminuirValorAteOPrecoAtual | src/main/java/br/newgo/apis/domain/services/ProdutoService.java:184-185 | subtracting succeeds exactly when the amount does not exceed the price |
| ProdutoService.DiminuirPercentualAteCem | src/main/java/br/newgo/apis/domain/services/ProdutoService.java:188-193 | on a positive price, a percentage decrease succeeds exactly up to 100%, and 100% gives zero |
| ProdutoService.ObterNovoValorEstoque | src/main/java/br/newgo/apis/domain/services/ProdutoService.java:198-204 | the new stock is stock plus amount, refused exactly when negative |
| ProdutoService.ObterNovoValorEstoqueExemplos | src/main/java/br/newgo/apis/domain/services/ProdutoService.java:198-204 | removing more than the stock is refused; removing all of it gives zero |
| ProdutoService.AtualizarPrecoEmLote | src/main/java/br/newgo/apis/domain/services/ProdutoService.java:99-113 | lookup errors, then inactive, then negative valor, then the price computation, all with the table unchanged; only a non-negative price is ever written, to the preco column |
| ProdutoService.PrecoEmLoteMudaSoOPreco | src/main/java/br/newgo/apis/domain/services/ProdutoService.java:106-112 | when the column write behaves, success stores and returns the product with only its price replaced |
| ProdutoService.AtualizarEstoqueEmLote | src/main/java/br/newgo/apis/domain/services/ProdutoService.java:115-127 | lookup, inactive, zero check and negative stock are refused with the table unchanged; otherwise the new stock is written to quantidade |
| ProdutoService.Atualizar | src/main/java/br/newgo/apis/domain/services/ProdutoService.java:86-97 | succeeds exactly for a stored active product passing the numeric check; any error leaves the table unchanged; on success only that row changes, by the merge rules, with dtupdate now |
| ProdutoService.AtualizarStatusLativo | src/main/java/br/newgo/apis/domain/services/ProdutoService.java:79-84 | succeeds exactly for a valid lativo spelling and a stored product; no active gate; only lativo and dtupdate of that row change |
| ProdutoService.StatusAtivaProdutoInativo | src/main/java/br/newgo/apis/domain/services/ProdutoService.java:79-84 | an inactive product sent "TRUE" comes back active, rendered "true" |
| ProdutoService.Deletar | src/main/java/br/newgo/apis/domain/services/ProdutoService.java:135-138 | succeeds exactly for a stored parseable hash; a malformed hash touches nothing; an unknown one is NoSuchElement "Produto não deletado." |
| ProdutoService.DeletarDuasVezes | src/main/java/br/newgo/apis/domain/services/ProdutoService.java:135-138 | after a delete the product is not found and a second delete fails |
| ProdutoService.Criar | src/main/java/br/newgo/apis/domain/services/ProdutoService.java:25-28 | a failed attribute check writes nothing; otherwise exactly one row is added and the returned DTO carries the input's content, the new hash, creation time now and lativo "false" |
| ProdutoService.CriarDepoisObter | src/main/java/br/newgo/apis/domain/services/ProdutoService.java:140-145 | the DTO create returns is what a later lookup by the new hash returns |
| ModeloProdutoService.ObterPorHash | src/main/java/br/newgo/apis/domain/model/services/ProdutoService.java:47-56 | a malformed hash is IllegalArgument before any lookup; an absent one NoSuchElement; otherwise the stored product |
| ModeloProdutoService.ObterDtoPorHash | src/main/java/br/newgo/apis/domain/model/services/ProdutoService.java:58-60 | succeeds exactly when the lookup does, giving the conversion of the found product, with the lookup's error otherwise |
| ModeloProdutoService.Criar | src/main/java/br/newgo/apis/domain/model/services/ProdutoService.java:29-37 | a validation failure leaves the table unchanged; success implies a valid, unused, non-negative input and returns it with the new hash, creation time now and lativo false |
| ModeloProdutoService.CriarDepoisObter | src/main/java/br/newgo/apis/domain/model/services/ProdutoService.java:34-36 | the DTO create returns is the product re-read by the hash the insert produced |
| ModeloProdutoService.CriarDuasVezesRecusaODuplicado | src/main/java/br/newgo/apis/domain/model/services/ProdutoService.java:29-37 | creating the same named product again is refused as a duplicate, writing nothing |
| ProdutoController.ValidarEsquema | src/main/java/br/newgo/apis/application/controller/ProdutoController.java:102 | an object passes an application schema exactly when its required attributes are present (not asked for the updatable entry) and every key is listed |
| ProdutoController.AddRespostaSucesso | src/main/java/br/newgo/apis/application/controller/ProdutoController.java:106-108 | appends one "Sucesso" entry carrying the message and the DTO, keeping the earlier entries |
| ProdutoController.AddRespostaErro | src/main/java/br/newgo/apis/application/controller/ProdutoController.java:110-112 | appends one "Erro" entry carrying the message and the unmodified request object |
| ProdutoController.SalvarProduto | src/main/java/br/newgo/apis/application/controller/ProdutoController.java:101-104 | the create schema is checked before the mapping and the service; a schema or mapping failure leaves the state unchanged |
| ProdutoController.Criar | src/main/java/br/newgo/apis/application/controller/ProdutoController.java:27-30 | success is a "Sucesso" answer with the created DTO; every exception propagates |
| ProdutoController.Lote | src/main/java/br/newgo/apis/application/controller/ProdutoController.java:35-43 | a finished batch has one entry per item in order after the earlier ones, each a success with the message or an error echoing the item; an early end is an uncaught kind |
| ProdutoController.LoteCompleto | src/main/java/br/newgo/apis/application/controller/ProdutoController.java:35-43 | if every item failure is a caught kind, the batch finishes |
| ProdutoController.LoteConcatena | src/main/java/br/newgo/apis/application/controller/ProdutoController.java:35-43 | a batch split in two is the first part, then the second run from the state and entries the first left |
| ProdutoController.LotePrefixoOk | src/main/java/br/newgo/apis/application/controller/ProdutoController.java:35-43 | a batch that finishes has finished every prefix |
| ProdutoController.LoteItem | src/main/java/br/newgo/apis/application/controller/ProdutoController.java:37-41 | in a finished batch, item i's entry is its step run from the state the earlier items left: success with the DTO and message, or error with the exception's message and the item |
| ProdutoController.LoteAborta | src/main/java/br/newgo/apis/application/controller/ProdutoController.java:35-43 | an uncaught exception at item i, after the earlier items were answered, ends the batch with that exception and state |
| ProdutoController.CriarLote | src/main/java/br/newgo/apis/application/controller/ProdutoController.java:32-45 | one entry per item in order; only a non-IllegalArgument exception ends the batch |
| ProdutoController.EsquemaFalhoViraErro | src/main/java/br/newgo/apis/application/controller/ProdutoController.java:40-41 | an item failing the create schema gets an "Erro" entry with the schema's message and the item itself |
| ProdutoController.LoteRecusaSemEfeito | src/main/java/br/newgo/apis/application/controller/ProdutoController.java:40-41 | an item refused with a caught exception gets an error entry with that message at its own position |
| ProdutoController.CriarLoteItem | src/main/java/br/newgo/apis/application/controller/ProdutoController.java:37-41 | in a finished criarLote, item i holds the created DTO or the IllegalArgument message salvarProduto gives from the state the earlier items left |
| ProdutoController.CriarLoteAborta | src/main/java/br/newgo/apis/application/controller/ProdutoController.java:35-43 | any exception other than IllegalArgument at item i, after the earlier items, ends criarLote with it, whatever follows |
| ProdutoController.CriarLoteCompleto | src/main/java/br/newgo/apis/application/controller/ProdutoController.java:32-45 | when every failure is IllegalArgument, the batch answers every item |
| ProdutoController.CriarLoteSemEsquemaNaoChamaServico | src/main/java/br/newgo/apis/application/controller/ProdutoController.java:101-102 | if every item fails the schema, the service state is unchanged and every entry is an error |
| ProdutoController.LoteTodosRecusados | src/main/java/br/newgo/apis/application/controller/ProdutoController.java:35-43 | if every item is refused without effect, the state is unchanged and every new entry is an error |
| ProdutoController.AtualizarPrecoLote | src/main/java/br/newgo/apis/application/controller/ProdutoController.java:82-95 | one entry per item in order; only an exception other than IllegalArgument and IllegalState ends the batch |
| ProdutoController.AtualizarPrecoItem | src/main/java/br/newgo/apis/application/controller/ProdutoController.java:86-87 | a schema failure, then a mapping failure, is thrown with the state unchanged; only an item that passes both can change the state |
| ProdutoController.PrecoLoteItem | src/main/java/br/newgo/apis/application/controller/ProdutoController.java:85-91 | in a finished atualizarPrecoLote, item i holds the updated DTO or the caught exception's message its step gives from the state the earlier items left |
| ProdutoController.PrecoLoteAborta | src/main/java/br/newgo/apis/application/controller/ProdutoController.java:84-92 | an exception other than IllegalArgument or IllegalState at item i, after the earlier items, ends the batch with it, whatever follows |
| ProdutoController.PrecoLoteInativoViraErro | src/main/java/br/newgo/apis/application/controller/ProdutoController.java:90-91 | an inactive product becomes an error entry and the batch carries on from the state the service left |
| ProdutoController.PrecoLoteDesconhecidoAborta | src/main/java/br/newgo/apis/application/controller/ProdutoController.java:84-92 | an unknown hash (NoSuchElement) ends the batch with that exception |
| ProdutoController.Atualizar | src/main/java/br/newgo/apis/application/controller/ProdutoController.java:67-72 | the updatable schema is checked before the service; a refusal leaves the state unchanged; success answers with the updated DTO |
| ProdutoController.AtualizarRecusaIdentificadores | src/main/java/br/newgo/apis/application/controller/ProdutoController.java:69 | an update naming nome or ean13 is refused without reaching the service |
| ProdutoController.AtualizarStatus | src/main/java/br/newgo/apis/application/controller/ProdutoController.java:74-80 | the status schema (lativo and nothing else) is checked before the service; a refusal leaves the state unchanged |

## Left out

- Transport and I/O are not modelled:
  - the servlets, the presentation controllers, Tomcat and `ResponseUtils`;
  - `lerCorpoDaRequisicao`;
  - JDBC connections, SQL text and property loading.
  The DAO is reduced to its effect on the table map.
- Gson is not modelled. This covers `JsonMapeador`, `mapearParaDTO(JsonObject)`, `mapearParaPrecoLoteDTO`, `DTOUtils` and parsing. Validators take an already-parsed object, `JsonValidacao` takes the parse outcome, and the controller takes the mapping as a parameter.
- The list reads are not modelled: `obterTodos`, `obterTodosPorStatus`, `obterTodosComEstoqueBaixo` and the DAO `buscarTodos*` queries. They are pure database reads; only the list mapper they use is modelled.
- The controller's `deletar`, `obterDtoPorHash` and `obterDtoAtivoPorHash` are not modelled. They are one-line delegations to the service operations of the same names, which are modelled.
- UUID syntax is the parameter `ehUuid`, because `UUID.fromString` is a library parser. A UUID's canonical form is not modelled, so the hash string itself is the key.
- Common.EqualsIgnoreCase: folds only the characters that can match an ASCII letter (the ASCII letters, dotless i, long s, capital I with dot and the Kelvin sign). `equalsIgnoreCase` also folds other letters among themselves, such as é and É. Every comparison here has an ASCII constant on one side, so no result of the catalogue depends on that.
- `double` arithmetic is exact `real` arithmetic. IEEE-754 rounding, NaN and infinities are not modelled.
- `ProdutoService.Colaboradores`: `validarAtributosCriarProduto`, `validarAtributosDoubleEmProdutoDTO`, `validarDoubleZero` and `atualizarAtributoDouble` are called but their definitions are not part of this model. They are supplied as parameters, and no behaviour is assumed beyond what `EscreveSoAColuna` states where a lemma needs it.
- Exception messages produced by the JDK are approximations. This covers NullPointerException, StringIndexOutOfBoundsException, Gson's UnsupportedOperationException and "Not a JSON Object". Only their kinds are relied on.
- `AppProdutoMapeador.MapearParaDTO`: requires a non-null boxed lativo. A null one would be dereferenced; that NullPointerException is not modelled.
- `InfraProdutoMapeador.ConverterParaProduto`: requires the three boxed numbers to be present. Unboxing a null would throw; that exception is not modelled.
- `ModeloProdutoService.Criar`: requires the three boxed numbers to be present, for the same unboxing reason.
- `ProdutoService.Criar`: requires the database-generated hash to be fresh. Hash generation belongs to the database.
- `ModeloProdutoService.Criar`: requires the database-generated hash to be fresh, for the same reason.
- ProdutoValidacao.ValidarValoresNulos: returns a filled copy, where the Java method fills the DTO in place and returns it. Its caller reassigns the returned DTO, so it goes on with the filled values either way.
- The lineages do not line up in their types, and the model bridges them:
  - the controller hands the application schema enum to `JsonProdutoValidador`, which is declared over the infrastructure enum. The controller reuses the validator's list-based core (`ValidarObjeto`).
  - the service treats the DAO's entity as the `infrastructure.entities` product with a boxed flag (`ProdutoService.ParaEntidade`).
  - `PrecoLoteDTO` is folded into `AtualizacaoLoteProdutoDTO`.
- Nested JSON objects are a single `JOther` case; their members are never read.
- JsonValidacao.GetAsBoolean: the IllegalStateException for an array not of size one carries a fixed message; its exact wording depends on the Gson version, which is not part of this model.
- Timestamps are an opaque `Timestamp` supplied by the caller, in place of `LocalDateTime.now()`.
- Where the code departs from what its names and comments suggest, the code is followed:
  - `JsonProdutoValidador.validarValoresVazios` never rejects anything;
  - in the update merge, a number equal to 0 means "leave unchanged".
