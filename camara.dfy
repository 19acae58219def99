/** The records the Câmara open-data API and web pages deliver, and the oracle that stands
    for every remote call. A request that raises (network error, a reply that is not JSON,
    a missing `dados` member) is a `Fail` carrying the exception's message; otherwise the
    call yields the `dados` payload, already decoded into the records below. */
module Camara {
  import opened Wrappers
  import opened Text

  datatype Response<+T> = Fail(msg: string) | Got(dados: T)

  /** One entry of the `/proposicoes?siglaTipo=&numero=&ano=` listing. Numbers and ids are
      kept as the text they render to. */
  datatype Resumo = Resumo(id: string, siglaTipo: string, numero: string, ano: string, ementa: string)

  /** `statusProposicao`; `siglaOrgao` is the one member the code tests for. */
  datatype Status = Status(descricaoSituacao: string, siglaOrgao: Option<string>, regime: string)

  /** `/proposicoes/{id}`: `statusProposicao` and `urlInteiroTeor` may be absent. */
  datatype Proposicao = Proposicao(
    siglaTipo: string, numero: string, ano: string, ementa: string,
    statusProposicao: Option<Status>, urlInteiroTeor: Option<string>)

  /** One event of `/proposicoes/{id}/tramitacoes`. */
  datatype Tramitacao = Tramitacao(dataHora: string, despacho: string, siglaOrgao: string, descricaoTramitacao: string)

  /** One entry of `/proposicoes/{id}/autores`; both members are read with `.get`. */
  datatype Autor = Autor(nome: Option<string>, uri: Option<string>)

  /** One entry of `/orgaos?sigla=`. */
  datatype Orgao = Orgao(nome: string, tipoOrgao: string)

  /** `/deputados/{id}`: the HTTP status and, from `ultimoStatus`, the party and state
      codes, "" where the member is absent. */
  datatype Deputado = Deputado(statusCode: int, siglaPartido: string, siglaUf: string)

  /** A table as the rows (`tr`) of its data cells (`td`), each cell its raw text. */
  type Tabela = seq<seq<string>>

  /** The `fichadetramitacao` page of one proposição, as the parts the code looks up: the
      text of the title, ementa and situação elements, the table with id
      `content-tramitacao`, and the first table of class `table`. */
  datatype Ficha = Ficha(
    titulo: Option<string>, ementa: Option<string>, situacao: Option<string>,
    tabelaPorId: Option<Tabela>, tabelaPorClasse: Option<Tabela>)

  /** The `nomeProposicao` anchor of a portal search hit: its text and its `href`. */
  datatype Ancora = Ancora(text: string, href: Option<string>)

  /** One `resultItemContent` block of the portal search page. */
  datatype ItemPortal = ItemPortal(nomeProposicao: Option<Ancora>)

  /** Every remote call the lookup layer makes, each a function of its parameters. */
  datatype Api = Api(
    proposicoes: (string, string, string) -> Response<seq<Resumo>>,
    proposicao: string -> Response<Proposicao>,
    tramitacoes: string -> Response<seq<Tramitacao>>,
    autores: string -> Response<seq<Autor>>,
    orgaos: string -> Response<seq<Orgao>>,
    deputado: string -> Response<Deputado>,
    ficha: string -> Response<Ficha>,
    portal: string -> Response<seq<ItemPortal>>)

  /** What `consultar_proposicao` accepts: a reference text "SIGLA NUM/ANO" (a Python
      `str`) or an id (any other value, used as is). */
  datatype Referencia = Sigla(texto: string) | Id(id: string)

  /** A search hit as both copies of `buscar_proposicoes` return it. */
  datatype Resultado = Resultado(titulo: string, id: string, link: string)

  /** The ten type codes searched when no type is given, in search order. */
  const TiposProposicoes: seq<string> :=
    ["PL", "PLP", "PEC", "MPV", "PDL", "PRC", "REQ", "INC", "RIC", "PDC"]

  /** The tracking page of a proposição is this prefix followed by its id. */
  const FichaPrefixo: string := "https://www.camara.leg.br/proposicoesWeb/fichadetramitacao?idProposicao="

  function FichaLink(id: string): string {
    FichaPrefixo + id
  }

  /** `"{siglaTipo} {numero}/{ano}"`. */
  function Identificacao(siglaTipo: string, numero: string, ano: string): string {
    siglaTipo + " " + numero + "/" + ano
  }

  /** The `KeyError` message for a missing dictionary key. */
  function KeyError(key: string): string {
    "'" + key + "'"
  }

  const IndexErrorMsg: string := "list index out of range"

  /** Python 3's message for a `strptime` that does not match its format. */
  function TimeDataError(data: string, format: string): string {
    "time data '" + data + "' does not match format '" + format + "'"
  }

  /** The committee a proposição currently sits in: looked up by `siglaOrgao` only when the
      status names one, the first hit of that lookup, or none. A failing lookup raises. */
  function OrgaoAtual(api: Api, prop: Proposicao): (r: Result<Option<Orgao>>)
    ensures (prop.statusProposicao.None? || prop.statusProposicao.value.siglaOrgao.None?) ==> r == Ok(None)
    ensures prop.statusProposicao.Some? && prop.statusProposicao.value.siglaOrgao.Some? ==>
      var lookup := api.orgaos(prop.statusProposicao.value.siglaOrgao.value);
      && (lookup.Fail? ==> r == Err(lookup.msg))
      && (lookup.Got? && lookup.dados == [] ==> r == Ok(None))
      && (lookup.Got? && lookup.dados != [] ==> r == Ok(Some(lookup.dados[0])))
    ensures r.Ok? && r.value.Some? ==>
      prop.statusProposicao.Some? && prop.statusProposicao.value.siglaOrgao.Some? &&
      var lookup := api.orgaos(prop.statusProposicao.value.siglaOrgao.value);
      lookup.Got? && lookup.dados != [] && r.value.value == lookup.dados[0]
  {
    if prop.statusProposicao.Some? && prop.statusProposicao.value.siglaOrgao.Some? then
      match api.orgaos(prop.statusProposicao.value.siglaOrgao.value)
      case Fail(m) => Err(m)
      case Got(orgaos) => Ok(if orgaos == [] then None else Some(orgaos[0]))
    else Ok(None)
  }

  /** Turning a reference "SIGLA NUM/ANO" into an id: both splits must unpack into two names
      (otherwise the `ValueError` is raised), then the id of the first listing entry, or
      none when the listing is empty. The type code is passed on as written. */
  function ResolverSigla(api: Api, texto: string): Result<Option<string>> {
    match Unpack2(Split(texto, ' '))
    case Err(m) => Err(m)
    case Ok((siglaTipo, numeroAno)) =>
      match Unpack2(Split(numeroAno, '/'))
      case Err(m) => Err(m)
      case Ok((numero, ano)) =>
        match api.proposicoes(siglaTipo, numero, ano)
        case Fail(m) => Err(m)
        case Got(dados) => Ok(if dados == [] then None else Some(dados[0].id))
  }

  /** A reference whose split does not give two names raises. */
  lemma ResolverSiglaMalformed(api: Api, texto: string)
    requires Count(texto, ' ') != 1
    ensures ResolverSigla(api, texto).Err?
  {
    SplitUnpacksIffOneSeparator(texto, ' ');
  }

  /** A reference with one space whose second name does not hold exactly one '/' raises at
      the second unpacking, with that unpacking's message, before any lookup. */
  lemma ResolverSiglaMalformedAno(api: Api, siglaTipo: string, numeroAno: string)
    requires ' ' !in siglaTipo && ' ' !in numeroAno && Count(numeroAno, '/') != 1
    ensures Unpack2(Split(numeroAno, '/')).Err?
    ensures ResolverSigla(api, siglaTipo + " " + numeroAno) == Err(Unpack2(Split(numeroAno, '/')).msg)
  {
    SplitTwo(siglaTipo, numeroAno, ' ');
    SplitUnpacksIffOneSeparator(numeroAno, '/');
  }

  /** A well-formed reference "SIGLA NUM/ANO" resolves through the listing for exactly that
      type, number and year, the type code passed on as written (no upper-casing). */
  lemma ResolverSiglaLookup(api: Api, siglaTipo: string, numero: string, ano: string)
    requires ' ' !in siglaTipo && ' ' !in numero && ' ' !in ano && '/' !in numero && '/' !in ano
    ensures var lookup := api.proposicoes(siglaTipo, numero, ano);
      ResolverSigla(api, siglaTipo + " " + numero + "/" + ano) ==
        if lookup.Fail? then Err(lookup.msg)
        else Ok(if lookup.dados == [] then None else Some(lookup.dados[0].id))
  {
    var numeroAno := numero + "/" + ano;
    assert ' ' !in numeroAno;
    SplitTwo(siglaTipo, numeroAno, ' ');
    assert siglaTipo + " " + numero + "/" + ano == siglaTipo + [' '] + numeroAno;
    SplitTwo(numero, ano, '/');
  }
}
