/** `chat-camara/chatbot.py`: a bill reference found anywhere in the input is normalised and
    looked up in the root lookup layer; the plain report is then read back field by field,
    each field the text after its label up to the end of that line, with a default where
    the label is missing. */
module ChatCamara {
  import opened Wrappers
  import opened Text
  import opened Dates
  import opened Camara
  import opened Patterns
  import SrcConsulta
  import RootConsulta

  /** Position of the first occurrence of `sub` in `s`. */
  function Ocorrencia(s: string, sub: string): (r: Option<nat>)
    ensures r.Some? ==> r.value + |sub| <= |s| && sub <= s[r.value..]
    decreases |s|
  {
    if sub <= s then Some(0)
    else if s == [] then None
    else
      match Ocorrencia(s[1..], sub)
      case None => None
      case Some(p) => Some(p + 1)
  }

  /** The occurrence found is the first one, and none is found exactly when `sub` does not
      occur. */
  lemma {:induction false} OcorrenciaPrimeira(s: string, sub: string)
    ensures Ocorrencia(s, sub).None? <==> !Contains(s, sub)
    ensures Ocorrencia(s, sub).Some? ==> forall q :: 0 <= q < Ocorrencia(s, sub).value ==> !(sub <= s[q..])
    decreases |s|
  {
    if !(sub <= s) && s != [] {
      OcorrenciaPrimeira(s[1..], sub);
      if Ocorrencia(s, sub).Some? {
        forall q | 0 <= q < Ocorrencia(s, sub).value
          ensures !(sub <= s[q..])
        {
          if q > 0 {
            assert s[q..] == s[1..][q - 1..];
          }
        }
      }
    }
  }

  /** `re.search(rotulo + r'(.*?)\n', texto).group(1)`: the rest of the line after the
      first occurrence of the label, when that line ends with a newline. */
  function Campo(texto: string, rotulo: string): (r: Option<string>)
    ensures r.Some? ==> '\n' !in r.value && Contains(texto, rotulo + r.value + "\n")
  {
    match Ocorrencia(texto, rotulo)
    case None => None
    case Some(p) =>
      var resto := texto[p + |rotulo|..];
      if '\n' in resto then
        var v := resto[..IndexOf(resto, '\n')];
        LinhaEm(texto, rotulo, p, v);
        ContainsSuffix(texto, p, rotulo + v + "\n");
        Some(v)
      else None
  }

  /** The line read at an occurrence of the label, newline included, starts there. */
  lemma LinhaEm(texto: string, rotulo: string, p: nat, v: string)
    requires p + |rotulo| <= |texto| && rotulo <= texto[p..]
    requires var resto := texto[p + |rotulo|..];
      '\n' in resto && v == resto[..IndexOf(resto, '\n')]
    ensures rotulo + v + "\n" <= texto[p..]
  {
    var resto := texto[p + |rotulo|..];
    assert texto[p..] == rotulo + resto;
    assert resto[..|v| + 1] == v + "\n";
  }

  lemma {:induction false} ContainsSuffix(s: string, p: nat, sub: string)
    requires p <= |s| && sub <= s[p..]
    ensures Contains(s, sub)
    decreases p
  {
    if p > 0 {
      assert s[1..][p - 1..] == s[p..];
      ContainsSuffix(s[1..], p - 1, sub);
    }
  }

  /** The field is the match the pattern finds: wherever an occurrence of the label is
      followed on its line by a newline, the field is found, and it is the rest of the line
      of the first occurrence, which lies no later. */
  lemma CampoIsLeftmostMatch(texto: string, rotulo: string, q: nat, v: string)
    requires q <= |texto| && '\n' !in v && rotulo + v + "\n" <= texto[q..]
    ensures Campo(texto, rotulo).Some? && Ocorrencia(texto, rotulo).Some?
    ensures Ocorrencia(texto, rotulo).value <= q
    ensures rotulo + Campo(texto, rotulo).value + "\n" <= texto[Ocorrencia(texto, rotulo).value..]
  {
    LinhaDepois(texto, rotulo, q, v);
    ContainsSuffix(texto, q, rotulo);
    OcorrenciaPrimeira(texto, rotulo);
    var p := Ocorrencia(texto, rotulo).value;
    assert p <= q;
    NovaLinhaNoResto(texto, p + |rotulo|, q + |rotulo| + |v|);
    CampoLinha(texto, rotulo, p);
  }

  /** Where the first occurrence's line is closed by a newline, the field is that line. */
  lemma CampoLinha(texto: string, rotulo: string, p: nat)
    requires Ocorrencia(texto, rotulo) == Some(p) && '\n' in texto[p + |rotulo|..]
    ensures Campo(texto, rotulo).Some? && rotulo + Campo(texto, rotulo).value + "\n" <= texto[p..]
  {
    var v := CampoValor(texto, rotulo, p);
    LinhaEm(texto, rotulo, p, v);
  }

  lemma CampoValor(texto: string, rotulo: string, p: nat) returns (v: string)
    requires Ocorrencia(texto, rotulo) == Some(p) && '\n' in texto[p + |rotulo|..]
    ensures var resto := texto[p + |rotulo|..];
      v == resto[..IndexOf(resto, '\n')] && Campo(texto, rotulo) == Some(v)
  {
    var resto := texto[p + |rotulo|..];
    v := resto[..IndexOf(resto, '\n')];
  }

  /** A label followed by a line at `q`: the label starts there and the newline closes it. */
  lemma LinhaDepois(texto: string, rotulo: string, q: nat, v: string)
    requires q <= |texto| && rotulo + v + "\n" <= texto[q..]
    ensures rotulo <= texto[q..]
    ensures q + |rotulo| + |v| < |texto| && texto[q + |rotulo| + |v|] == '\n'
  {
    assert texto[q..][|rotulo| + |v|] == '\n';
  }

  lemma NovaLinhaNoResto(texto: string, a: nat, n: nat)
    requires a <= n < |texto| && texto[n] == '\n'
    ensures '\n' in texto[a..]
  {
    assert texto[a..][n - a] == '\n';
  }

  /** The twelve fields the card shows. */
  datatype Campos = Campos(
    proposicao: string, ementa: string, status: string, orgao: string,
    orgaoNome: string, orgaoTipo: string, data: string, despacho: string,
    descricao: string, regime: string, linkPagina: string, linkTexto: string)

  /** A field read for `rotulo`: one line, either the default or the rest of a line of the
      text that starts with the label. */
  predicate LinhaOuPadrao(texto: string, rotulo: string, v: string, padrao: string) {
    v == padrao || ('\n' !in v && Contains(texto, rotulo + v + "\n"))
  }

  /** `formatar_resultado`, up to the markup: each label looked up, with "" or "N/A" where
      it is missing. */
  function Extrair(texto: string): (r: Campos)
    ensures LinhaOuPadrao(texto, "Proposição: ", r.proposicao, "")
    ensures LinhaOuPadrao(texto, "Ementa: ", r.ementa, "")
    ensures LinhaOuPadrao(texto, "Status: ", r.status, "")
    ensures LinhaOuPadrao(texto, "Órgão atual: ", r.orgao, "")
    ensures LinhaOuPadrao(texto, "Nome completo: ", r.orgaoNome, "")
    ensures LinhaOuPadrao(texto, "Tipo: ", r.orgaoTipo, "")
    ensures LinhaOuPadrao(texto, "Data: ", r.data, "N/A")
    ensures LinhaOuPadrao(texto, "Despacho: ", r.despacho, "N/A")
    ensures LinhaOuPadrao(texto, "Descrição: ", r.descricao, "N/A")
    ensures LinhaOuPadrao(texto, "Regime de tramitação: ", r.regime, "N/A")
    ensures LinhaOuPadrao(texto, "Página da proposição: ", r.linkPagina, "")
    ensures LinhaOuPadrao(texto, "Texto completo: ", r.linkTexto, "")
  {
    Campos(
      Campo(texto, "Proposição: ").GetOr(""),
      Campo(texto, "Ementa: ").GetOr(""),
      Campo(texto, "Status: ").GetOr(""),
      Campo(texto, "Órgão atual: ").GetOr(""),
      Campo(texto, "Nome completo: ").GetOr(""),
      Campo(texto, "Tipo: ").GetOr(""),
      Campo(texto, "Data: ").GetOr("N/A"),
      Campo(texto, "Despacho: ").GetOr("N/A"),
      Campo(texto, "Descrição: ").GetOr("N/A"),
      Campo(texto, "Regime de tramitação: ").GetOr("N/A"),
      Campo(texto, "Página da proposição: ").GetOr(""),
      Campo(texto, "Texto completo: ").GetOr(""))
  }

  lemma CampoAusente(texto: string, rotulo: string)
    requires !Contains(texto, rotulo)
    ensures Campo(texto, rotulo).None?
  {
    OcorrenciaPrimeira(texto, rotulo);
  }

  /** A text carrying none of the labels gives the defaults: empty heading, texts and
      links, "N/A" for the event and the regime. */
  lemma ExtrairPadroes(texto: string)
    requires !Contains(texto, "Proposição: ") && !Contains(texto, "Ementa: ") && !Contains(texto, "Status: ")
    requires !Contains(texto, "Órgão atual: ") && !Contains(texto, "Nome completo: ") && !Contains(texto, "Tipo: ")
    requires !Contains(texto, "Data: ") && !Contains(texto, "Despacho: ") && !Contains(texto, "Descrição: ")
    requires !Contains(texto, "Regime de tramitação: ") && !Contains(texto, "Página da proposição: ")
    requires !Contains(texto, "Texto completo: ")
    ensures Extrair(texto) == Campos("", "", "", "", "", "", "N/A", "N/A", "N/A", "N/A", "", "")
  {
    CampoAusente(texto, "Proposição: ");
    CampoAusente(texto, "Ementa: ");
    CampoAusente(texto, "Status: ");
    CampoAusente(texto, "Órgão atual: ");
    CampoAusente(texto, "Nome completo: ");
    CampoAusente(texto, "Tipo: ");
    CampoAusente(texto, "Data: ");
    CampoAusente(texto, "Despacho: ");
    CampoAusente(texto, "Descrição: ");
    CampoAusente(texto, "Regime de tramitação: ");
    CampoAusente(texto, "Página da proposição: ");
    CampoAusente(texto, "Texto completo: ");
  }

  /** A text opening with the heading line yields that heading. */
  lemma CampoAbertura(ident: string, texto: string)
    requires '\n' !in ident
    requires "\nProposição: " + ident <= texto && |"\nProposição: " + ident| < |texto|
    requires texto[|"\nProposição: " + ident|] == '\n'
    ensures Campo(texto, "Proposição: ") == Some(ident)
  {
    var rotulo := "Proposição: ";
    assert texto[0] == '\n';
    assert rotulo <= texto[1..];
    assert Ocorrencia(texto[1..], rotulo) == Some(0);
    assert Ocorrencia(texto, rotulo) == Some(1);
    var linha := texto[1 + |rotulo|..];
    assert linha[..|ident|] == ident;
    assert IndexOf(linha, '\n') == |ident| by {
      assert linha[|ident|] == '\n';
    }
  }

  /** The card's heading is the "SIGLA NUM/ANO" of a plain report, which opens with that
      line. */
  lemma ExtrairIdentificacao(prop: Proposicao, orgao: Option<Orgao>, ultima: Option<Tramitacao>)
    requires RootConsulta.Texto(prop, orgao, ultima).Ok?
    requires '\n' !in prop.siglaTipo && '\n' !in prop.numero && '\n' !in prop.ano
    ensures Extrair(RootConsulta.Texto(prop, orgao, ultima).value).proposicao
      == Identificacao(prop.siglaTipo, prop.numero, prop.ano)
  {
    var texto := RootConsulta.Texto(prop, orgao, ultima).value;
    var st := prop.statusProposicao.value;
    RootConsulta.TextoAbre(prop, orgao, ultima);
    AberturaCabeca(prop, st, texto);
    CampoAbertura(Identificacao(prop.siglaTipo, prop.numero, prop.ano), texto);
  }

  /** A text that opens with a plain report's first lines has the heading line first. */
  lemma AberturaCabeca(prop: Proposicao, st: Status, texto: string)
    requires SrcConsulta.AberturaConsulta(prop, st) <= texto
    ensures var cabeca := "\nProposição: " + Identificacao(prop.siglaTipo, prop.numero, prop.ano);
      cabeca <= texto && |cabeca| < |texto| && texto[|cabeca|] == '\n'
  {
    var abertura := SrcConsulta.AberturaConsulta(prop, st);
    var cabeca := "\nProposição: " + Identificacao(prop.siglaTipo, prop.numero, prop.ano);
    assert cabeca + "\nEmenta: " <= abertura;
    assert texto[|cabeca|] == abertura[|cabeca|] == (cabeca + "\nEmenta: ")[|cabeca|] == '\n';
  }

  /** What the page shows: the card of fields, the format warning, or the error block
      carrying an exception's message. */
  datatype Tela = Cartao(campos: Campos) | Aviso | Falha(msg: string)

  /** `processar_consulta`: the warning exactly when the input holds no bill reference;
      otherwise the combined report of the normalised reference, its exception as the
      error block, or the card of the fields read from it. */
  function ProcessarConsulta(api: Api, entrada: string): (t: Tela)
    ensures t == Aviso <==> BuscaPl(entrada).None?
    ensures BuscaPl(entrada).Some? ==>
      var completa := RootConsulta.Completa(api, Sigla(Normalizada(BuscaPl(entrada).value)));
      && (completa.Err? ==> t == Falha(completa.msg))
      && (completa.Ok? ==> t == Cartao(Extrair(completa.value)))
  {
    match BuscaPl(entrada)
    case None => Aviso
    case Some(m) =>
      match RootConsulta.Completa(api, Sigla(Normalizada(m)))
      case Err(e) => Falha(e)
      case Ok(texto) => Cartao(Extrair(texto))
  }

  /** Without a bill reference the answer does not depend on the endpoints: no lookup is
      made. */
  lemma ConsultaAviso(api1: Api, api2: Api, entrada: string)
    ensures BuscaPl(entrada).None? ==> ProcessarConsulta(api2, entrada) == ProcessarConsulta(api1, entrada)
  {
  }

  /** The answer of the root layer is an error exactly with the reference's resolution
      error. */
  lemma CompletaResolvida(api: Api, texto: string)
    ensures ResolverSigla(api, texto).Err? ==> RootConsulta.Completa(api, Sigla(texto)) == Err(ResolverSigla(api, texto).msg)
    ensures ResolverSigla(api, texto).Ok? ==> RootConsulta.Completa(api, Sigla(texto)).Ok?
  {
  }

  /** The normalised reference is looked up with the type code exactly as typed ("pl" and
      "Pl" are not upper-cased); when that listing lookup fails the error block carries its
      message, otherwise the card is shown. */
  lemma ConsultaLookup(api: Api, entrada: string)
    requires BuscaPl(entrada).Some?
    ensures var m := BuscaPl(entrada).value;
      var lookup := api.proposicoes(m.sigla, m.numero, m.ano);
      && ResolverSigla(api, Normalizada(m)) ==
           (if lookup.Fail? then Err(lookup.msg) else Ok(if lookup.dados == [] then None else Some(lookup.dados[0].id)))
      && (lookup.Fail? ==> ProcessarConsulta(api, entrada) == Falha(lookup.msg))
      && (lookup.Got? ==> ProcessarConsulta(api, entrada).Cartao?)
  {
    var m := BuscaPl(entrada).value;
    ResolverNormalizada(api, m);
    CompletaResolvida(api, Normalizada(m));
  }

  /** A matched reference is resolved with its three groups as they were matched. */
  lemma ResolverNormalizada(api: Api, m: RefPl)
    requires SiglaPl(m.sigla) && IsDigits(m.numero) && IsDigits(m.ano)
    ensures var lookup := api.proposicoes(m.sigla, m.numero, m.ano);
      ResolverSigla(api, Normalizada(m)) ==
        (if lookup.Fail? then Err(lookup.msg) else Ok(if lookup.dados == [] then None else Some(lookup.dados[0].id)))
  {
    NoSeparatorInDigits(m.numero, ' ');
    NoSeparatorInDigits(m.numero, '/');
    NoSeparatorInDigits(m.ano, ' ');
    NoSeparatorInDigits(m.ano, '/');
    SiglaPlSemSeparador(m.sigla);
    ResolverSiglaLookup(api, m.sigla, m.numero, m.ano);
  }
}
