/** The lookup layer of the root `teste_consulta.py`, the copy the chatbots import: search
    by "NUM/ANO", by "SIGLA NUM/ANO" or by free text on the portal, the page summary of the
    tracking page, the plain report by reference, and the two put together. */
module RootConsulta {
  import opened Wrappers
  import opened Text
  import opened Sorting
  import opened Camara
  import SrcConsulta

  // ---------------------------------------------------------------------------------
  // buscar_proposicoes

  /** "{sigla} {numero}/{ano} - " followed by the first hundred characters of the ementa
      and "...". */
  function TituloListagem(d: Resumo): string {
    Identificacao(d.siglaTipo, d.numero, d.ano) + " - " + Top(d.ementa, 100) + "..."
  }

  function AcertoListagem(d: Resumo): Resultado {
    Resultado(TituloListagem(d), d.id, FichaLink(d.id))
  }

  /** Every entry of one listing, in order. */
  function Listagem(dados: seq<Resumo>): (r: seq<Resultado>)
    ensures |r| == |dados|
    decreases |dados|
  {
    if dados == [] then [] else Listagem(dados[..|dados| - 1]) + [AcertoListagem(dados[|dados| - 1])]
  }

  /** The listing keeps the API's order, one hit per entry. */
  lemma {:induction false} ListagemAt(dados: seq<Resumo>, j: nat)
    requires j < |dados|
    ensures Listagem(dados)[j] == AcertoListagem(dados[j])
    decreases |dados|
  {
    if j < |dados| - 1 {
      ListagemAt(dados[..|dados| - 1], j);
    }
  }

  /** What one type contributes: its whole listing, or nothing when the lookup raises (the
      exception is caught and the loop goes on with the next type). */
  function DoTipo(api: Api, tipo: string, numero: string, ano: string): seq<Resultado> {
    match api.proposicoes(tipo, numero, ano)
    case Fail(_) => []
    case Got(dados) => Listagem(dados)
  }

  /** The loop over the types, in order. */
  function DosTipos(api: Api, tipos: seq<string>, numero: string, ano: string): seq<Resultado>
    decreases |tipos|
  {
    if tipos == [] then []
    else DosTipos(api, tipos[..|tipos| - 1], numero, ano) + DoTipo(api, tipos[|tipos| - 1], numero, ano)
  }

  lemma {:induction false} DosTiposAppend(api: Api, a: seq<string>, b: seq<string>, numero: string, ano: string)
    ensures DosTipos(api, a + b, numero, ano) == DosTipos(api, a, numero, ano) + DosTipos(api, b, numero, ano)
    decreases |b|
  {
    if b == [] {
      assert a + b == a;
    } else {
      var init, last := b[..|b| - 1], b[|b| - 1];
      assert b == init + [last];
      assert a + b == (a + init) + [last];
      DosTiposAppend(api, a, init, numero, ano);
      DosTiposSnoc(api, a + init, last, numero, ano);
      DosTiposSnoc(api, init, last, numero, ano);
      SeqAssoc(DosTipos(api, a, numero, ano), DosTipos(api, init, numero, ano), DoTipo(api, last, numero, ano));
    }
  }

  /** One more type adds its contribution at the end. */
  lemma DosTiposSnoc(api: Api, a: seq<string>, tipo: string, numero: string, ano: string)
    ensures DosTipos(api, a + [tipo], numero, ano) == DosTipos(api, a, numero, ano) + DoTipo(api, tipo, numero, ano)
  {
    assert (a + [tipo])[..|a|] == a;
  }

  /** `r` is one of the entries the lookup for `tipo` lists. */
  predicate ListadoPor(api: Api, tipo: string, numero: string, ano: string, r: Resultado) {
    var resposta := api.proposicoes(tipo, numero, ano);
    resposta.Got? && exists j :: 0 <= j < |resposta.dados| && r == AcertoListagem(resposta.dados[j])
  }

  /** A hit of the typed loop is exactly an entry of the listing of one of the types whose
      lookup succeeds: failing types are skipped, the others contribute all their entries. */
  lemma {:induction false} DosTiposMembership(api: Api, tipos: seq<string>, numero: string, ano: string, r: Resultado)
    ensures r in DosTipos(api, tipos, numero, ano) <==>
      exists k :: 0 <= k < |tipos| && ListadoPor(api, tipos[k], numero, ano, r)
    decreases |tipos|
  {
    if tipos != [] {
      var init, last := tipos[..|tipos| - 1], tipos[|tipos| - 1];
      DosTiposMembership(api, init, numero, ano, r);
      DoTipoMembership(api, last, numero, ano, r);
      ListadoEmAlgum(api, tipos, init, numero, ano, r);
      assert DosTipos(api, tipos, numero, ano) == DosTipos(api, init, numero, ano) + DoTipo(api, last, numero, ano);
    }
  }

  /** One type contributes exactly the entries of its listing when its lookup succeeds. */
  lemma DoTipoMembership(api: Api, tipo: string, numero: string, ano: string, r: Resultado)
    ensures r in DoTipo(api, tipo, numero, ano) <==> ListadoPor(api, tipo, numero, ano, r)
  {
    var resposta := api.proposicoes(tipo, numero, ano);
    if r in DoTipo(api, tipo, numero, ano) {
      var j :| 0 <= j < |resposta.dados| && Listagem(resposta.dados)[j] == r;
      ListagemAt(resposta.dados, j);
    }
    if ListadoPor(api, tipo, numero, ano, r) {
      var j :| 0 <= j < |resposta.dados| && r == AcertoListagem(resposta.dados[j]);
      ListagemAt(resposta.dados, j);
      assert Listagem(resposta.dados)[j] == r;
    }
  }

  /** Some type lists `r` exactly when one of all but the last does, or the last does. */
  lemma ListadoEmAlgum(api: Api, tipos: seq<string>, init: seq<string>, numero: string, ano: string, r: Resultado)
    requires tipos != [] && init == tipos[..|tipos| - 1]
    ensures (exists k :: 0 <= k < |tipos| && ListadoPor(api, tipos[k], numero, ano, r)) <==>
      (exists k :: 0 <= k < |init| && ListadoPor(api, init[k], numero, ano, r))
      || ListadoPor(api, tipos[|tipos| - 1], numero, ano, r)
  {
    if exists k :: 0 <= k < |tipos| && ListadoPor(api, tipos[k], numero, ano, r) {
      var k :| 0 <= k < |tipos| && ListadoPor(api, tipos[k], numero, ano, r);
      if k < |init| {
        assert init[k] == tipos[k];
      }
    }
    if exists k :: 0 <= k < |init| && ListadoPor(api, init[k], numero, ano, r) {
      var k :| 0 <= k < |init| && ListadoPor(api, init[k], numero, ano, r);
      assert init[k] == tipos[k];
    }
  }

  /** A type whose lookup raises leaves the hits of the others, in order, untouched. */
  lemma TipoComFalha(api: Api, tipos: seq<string>, k: nat, numero: string, ano: string)
    requires k < |tipos| && api.proposicoes(tipos[k], numero, ano).Fail?
    ensures DosTipos(api, tipos, numero, ano) == DosTipos(api, tipos[..k], numero, ano) + DosTipos(api, tipos[k + 1..], numero, ano)
  {
    assert tipos == tipos[..k] + [tipos[k]] + tipos[k + 1..];
    DosTiposAround(api, tipos[..k], tipos[k], tipos[k + 1..], numero, ano);
  }

  /** The loop over `antes`, one type `t`, then `depois`, in three pieces. */
  lemma DosTiposAround(api: Api, antes: seq<string>, t: string, depois: seq<string>, numero: string, ano: string)
    ensures DosTipos(api, antes + [t] + depois, numero, ano)
      == DosTipos(api, antes, numero, ano) + DoTipo(api, t, numero, ano) + DosTipos(api, depois, numero, ano)
  {
    DosTiposAppend(api, antes + [t], depois, numero, ano);
    assert (antes + [t])[..|antes|] == antes;
    assert DosTipos(api, antes + [t], numero, ano) == DosTipos(api, antes, numero, ano) + DoTipo(api, t, numero, ano);
  }

  /** The parameter the portal link carries the id in. */
  const ParametroId: string := "idProposicao="

  /** `idProposicao=` at position `i`, followed by a digit. */
  predicate ParametroEm(s: string, i: int) {
    0 <= i && i + |ParametroId| < |s| && s[i..i + |ParametroId|] == ParametroId && IsDigit(s[i + |ParametroId|])
  }

  /** `re.search(r'idProposicao=(\d+)', link)`: the digits after the leftmost
      `idProposicao=` that is followed by a digit. */
  function IdDoLink(s: string): (r: Option<string>)
    ensures r.Some? ==> IsDigits(r.value) && Contains(s, ParametroId + r.value)
    decreases |s|
  {
    if |s| <= |ParametroId| then None
    else if ParametroId <= s && IsDigit(s[|ParametroId|]) then
      var d := Run(s[|ParametroId|..], IsDigit);
      assert ParametroId + d <= s by {
        assert s == ParametroId + s[|ParametroId|..];
      }
      Some(d)
    else IdDoLink(s[1..])
  }

  /** The parameter occurs at `i` of `s` exactly when it occurs at `i - 1` of its tail. */
  lemma ParametroEmTail(s: string, i: nat)
    requires 1 <= i < |s|
    ensures ParametroEm(s, i) <==> ParametroEm(s[1..], i - 1)
  {
    var n, t := |ParametroId|, s[1..];
    if i + n < |s| {
      var a, b := t[i - 1..i - 1 + n], s[i..i + n];
      assert forall k :: 0 <= k < n ==> a[k] == b[k];
      assert a == b;
      assert t[i - 1 + n] == s[i + n];
    }
  }

  /** The id is found exactly when the link carries the parameter followed by a digit, and
      then it is the whole digit run after the leftmost such occurrence. */
  lemma IdDoLinkLeftmost(s: string)
    ensures IdDoLink(s).None? <==> forall i :: 0 <= i < |s| ==> !ParametroEm(s, i)
    ensures IdDoLink(s).Some? ==>
      exists i :: 0 <= i < |s| && ParametroEm(s, i) && (forall j :: 0 <= j < i ==> !ParametroEm(s, j))
        && IdDoLink(s).value == Run(s[i + |ParametroId|..], IsDigit)
  {
    IdDoLinkNone(s);
    if IdDoLink(s).Some? {
      var i := IdDoLinkSome(s);
    }
  }

  lemma {:induction false} IdDoLinkNone(s: string)
    ensures IdDoLink(s).None? <==> forall i :: 0 <= i < |s| ==> !ParametroEm(s, i)
    decreases |s|
  {
    if |s| <= |ParametroId| {
    } else if ParametroId <= s && IsDigit(s[|ParametroId|]) {
      assert s[0..|ParametroId|] == ParametroId;
      assert ParametroEm(s, 0);
    } else {
      assert !ParametroEm(s, 0);
      IdDoLinkNone(s[1..]);
      if IdDoLink(s).None? {
        forall i | 0 <= i < |s|
          ensures !ParametroEm(s, i)
        {
          if i > 0 {
            ParametroEmTail(s, i);
          }
        }
      } else {
        var i :| 0 <= i < |s[1..]| && ParametroEm(s[1..], i);
        ParametroEmTail(s, i + 1);
      }
    }
  }

  lemma {:induction false} IdDoLinkSome(s: string) returns (i: nat)
    requires IdDoLink(s).Some?
    ensures i < |s| && ParametroEm(s, i) && (forall j :: 0 <= j < i ==> !ParametroEm(s, j))
    ensures IdDoLink(s).value == Run(s[i + |ParametroId|..], IsDigit)
    decreases |s|
  {
    if ParametroId <= s && IsDigit(s[|ParametroId|]) {
      assert s[0..|ParametroId|] == ParametroId;
      i := 0;
    } else {
      assert !ParametroEm(s, 0);
      var k := IdDoLinkSome(s[1..]);
      assert s[1..][k + |ParametroId|..] == s[k + 1 + |ParametroId|..];
      ParametroEmTail(s, k + 1);
      i := k + 1;
      forall j | 0 <= j < i
        ensures !ParametroEm(s, j)
      {
        if j > 0 {
          ParametroEmTail(s, j);
        }
      }
    }
  }

  const PortalPrefixo: string := "https://www.camara.leg.br"

  /** A portal hit: the anchor's stripped text, the id in its `href` (absent `href` reads
      as ""), and the `href` made absolute; nothing when either is missing. */
  function AcertoPortal(item: ItemPortal): Option<Resultado> {
    match item.nomeProposicao
    case None => None
    case Some(ancora) =>
      var link := ancora.href.GetOr("");
      match IdDoLink(link)
      case None => None
      case Some(id) => Some(Resultado(Strip(ancora.text), id, PortalPrefixo + link))
  }

  function AcertosPortal(items: seq<ItemPortal>): (r: seq<Resultado>)
    ensures |r| <= |items|
    decreases |items|
  {
    if items == [] then []
    else
      var ultimo := AcertoPortal(items[|items| - 1]);
      AcertosPortal(items[..|items| - 1]) + (if ultimo.Some? then [ultimo.value] else [])
  }

  /** The hits of two runs of items are those of each run, in item order. */
  lemma {:induction false} AcertosPortalAppend(a: seq<ItemPortal>, b: seq<ItemPortal>)
    ensures AcertosPortal(a + b) == AcertosPortal(a) + AcertosPortal(b)
    decreases |b|
  {
    if b == [] {
      assert a + b == a;
    } else {
      assert (a + b)[..|a + b| - 1] == a + b[..|b| - 1];
      assert (a + b)[|a + b| - 1] == b[|b| - 1];
      AcertosPortalAppend(a, b[..|b| - 1]);
    }
  }

  /** One more block adds its hit, if any, at the end. */
  lemma AcertosPortalSnoc(items: seq<ItemPortal>, item: ItemPortal)
    ensures AcertosPortal(items + [item]) ==
      AcertosPortal(items) + (if AcertoPortal(item).Some? then [AcertoPortal(item).value] else [])
  {
    assert (items + [item])[..|items|] == items;
  }

  /** One item gives a hit exactly when it has the anchor and its `href` carries
      `idProposicao=` followed by a digit; the hit is the anchor's stripped text, the id
      and the absolute link. */
  lemma AcertosPortalUm(item: ItemPortal)
    ensures item.nomeProposicao.None? ==> AcertosPortal([item]) == []
    ensures item.nomeProposicao.Some? ==>
      var ancora := item.nomeProposicao.value;
      var link := ancora.href.GetOr("");
      && (AcertosPortal([item]) == [] <==> forall i :: 0 <= i < |link| ==> !ParametroEm(link, i))
      && (AcertosPortal([item]) != [] ==>
            AcertosPortal([item]) == [Resultado(Strip(ancora.text), IdDoLink(link).value, PortalPrefixo + link)])
  {
    assert [item][..0] == [];
    if item.nomeProposicao.Some? {
      IdDoLinkNone(item.nomeProposicao.value.href.GetOr(""));
    }
  }

  /** The types to look up and the "NUM/ANO" part of a term containing '/': the one
      upper-cased type before the space, or all ten. */
  function Alvo(termo: string): Result<(seq<string>, string)> {
    if ' ' in termo then
      match Unpack2(Split(termo, ' '))
      case Err(m) => Err(m)
      case Ok((sigla, numeroAno)) => Ok(([Upper(sigla)], numeroAno))
    else Ok((TiposProposicoes, termo))
  }

  /** `buscar_proposicoes`. The splits of a term with '/' are outside any handler and
      raise; the free-text search turns every exception into `[]`. */
  function Buscar(api: Api, termo: string): Result<seq<Resultado>> {
    if '/' in termo then
      match Alvo(termo)
      case Err(m) => Err(m)
      case Ok((tipos, numeroAno)) =>
        match Unpack2(Split(numeroAno, '/'))
        case Err(m) => Err(m)
        case Ok((numero, ano)) => Ok(DosTipos(api, tipos, numero, ano))
    else
      match api.portal(termo)
      case Fail(_) => Ok([])
      case Got(items) => Ok(AcertosPortal(items))
  }

  /** The inner loop: append every entry of one listing. */
  method AcrescentarListagem(resultados: seq<Resultado>, dados: seq<Resumo>) returns (r: seq<Resultado>)
    ensures r == resultados + Listagem(dados)
  {
    r := resultados;
    var j := 0;
    while j < |dados|
      invariant 0 <= j <= |dados|
      invariant r == resultados + Listagem(dados[..j])
    {
      assert dados[..j + 1][..j] == dados[..j];
      assert dados[..j + 1][j] == dados[j];
      r := r + [AcertoListagem(dados[j])];
      j := j + 1;
    }
    assert dados[..j] == dados;
  }

  /** The outer loop over the types; a raising lookup is skipped. */
  method BuscarNosTipos(api: Api, tipos: seq<string>, numero: string, ano: string) returns (resultados: seq<Resultado>)
    ensures resultados == DosTipos(api, tipos, numero, ano)
  {
    resultados := [];
    var i := 0;
    while i < |tipos|
      invariant 0 <= i <= |tipos|
      invariant resultados == DosTipos(api, tipos[..i], numero, ano)
    {
      assert tipos[..i + 1][..i] == tipos[..i];
      assert tipos[..i + 1][i] == tipos[i];
      var resposta := api.proposicoes(tipos[i], numero, ano);
      if resposta.Got? {
        resultados := AcrescentarListagem(resultados, resposta.dados);
      } else {
        assert resultados + [] == resultados;
      }
      i := i + 1;
    }
    assert tipos[..i] == tipos;
  }

  /** The loop over the portal's result blocks. */
  method ColetarPortal(items: seq<ItemPortal>) returns (resultados: seq<Resultado>)
    ensures resultados == AcertosPortal(items)
  {
    resultados := [];
    var i := 0;
    while i < |items|
      invariant 0 <= i <= |items|
      invariant resultados == AcertosPortal(items[..i])
    {
      assert items[..i + 1] == items[..i] + [items[i]];
      AcertosPortalSnoc(items[..i], items[i]);
      var acerto := AcertoPortal(items[i]);
      if acerto.Some? {
        resultados := resultados + [acerto.value];
      } else {
        assert resultados + [] == resultados;
      }
      i := i + 1;
    }
    assert items[..i] == items;
  }

  method BuscarProposicoes(api: Api, termo: string) returns (r: Result<seq<Resultado>>)
    ensures r == Buscar(api, termo)
  {
    if '/' in termo {
      var alvo := Alvo(termo);
      if alvo.Err? {
        return Err(alvo.msg);
      }
      var (tipos, numeroAno) := alvo.value;
      var partes := Unpack2(Split(numeroAno, '/'));
      if partes.Err? {
        return Err(partes.msg);
      }
      var resultados := BuscarNosTipos(api, tipos, partes.value.0, partes.value.1);
      return Ok(resultados);
    }
    var pagina := api.portal(termo);
    if pagina.Fail? {
      return Ok([]);
    }
    var resultados := ColetarPortal(pagina.dados);
    return Ok(resultados);
  }

  /** "NUM/ANO" without a space searches all ten codes, skipping the ones that raise. */
  lemma BuscarNumeroAno(api: Api, numero: string, ano: string)
    requires ' ' !in numero && ' ' !in ano && '/' !in numero && '/' !in ano
    ensures Buscar(api, numero + "/" + ano) == Ok(DosTipos(api, TiposProposicoes, numero, ano))
  {
    var termo := numero + "/" + ano;
    assert termo == numero + ['/'] + ano;
    assert '/' in termo by { assert termo[|numero|] == '/'; }
    SplitTwo(numero, ano, '/');
  }

  /** "SIGLA NUM/ANO" searches the upper-cased code only. */
  lemma BuscarTipada(api: Api, sigla: string, numero: string, ano: string)
    requires ' ' !in sigla && ' ' !in numero && ' ' !in ano && '/' !in numero && '/' !in ano
    ensures Buscar(api, sigla + " " + numero + "/" + ano) == Ok(DoTipo(api, Upper(sigla), numero, ano))
  {
    var numeroAno := numero + "/" + ano;
    var termo := sigla + " " + numero + "/" + ano;
    assert ' ' !in numeroAno;
    assert termo == sigla + [' '] + numeroAno;
    assert '/' in termo by { assert termo[|sigla| + 1 + |numero|] == '/'; }
    assert ' ' in termo by { assert termo[|sigla|] == ' '; }
    SplitTwo(sigla, numeroAno, ' ');
    SplitTwo(numero, ano, '/');
    assert Alvo(termo) == Ok(([Upper(sigla)], numeroAno));
    var x := Upper(sigla);
    assert [x][..|[x]| - 1] == [];
    assert DosTipos(api, [x], numero, ano) == [] + DoTipo(api, x, numero, ano);
    assert [] + DoTipo(api, x, numero, ano) == DoTipo(api, x, numero, ano);
  }

  /** A term with '/' and with a number of spaces other than one raises the unpacking
      error instead of finding nothing. */
  lemma BuscarMalformada(api: Api, termo: string)
    requires '/' in termo && ' ' in termo && Count(termo, ' ') != 1
    ensures Buscar(api, termo).Err?
  {
    SplitUnpacksIffOneSeparator(termo, ' ');
  }

  /** Every hit, from the listings or from the portal, links to a page whose
      `idProposicao` parameter is its own id. */
  lemma BuscarLinks(api: Api, termo: string, r: Resultado)
    requires Buscar(api, termo).Ok? && r in Buscar(api, termo).value
    ensures Contains(r.link, ParametroId + r.id)
  {
    if '/' in termo {
      var (tipos, numeroAno) := Alvo(termo).value;
      var (numero, ano) := Unpack2(Split(numeroAno, '/')).value;
      assert r in DosTipos(api, tipos, numero, ano);
      DosTiposMembership(api, tipos, numero, ano, r);
      var k :| 0 <= k < |tipos| && ListadoPor(api, tipos[k], numero, ano, r);
      var dados := api.proposicoes(tipos[k], numero, ano).dados;
      var j :| 0 <= j < |dados| && r == AcertoListagem(dados[j]);
      ListagemLink(dados[j]);
    } else {
      PortalLinks(api.portal(termo).dados, r);
    }
  }

  lemma ListagemLink(d: Resumo)
    ensures Contains(AcertoListagem(d).link, ParametroId + d.id)
  {
    var pre := "https://www.camara.leg.br/proposicoesWeb/fichadetramitacao?";
    assert FichaPrefixo == pre + ParametroId;
    ConcatAssoc(pre, ParametroId, d.id);
    ContainsMiddle(pre, ParametroId + d.id, "");
    assert pre + (ParametroId + d.id) + "" == FichaLink(d.id);
  }

  lemma {:induction false} PortalLinks(items: seq<ItemPortal>, r: Resultado)
    requires r in AcertosPortal(items)
    ensures Contains(r.link, ParametroId + r.id)
    decreases |items|
  {
    var ultimo := AcertoPortal(items[|items| - 1]);
    if r in AcertosPortal(items[..|items| - 1]) {
      PortalLinks(items[..|items| - 1], r);
    } else {
      assert r == ultimo.value;
      var link := items[|items| - 1].nomeProposicao.value.href.GetOr("");
      ContainsAppendLeft(PortalPrefixo, link, ParametroId + r.id);
    }
  }

  /** The free-text search reads nothing but the portal, and never raises. */
  lemma BuscarTextoLivre(api1: Api, api2: Api, termo: string)
    requires '/' !in termo && api1.portal == api2.portal
    ensures Buscar(api1, termo).Ok? && Buscar(api1, termo) == Buscar(api2, termo)
  {
  }

  // ---------------------------------------------------------------------------------
  // consultar_tramitacao_web

  /** One kept table row: the stripped texts of its first three cells. */
  datatype LinhaPagina = LinhaPagina(data: string, orgao: string, despacho: string)

  /** The rows with at least three cells, in document order. */
  function LinhasPagina(linhas: Tabela): (r: seq<LinhaPagina>)
    ensures |r| <= |linhas|
    decreases |linhas|
  {
    if linhas == [] then []
    else
      var c := linhas[|linhas| - 1];
      LinhasPagina(linhas[..|linhas| - 1])
        + (if |c| >= 3 then [LinhaPagina(Strip(c[0]), Strip(c[1]), Strip(c[2]))] else [])
  }

  /** Rows are kept in document order: the rows of a table split in two are those of the
      first part followed by those of the second. */
  lemma {:induction false} LinhasPaginaAppend(a: Tabela, b: Tabela)
    ensures LinhasPagina(a + b) == LinhasPagina(a) + LinhasPagina(b)
    decreases |b|
  {
    if b == [] {
      assert a + b == a;
    } else {
      assert (a + b)[..|a + b| - 1] == a + b[..|b| - 1];
      assert (a + b)[|a + b| - 1] == b[|b| - 1];
      LinhasPaginaAppend(a, b[..|b| - 1]);
    }
  }

  /** No row is kept exactly when no row has three cells. */
  lemma {:induction false} LinhasPaginaEmpty(linhas: Tabela)
    ensures LinhasPagina(linhas) == [] <==> forall k :: 0 <= k < |linhas| ==> |linhas[k]| < 3
    decreases |linhas|
  {
    if linhas != [] {
      var init := linhas[..|linhas| - 1];
      LinhasPaginaEmpty(init);
      if LinhasPagina(linhas) == [] {
        forall k | 0 <= k < |linhas|
          ensures |linhas[k]| < 3
        {
          if k < |init| {
            assert linhas[k] == init[k];
          }
        }
      }
    }
  }

  /** Only the table with id `content-tramitacao`, without its header row. */
  function LinhasDaFicha(f: Ficha): seq<LinhaPagina> {
    match f.tabelaPorId
    case None => []
    case Some(t) => LinhasPagina(SrcConsulta.SemCabecalho(t))
  }

  function TextoOuNA(t: Option<string>): string {
    if t.Some? then Strip(t.value) else "N/A"
  }

  function CabecalhoPagina(f: Ficha): string {
    "\nInformações da página web:\n------------------------\nTítulo: " + TextoOuNA(f.titulo)
    + "\nEmenta: " + TextoOuNA(f.ementa)
    + "\nSituação: " + TextoOuNA(f.situacao)
    + "\n\nÚltimas tramitações:"
  }

  function BlocoPagina(l: LinhaPagina): string {
    "\nData: " + l.data + "\nÓrgão: " + l.orgao + "\nDespacho: " + l.despacho + "\n------------------------"
  }

  function BlocosPagina(ls: seq<LinhaPagina>): string
    decreases |ls|
  {
    if ls == [] then "" else BlocosPagina(ls[..|ls| - 1]) + BlocoPagina(ls[|ls| - 1])
  }

  function ErroPagina(msg: string): string {
    "Erro ao consultar página web: " + msg
  }

  /** `consultar_tramitacao_web`: the page summary with the first five rows in document
      order, or the error text. */
  function TramitacaoWeb(api: Api, id: string): string {
    match api.ficha(id)
    case Fail(m) => ErroPagina(m)
    case Got(f) => CabecalhoPagina(f) + BlocosPagina(Top(LinhasDaFicha(f), 5))
  }

  method ColetarLinhas(tabela: Option<Tabela>) returns (tramitacoes: seq<LinhaPagina>)
    ensures tramitacoes == if tabela.Some? then LinhasPagina(SrcConsulta.SemCabecalho(tabela.value)) else []
  {
    tramitacoes := [];
    if tabela.Some? {
      var linhas := SrcConsulta.SemCabecalho(tabela.value);
      var i := 0;
      while i < |linhas|
        invariant 0 <= i <= |linhas|
        invariant tramitacoes == LinhasPagina(linhas[..i])
      {
        LinhasPaginaSnoc(linhas, i);
        var colunas := linhas[i];
        if |colunas| >= 3 {
          tramitacoes := tramitacoes + [LinhaPagina(Strip(colunas[0]), Strip(colunas[1]), Strip(colunas[2]))];
        } else {
          assert tramitacoes + [] == tramitacoes;
        }
        i := i + 1;
      }
      assert linhas[..i] == linhas;
    }
  }

  /** One more row read adds its entry, if it has one. */
  lemma LinhasPaginaSnoc(linhas: Tabela, i: nat)
    requires i < |linhas|
    ensures var c := linhas[i];
      LinhasPagina(linhas[..i + 1]) == LinhasPagina(linhas[..i])
        + (if |c| >= 3 then [LinhaPagina(Strip(c[0]), Strip(c[1]), Strip(c[2]))] else [])
  {
    assert linhas[..i + 1][..i] == linhas[..i];
    assert linhas[..i + 1][i] == linhas[i];
  }

  method FormatarPagina(cabecalho: string, mostradas: seq<LinhaPagina>) returns (resposta: string)
    ensures resposta == cabecalho + BlocosPagina(mostradas)
  {
    resposta := cabecalho;
    var j := 0;
    while j < |mostradas|
      invariant 0 <= j <= |mostradas|
      invariant resposta == cabecalho + BlocosPagina(mostradas[..j])
    {
      assert mostradas[..j + 1][..j] == mostradas[..j];
      var tram := mostradas[j];
      assert mostradas[..j + 1][j] == tram;
      var bloco := BlocoPagina(tram);
      ConcatAssoc(cabecalho, BlocosPagina(mostradas[..j]), bloco);
      resposta := resposta + bloco;
      j := j + 1;
    }
    assert mostradas[..j] == mostradas;
  }

  method ConsultarTramitacaoWeb(api: Api, id: string) returns (resposta: string)
    ensures resposta == TramitacaoWeb(api, id)
  {
    var pagina := api.ficha(id);
    if pagina.Fail? {
      return ErroPagina(pagina.msg);
    }
    var tramitacoes := ColetarLinhas(pagina.dados.tabelaPorId);
    resposta := FormatarPagina(CabecalhoPagina(pagina.dados), Top(tramitacoes, 5));
  }

  lemma {:induction false} BlocosPaginaContains(ls: seq<LinhaPagina>, k: nat)
    requires k < |ls|
    ensures Contains(BlocosPagina(ls), BlocoPagina(ls[k]))
    decreases |ls|
  {
    var init := ls[..|ls| - 1];
    if k < |init| {
      assert init[k] == ls[k];
      BlocosPaginaContains(init, k);
      ContainsAppendRight(BlocosPagina(init), BlocoPagina(ls[|ls| - 1]), BlocoPagina(ls[k]));
    } else {
      ContainsMiddle(BlocosPagina(init), BlocoPagina(ls[k]), "");
      assert BlocosPagina(init) + BlocoPagina(ls[k]) + "" == BlocosPagina(ls);
    }
  }

  /** Each of the first five kept rows, in document order, has its block in the summary;
      no sorting takes place. */
  lemma TramitacaoWebPrimeiras(api: Api, id: string, k: nat)
    requires api.ficha(id).Got? && k < 5 && k < |LinhasDaFicha(api.ficha(id).dados)|
    ensures Contains(TramitacaoWeb(api, id), BlocoPagina(LinhasDaFicha(api.ficha(id).dados)[k]))
  {
    var f := api.ficha(id).dados;
    var mostradas := Top(LinhasDaFicha(f), 5);
    assert mostradas[k] == LinhasDaFicha(f)[k];
    BlocosPaginaContains(mostradas, k);
    ContainsAppendLeft(CabecalhoPagina(f), BlocosPagina(mostradas), BlocoPagina(mostradas[k]));
  }

  /** A page without a kept row gives the bare header. */
  lemma TramitacaoWebSemLinhas(api: Api, id: string)
    requires api.ficha(id).Got?
    requires var t := api.ficha(id).dados.tabelaPorId;
      t.None? || forall k :: 0 <= k < |SrcConsulta.SemCabecalho(t.value)| ==> |SrcConsulta.SemCabecalho(t.value)[k]| < 3
    ensures TramitacaoWeb(api, id) == CabecalhoPagina(api.ficha(id).dados)
  {
    var f := api.ficha(id).dados;
    if f.tabelaPorId.Some? {
      LinhasPaginaEmpty(SrcConsulta.SemCabecalho(f.tabelaPorId.value));
    }
    assert BlocosPagina([]) == "";
  }

  // ---------------------------------------------------------------------------------
  // consultar_proposicao

  /** The three lines about the first event the API lists, "N/A" throughout without one. */
  function UltimaLinhas(ultima: Option<Tramitacao>): string {
    "- Data: " + (if ultima.Some? then ultima.value.dataHora else "N/A")
    + "\n- Despacho: " + (if ultima.Some? then ultima.value.despacho else "N/A")
    + "\n- Descrição: " + (if ultima.Some? then ultima.value.descricaoTramitacao else "N/A")
  }

  function Fecho(st: Status, documento: string): string {
    "\n        \nRegime de tramitação: " + st.regime + "\nLink para acompanhamento: " + documento
  }

  /** The plain report; missing keys raise in the order the template reads them. */
  function Texto(prop: Proposicao, orgao: Option<Orgao>, ultima: Option<Tramitacao>): Result<string> {
    match prop.statusProposicao
    case None => Err(KeyError("statusProposicao"))
    case Some(st) =>
      match st.siglaOrgao
      case None => Err(KeyError("siglaOrgao"))
      case Some(siglaOrgao) =>
        match prop.urlInteiroTeor
        case None => Err(KeyError("urlInteiroTeor"))
        case Some(documento) =>
          Ok(SrcConsulta.AberturaConsulta(prop, st) + SrcConsulta.OrgaoLinhas(siglaOrgao, orgao)
            + SrcConsulta.SeparadorUltima + UltimaLinhas(ultima) + Fecho(st, documento))
  }

  /** A plain report opens with the heading, summary and status lines. */
  lemma TextoAbre(prop: Proposicao, orgao: Option<Orgao>, ultima: Option<Tramitacao>)
    requires Texto(prop, orgao, ultima).Ok?
    ensures SrcConsulta.AberturaConsulta(prop, prop.statusProposicao.value) <= Texto(prop, orgao, ultima).value
  {
  }

  /** `consultar_proposicao`: every exception, including the unpacking of a malformed
      reference, becomes the error text. */
  function Consulta(api: Api, ref: Referencia): string {
    var resolvido := if ref.Sigla? then ResolverSigla(api, ref.texto) else Ok(Some(ref.id));
    match resolvido
    case Err(m) => SrcConsulta.ErroConsulta(m)
    case Ok(None) => SrcConsulta.NaoEncontrada
    case Ok(Some(id)) =>
      match api.proposicao(id)
      case Fail(m) => SrcConsulta.ErroConsulta(m)
      case Got(prop) =>
        match api.tramitacoes(id)
        case Fail(m) => SrcConsulta.ErroConsulta(m)
        case Got(trams) =>
          match OrgaoAtual(api, prop)
          case Err(m) => SrcConsulta.ErroConsulta(m)
          case Ok(orgao) =>
            match Texto(prop, orgao, if trams == [] then None else Some(trams[0]))
            case Ok(texto) => texto
            case Err(m) => SrcConsulta.ErroConsulta(m)
  }

  /** The report shows the first event in API order, with its raw `dataHora`. */
  lemma ConsultaPrimeiroEvento(prop: Proposicao, orgao: Option<Orgao>, trams: seq<Tramitacao>)
    requires trams != [] && Texto(prop, orgao, Some(trams[0])).Ok?
    ensures Contains(Texto(prop, orgao, Some(trams[0])).value,
      "- Data: " + trams[0].dataHora + "\n- Despacho: " + trams[0].despacho
      + "\n- Descrição: " + trams[0].descricaoTramitacao)
  {
    var st := prop.statusProposicao.value;
    var antes := SrcConsulta.AberturaConsulta(prop, st) + SrcConsulta.OrgaoLinhas(st.siglaOrgao.value, orgao) + SrcConsulta.SeparadorUltima;
    var linhas := UltimaLinhas(Some(trams[0]));
    ContainsMiddle(antes, linhas, Fecho(st, prop.urlInteiroTeor.value));
  }

  /** A proposição without `urlInteiroTeor` never gets its report, only the `KeyError`
      text, once the lookups succeed. */
  lemma ConsultaSemDocumento(api: Api, id: string)
    requires api.proposicao(id).Got? && api.tramitacoes(id).Got?
    requires var prop := api.proposicao(id).dados;
      prop.statusProposicao.Some? && prop.statusProposicao.value.siglaOrgao.Some? && prop.urlInteiroTeor.None?
    requires OrgaoAtual(api, api.proposicao(id).dados).Ok?
    ensures Consulta(api, Id(id)) == "Erro ao consultar proposição: 'urlInteiroTeor'"
  {
  }

  /** A malformed reference is answered with the unpacking error text, without any
      request. */
  lemma ConsultaMalformada(api1: Api, api2: Api, texto: string)
    requires Count(texto, ' ') != 1
    ensures ResolverSigla(api1, texto).Err?
    ensures Consulta(api1, Sigla(texto)) == Consulta(api2, Sigla(texto))
    ensures Consulta(api1, Sigla(texto)) == SrcConsulta.ErroConsulta(ResolverSigla(api1, texto).msg)
  {
    ResolverSiglaMalformed(api1, texto);
    SplitUnpacksIffOneSeparator(texto, ' ');
  }

  // ---------------------------------------------------------------------------------
  // consultar_proposicao_completa

  /** `consultar_proposicao_completa`: the plain report, then, for a reference that
      resolves to an id, a blank line and that id's page summary. Resolving the reference a
      second time is outside any handler, so its exceptions reach the caller. */
  function Completa(api: Api, ref: Referencia): Result<string> {
    var textoApi := Consulta(api, ref);
    if ref.Id? then Ok(textoApi)
    else
      match ResolverSigla(api, ref.texto)
      case Err(m) => Err(m)
      case Ok(None) => Ok(textoApi)
      case Ok(Some(id)) => Ok(textoApi + "\n\n" + TramitacaoWeb(api, id))
  }

  /** The result always opens with the plain report; the page summary is added exactly
      when the reference resolves to an id; and the reference raises exactly when its
      resolution does. */
  lemma CompletaComecaPelaConsulta(api: Api, ref: Referencia)
    ensures Completa(api, ref).Err? <==> ref.Sigla? && ResolverSigla(api, ref.texto).Err?
    ensures Completa(api, ref).Ok? ==> Consulta(api, ref) <= Completa(api, ref).value
    ensures Completa(api, ref).Ok? && Completa(api, ref).value != Consulta(api, ref) ==>
      ref.Sigla? && ResolverSigla(api, ref.texto).Ok? && ResolverSigla(api, ref.texto).value.Some?
  {
  }

  /** A malformed reference text raises here, even though the plain report alone would have
      turned the same error into text. */
  lemma CompletaMalformada(api: Api, texto: string)
    requires Count(texto, ' ') != 1
    ensures Completa(api, Sigla(texto)).Err?
    ensures Consulta(api, Sigla(texto)) == SrcConsulta.ErroConsulta(Completa(api, Sigla(texto)).msg)
  {
    ResolverSiglaMalformed(api, texto);
  }

  /** For a resolved reference the page summary follows the report after a blank line. */
  lemma CompletaComPagina(api: Api, siglaTipo: string, numero: string, ano: string)
    requires ' ' !in siglaTipo && ' ' !in numero && ' ' !in ano && '/' !in numero && '/' !in ano
    requires api.proposicoes(siglaTipo, numero, ano).Got? && api.proposicoes(siglaTipo, numero, ano).dados != []
    ensures var ref := Sigla(siglaTipo + " " + numero + "/" + ano);
      Completa(api, ref) == Ok(Consulta(api, ref) + "\n\n" + TramitacaoWeb(api, api.proposicoes(siglaTipo, numero, ano).dados[0].id))
  {
    ResolverSiglaLookup(api, siglaTipo, numero, ano);
  }
}
