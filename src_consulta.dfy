/** The lookup layer of `src/teste_consulta.py`: search by "NUM/ANO" over the ten type
    codes or by "SIGLA NUM/ANO", the detailed report with authors and the latest event,
    the timeline scraped from the tracking page, and the plain report by reference. */
module SrcConsulta {
  import opened Wrappers
  import opened Text
  import opened Sorting
  import opened Dates
  import opened Camara

  // ---------------------------------------------------------------------------------
  // buscar_proposicoes

  /** `re.match(r'^\d+/\d+$', termo)`. */
  predicate NumeroAno(t: string) {
    var p := Split(t, '/');
    |p| == 2 && IsDigits(p[0]) && IsDigits(p[1])
  }

  /** The predicate is exactly the pattern: digits, one slash, digits. */
  lemma NumeroAnoIsPattern(t: string)
    ensures NumeroAno(t) <==> exists a, b :: IsDigits(a) && IsDigits(b) && t == a + "/" + b
  {
    if NumeroAno(t) {
      var p := Split(t, '/');
      JoinSplit(t, '/');
      assert p[1..] == [p[1]];
      assert t == p[0] + "/" + p[1];
    }
    if exists a, b :: IsDigits(a) && IsDigits(b) && t == a + "/" + b {
      var a, b :| IsDigits(a) && IsDigits(b) && t == a + "/" + b;
      NoSeparatorInDigits(a, '/');
      NoSeparatorInDigits(b, '/');
      SplitTwo(a, b, '/');
    }
  }

  /** A listing entry as a search hit: its own type, number and year, its id, and the
      tracking page of that id. */
  function Acerto(d: Resumo): Resultado {
    Resultado(Identificacao(d.siglaTipo, d.numero, d.ano), d.id, FichaLink(d.id))
  }

  /** What one type contributes when its lookup succeeds: the first entry only. */
  function AcertoDoTipo(api: Api, tipo: string, numero: string, ano: string): (r: seq<Resultado>)
    ensures |r| <= 1
  {
    match api.proposicoes(tipo, numero, ano)
    case Fail(_) => []
    case Got(dados) => if dados == [] then [] else [Acerto(dados[0])]
  }

  /** The fan-out loop over `tipos`: the first hit of each type in order, or `None` once a
      lookup raises (the exception leaves the loop). */
  function PrimeirosAcertos(api: Api, tipos: seq<string>, numero: string, ano: string): Option<seq<Resultado>>
    decreases |tipos|
  {
    if tipos == [] then Some([])
    else
      match PrimeirosAcertos(api, tipos[..|tipos| - 1], numero, ano)
      case None => None
      case Some(acc) =>
        if api.proposicoes(tipos[|tipos| - 1], numero, ano).Fail? then None
        else Some(acc + AcertoDoTipo(api, tipos[|tipos| - 1], numero, ano))
  }

  /** Reference reading of the fan-out: one entry per type, type by type. */
  function Acertos(api: Api, tipos: seq<string>, numero: string, ano: string): (r: seq<Resultado>)
    ensures |r| <= |tipos|
  {
    if tipos == [] then [] else AcertoDoTipo(api, tipos[0], numero, ano) + Acertos(api, tipos[1..], numero, ano)
  }

  predicate AlgumaFalha(api: Api, tipos: seq<string>, numero: string, ano: string) {
    exists k :: 0 <= k < |tipos| && api.proposicoes(tipos[k], numero, ano).Fail?
  }

  lemma {:induction false} AcertosAppend(api: Api, a: seq<string>, b: seq<string>, numero: string, ano: string)
    ensures Acertos(api, a + b, numero, ano) == Acertos(api, a, numero, ano) + Acertos(api, b, numero, ano)
    decreases |a|
  {
    if a != [] {
      assert (a + b)[0] == a[0] && (a + b)[1..] == a[1..] + b;
      AcertosAppend(api, a[1..], b, numero, ano);
    } else {
      assert a + b == b;
    }
  }

  /** The fan-out aborts exactly when some type's lookup raises; otherwise it yields, in
      type order, the first entry of every non-empty listing. */
  lemma {:induction false} PrimeirosAcertosReference(api: Api, tipos: seq<string>, numero: string, ano: string)
    ensures PrimeirosAcertos(api, tipos, numero, ano) ==
      if AlgumaFalha(api, tipos, numero, ano) then None else Some(Acertos(api, tipos, numero, ano))
    decreases |tipos|
  {
    if tipos != [] {
      var init, last := tipos[..|tipos| - 1], tipos[|tipos| - 1];
      assert tipos == init + [last];
      PrimeirosAcertosReference(api, init, numero, ano);
      AcertosAppend(api, init, [last], numero, ano);
      assert Acertos(api, [last], numero, ano) == AcertoDoTipo(api, last, numero, ano) by {
        assert [last][1..] == [];
      }
      if AlgumaFalha(api, init, numero, ano) {
        var k :| 0 <= k < |init| && api.proposicoes(init[k], numero, ano).Fail?;
        assert tipos[k] == init[k];
      } else if api.proposicoes(last, numero, ano).Fail? {
        assert tipos[|tipos| - 1] == last;
      } else {
        forall k | 0 <= k < |tipos|
          ensures !api.proposicoes(tipos[k], numero, ano).Fail?
        {
          if k < |init| {
            assert tipos[k] == init[k];
          }
        }
      }
    }
  }

  /** "SIGLA NUM/ANO": both splits must unpack into two names (otherwise the exception is
      caught and nothing is found), then the first entry for the upper-cased type. */
  function BuscaTipada(api: Api, t: string): (r: seq<Resultado>)
    ensures |r| <= 1
  {
    match Unpack2(Split(t, ' '))
    case Err(_) => []
    case Ok((sigla, numeroAno)) =>
      match Unpack2(Split(numeroAno, '/'))
      case Err(_) => []
      case Ok((numero, ano)) => AcertoDoTipo(api, Upper(sigla), numero, ano)
  }

  /** `buscar_proposicoes`, every exception turned into `[]`. */
  function Buscar(api: Api, termo: string): seq<Resultado> {
    var t := Strip(termo);
    if NumeroAno(t) then
      var p := Split(t, '/');
      PrimeirosAcertos(api, TiposProposicoes, p[0], p[1]).GetOr([])
    else if ' ' in t then BuscaTipada(api, t)
    else []
  }

  /** The loop over the ten codes: a raising lookup leaves it with `[]`. */
  method BuscarEmTodosOsTipos(api: Api, numero: string, ano: string) returns (resultados: seq<Resultado>)
    ensures resultados == PrimeirosAcertos(api, TiposProposicoes, numero, ano).GetOr([])
  {
    resultados := [];
    var i := 0;
    while i < |TiposProposicoes|
      invariant 0 <= i <= |TiposProposicoes|
      invariant PrimeirosAcertos(api, TiposProposicoes[..i], numero, ano) == Some(resultados)
    {
      var tipo := TiposProposicoes[i];
      assert TiposProposicoes[..i + 1][..i] == TiposProposicoes[..i];
      var resposta := api.proposicoes(tipo, numero, ano);
      if resposta.Fail? {
        PrimeirosAcertosReference(api, TiposProposicoes, numero, ano);
        assert AlgumaFalha(api, TiposProposicoes, numero, ano);
        return [];
      }
      var dados := resposta.dados;
      assert TiposProposicoes[..i + 1][i] == tipo;
      assert PrimeirosAcertos(api, TiposProposicoes[..i + 1], numero, ano) ==
        Some(resultados + AcertoDoTipo(api, tipo, numero, ano));
      assert AcertoDoTipo(api, tipo, numero, ano) == if dados == [] then [] else [Acerto(dados[0])];
      if dados != [] {
        resultados := resultados + [Acerto(dados[0])];
      } else {
        assert resultados + [] == resultados;
      }
      i := i + 1;
    }
    assert TiposProposicoes[..i] == TiposProposicoes;
  }

  method BuscarProposicoes(api: Api, termo: string) returns (resultados: seq<Resultado>)
    ensures resultados == Buscar(api, termo)
  {
    var t := Strip(termo);
    if NumeroAno(t) {
      var partes := Split(t, '/');
      resultados := BuscarEmTodosOsTipos(api, partes[0], partes[1]);
    } else if ' ' in t {
      resultados := BuscaTipada(api, t);
    } else {
      resultados := [];
    }
  }

  /** A stripped "NUM/ANO" term fans out over the ten codes: nothing at all if any lookup
      raises, otherwise the first entry of each non-empty listing in code order, so at
      most ten hits. */
  lemma BuscarNumeroAno(api: Api, termo: string)
    requires NumeroAno(Strip(termo))
    ensures var p := Split(Strip(termo), '/');
      Buscar(api, termo) ==
        if AlgumaFalha(api, TiposProposicoes, p[0], p[1]) then []
        else Acertos(api, TiposProposicoes, p[0], p[1])
    ensures |Buscar(api, termo)| <= 10
  {
    var p := Split(Strip(termo), '/');
    var primeiros := PrimeirosAcertos(api, TiposProposicoes, p[0], p[1]);
    PrimeirosAcertosReference(api, TiposProposicoes, p[0], p[1]);
    assert Buscar(api, termo) == primeiros.GetOr([]);
    DezTipos();
    assert |Acertos(api, TiposProposicoes, p[0], p[1])| <= 10;
  }

  lemma DezTipos()
    ensures |TiposProposicoes| == 10
  {
  }

  /** A term "SIGLA NUM/ANO" is looked up once, for the upper-cased type code. The parts
      need not be digits: any already stripped term with one space and one '/' after it
      reaches the lookup with its parts as written. */
  lemma BuscarTipada(api: Api, sigla: string, numero: string, ano: string)
    requires ' ' !in sigla && sigla != [] && !IsSpace(sigla[0])
    requires ' ' !in numero && ' ' !in ano && '/' !in numero && '/' !in ano
    requires ano == [] || !IsSpace(ano[|ano| - 1])
    ensures Buscar(api, sigla + " " + numero + "/" + ano) == AcertoDoTipo(api, Upper(sigla), numero, ano)
  {
    TermoTipado(sigla, numero, ano);
    BuscaTipadaDe(api, sigla, numero, ano);
  }

  /** Such a term is already stripped, is not "NUM/ANO", and holds a space. */
  lemma TermoTipado(sigla: string, numero: string, ano: string)
    requires sigla != [] && !IsSpace(sigla[0])
    requires ano == [] || !IsSpace(ano[|ano| - 1])
    ensures var t := sigla + " " + numero + "/" + ano;
      Strip(t) == t && !NumeroAno(t) && ' ' in t
  {
    var t := sigla + " " + numero + "/" + ano;
    assert !IsSpace(t[0]) && !IsSpace(t[|t| - 1]) by {
      assert t[|t| - 1] == if ano == [] then '/' else ano[|ano| - 1];
    }
    StripUnchanged(t);
    assert ' ' in t by { assert t[|sigla|] == ' '; }
    NumeroAnoHasNoSpace(t);
  }

  /** The two splits of such a term give the type code, the number and the year. */
  lemma BuscaTipadaDe(api: Api, sigla: string, numero: string, ano: string)
    requires ' ' !in sigla && ' ' !in numero && ' ' !in ano && '/' !in numero && '/' !in ano
    ensures BuscaTipada(api, sigla + " " + numero + "/" + ano) == AcertoDoTipo(api, Upper(sigla), numero, ano)
  {
    var t := sigla + " " + numero + "/" + ano;
    var numeroAno := numero + "/" + ano;
    assert ' ' !in numeroAno;
    assert t == sigla + [' '] + numeroAno;
    SplitTwo(sigla, numeroAno, ' ');
    SplitTwo(numero, ano, '/');
  }

  lemma NumeroAnoHasNoSpace(t: string)
    ensures NumeroAno(t) ==> ' ' !in t
  {
    if NumeroAno(t) {
      var p := Split(t, '/');
      JoinSplit(t, '/');
      assert p[1..] == [p[1]];
      assert t == p[0] + "/" + p[1];
      NoSeparatorInDigits(p[0], ' ');
      NoSeparatorInDigits(p[1], ' ');
    }
  }

  /** A term that is neither "NUM/ANO" nor contains a space finds nothing. */
  lemma BuscarOutraForma(api: Api, termo: string)
    requires !NumeroAno(Strip(termo)) && ' ' !in Strip(termo)
    ensures Buscar(api, termo) == []
  {
  }

  /** A typed term whose split does not give two names finds nothing. */
  lemma BuscarTipadaMalformada(api: Api, termo: string)
    requires !NumeroAno(Strip(termo)) && Count(Strip(termo), ' ') != 1
    ensures Buscar(api, termo) == []
  {
    SplitUnpacksIffOneSeparator(Strip(termo), ' ');
  }

  /** Every hit links to the tracking page of its own id. */
  lemma BuscarLinks(api: Api, termo: string)
    ensures forall r :: r in Buscar(api, termo) ==> r.link == FichaPrefixo + r.id
  {
    var t := Strip(termo);
    if NumeroAno(t) {
      var p := Split(t, '/');
      PrimeirosLinks(api, p[0], p[1]);
    } else if ' ' in t {
      BuscaTipadaLinks(api, t);
    }
  }

  lemma PrimeirosLinks(api: Api, numero: string, ano: string)
    ensures var r := PrimeirosAcertos(api, TiposProposicoes, numero, ano);
      r.Some? ==> forall h :: h in r.value ==> h.link == FichaPrefixo + h.id
  {
    PrimeirosAcertosReference(api, TiposProposicoes, numero, ano);
    AcertosLinks(api, TiposProposicoes, numero, ano);
  }

  lemma BuscaTipadaLinks(api: Api, t: string)
    ensures forall r :: r in BuscaTipada(api, t) ==> r.link == FichaPrefixo + r.id
  {
    match Unpack2(Split(t, ' '))
    case Err(_) =>
    case Ok((sigla, numeroAno)) =>
      match Unpack2(Split(numeroAno, '/'))
      case Err(_) =>
      case Ok((numero, ano)) => AcertoDoTipoLinks(api, Upper(sigla), numero, ano);
  }

  lemma AcertoDoTipoLinks(api: Api, tipo: string, numero: string, ano: string)
    ensures forall r :: r in AcertoDoTipo(api, tipo, numero, ano) ==> r.link == FichaPrefixo + r.id
  {
  }

  lemma {:induction false} AcertosLinks(api: Api, tipos: seq<string>, numero: string, ano: string)
    ensures forall r :: r in Acertos(api, tipos, numero, ano) ==> r.link == FichaPrefixo + r.id
    decreases |tipos|
  {
    if tipos != [] {
      AcertoDoTipoLinks(api, tipos[0], numero, ano);
      AcertosLinks(api, tipos[1..], numero, ano);
    }
  }

  /** The search reads nothing but the listing endpoint. */
  lemma BuscarMesmaListagem(api1: Api, api2: Api, termo: string)
    requires api1.proposicoes == api2.proposicoes
    ensures Buscar(api1, termo) == Buscar(api2, termo)
  {
    var t := Strip(termo);
    if NumeroAno(t) {
      var p := Split(t, '/');
      PrimeirosMesmaListagem(api1, api2, p[0], p[1]);
    } else if ' ' in t {
      BuscaTipadaMesmaListagem(api1, api2, t);
    }
  }

  lemma PrimeirosMesmaListagem(api1: Api, api2: Api, numero: string, ano: string)
    requires api1.proposicoes == api2.proposicoes
    ensures PrimeirosAcertos(api1, TiposProposicoes, numero, ano) == PrimeirosAcertos(api2, TiposProposicoes, numero, ano)
  {
    PrimeirosAcertosReference(api1, TiposProposicoes, numero, ano);
    PrimeirosAcertosReference(api2, TiposProposicoes, numero, ano);
    AcertosMesmaListagem(api1, api2, TiposProposicoes, numero, ano);
  }

  lemma BuscaTipadaMesmaListagem(api1: Api, api2: Api, t: string)
    requires api1.proposicoes == api2.proposicoes
    ensures BuscaTipada(api1, t) == BuscaTipada(api2, t)
  {
  }

  lemma {:induction false} AcertosMesmaListagem(api1: Api, api2: Api, tipos: seq<string>, numero: string, ano: string)
    requires api1.proposicoes == api2.proposicoes
    ensures Acertos(api1, tipos, numero, ano) == Acertos(api2, tipos, numero, ano)
    decreases |tipos|
  {
    if tipos != [] {
      AcertosMesmaListagem(api1, api2, tipos[1..], numero, ano);
    }
  }

  // ---------------------------------------------------------------------------------
  // consultar_proposicao_completa

  /** `formatar_erro_busca()`: the help text shown when nothing is found. */
  const ErroBusca: string := AjudaTitulo + "\n\n" + AjudaInstrucao + "\n\n" + AjudaExemplos + "\n\n" + AjudaTipos

  // The four paragraphs of the help text.
  const AjudaTitulo: string := "\n[TITULO]Como pesquisar proposições[/TITULO]"
  const AjudaInstrucao: string := "[INFO]\nDigite o tipo e número da proposição ou apenas o número para ver todas as opções."
  const AjudaExemplos: string := "Exemplos de busca:\n• PL 2306/2020 (Projeto de Lei)\n• PEC 45/2019 (Proposta de Emenda à Constituição)\n• REQ 123/2024 (Requerimento)\n• MPV 1172/2023 (Medida Provisória)\n• 2306/2020 (busca em todos os tipos)"
  const AjudaTipos: string := "Tipos disponíveis:\n• PL  - Projeto de Lei\n• PLP - Projeto de Lei Complementar\n• PEC - Proposta de Emenda à Constituição\n• MPV - Medida Provisória\n• PDL - Projeto de Decreto Legislativo\n• PRC - Projeto de Resolução\n• REQ - Requerimento\n• INC - Indicação\n• RIC - Requerimento de Informação\n[/INFO]\n"

  /** One "• titulo" line per hit. */
  function Marcadores(res: seq<Resultado>): string {
    if res == [] then "" else "• " + res[0].titulo + "\n" + Marcadores(res[1..])
  }

  lemma {:induction false} MarcadoresAppend(a: seq<Resultado>, b: seq<Resultado>)
    ensures Marcadores(a + b) == Marcadores(a) + Marcadores(b)
    decreases |a|
  {
    if a != [] {
      assert (a + b)[0] == a[0] && (a + b)[1..] == a[1..] + b;
      MarcadoresAppend(a[1..], b);
    } else {
      assert a + b == b;
    }
  }

  const CabecalhoMultiplos: string :=
    "[TITULO]Proposições encontradas[/TITULO]\nEncontramos várias proposições com este número:\n\n"
  const RodapeMultiplos: string := "\nPor favor, especifique o tipo (ex: PL, PEC, etc)"

  /** The answer when the search returns several hits. */
  function ListaMultipla(res: seq<Resultado>): string {
    CabecalhoMultiplos + Marcadores(res) + RodapeMultiplos
  }

  method FormatarMultiplos(res: seq<Resultado>) returns (resposta: string)
    ensures resposta == ListaMultipla(res)
  {
    resposta := CabecalhoMultiplos;
    var i := 0;
    while i < |res|
      invariant 0 <= i <= |res|
      invariant resposta == CabecalhoMultiplos + Marcadores(res[..i])
    {
      var linha := "• " + res[i].titulo + "\n";
      MarcadoresSnoc(res, i);
      ConcatAssoc(CabecalhoMultiplos, Marcadores(res[..i]), linha);
      resposta := resposta + linha;
      i := i + 1;
    }
    assert res[..i] == res;
    resposta := resposta + RodapeMultiplos;
  }

  /** One more hit adds its bullet line at the end. */
  lemma MarcadoresSnoc(res: seq<Resultado>, i: nat)
    requires i < |res|
    ensures Marcadores(res[..i + 1]) == Marcadores(res[..i]) + ("• " + res[i].titulo + "\n")
  {
    MarcadoresAppend(res[..i], [res[i]]);
    assert res[..i + 1] == res[..i] + [res[i]];
    assert Marcadores([res[i]]) == "• " + res[i].titulo + "\n" by {
      assert [res[i]][1..] == [];
    }
  }

  /** The several-hits answer names every hit on a line of its own. */
  lemma ListaMultiplaNamesEvery(res: seq<Resultado>, k: nat)
    requires k < |res|
    ensures Contains(ListaMultipla(res), "• " + res[k].titulo + "\n")
  {
    var linha := "• " + res[k].titulo + "\n";
    MarcadoresAppend(res[..k], res[k..]);
    assert res == res[..k] + res[k..];
    assert Marcadores(res[k..]) == linha + Marcadores(res[k + 1..]) by {
      assert res[k..][1..] == res[k + 1..];
    }
    assert Contains(linha + Marcadores(res[k + 1..]), linha);
    ContainsAppendLeft(Marcadores(res[..k]), Marcadores(res[k..]), linha);
    ContainsAppendLeft(CabecalhoMultiplos, Marcadores(res), linha);
    ContainsAppendRight(CabecalhoMultiplos + Marcadores(res), RodapeMultiplos, linha);
  }

  /** Party and state of a deputy: "P/UF" only for a 200 reply naming both. */
  function PartidoUf(dep: Deputado): string {
    if dep.statusCode == 200 && dep.siglaPartido != "" && dep.siglaUf != "" then
      dep.siglaPartido + "/" + dep.siglaUf
    else "N/A"
  }

  /** "nome (P/UF)" for one author; the deputy is looked up by the last '/'-segment of a
      non-empty `uri`, and a raising lookup raises. */
  function EntradaAutor(api: Api, autor: Autor): Result<string> {
    var nome := autor.nome.GetOr("N/A");
    if autor.uri.Some? && autor.uri.value != "" then
      match api.deputado(LastSegment(autor.uri.value, '/'))
      case Fail(m) => Err(m)
      case Got(dep) => Ok(nome + " (" + PartidoUf(dep) + ")")
    else Ok(nome + " (N/A)")
  }

  /** The entries of the given authors, in order, or the first exception. */
  function Entradas(api: Api, autores: seq<Autor>): Result<seq<string>>
    decreases |autores|
  {
    if autores == [] then Ok([])
    else
      match Entradas(api, autores[..|autores| - 1])
      case Err(m) => Err(m)
      case Ok(es) =>
        match EntradaAutor(api, autores[|autores| - 1])
        case Err(m) => Err(m)
        case Ok(e) => Ok(es + [e])
  }

  /** `autores_info`: entries for the first two authors, then "e outros" if there are more. */
  function AutoresInfo(api: Api, autores: seq<Autor>): Result<seq<string>> {
    var primeiros := if |autores| <= 2 then autores else autores[..2];
    match Entradas(api, primeiros)
    case Err(m) => Err(m)
    case Ok(es) => Ok(if |autores| > 2 then es + ["e outros"] else es)
  }

  method ProcessarAutores(api: Api, autores: seq<Autor>) returns (r: Result<seq<string>>)
    ensures r == AutoresInfo(api, autores)
  {
    var autoresInfo: seq<string> := [];
    var i := 0;
    while i < |autores|
      invariant 0 <= i <= |autores| && i <= 2
      invariant Entradas(api, autores[..i]) == Ok(autoresInfo)
    {
      if i >= 2 {
        autoresInfo := autoresInfo + ["e outros"];
        assert autores[..2] == autores[..i];
        return Ok(autoresInfo);
      }
      assert autores[..i + 1][..i] == autores[..i];
      var autor := autores[i];
      var nomeAutor := autor.nome.GetOr("N/A");
      var partidoUf := "N/A";
      if autor.uri.Some? && autor.uri.value != "" {
        var idDeputado := LastSegment(autor.uri.value, '/');
        var resposta := api.deputado(idDeputado);
        if resposta.Fail? {
          assert Entradas(api, autores[..i + 1]) == Err(resposta.msg);
          if i + 1 < |autores| && i + 1 < 2 {
            assert autores[..2][..1] == autores[..i + 1];
          }
          assert (if |autores| <= 2 then autores else autores[..2]) ==
            (if i + 1 == |autores| then autores[..i + 1] else autores[..2]);
          return Err(resposta.msg);
        }
        var deputado := resposta.dados;
        if deputado.statusCode == 200 {
          var partido, uf := deputado.siglaPartido, deputado.siglaUf;
          if partido != "" && uf != "" {
            partidoUf := partido + "/" + uf;
          }
        }
        assert partidoUf == PartidoUf(deputado);
      }
      assert autores[..i + 1][i] == autor;
      assert nomeAutor + " (" + "N/A" + ")" == nomeAutor + " (N/A)";
      assert EntradaAutor(api, autor) == Ok(nomeAutor + " (" + partidoUf + ")");
      autoresInfo := autoresInfo + [nomeAutor + " (" + partidoUf + ")"];
      i := i + 1;
    }
    assert autores[..i] == autores;
    return Ok(autoresInfo);
  }

  /** At most two authors are looked up: the entries are those of the first two authors,
      in order, and "e outros" follows exactly when there is a third. */
  lemma AutoresInfoShape(api: Api, autores: seq<Autor>)
    requires AutoresInfo(api, autores).Ok?
    ensures var info := AutoresInfo(api, autores).value;
      && |info| == (if |autores| > 2 then 3 else |autores|)
      && (forall k :: 0 <= k < |info| && k < 2 && k < |autores| ==> EntradaAutor(api, autores[k]) == Ok(info[k]))
      && (|autores| > 2 ==> info[2] == "e outros")
  {
    var primeiros := if |autores| <= 2 then autores else autores[..2];
    EntradasShape(api, primeiros);
  }

  lemma {:induction false} EntradasShape(api: Api, autores: seq<Autor>)
    requires Entradas(api, autores).Ok?
    ensures |Entradas(api, autores).value| == |autores|
    ensures forall k :: 0 <= k < |autores| ==> EntradaAutor(api, autores[k]) == Ok(Entradas(api, autores).value[k])
    decreases |autores|
  {
    if autores != [] {
      var init := autores[..|autores| - 1];
      EntradasShape(api, init);
      forall k | 0 <= k < |init|
        ensures autores[k] == init[k]
      {
      }
    }
  }

  /** Only the deputies of the first two authors are looked up: two oracles that agree on
      them give the same entries, whatever they answer for anyone else. */
  lemma AutoresInfoOnlyFirstTwo(api1: Api, api2: Api, autores: seq<Autor>)
    requires forall k :: 0 <= k < |autores| && k < 2 && autores[k].uri.Some? ==>
      api1.deputado(LastSegment(autores[k].uri.value, '/')) == api2.deputado(LastSegment(autores[k].uri.value, '/'))
    ensures AutoresInfo(api1, autores) == AutoresInfo(api2, autores)
  {
    var primeiros := if |autores| <= 2 then autores else autores[..2];
    EntradasSameLookups(api1, api2, primeiros);
  }

  lemma {:induction false} EntradasSameLookups(api1: Api, api2: Api, autores: seq<Autor>)
    requires forall k :: 0 <= k < |autores| && autores[k].uri.Some? ==>
      api1.deputado(LastSegment(autores[k].uri.value, '/')) == api2.deputado(LastSegment(autores[k].uri.value, '/'))
    ensures Entradas(api1, autores) == Entradas(api2, autores)
    decreases |autores|
  {
    if autores != [] {
      var init := autores[..|autores| - 1];
      forall k | 0 <= k < |init| && init[k].uri.Some?
        ensures api1.deputado(LastSegment(init[k].uri.value, '/')) == api2.deputado(LastSegment(init[k].uri.value, '/'))
      {
        assert init[k] == autores[k];
      }
      EntradasSameLookups(api1, api2, init);
    }
  }

  /** The author label suffix: "es" for more than one entry, otherwise decided by the
      first author's name, which raises `IndexError` when there is no author at all. */
  function RotuloAutor(info: seq<string>, autores: seq<Autor>): Result<string> {
    if |info| > 1 then Ok("es")
    else if autores == [] then Err(IndexErrorMsg)
    else Ok(if Contains(autores[0].nome.GetOr(""), "Deputada") then "a" else "")
  }

  /** The latest event's `dataHora` read as `%Y-%m-%dT%H:%M` and shown as
      `%d/%m/%Y às %H:%M`, "N/A" without events; an unreadable date raises. */
  function DataHoraTexto(ultima: Option<Tramitacao>): Result<string> {
    match ultima
    case None => Ok("N/A")
    case Some(t) =>
      match ParseDateHourMinute(t.dataHora)
      case None => Err(TimeDataError(t.dataHora, "%Y-%m-%dT%H:%M"))
      case Some(d) => Ok(DateTimeText(d))
  }

  /** The detailed report, its parts evaluated in the order the source's template does. */
  function TextoCompleta(prop: Proposicao, orgao: Option<Orgao>, ultima: Option<Tramitacao>,
                         autores: seq<Autor>, info: seq<string>, link: string): Result<string>
  {
    match RotuloAutor(info, autores)
    case Err(m) => Err(m)
    case Ok(rotulo) =>
      match prop.statusProposicao
      case None => Err(KeyError("statusProposicao"))
      case Some(st) =>
        match st.siglaOrgao
        case None => Err(KeyError("siglaOrgao"))
        case Some(siglaOrgao) =>
          match DataHoraTexto(ultima)
          case Err(m) => Err(m)
          case Ok(data) =>
            Ok("\n[TITULO]" + Identificacao(prop.siglaTipo, prop.numero, prop.ano) + "[/TITULO]\n"
              + prop.ementa + "\n\n[SUBTITULO]Informações[/SUBTITULO]\n"
              + "• Autor" + rotulo + ": " + JoinWith(info, ", ") + "\n"
              + "• Status: " + st.descricaoSituacao + "\n"
              + "• Órgão: " + siglaOrgao + " - " + (if orgao.Some? then orgao.value.nome else "N/A") + "\n"
              + "• Regime: " + st.regime + "\n\n"
              + "[SUBTITULO]Última atualização[/SUBTITULO]\n"
              + data + "\n"
              + (if ultima.Some? then ultima.value.despacho else "N/A") + "\n\n"
              + "[SUBTITULO]Links[/SUBTITULO]\n"
              + "Página da proposição: <a href=\"" + link + "\" target=\"_blank\">" + link + "</a>\n"
              + "Texto completo: <a href=\"" + prop.urlInteiroTeor.GetOr("#") + "\" target=\"_blank\">"
              + prop.urlInteiroTeor.GetOr("N/A") + "</a>\n")
  }

  /** Events are compared by their `dataHora` text. */
  function DataHoraKey(t: Tramitacao): seq<int> {
    CodePoints(t.dataHora)
  }

  /** The head of the events sorted newest first by `dataHora`. */
  function UltimaPorDataHora(trams: seq<Tramitacao>): (r: Option<Tramitacao>)
    ensures r.None? <==> trams == []
  {
    var ordenadas := SortDesc(trams, DataHoraKey);
    if ordenadas == [] then None else Some(ordenadas[0])
  }

  /** The event shown as the latest is the first event, in API order, whose `dataHora`
      is the greatest. */
  lemma UltimaPorDataHoraIsLatest(trams: seq<Tramitacao>) returns (i: nat)
    requires trams != []
    ensures i < |trams| && UltimaPorDataHora(trams) == Some(trams[i])
    ensures forall j :: 0 <= j < |trams| ==> KeyLe(DataHoraKey(trams[j]), DataHoraKey(trams[i]))
    ensures forall j :: 0 <= j < i ==> trams[j].dataHora != trams[i].dataHora
  {
    i := HeadIsFirstMaximal(trams, DataHoraKey);
    forall j | 0 <= j < i
      ensures trams[j].dataHora != trams[i].dataHora
    {
      assert DataHoraKey(trams[j]) != DataHoraKey(trams[i]);
    }
  }

  /** The report for a single hit: proposição, committee, events, authors, in that order. */
  function Detalhe(api: Api, hit: Resultado): Result<string> {
    match api.proposicao(hit.id)
    case Fail(m) => Err(m)
    case Got(prop) =>
      match OrgaoAtual(api, prop)
      case Err(m) => Err(m)
      case Ok(orgao) =>
        match api.tramitacoes(hit.id)
        case Fail(m) => Err(m)
        case Got(trams) =>
          match api.autores(hit.id)
          case Fail(m) => Err(m)
          case Got(autores) =>
            match AutoresInfo(api, autores)
            case Err(m) => Err(m)
            case Ok(info) => TextoCompleta(prop, orgao, UltimaPorDataHora(trams), autores, info, hit.link)
  }

  function ErroConsulta(msg: string): string {
    "Erro ao consultar proposição: " + msg
  }

  /** A report as shown: its text, or the error text of the exception it raised. */
  function Exibida(r: Result<string>): string {
    match r
    case Ok(texto) => texto
    case Err(m) => ErroConsulta(m)
  }

  /** `consultar_proposicao_completa`: help text for no hit, the list for several, the
      report for exactly one, and the error text for an exception. */
  function Completa(api: Api, pl: string): string {
    var res := Buscar(api, pl);
    if res == [] then ErroBusca
    else if |res| > 1 then ListaMultipla(res)
    else Exibida(Detalhe(api, res[0]))
  }

  /** The single-hit part of `consultar_proposicao_completa`, up to the exception. */
  method ConsultarDetalhe(api: Api, hit: Resultado) returns (r: Result<string>)
    ensures r == Detalhe(api, hit)
  {
    var idProp := hit.id;
    var rProp := api.proposicao(idProp);
    if rProp.Fail? {
      return Err(rProp.msg);
    }
    var prop := rProp.dados;
    var orgaoAtual := OrgaoAtual(api, prop);
    if orgaoAtual.Err? {
      return Err(orgaoAtual.msg);
    }
    var rTrams := api.tramitacoes(idProp);
    if rTrams.Fail? {
      return Err(rTrams.msg);
    }
    var trams := SortDescending(rTrams.dados, DataHoraKey);
    var ultima: Option<Tramitacao> := if trams != [] then Some(trams[0]) else None;
    assert ultima == UltimaPorDataHora(rTrams.dados);
    var rAutores := api.autores(idProp);
    if rAutores.Fail? {
      return Err(rAutores.msg);
    }
    var autoresInfo := ProcessarAutores(api, rAutores.dados);
    if autoresInfo.Err? {
      return Err(autoresInfo.msg);
    }
    r := TextoCompleta(prop, orgaoAtual.value, ultima, rAutores.dados, autoresInfo.value, hit.link);
  }

  method ConsultarProposicaoCompleta(api: Api, pl: string) returns (resposta: string)
    ensures resposta == Completa(api, pl)
  {
    var resultados := BuscarProposicoes(api, pl);
    if resultados == [] {
      return ErroBusca;
    }
    if |resultados| > 1 {
      resposta := FormatarMultiplos(resultados);
      return;
    }
    var detalhe := ConsultarDetalhe(api, resultados[0]);
    resposta := Exibida(detalhe);
  }

  /** No hit gives the help text; several hits give the list and fetch no detail: the answer
      is the same for any oracle with the same listing endpoint. */
  lemma CompletaSemDetalhe(api1: Api, api2: Api, pl: string)
    requires api1.proposicoes == api2.proposicoes
    requires |Buscar(api1, pl)| != 1
    ensures Completa(api1, pl) == Completa(api2, pl)
    ensures Completa(api1, pl) == if Buscar(api1, pl) == [] then ErroBusca else ListaMultipla(Buscar(api1, pl))
  {
    BuscarMesmaListagem(api1, api2, pl);
  }

  /** A proposição with no author never gets its report: once the lookups succeed, the
      author label raises `IndexError`. */
  lemma CompletaSemAutores(api: Api, hit: Resultado)
    requires api.proposicao(hit.id).Got? && OrgaoAtual(api, api.proposicao(hit.id).dados).Ok?
    requires api.tramitacoes(hit.id).Got? && api.autores(hit.id) == Got([])
    ensures Detalhe(api, hit) == Err(IndexErrorMsg)
  {
    assert AutoresInfo(api, []) == Ok([]);
  }

  // ---------------------------------------------------------------------------------
  // consultar_tramitacao_web

  /** One kept table row: the stripped date text, the date it denotes (or the sentinel),
      and the stripped committee and dispatch texts. */
  datatype LinhaWeb = LinhaWeb(data: string, dataObj: DateTime, orgao: string, despacho: string)

  /** A row with at least three cells. An unreadable date keeps its text and sorts as the
      sentinel. */
  function LinhaDe(colunas: seq<string>): (l: LinhaWeb)
    requires |colunas| >= 3
    ensures Valid(l.dataObj)
    ensures l.data == Strip(colunas[0])
    ensures ParseDayMonthYear(l.data).None? ==> l.dataObj == MinDateTime
    ensures ParseDayMonthYear(l.data).Some? ==> l.dataObj == ParseDayMonthYear(l.data).value
  {
    var data := Strip(colunas[0]);
    MinIsLeast(MinDateTime);
    LinhaWeb(data, ParseDayMonthYear(data).GetOr(MinDateTime), Strip(colunas[1]), Strip(colunas[2]))
  }

  /** The rows with at least three cells, in document order. */
  function LinhasWeb(linhas: Tabela): (r: seq<LinhaWeb>)
    ensures |r| <= |linhas|
    decreases |linhas|
  {
    if linhas == [] then []
    else
      var ultima := linhas[|linhas| - 1];
      LinhasWeb(linhas[..|linhas| - 1]) + (if |ultima| >= 3 then [LinhaDe(ultima)] else [])
  }

  /** Every kept row has a valid sort date. */
  lemma {:induction false} LinhasWebValidas(linhas: Tabela)
    ensures forall l :: l in LinhasWeb(linhas) ==> Valid(l.dataObj)
    decreases |linhas|
  {
    if linhas != [] {
      LinhasWebValidas(linhas[..|linhas| - 1]);
    }
  }

  /** The entries of two runs of rows are those of each run, in document order. */
  lemma {:induction false} LinhasWebAppend(a: Tabela, b: Tabela)
    ensures LinhasWeb(a + b) == LinhasWeb(a) + LinhasWeb(b)
    decreases |b|
  {
    if b == [] {
      assert a + b == a;
    } else {
      var ab, init, last := a + b, b[..|b| - 1], b[|b| - 1];
      assert ab[..|ab| - 1] == a + init && ab[|ab| - 1] == last;
      assert ab[..|ab|] == ab && b[..|b|] == b;
      LinhasWebAppend(a, init);
      LinhasWebSnoc(ab, |ab| - 1);
      LinhasWebSnoc(b, |b| - 1);
      SeqAssoc(LinhasWeb(a), LinhasWeb(init), if |last| >= 3 then [LinhaDe(last)] else []);
    }
  }

  /** A row with three cells or more gives its entry; a shorter row gives nothing. */
  lemma LinhasWebUma(linha: seq<string>)
    ensures LinhasWeb([linha]) == if |linha| >= 3 then [LinhaDe(linha)] else []
  {
    assert [linha][..0] == [];
  }

  /** No row is kept exactly when no row has three cells. */
  lemma {:induction false} LinhasWebEmpty(linhas: Tabela)
    ensures LinhasWeb(linhas) == [] <==> forall k :: 0 <= k < |linhas| ==> |linhas[k]| < 3
    decreases |linhas|
  {
    if linhas != [] {
      var init := linhas[..|linhas| - 1];
      LinhasWebEmpty(init);
      if LinhasWeb(linhas) == [] {
        forall k | 0 <= k < |linhas|
          ensures |linhas[k]| < 3
        {
          if k < |init| {
            assert linhas[k] == init[k];
          }
        }
      }
    }
  }

  /** `tr[1:]`: the rows after the header. */
  function SemCabecalho(t: Tabela): Tabela {
    if t == [] then [] else t[1..]
  }

  /** The table by id, or else the first of class `table`. */
  function TabelaTramitacao(f: Ficha): Option<Tabela> {
    if f.tabelaPorId.Some? then f.tabelaPorId else f.tabelaPorClasse
  }

  function LinhasDaFicha(f: Ficha): seq<LinhaWeb> {
    match TabelaTramitacao(f)
    case None => []
    case Some(t) => LinhasWeb(SemCabecalho(t))
  }

  function LinhaKey(l: LinhaWeb): seq<int> {
    Key(l.dataObj)
  }

  /** The lines one row adds; the dispatch line only when the dispatch is not blank. */
  function BlocoLinha(l: LinhaWeb): string {
    "\n\n📅 " + l.data + "\n📍 " + l.orgao + (if Strip(l.despacho) != "" then "\n📝 " + l.despacho else "") + "\n---"
  }

  function Blocos(ls: seq<LinhaWeb>): string
    decreases |ls|
  {
    if ls == [] then "" else Blocos(ls[..|ls| - 1]) + BlocoLinha(ls[|ls| - 1])
  }

  const CabecalhoHistorico: string := "\nHistórico de tramitações:"

  /** The rows shown: newest first, stably, at most five. */
  function Mostradas(linhas: seq<LinhaWeb>): seq<LinhaWeb> {
    Top(SortDesc(linhas, LinhaKey), 5)
  }

  /** `consultar_tramitacao_web`: "" when the page cannot be fetched or has no row to
      show, otherwise the header and the rows shown. */
  function TramitacaoWeb(api: Api, id: string): string {
    match api.ficha(id)
    case Fail(_) => ""
    case Got(f) =>
      var linhas := LinhasDaFicha(f);
      if linhas == [] then "" else CabecalhoHistorico + Blocos(Mostradas(linhas))
  }

  /** The row loop: rows after the header with at least three cells. */
  method ColetarLinhas(tabela: Option<Tabela>) returns (tramitacoes: seq<LinhaWeb>)
    ensures tramitacoes == if tabela.Some? then LinhasWeb(SemCabecalho(tabela.value)) else []
  {
    tramitacoes := [];
    if tabela.Some? {
      var linhas := SemCabecalho(tabela.value);
      var i := 0;
      while i < |linhas|
        invariant 0 <= i <= |linhas|
        invariant tramitacoes == LinhasWeb(linhas[..i])
      {
        LinhasWebSnoc(linhas, i);
        var colunas := linhas[i];
        if |colunas| >= 3 {
          tramitacoes := tramitacoes + [LinhaDe(colunas)];
        } else {
          assert tramitacoes + [] == tramitacoes;
        }
        i := i + 1;
      }
      assert linhas[..i] == linhas;
    }
  }

  /** One more row read adds its entry, if it has one. */
  lemma LinhasWebSnoc(linhas: Tabela, i: nat)
    requires i < |linhas|
    ensures LinhasWeb(linhas[..i + 1]) == LinhasWeb(linhas[..i]) + (if |linhas[i]| >= 3 then [LinhaDe(linhas[i])] else [])
  {
    assert linhas[..i + 1][..i] == linhas[..i];
    assert linhas[..i + 1][i] == linhas[i];
  }

  /** The output loop over the rows shown. */
  method FormatarHistorico(mostradas: seq<LinhaWeb>) returns (resposta: string)
    ensures resposta == CabecalhoHistorico + Blocos(mostradas)
  {
    resposta := CabecalhoHistorico;
    var j := 0;
    while j < |mostradas|
      invariant 0 <= j <= |mostradas|
      invariant resposta == CabecalhoHistorico + Blocos(mostradas[..j])
    {
      var bloco := BlocoLinha(mostradas[j]);
      BlocosSnoc(mostradas, j);
      ConcatAssoc(CabecalhoHistorico, Blocos(mostradas[..j]), bloco);
      resposta := resposta + bloco;
      j := j + 1;
    }
    assert mostradas[..j] == mostradas;
  }

  /** One more row shown adds its block at the end. */
  lemma BlocosSnoc(ls: seq<LinhaWeb>, j: nat)
    requires j < |ls|
    ensures Blocos(ls[..j + 1]) == Blocos(ls[..j]) + BlocoLinha(ls[j])
  {
    assert ls[..j + 1][..j] == ls[..j];
    assert ls[..j + 1][j] == ls[j];
  }

  method ConsultarTramitacaoWeb(api: Api, id: string) returns (resposta: string)
    ensures resposta == TramitacaoWeb(api, id)
  {
    var pagina := api.ficha(id);
    if pagina.Fail? {
      return "";
    }
    var tramitacoes := ColetarLinhas(TabelaTramitacao(pagina.dados));
    tramitacoes := SortDescending(tramitacoes, LinhaKey);
    resposta := "";
    if tramitacoes != [] {
      resposta := FormatarHistorico(Top(tramitacoes, 5));
    }
  }

  /** The timeline is empty exactly when the page fails or has no row of three cells after
      the header. */
  lemma TramitacaoWebEmpty(api: Api, id: string)
    ensures TramitacaoWeb(api, id) == "" <==> api.ficha(id).Fail? || LinhasDaFicha(api.ficha(id).dados) == []
  {
    if api.ficha(id).Got? && LinhasDaFicha(api.ficha(id).dados) != [] {
      assert |TramitacaoWeb(api, id)| >= |CabecalhoHistorico|;
    }
  }

  /** The rows shown are at most five, newest first, drawn from the kept rows, none older
      than a row left out, and rows of equal date keep their document order. */
  lemma MostradasAreNewest(linhas: seq<LinhaWeb>)
    ensures |Mostradas(linhas)| == (if |linhas| <= 5 then |linhas| else 5)
    ensures SortedDesc(Mostradas(linhas), LinhaKey)
    ensures multiset(Mostradas(linhas)) <= multiset(linhas)
    ensures forall i, j :: 0 <= i < |Mostradas(linhas)| <= j < |linhas| ==>
      KeyLe(LinhaKey(SortDesc(linhas, LinhaKey)[j]), LinhaKey(Mostradas(linhas)[i]))
    ensures forall k :: Filter(SortDesc(linhas, LinhaKey), LinhaKey, k) == Filter(linhas, LinhaKey, k)
  {
    var ord := SortDesc(linhas, LinhaKey);
    SortDescSorted(linhas, LinhaKey);
    SortDescPermutation(linhas, LinhaKey);
    var m := Mostradas(linhas);
    assert ord == m + ord[|m|..];
    assert multiset(ord) == multiset(m) + multiset(ord[|m|..]);
    forall i, j | 0 <= i < |m| <= j < |linhas|
      ensures KeyLe(LinhaKey(ord[j]), LinhaKey(m[i]))
    {
      TopKeepsLargest(linhas, LinhaKey, 5, i, j);
    }
    forall k
      ensures Filter(ord, LinhaKey, k) == Filter(linhas, LinhaKey, k)
    {
      SortDescStable(linhas, LinhaKey, k);
    }
  }

  /** Rows carrying the sentinel date come last: after such a row every row carries the
      sentinel too. The sentinel marks an unreadable date, but a readable 01/01/0001 gives
      the same value, and such ties keep their page order. */
  lemma UnreadableDatesLast(linhas: seq<LinhaWeb>, i: nat, j: nat)
    requires forall k :: 0 <= k < |linhas| ==> Valid(linhas[k].dataObj)
    requires i < j < |SortDesc(linhas, LinhaKey)| && SortDesc(linhas, LinhaKey)[i].dataObj == MinDateTime
    ensures SortDesc(linhas, LinhaKey)[j].dataObj == MinDateTime
  {
    var ord := SortDesc(linhas, LinhaKey);
    SortDescSorted(linhas, LinhaKey);
    SortDescPermutation(linhas, LinhaKey);
    assert ord[j] in multiset(linhas);
    var k :| 0 <= k < |linhas| && linhas[k] == ord[j];
    MinIsLeast(ord[j].dataObj);
  }

  /** The sentinel is not only for unreadable dates: a row dated 01/01/0001 is read, and
      gets the same value, so it ties with the unreadable rows. */
  lemma SentinelaLegivel(colunas: seq<string>)
    requires |colunas| >= 3 && Strip(colunas[0]) == DayMonthYearText(MinDateTime)
    ensures ParseDayMonthYear(LinhaDe(colunas).data).Some?
    ensures LinhaDe(colunas).dataObj == MinDateTime
  {
    MinIsLeast(MinDateTime);
    DayMonthYearRoundTrip(MinDateTime);
  }

  // ---------------------------------------------------------------------------------
  // consultar_proposicao

  /** An event with the `data_obj` the loop attaches to it. */
  datatype Evento = Evento(tram: Tramitacao, dataObj: DateTime)

  /** The date part of `dataHora` (before the first 'T') read as `%Y-%m-%d`, or the
      sentinel when it cannot be read. */
  function DataDoEvento(t: Tramitacao): (d: DateTime)
    ensures Valid(d)
    ensures ParseYearMonthDay(Split(t.dataHora, 'T')[0]).None? ==> d == MinDateTime
    ensures ParseYearMonthDay(Split(t.dataHora, 'T')[0]).Some? ==> d == ParseYearMonthDay(Split(t.dataHora, 'T')[0]).value
  {
    MinIsLeast(MinDateTime);
    ParseYearMonthDay(Split(t.dataHora, 'T')[0]).GetOr(MinDateTime)
  }

  function EventoKey(e: Evento): seq<int> {
    Key(e.dataObj)
  }

  function Eventos(trams: seq<Tramitacao>): (r: seq<Evento>)
    ensures |r| == |trams|
    ensures forall k :: 0 <= k < |trams| ==> r[k] == Evento(trams[k], DataDoEvento(trams[k]))
  {
    seq(|trams|, k requires 0 <= k < |trams| => Evento(trams[k], DataDoEvento(trams[k])))
  }

  /** The head of the events sorted newest first by their date. */
  function UltimaPorData(trams: seq<Tramitacao>): (r: Option<Tramitacao>)
    ensures r.None? <==> trams == []
  {
    var ordenados := SortDesc(Eventos(trams), EventoKey);
    if ordenados == [] then None else Some(ordenados[0].tram)
  }

  /** The event shown as the latest is the first, in API order, of those with the latest
      date; events with an unreadable date count as the earliest. */
  lemma UltimaPorDataIsLatest(trams: seq<Tramitacao>) returns (i: nat)
    requires trams != []
    ensures i < |trams| && UltimaPorData(trams) == Some(trams[i])
    ensures forall j :: 0 <= j < |trams| ==> KeyLe(Key(DataDoEvento(trams[j])), Key(DataDoEvento(trams[i])))
    ensures forall j :: 0 <= j < i ==> DataDoEvento(trams[j]) != DataDoEvento(trams[i])
  {
    var eventos := Eventos(trams);
    i := HeadIsFirstMaximal(eventos, EventoKey);
    forall j | 0 <= j < |trams|
      ensures KeyLe(Key(DataDoEvento(trams[j])), Key(DataDoEvento(trams[i])))
    {
      assert EventoKey(eventos[j]) == Key(DataDoEvento(trams[j]));
    }
    forall j | 0 <= j < i
      ensures DataDoEvento(trams[j]) != DataDoEvento(trams[i])
    {
      assert EventoKey(eventos[j]) != EventoKey(eventos[i]);
    }
  }

  /** The plain report, its parts evaluated in the order the source's template does. */
  function TextoConsulta(prop: Proposicao, orgao: Option<Orgao>, ultima: Option<Tramitacao>, link: string): Result<string> {
    match prop.statusProposicao
    case None => Err(KeyError("statusProposicao"))
    case Some(st) =>
      match st.siglaOrgao
      case None => Err(KeyError("siglaOrgao"))
      case Some(siglaOrgao) =>
        match DataHoraTexto(ultima)
        case Err(m) => Err(m)
        case Ok(data) =>
          Ok(AberturaConsulta(prop, st) + OrgaoLinhas(siglaOrgao, orgao) + SeparadorUltima
            + UltimaTramitacaoLinhas(data, ultima) + FechoConsulta(st, link, prop.urlInteiroTeor.GetOr("")))
  }

  function AberturaConsulta(prop: Proposicao, st: Status): string {
    "\nProposição: " + Identificacao(prop.siglaTipo, prop.numero, prop.ano)
    + "\nEmenta: " + prop.ementa
    + "\n        \nSituação atual:\n- Status: " + st.descricaoSituacao + "\n"
  }

  /** The committee line, then its name and type lines, empty without a committee. */
  function OrgaoLinhas(siglaOrgao: string, orgao: Option<Orgao>): string {
    "- Órgão atual: " + siglaOrgao + "\n"
    + (if orgao.Some? then "  Nome completo: " + orgao.value.nome else "") + "\n"
    + (if orgao.Some? then "  Tipo: " + orgao.value.tipoOrgao else "")
  }

  const SeparadorUltima: string := "\n        \nÚltima tramitação:\n"

  /** The four lines about the latest event, "N/A" throughout without one. */
  function UltimaTramitacaoLinhas(data: string, ultima: Option<Tramitacao>): string {
    "- Data: " + data
    + "\n- Órgão: " + (if ultima.Some? then ultima.value.siglaOrgao else "N/A")
    + "\n- Despacho: " + (if ultima.Some? then ultima.value.despacho else "N/A")
    + "\n- Descrição: " + (if ultima.Some? then ultima.value.descricaoTramitacao else "N/A")
  }

  function FechoConsulta(st: Status, link: string, documento: string): string {
    "\n        \nRegime de tramitação: " + st.regime
    + "\n\nLinks:\n📄 Página da proposição: " + link
    + "\n📑 Texto completo: " + documento
  }

  const NaoEncontrada: string := "Proposição não encontrada"

  /** `consultar_proposicao`. */
  function Consulta(api: Api, ref: Referencia): string {
    var resolvido := if ref.Sigla? then ResolverSigla(api, ref.texto) else Ok(Some(ref.id));
    match resolvido
    case Err(m) => ErroConsulta(m)
    case Ok(None) => NaoEncontrada
    case Ok(Some(id)) =>
      match api.proposicao(id)
      case Fail(m) => ErroConsulta(m)
      case Got(prop) =>
        match api.tramitacoes(id)
        case Fail(m) => ErroConsulta(m)
        case Got(trams) =>
          match OrgaoAtual(api, prop)
          case Err(m) => ErroConsulta(m)
          case Ok(orgao) =>
            match TextoConsulta(prop, orgao, UltimaPorData(trams), FichaLink(id))
            case Ok(texto) => texto
            case Err(m) => ErroConsulta(m)
  }

  /** The loop that attaches `data_obj` to every event. */
  method DatarEventos(trams: seq<Tramitacao>) returns (eventos: seq<Evento>)
    ensures eventos == Eventos(trams)
  {
    eventos := [];
    var i := 0;
    while i < |trams|
      invariant 0 <= i <= |trams|
      invariant eventos == Eventos(trams[..i])
    {
      var tram := trams[i];
      var dataObj: DateTime;
      var lida := ParseYearMonthDay(Split(tram.dataHora, 'T')[0]);
      if lida.Some? {
        dataObj := lida.value;
      } else {
        dataObj := MinDateTime;
      }
      eventos := eventos + [Evento(tram, dataObj)];
      i := i + 1;
    }
    assert trams[..i] == trams;
  }

  method ConsultarProposicao(api: Api, ref: Referencia) returns (resposta: string)
    ensures resposta == Consulta(api, ref)
  {
    var idProp: string;
    if ref.Sigla? {
      var resolvido := ResolverSigla(api, ref.texto);
      if resolvido.Err? {
        return ErroConsulta(resolvido.msg);
      }
      if resolvido.value.None? {
        return NaoEncontrada;
      }
      idProp := resolvido.value.value;
    } else {
      idProp := ref.id;
    }
    var rProp := api.proposicao(idProp);
    if rProp.Fail? {
      return ErroConsulta(rProp.msg);
    }
    var rTrams := api.tramitacoes(idProp);
    if rTrams.Fail? {
      return ErroConsulta(rTrams.msg);
    }
    var eventos := DatarEventos(rTrams.dados);
    eventos := SortDescending(eventos, EventoKey);
    var ultima: Option<Tramitacao> := if eventos != [] then Some(eventos[0].tram) else None;
    var orgaoAtual := OrgaoAtual(api, rProp.dados);
    if orgaoAtual.Err? {
      return ErroConsulta(orgaoAtual.msg);
    }
    var texto := TextoConsulta(rProp.dados, orgaoAtual.value, ultima, FichaLink(idProp));
    resposta := if texto.Ok? then texto.value else ErroConsulta(texto.msg);
  }

  /** Without events the latest-event lines all read "N/A". */
  lemma ConsultaSemEventos(prop: Proposicao, orgao: Option<Orgao>, link: string)
    requires TextoConsulta(prop, orgao, None, link).Ok?
    ensures Contains(TextoConsulta(prop, orgao, None, link).value,
      "- Data: " + "N/A" + "\n- Órgão: " + "N/A" + "\n- Despacho: " + "N/A" + "\n- Descrição: " + "N/A")
  {
    var st := prop.statusProposicao.value;
    var antes := AberturaConsulta(prop, st) + OrgaoLinhas(st.siglaOrgao.value, orgao) + SeparadorUltima;
    var linhas := UltimaTramitacaoLinhas("N/A", None);
    var depois := FechoConsulta(st, link, prop.urlInteiroTeor.GetOr(""));
    ContainsMiddle(antes, linhas, depois);
  }

  /** Without a committee the name and type lines are left empty. */
  lemma ConsultaSemOrgao(prop: Proposicao, ultima: Option<Tramitacao>, link: string)
    requires TextoConsulta(prop, None, ultima, link).Ok?
    ensures Contains(TextoConsulta(prop, None, ultima, link).value,
      "- Órgão atual: " + prop.statusProposicao.value.siglaOrgao.value + "\n" + "" + "\n" + "" + SeparadorUltima)
  {
    var st := prop.statusProposicao.value;
    var abertura := AberturaConsulta(prop, st);
    var orgaoLinhas := OrgaoLinhas(st.siglaOrgao.value, None);
    var resto := UltimaTramitacaoLinhas(DataHoraTexto(ultima).value, ultima)
      + FechoConsulta(st, link, prop.urlInteiroTeor.GetOr(""));
    ConcatAssoc(abertura, orgaoLinhas, SeparadorUltima);
    ConcatAssoc(abertura + (orgaoLinhas + SeparadorUltima),
      UltimaTramitacaoLinhas(DataHoraTexto(ultima).value, ultima), FechoConsulta(st, link, prop.urlInteiroTeor.GetOr("")));
    ContainsMiddle(abertura, orgaoLinhas + SeparadorUltima, resto);
  }

  /** A reference whose listing is empty gives "Proposição não encontrada", whatever the
      other endpoints would answer. */
  lemma ConsultaNaoEncontrada(api1: Api, api2: Api, texto: string)
    requires api1.proposicoes == api2.proposicoes && ResolverSigla(api1, texto) == Ok(None)
    ensures Consulta(api1, Sigla(texto)) == NaoEncontrada && Consulta(api2, Sigla(texto)) == NaoEncontrada
  {
    assert ResolverSigla(api2, texto) == ResolverSigla(api1, texto);
  }
}
