/** `chatbot.py`: a question is routed by the first pattern it matches (status question,
    bill reference, bare "NUM/ANO", anything else) to the detailed report of the root
    lookup layer or to a numbered list of search hits. */
module Chatbot {
  import opened Wrappers
  import opened Text
  import opened Dates
  import opened Camara
  import opened Patterns
  import RootConsulta

  const Desculpa: string :=
    "Desculpe, não encontrei nenhuma proposição com esses critérios. Tente reformular sua pergunta."

  function ErroChat(msg: string): string {
    "Desculpe, ocorreu um erro: " + msg
  }

  const CabecalhoLista: string := "Encontrei os seguintes resultados:\n\n"

  /** The entry numbered `n` of the list. */
  function ItemLista(n: nat, r: Resultado): string {
    NatToString(n) + ". " + r.titulo + "\n" + "Link: " + r.link + "\n\n"
  }

  /** The entries numbered from 1, in search order. */
  function Itens(res: seq<Resultado>): string
    decreases |res|
  {
    if res == [] then "" else Itens(res[..|res| - 1]) + ItemLista(|res|, res[|res| - 1])
  }

  function Lista(res: seq<Resultado>): string {
    CabecalhoLista + Itens(res)
  }

  /** The branch a question takes: the first pattern that matches wins. */
  datatype Rota = PorSituacao | PorPl | PorNumero | PorTermo

  function RotaDe(p: string): Rota {
    if Situacao(p) then PorSituacao
    else if BuscaPl(p).Some? then PorPl
    else if BuscaNumero(p).Some? then PorNumero
    else PorTermo
  }

  /** The report for a bill reference as the chatbot shows it. */
  function Detalhar(api: Api, m: RefPl): Result<Option<string>> {
    match RootConsulta.Completa(api, Sigla(Normalizada(m)))
    case Err(e) => Err(e)
    case Ok(texto) => Ok(Some(texto))
  }

  /** The numbered list for a search, or nothing to show. */
  function Listar(api: Api, termo: string): Result<Option<string>> {
    match RootConsulta.Buscar(api, termo)
    case Err(e) => Err(e)
    case Ok(res) => Ok(if res == [] then None else Some(Lista(res)))
  }

  /** The body of `processar_pergunta` inside its handler: `None` where the branch falls
      through to the apology. */
  function Responder(api: Api, p: string): Result<Option<string>> {
    match RotaDe(p)
    case PorSituacao =>
      (match BuscaPl(p)
       case None => Ok(None)
       case Some(m) => Detalhar(api, m))
    case PorPl =>
      var m := BuscaPl(p).value;
      (match RootConsulta.Buscar(api, Normalizada(m))
       case Err(e) => Err(e)
       case Ok(res) => if res == [] then Ok(None) else Detalhar(api, m))
    case PorNumero =>
      var (numero, ano) := BuscaNumero(p).value;
      Listar(api, numero + "/" + ano)
    case PorTermo => Listar(api, p)
  }

  /** `processar_pergunta`. */
  function Processar(api: Api, p: string): string {
    match Responder(api, p)
    case Err(e) => ErroChat(e)
    case Ok(None) => Desculpa
    case Ok(Some(texto)) => texto
  }

  /** The list loop. */
  method ListarResultados(res: seq<Resultado>) returns (resposta: string)
    ensures resposta == Lista(res)
  {
    resposta := CabecalhoLista;
    var i := 0;
    while i < |res|
      invariant 0 <= i <= |res|
      invariant resposta == CabecalhoLista + Itens(res[..i])
    {
      assert res[..i + 1][..i] == res[..i];
      assert res[..i + 1][i] == res[i];
      var item := ItemLista(i + 1, res[i]);
      ConcatAssoc(CabecalhoLista, Itens(res[..i]), item);
      resposta := resposta + item;
      i := i + 1;
    }
    assert res[..i] == res;
  }

  method ProcessarPergunta(api: Api, p: string) returns (resposta: string)
    ensures resposta == Processar(api, p)
  {
    var resultado: Result<Option<string>>;
    var rota := RotaDe(p);
    if rota == PorSituacao || rota == PorPl {
      var m := BuscaPl(p);
      if m.None? {
        resultado := Ok(None);
      } else if rota == PorPl {
        var busca := RootConsulta.BuscarProposicoes(api, Normalizada(m.value));
        if busca.Err? {
          resultado := Err(busca.msg);
        } else if busca.value == [] {
          resultado := Ok(None);
        } else {
          resultado := Detalhar(api, m.value);
        }
      } else {
        resultado := Detalhar(api, m.value);
      }
    } else {
      var termo := p;
      if rota == PorNumero {
        var (numero, ano) := BuscaNumero(p).value;
        termo := numero + "/" + ano;
      }
      var busca := RootConsulta.BuscarProposicoes(api, termo);
      if busca.Err? {
        resultado := Err(busca.msg);
      } else if busca.value == [] {
        resultado := Ok(None);
      } else {
        var lista := ListarResultados(busca.value);
        resultado := Ok(Some(lista));
      }
    }
    resposta := match resultado
      case Err(e) => ErroChat(e)
      case Ok(None) => Desculpa
      case Ok(Some(texto)) => texto;
  }

  /** How an answer of the root report layer reads in the chat. */
  function Exibir(r: Result<string>): string {
    match r
    case Ok(texto) => texto
    case Err(e) => ErroChat(e)
  }

  /** A status question goes straight to the detailed report of the first bill it names,
      without searching first. */
  lemma PerguntaSituacao(api: Api, p: string)
    requires Situacao(p)
    ensures BuscaPl(p).Some?
    ensures Processar(api, p) == Exibir(RootConsulta.Completa(api, Sigla(Normalizada(BuscaPl(p).value))))
  {
    SituacaoTemPl(p);
  }

  /** Every accepted spelling of the type code searches the code "PL". */
  lemma SiglaMaiuscula(sigla: string)
    requires SiglaPl(sigla)
    ensures Upper(sigla) == "PL" && ' ' !in sigla
  {
    assert sigla == [sigla[0], sigla[1]];
  }

  /** A direct bill reference is searched as "PL NUM/ANO"; with no hit the answer is the
      apology, otherwise the detailed report. */
  lemma PerguntaPl(api: Api, p: string)
    requires RotaDe(p) == PorPl
    ensures var m := BuscaPl(p).value;
      Processar(api, p) ==
        if RootConsulta.DoTipo(api, "PL", m.numero, m.ano) == [] then Desculpa
        else Exibir(RootConsulta.Completa(api, Sigla(Normalizada(m))))
  {
    var m := BuscaPl(p).value;
    NoSeparatorInDigits(m.numero, ' ');
    NoSeparatorInDigits(m.numero, '/');
    NoSeparatorInDigits(m.ano, ' ');
    NoSeparatorInDigits(m.ano, '/');
    SiglaMaiuscula(m.sigla);
    RootConsulta.BuscarTipada(api, m.sigla, m.numero, m.ano);
    var hits := RootConsulta.DoTipo(api, "PL", m.numero, m.ano);
    assert RootConsulta.Buscar(api, Normalizada(m)) == Ok(hits);
    assert Responder(api, p) == if hits == [] then Ok(None) else Detalhar(api, m);
  }

  /** A bare "NUM/ANO" never raises: it lists every hit of the ten codes, or apologises. */
  lemma PerguntaNumero(api: Api, p: string)
    requires RotaDe(p) == PorNumero
    ensures var (numero, ano) := BuscaNumero(p).value;
      var hits := RootConsulta.DosTipos(api, TiposProposicoes, numero, ano);
      Processar(api, p) == if hits == [] then Desculpa else Lista(hits)
  {
    var (numero, ano) := BuscaNumero(p).value;
    NoSeparatorInDigits(numero, ' ');
    NoSeparatorInDigits(numero, '/');
    NoSeparatorInDigits(ano, ' ');
    NoSeparatorInDigits(ano, '/');
    RootConsulta.BuscarNumeroAno(api, numero, ano);
  }

  /** A question with no '/' is answered from the portal search alone and never raises. */
  lemma PerguntaLivre(api1: Api, api2: Api, p: string)
    requires RotaDe(p) == PorTermo && '/' !in p && api1.portal == api2.portal
    ensures Processar(api1, p) == Processar(api2, p)
    ensures RootConsulta.Buscar(api1, p).Ok?
  {
    RootConsulta.BuscarTextoLivre(api1, api2, p);
  }

  /** A free-text question containing '/' and several spaces reaches the typed search and
      its unpacking error is shown. */
  lemma PerguntaLivreComBarra(api: Api, p: string)
    requires RotaDe(p) == PorTermo && '/' in p && ' ' in p && Count(p, ' ') != 1
    ensures RootConsulta.Buscar(api, p).Err?
    ensures Processar(api, p) == ErroChat(RootConsulta.Buscar(api, p).msg)
  {
    RootConsulta.BuscarMalformada(api, p);
  }

  lemma {:induction false} ItensContains(res: seq<Resultado>, k: nat)
    requires k < |res|
    ensures Contains(Itens(res), ItemLista(k + 1, res[k]))
    decreases |res|
  {
    var init := res[..|res| - 1];
    if k < |init| {
      assert init[k] == res[k];
      ItensContains(init, k);
      ContainsAppendRight(Itens(init), ItemLista(|res|, res[|res| - 1]), ItemLista(k + 1, res[k]));
    } else {
      ContainsMiddle(Itens(init), ItemLista(k + 1, res[k]), "");
      assert Itens(init) + ItemLista(k + 1, res[k]) + "" == Itens(res);
    }
  }

  /** The hit at position `k` appears in the list under the number `k + 1`. */
  lemma ListaNumerada(res: seq<Resultado>, k: nat)
    requires k < |res|
    ensures Contains(Lista(res), NatToString(k + 1) + ". " + res[k].titulo + "\n" + "Link: " + res[k].link + "\n\n")
  {
    ItensContains(res, k);
    ContainsAppendLeft(CabecalhoLista, Itens(res), ItemLista(k + 1, res[k]));
  }
}
