/** The regular expressions both chatbots search questions with, as leftmost-match
    functions: the bill reference `(PL|pl|Pl)\s*(\d+)/(\d+)`, the bare number
    `(\d+)/(\d+)`, and the status question
    `(como|qual|onde).*(está|anda|tramita|situação).*?(PL|pl|Pl)\s*(\d+)/(\d+)`. */
module Patterns {
  import opened Wrappers
  import opened Text

  /** The three spellings the bill pattern accepts for the type code. */
  const SiglasPl: seq<string> := ["PL", "pl", "Pl"]

  /** One of those spellings, tested character by character. */
  predicate SiglaPl(x: string) {
    |x| == 2 && ((x[0] == 'P' && (x[1] == 'L' || x[1] == 'l')) || (x[0] == 'p' && x[1] == 'l'))
  }

  /** A spelling of the type code holds neither a space nor a '/'. */
  lemma SiglaPlSemSeparador(x: string)
    requires SiglaPl(x)
    ensures ' ' !in x && '/' !in x
  {
    assert x == [x[0], x[1]];
  }

  /** The character test accepts exactly the three spellings. */
  lemma SiglaPlAlternativas(x: string)
    ensures SiglaPl(x) <==> x in SiglasPl
  {
    if SiglaPl(x) {
      assert x == [x[0], x[1]];
    }
  }

  /** The groups of a bill-pattern match. */
  datatype RefPl = RefPl(sigla: string, numero: string, ano: string)

  /** The bill pattern matched at position `i`: a type spelling, any whitespace, then what
      the bare-number pattern matches there (the whole digit run, '/', the whole digit run
      after it). */
  function PlEm(s: string, i: nat): (r: Option<RefPl>)
    ensures r.Some? ==> SiglaPl(r.value.sigla) && IsDigits(r.value.numero) && IsDigits(r.value.ano)
  {
    if i + 2 <= |s| && SiglaPl(s[i..i + 2]) then
      match NumeroEm(s, i + 2 + |Run(s[i + 2..], IsSpace)|)
      case None => None
      case Some((numero, ano)) => Some(RefPl(s[i..i + 2], numero, ano))
    else None
  }

  /** `PlEm` at `i` is what the bare-number pattern finds at `j`, after the type spelling
      and the whitespace run. */
  lemma PlEmVia(s: string, i: nat, j: nat)
    requires i + 2 <= |s| && SiglaPl(s[i..i + 2])
    requires j == i + 2 + |Run(s[i + 2..], IsSpace)|
    ensures NumeroEm(s, j).None? ==> PlEm(s, i).None?
    ensures NumeroEm(s, j).Some? ==>
      PlEm(s, i) == Some(RefPl(s[i..i + 2], NumeroEm(s, j).value.0, NumeroEm(s, j).value.1))
  {
  }

  /** A match at `i` is the text found there: the type spelling, some whitespace, the
      number, '/' and the year. */
  lemma PlEmIsText(s: string, i: nat)
    requires PlEm(s, i).Some?
    ensures var m := PlEm(s, i).value;
      exists w :: AllSpace(w) && m.sigla + w + m.numero + "/" + m.ano <= s[i..]
  {
    var m := PlEm(s, i).value;
    var w := PlEmFatias(s, i);
    TextoEm(s, i, m.sigla, w, m.numero, m.ano);
  }

  /** The slices of `s` a match at `i` is made of. */
  lemma PlEmFatias(s: string, i: nat) returns (w: string)
    requires PlEm(s, i).Some?
    ensures var m := PlEm(s, i).value;
      && AllSpace(w) && |m.sigla| == 2
      && Em(s, i, m.sigla) && Em(s, i + 2, w) && Em(s, i + 2 + |w|, m.numero)
      && Em(s, i + 2 + |w| + |m.numero|, "/") && Em(s, i + 2 + |w| + |m.numero| + 1, m.ano)
  {
    w := Run(s[i + 2..], IsSpace);
    var j := i + 2 + |w|;
    PlEmVia(s, i, j);
    NumeroEmIsText(s, j);
    EmDePrefixo(s, i + 2, w);
  }

  /** Five consecutive pieces of `s` starting at `i` spell out a bill reference there. */
  lemma TextoEm(s: string, i: nat, sigla: string, w: string, numero: string, ano: string)
    requires |sigla| == 2 && Em(s, i, sigla) && Em(s, i + 2, w) && Em(s, i + 2 + |w|, numero)
    requires Em(s, i + 2 + |w| + |numero|, "/") && Em(s, i + 2 + |w| + |numero| + 1, ano)
    ensures sigla + w + numero + "/" + ano <= s[i..]
  {
    EmJunta(s, i, sigla, w);
    EmJunta(s, i, sigla + w, numero);
    EmJunta(s, i, sigla + w + numero, "/");
    EmJunta(s, i, sigla + w + numero + "/", ano);
    EmPrefixo(s, i, sigla + w + numero + "/" + ano);
  }

  /** `x` occurs in `s` at position `a`. */
  predicate Em(s: string, a: nat, x: string) {
    a + |x| <= |s| && forall k :: 0 <= k < |x| ==> s[a + k] == x[k]
  }

  lemma EmJunta(s: string, a: nat, x: string, y: string)
    requires Em(s, a, x) && Em(s, a + |x|, y)
    ensures Em(s, a, x + y)
  {
    assert s[a..a + |x| + |y|] == s[a..a + |x|] + s[a + |x|..a + |x| + |y|];
  }

  lemma EmDePrefixo(s: string, a: nat, x: string)
    requires a <= |s| && x <= s[a..]
    ensures Em(s, a, x)
  {
    assert s[a..][..|x|] == s[a..a + |x|];
  }

  lemma EmBarra(s: string, k: nat)
    requires k < |s| && s[k] == '/'
    ensures Em(s, k, "/")
  {
    assert s[k..k + 1] == [s[k]];
  }

  lemma EmPrefixo(s: string, a: nat, x: string)
    requires Em(s, a, x)
    ensures x <= s[a..]
  {
    assert s[a..][..|x|] == s[a..a + |x|];
  }

  /** A bare-number match at `j` is the text found there: the number, '/' and the year. */
  lemma NumeroEmIsText(s: string, j: nat)
    requires NumeroEm(s, j).Some?
    ensures var numero, ano := NumeroEm(s, j).value.0, NumeroEm(s, j).value.1;
      Em(s, j, numero) && Em(s, j + |numero|, "/") && Em(s, j + |numero| + 1, ano)
  {
    var numero, ano := NumeroEm(s, j).value.0, NumeroEm(s, j).value.1;
    var k := j + |numero|;
    EmDePrefixo(s, j, numero);
    EmBarra(s, k);
    EmDePrefixo(s, k + 1, ano);
  }

  /** Conversely, a type spelling, whitespace, digits, '/' and digits at `i` is a match
      there, with exactly that number and a year starting with those digits. */
  lemma PlEmFinds(s: string, i: nat, sigla: string, w: string, numero: string, ano: string)
    requires i <= |s|
    requires SiglaPl(sigla) && AllSpace(w) && IsDigits(numero) && IsDigits(ano)
    requires sigla + w + numero + "/" + ano <= s[i..]
    ensures PlEm(s, i).Some?
    ensures PlEm(s, i).value.sigla == sigla && PlEm(s, i).value.numero == numero
    ensures ano <= PlEm(s, i).value.ano
  {
    PlEmPieces(s, i, sigla, w, numero, ano);
    var j := i + 2 + |w|;
    PlEmDasPartes(s, i, j, w, numero, Run(s[j + |numero| + 1..], IsDigit));
  }

  /** `PlEm` at `i` once the whitespace run and the number run there are known. */
  lemma PlEmDasPartes(s: string, i: nat, j: nat, w: string, numero: string, ano: string)
    requires i + 2 <= |s| && SiglaPl(s[i..i + 2])
    requires Run(s[i + 2..], IsSpace) == w && j == i + 2 + |w|
    requires j < |s| && IsDigit(s[j]) && Run(s[j..], IsDigit) == numero
    requires j + |numero| + 1 < |s| && s[j + |numero|] == '/' && IsDigit(s[j + |numero| + 1])
    requires ano == Run(s[j + |numero| + 1..], IsDigit)
    ensures PlEm(s, i) == Some(RefPl(s[i..i + 2], numero, ano))
  {
    NumeroEmAt(s, j, numero);
    PlEmViaSome(s, i, j, numero, ano);
  }

  /** `PlEmVia` for a known bare-number match. */
  lemma PlEmViaSome(s: string, i: nat, j: nat, numero: string, ano: string)
    requires i + 2 <= |s| && SiglaPl(s[i..i + 2])
    requires j == i + 2 + |Run(s[i + 2..], IsSpace)|
    requires NumeroEm(s, j) == Some((numero, ano))
    ensures PlEm(s, i) == Some(RefPl(s[i..i + 2], numero, ano))
  {
    PlEmVia(s, i, j);
  }

  /** What `PlEm` reads at `i` when a bill reference starts there. */
  lemma PlEmPieces(s: string, i: nat, sigla: string, w: string, numero: string, ano: string)
    requires i <= |s|
    requires SiglaPl(sigla) && AllSpace(w) && IsDigits(numero) && IsDigits(ano)
    requires sigla + w + numero + "/" + ano <= s[i..]
    ensures i + 2 <= |s| && s[i..i + 2] == sigla
    ensures Run(s[i + 2..], IsSpace) == w
    ensures i + 2 + |w| < |s| && IsDigit(s[i + 2 + |w|])
    ensures Run(s[i + 2 + |w|..], IsDigit) == numero
    ensures i + 2 + |w| + |numero| + 1 < |s| && s[i + 2 + |w| + |numero|] == '/'
    ensures IsDigit(s[i + 2 + |w| + |numero| + 1])
    ensures ano <= Run(s[i + 2 + |w| + |numero| + 1..], IsDigit)
  {
    var u := s[i..];
    var j := 2 + |w|;
    var k := j + |numero|;
    PrefixoRuns(u, sigla, w, numero, ano);
    assert s[i..i + 2] == u[..2];
    assert s[i + 2..] == u[2..];
    assert s[i + j] == u[j];
    assert s[i + j..] == u[j..];
    assert s[i + k] == u[k] && s[i + k + 1] == u[k + 1];
    assert s[i + k + 1..] == u[k + 1..];
  }

  /** The runs `PlEm` reads in a text that starts with a bill reference. */
  lemma PrefixoRuns(u: string, sigla: string, w: string, numero: string, ano: string)
    requires |sigla| == 2 && AllSpace(w) && IsDigits(numero) && IsDigits(ano)
    requires sigla + w + numero + "/" + ano <= u
    ensures u[..2] == sigla
    ensures Run(u[2..], IsSpace) == w
    ensures 2 + |w| < |u| && IsDigit(u[2 + |w|])
    ensures Run(u[2 + |w|..], IsDigit) == numero
    ensures 2 + |w| + |numero| + 1 < |u| && u[2 + |w| + |numero|] == '/'
    ensures IsDigit(u[2 + |w| + |numero| + 1])
    ensures ano <= Run(u[2 + |w| + |numero| + 1..], IsDigit)
  {
    var j := 2 + |w|;
    var k := j + |numero|;
    PrefixoPartes(u, sigla, w, numero, ano);
    RunIs(w, u[j..], IsSpace);
    RunIs(numero, u[k..], IsDigit);
    assert IsDigit(u[j]) by { assert u[j] == numero[0]; }
    assert IsDigit(u[k + 1]) by { assert u[k + 1] == ano[0]; }
    RunCovers(ano, u[k + 1 + |ano|..], IsDigit);
  }

  /** The pieces of a text that starts with a bill reference. */
  lemma PrefixoPartes(u: string, sigla: string, w: string, numero: string, ano: string)
    requires |sigla| == 2 && sigla + w + numero + "/" + ano <= u
    ensures u[..2] == sigla
    ensures u[2..] == w + u[2 + |w|..]
    ensures u[2 + |w|..] == numero + u[2 + |w| + |numero|..]
    ensures u[2 + |w| + |numero|] == '/'
    ensures u[2 + |w| + |numero| + 1..] == ano + u[2 + |w| + |numero| + 1 + |ano|..]
  {
    PrefixoSiglaEspaco(u, sigla, w, numero, ano);
    PrefixoNumero(u, sigla, w, numero, ano);
    PrefixoAno(u, sigla, w, numero, ano);
  }

  lemma PrefixoSiglaEspaco(u: string, sigla: string, w: string, numero: string, ano: string)
    requires |sigla| == 2 && sigla + w + numero + "/" + ano <= u
    ensures u[..2] == sigla
    ensures u[2..] == w + u[2 + |w|..]
  {
    var t := sigla + w + numero + "/" + ano;
    var j := 2 + |w|;
    assert u[..2] == t[..2];
    assert u[2..j] == t[2..j];
    assert u[2..] == u[2..j] + u[j..];
  }

  lemma PrefixoNumero(u: string, sigla: string, w: string, numero: string, ano: string)
    requires |sigla| == 2 && sigla + w + numero + "/" + ano <= u
    ensures u[2 + |w|..] == numero + u[2 + |w| + |numero|..]
    ensures u[2 + |w| + |numero|] == '/'
  {
    var t := sigla + w + numero + "/" + ano;
    var j := 2 + |w|;
    var k := j + |numero|;
    assert u[j..k] == t[j..k];
    assert u[k] == t[k];
    assert u[j..] == u[j..k] + u[k..];
  }

  lemma PrefixoAno(u: string, sigla: string, w: string, numero: string, ano: string)
    requires |sigla| == 2 && sigla + w + numero + "/" + ano <= u
    ensures u[2 + |w| + |numero| + 1..] == ano + u[2 + |w| + |numero| + 1 + |ano|..]
  {
    var t := sigla + w + numero + "/" + ano;
    var k := 2 + |w| + |numero|;
    assert u[k + 1..k + 1 + |ano|] == t[k + 1..];
    assert u[k + 1..] == u[k + 1..k + 1 + |ano|] + u[k + 1 + |ano|..];
  }

  /** `re.search`'s scan over the positions `i` to `n - 1`: the match at the first of them
      where `em` matches, if any. */
  function Primeiro<T>(em: nat -> Option<T>, i: nat, n: nat): (r: Option<T>)
    ensures r.Some? ==> exists j :: i <= j < n && em(j) == r
    decreases n - i
  {
    if i >= n then None
    else if em(i).Some? then em(i)
    else Primeiro(em, i + 1, n)
  }

  /** The scan finds nothing exactly when no position matches. */
  lemma {:induction false} PrimeiroNone<T>(em: nat -> Option<T>, i: nat, n: nat)
    ensures Primeiro(em, i, n).None? <==> forall j :: i <= j < n ==> em(j).None?
    decreases n - i
  {
    if i < n && em(i).None? {
      PrimeiroNone(em, i + 1, n);
    }
  }

  /** A position that matches makes the scan find something. */
  lemma {:induction false} PrimeiroAcha<T>(em: nat -> Option<T>, i: nat, n: nat, j: nat)
    requires i <= j < n && em(j).Some?
    ensures Primeiro(em, i, n).Some?
    decreases j - i
  {
    if em(i).None? {
      PrimeiroAcha(em, i + 1, n, j);
    }
  }

  /** What the scan finds is the match at the leftmost matching position. */
  lemma {:induction false} PrimeiroSome<T>(em: nat -> Option<T>, i: nat, n: nat) returns (j: nat)
    requires Primeiro(em, i, n).Some?
    ensures i <= j < n && em(j) == Primeiro(em, i, n)
    ensures forall l :: i <= l < j ==> em(l).None?
    decreases n - i
  {
    if em(i).Some? {
      j := i;
    } else {
      j := PrimeiroSome(em, i + 1, n);
    }
  }

  /** The bill pattern as a matcher over positions of `s`. */
  function PlEmEm(s: string): nat -> Option<RefPl> {
    (j: nat) => PlEm(s, j)
  }

  /** `re.search(padrao_pl, s)`. */
  function BuscaPl(s: string): (r: Option<RefPl>)
    ensures r.Some? ==> SiglaPl(r.value.sigla) && IsDigits(r.value.numero) && IsDigits(r.value.ano)
  {
    Primeiro(PlEmEm(s), 0, |s|)
  }

  /** The search finds the leftmost match, and finds nothing only when no position
      matches. */
  lemma BuscaPlLeftmost(s: string)
    ensures BuscaPl(s).None? <==> forall j :: 0 <= j < |s| ==> PlEm(s, j).None?
    ensures BuscaPl(s).Some? ==>
      exists j :: 0 <= j < |s| && PlEm(s, j) == BuscaPl(s) && forall l :: 0 <= l < j ==> PlEm(s, l).None?
  {
    var em := PlEmEm(s);
    PrimeiroNone(em, 0, |s|);
    if BuscaPl(s).None? {
      forall j | 0 <= j < |s|
        ensures PlEm(s, j).None?
      {
        assert em(j) == PlEm(s, j);
      }
    } else {
      var j := PrimeiroSome(em, 0, |s|);
      assert em(j) == PlEm(s, j);
      forall l | 0 <= l < j
        ensures PlEm(s, l).None?
      {
        assert em(l) == PlEm(s, l);
      }
    }
  }

  /** The reference a match is normalised to: the type as matched, one space, "NUM/ANO". */
  function Normalizada(m: RefPl): string {
    m.sigla + " " + m.numero + "/" + m.ano
  }

  /** The bare-number pattern matched at `i`. */
  function NumeroEm(s: string, i: nat): (r: Option<(string, string)>)
    ensures r.Some? ==> i < |s| && IsDigits(r.value.0) && IsDigits(r.value.1)
  {
    if i < |s| && IsDigit(s[i]) then
      var numero := Run(s[i..], IsDigit);
      var k := i + |numero|;
      if k + 1 < |s| && s[k] == '/' && IsDigit(s[k + 1]) then
        var ano := Run(s[k + 1..], IsDigit);
        assert ano != [] by { assert IsDigit(s[k + 1..][0]); }
        assert numero != [] by { assert IsDigit(s[i..][0]); }
        Some((numero, ano))
      else None
    else None
  }

  /** The bare-number pattern as a matcher over positions of `s`. */
  function NumeroEmEm(s: string): nat -> Option<(string, string)> {
    (j: nat) => NumeroEm(s, j)
  }

  /** `re.search(padrao_numero, s)`. */
  function BuscaNumero(s: string): (r: Option<(string, string)>)
    ensures r.Some? ==> IsDigits(r.value.0) && IsDigits(r.value.1)
  {
    Primeiro(NumeroEmEm(s), 0, |s|)
  }

  /** Where a bill reference matches, the bare-number pattern matches at its number. */
  lemma PlEmNumero(s: string, i: nat) returns (j: nat)
    requires PlEm(s, i).Some?
    ensures j < |s| && NumeroEm(s, j) == Some((PlEm(s, i).value.numero, PlEm(s, i).value.ano))
  {
    j := i + 2 + |Run(s[i + 2..], IsSpace)|;
    PlEmVia(s, i, j);
  }

  /** `NumeroEm` on text whose digit run at `j` is known and is followed by '/' and a digit. */
  lemma NumeroEmAt(s: string, j: nat, numero: string)
    requires j < |s| && IsDigit(s[j]) && Run(s[j..], IsDigit) == numero
    requires j + |numero| + 1 < |s| && s[j + |numero|] == '/' && IsDigit(s[j + |numero| + 1])
    ensures NumeroEm(s, j) == Some((numero, Run(s[j + |numero| + 1..], IsDigit)))
  {
  }

  /** Every question the bill pattern matches is also matched by the bare-number pattern,
      so the order in which the chatbot tries them decides the route. */
  lemma PlImpliesNumero(s: string)
    requires BuscaPl(s).Some?
    ensures BuscaNumero(s).Some?
  {
    var i := PrimeiroSome(PlEmEm(s), 0, |s|);
    var j := NumeroEmOnde(s, i);
    PrimeiroAcha(NumeroEmEm(s), 0, |s|, j);
  }

  /** `PlEmNumero` stated for the two matchers. */
  lemma NumeroEmOnde(s: string, i: nat) returns (j: nat)
    requires PlEmEm(s)(i).Some?
    ensures j < |s| && NumeroEmEm(s)(j).Some?
  {
    assert PlEmEm(s)(i) == PlEm(s, i);
    j := PlEmNumero(s, i);
    assert NumeroEmEm(s)(j) == NumeroEm(s, j);
  }

  const PalavrasPergunta: seq<string> := ["como", "qual", "onde"]
  const PalavrasSituacao: seq<string> := ["está", "anda", "tramita", "situação"]

  /** One way the status pattern can match: a question word at `a`, then on the same line a
      status word at `b`, then on the same line a bill reference at `c`. */
  predicate SituacaoEm(s: string, a: nat, k1: nat, b: nat, k2: nat, c: nat) {
    && k1 < |PalavrasPergunta| && k2 < |PalavrasSituacao|
    && a + |PalavrasPergunta[k1]| <= b && b + |PalavrasSituacao[k2]| <= c < |s|
    && PalavrasPergunta[k1] <= s[a..] && '\n' !in s[a + |PalavrasPergunta[k1]|..b]
    && PalavrasSituacao[k2] <= s[b..] && '\n' !in s[b + |PalavrasSituacao[k2]|..c]
    && PlEm(s, c).Some?
  }

  /** `re.search(padrao_situacao, s)` succeeds. */
  predicate Situacao(s: string) {
    exists a: nat, k1: nat, b: nat, k2: nat, c: nat
      | a < |s| && k1 < |PalavrasPergunta| && b < |s| && k2 < |PalavrasSituacao| && c < |s|
      :: SituacaoEm(s, a, k1, b, k2, c)
  }

  /** A status question always names a bill, so its bill search never comes back empty. */
  lemma SituacaoTemPl(s: string)
    requires Situacao(s)
    ensures BuscaPl(s).Some?
  {
    var a: nat, k1: nat, b: nat, k2: nat, c: nat :| SituacaoEm(s, a, k1, b, k2, c);
    BuscaPlLeftmost(s);
  }
}
