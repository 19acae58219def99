/** `static/script.js`: the page's lookup button trims and collapses the typed reference,
    requests `/consulta/<reference>` and writes the outcome into the result panel, turning
    the tags of the answer into markup. */
module Script {
  import opened Wrappers
  import opened Text

  // ---------------------------------------------------------------------------------
  // Collapsing whitespace: `pl.replace(/\s+/g, ' ')`
  // ---------------------------------------------------------------------------------

  /** Every run of whitespace replaced by one space. */
  function Colapsar(s: string): (r: string)
    ensures r == [] <==> s == []
    ensures r != [] ==> (IsSpace(r[0]) <==> IsSpace(s[0]))
    ensures r != [] ==> (IsSpace(r[|r| - 1]) <==> IsSpace(s[|s| - 1]))
    decreases |s|
  {
    if s == [] then []
    else if IsSpace(s[0]) then
      var resto := s[1 + |Run(s[1..], IsSpace)|..];
      assert resto == [] ==> IsSpace(s[|s| - 1]) by {
        if resto == [] {
          assert Run(s[1..], IsSpace) == s[1..];
          if |s| > 1 {
            assert s[|s| - 1] == Run(s[1..], IsSpace)[|s| - 2];
          }
        }
      }
      " " + Colapsar(resto)
    else [s[0]] + Colapsar(s[1..])
  }

  /** A whitespace run followed by a visible character, or by nothing, becomes one space. */
  lemma ColapsarCorre(u: string, v: string)
    requires u != [] && AllSpace(u)
    requires v == [] || !IsSpace(v[0])
    ensures Colapsar(u + v) == " " + Colapsar(v)
  {
    var s := u + v;
    assert s[0] == u[0] && s[1..] == u[1..] + v;
    RunIs(u[1..], v, IsSpace);
    assert s[1 + |u[1..]|..] == v;
  }

  lemma ColapsarVisivel(x: char, s: string)
    requires !IsSpace(x)
    ensures Colapsar([x] + s) == [x] + Colapsar(s)
  {
    assert ([x] + s)[0] == x && ([x] + s)[1..] == s;
  }

  /** Collapsing works piece by piece wherever the cut does not fall inside a whitespace
      run. */
  lemma {:induction false} ColapsarAppend(a: string, b: string)
    requires a == [] || b == [] || !IsSpace(a[|a| - 1]) || !IsSpace(b[0])
    ensures Colapsar(a + b) == Colapsar(a) + Colapsar(b)
    decreases |a|
  {
    if a == [] {
      assert a + b == b;
    } else if b == [] {
      assert a + b == a;
    } else if !IsSpace(a[0]) {
      ColapsarAppend(a[1..], b);
      AppendVisivel(a, b);
    } else {
      CorridaInicial(a);
      var w := Run(a, IsSpace);
      var v := a[|w|..];
      if v != [] {
        ColapsarAppend(v, b);
      }
      AppendCorrida(w, v, b);
    }
  }

  /** A text opening with whitespace is its leading run `w` followed by a rest `v` that is
      empty or opens with a visible character; the last character is the rest's, or the
      run's when nothing follows. */
  lemma CorridaInicial(a: string)
    requires a != [] && IsSpace(a[0])
    ensures var w := Run(a, IsSpace); var v := a[|w|..];
      && w != [] && AllSpace(w) && a == w + v && (v == [] || !IsSpace(v[0]))
      && (v != [] ==> |v| < |a| && v[|v| - 1] == a[|a| - 1])
      && (v == [] ==> w[|w| - 1] == a[|a| - 1])
  {
    var w := Run(a, IsSpace);
    RunCovers([a[0]], a[1..], IsSpace);
    assert a == [a[0]] + a[1..];
    assert a == w + a[|w|..];
  }

  /** The step of `ColapsarAppend` for a visible first character. */
  lemma AppendVisivel(a: string, b: string)
    requires a != [] && !IsSpace(a[0])
    requires Colapsar(a[1..] + b) == Colapsar(a[1..]) + Colapsar(b)
    ensures Colapsar(a + b) == Colapsar(a) + Colapsar(b)
  {
    var x := a[0];
    assert a == [x] + a[1..];
    ConcatAssoc([x], a[1..], b);
    ColapsarVisivel(x, a[1..]);
    ColapsarVisivel(x, a[1..] + b);
    ConcatAssoc([x], Colapsar(a[1..]), Colapsar(b));
  }

  /** The step of `ColapsarAppend` for a leading whitespace run `w`. */
  lemma AppendCorrida(w: string, v: string, b: string)
    requires w != [] && AllSpace(w)
    requires v == [] || !IsSpace(v[0])
    requires v == [] ==> b == [] || !IsSpace(b[0])
    requires v != [] ==> Colapsar(v + b) == Colapsar(v) + Colapsar(b)
    ensures Colapsar(w + v + b) == Colapsar(w + v) + Colapsar(b)
  {
    ColapsarCorre(w, v);
    if v == [] {
      assert w + v == w;
      ColapsarCorre(w, b);
      assert Colapsar(v) == [];
    } else {
      ConcatAssoc(w, v, b);
      ColapsarCorre(w, v + b);
      ConcatAssoc(" ", Colapsar(v), Colapsar(b));
    }
  }

  /** A whitespace run between two visible characters becomes exactly one space. */
  lemma ColapsarCorrida(a: string, w: string, b: string)
    requires w != [] && AllSpace(w)
    requires a == [] || !IsSpace(a[|a| - 1])
    requires b == [] || !IsSpace(b[0])
    ensures Colapsar(a + w + b) == Colapsar(a) + " " + Colapsar(b)
  {
    ColapsarAppend(a, w + b);
    ColapsarCorre(w, b);
    ConcatAssoc(a, w, b);
    ConcatAssoc(Colapsar(a), " ", Colapsar(b));
  }

  /** Whitespace in `s` is only single spaces. */
  predicate Colapsado(s: string) {
    forall i :: 0 <= i < |s| && IsSpace(s[i]) ==> s[i] == ' ' && (i + 1 == |s| || !IsSpace(s[i + 1]))
  }

  /** The result carries no whitespace but single spaces. */
  lemma {:induction false} ColapsarColapsado(s: string)
    ensures Colapsado(Colapsar(s))
    decreases |s|
  {
    if s != [] {
      if IsSpace(s[0]) {
        var resto := s[1 + |Run(s[1..], IsSpace)|..];
        ColapsarColapsado(resto);
        assert resto == [] || !IsSpace(resto[0]);
        var r := Colapsar(s);
        forall i | 0 <= i < |r| && IsSpace(r[i])
          ensures r[i] == ' ' && (i + 1 == |r| || !IsSpace(r[i + 1]))
        {
          if i > 0 {
            assert r[i] == Colapsar(resto)[i - 1];
          }
          if i + 1 < |r| {
            assert r[i + 1] == Colapsar(resto)[i];
          }
        }
      } else {
        ColapsarColapsado(s[1..]);
        var r := Colapsar(s);
        forall i | 0 <= i < |r| && IsSpace(r[i])
          ensures r[i] == ' ' && (i + 1 == |r| || !IsSpace(r[i + 1]))
        {
          assert i > 0;
          assert r[i] == Colapsar(s[1..])[i - 1];
          if i + 1 < |r| {
            assert r[i + 1] == Colapsar(s[1..])[i];
          }
        }
      }
    }
  }

  /** Text already collapsed is left as it is. */
  lemma {:induction false} ColapsadoFixo(s: string)
    requires Colapsado(s)
    ensures Colapsar(s) == s
    decreases |s|
  {
    if s != [] {
      ColapsadoCauda(s);
      if IsSpace(s[0]) {
        assert s[1..] == [] || !IsSpace(s[1..][0]);
        RunIs([], s[1..], IsSpace);
        assert Run(s[1..], IsSpace) == [];
        assert s[1..] == s[1 + |Run(s[1..], IsSpace)|..];
        ColapsadoFixo(s[1..]);
        assert Colapsar(s) == " " + s[1..];
      } else {
        ColapsadoFixo(s[1..]);
      }
    }
  }

  lemma ColapsadoCauda(s: string)
    requires s != [] && Colapsado(s)
    ensures Colapsado(s[1..])
    ensures IsSpace(s[0]) ==> s[0] == ' ' && (|s| == 1 || !IsSpace(s[1]))
  {
    forall i | 0 <= i < |s[1..]| && IsSpace(s[1..][i])
      ensures s[1..][i] == ' ' && (i + 1 == |s[1..]| || !IsSpace(s[1..][i + 1]))
    {
      assert s[1..][i] == s[i + 1];
    }
  }

  /** Collapsing twice is collapsing once. */
  lemma ColapsarIdempotente(s: string)
    ensures Colapsar(Colapsar(s)) == Colapsar(s)
  {
    ColapsarColapsado(s);
    ColapsadoFixo(Colapsar(s));
  }

  /** The non-whitespace characters of `s`, in order. */
  function Visivel(s: string): string
    decreases |s|
  {
    if s == [] then [] else (if IsSpace(s[0]) then [] else [s[0]]) + Visivel(s[1..])
  }

  lemma {:induction false} VisivelSemEspacos(s: string, k: nat)
    requires k <= |s| && AllSpace(s[..k])
    ensures Visivel(s) == Visivel(s[k..])
    decreases k
  {
    if k > 0 {
      assert IsSpace(s[..k][0]);
      assert s[1..][..k - 1] == s[..k][1..];
      VisivelSemEspacos(s[1..], k - 1);
      assert s[1..][k - 1..] == s[k..];
    }
  }

  /** Collapsing changes only whitespace. */
  lemma {:induction false} ColapsarPreservaVisivel(s: string)
    ensures Visivel(Colapsar(s)) == Visivel(s)
    decreases |s|
  {
    if s != [] {
      if IsSpace(s[0]) {
        var n := |Run(s[1..], IsSpace)|;
        var resto := s[1 + n..];
        ColapsarPreservaVisivel(resto);
        assert Visivel(Colapsar(s)) == Visivel(Colapsar(resto)) by {
          assert Colapsar(s)[1..] == Colapsar(resto);
        }
        assert s[1..][..n] == Run(s[1..], IsSpace);
        VisivelSemEspacos(s[1..], n);
        assert s[1..][n..] == resto;
      } else {
        ColapsarPreservaVisivel(s[1..]);
        assert Colapsar(s)[1..] == Colapsar(s[1..]);
      }
    }
  }

  /** `pl.replace(/\s+/g, ' ').trim()`. */
  function Formatado(pl: string): string {
    Strip(Colapsar(pl))
  }

  /** On the trimmed input the final trim changes nothing: the reference sent is the input
      with each whitespace run collapsed. */
  lemma FormatadoSemAparar(valor: string)
    ensures Formatado(Strip(valor)) == Colapsar(Strip(valor))
    ensures Colapsado(Formatado(Strip(valor)))
    ensures Visivel(Formatado(Strip(valor))) == Visivel(Strip(valor))
  {
    var pl := Strip(valor);
    if pl != [] {
      StripUnchanged(Colapsar(pl));
    }
    ColapsarColapsado(pl);
    ColapsarPreservaVisivel(pl);
  }

  // ---------------------------------------------------------------------------------
  // encodeURIComponent
  // ---------------------------------------------------------------------------------

  /** The characters `encodeURIComponent` leaves as they are. */
  predicate NaoReservado(c: char) {
    ('A' <= c <= 'Z') || ('a' <= c <= 'z') || ('0' <= c <= '9')
    || c == '-' || c == '_' || c == '.' || c == '!' || c == '~' || c == '*' || c == '\'' || c == '(' || c == ')'
  }

  /** The UTF-8 bytes of one character. */
  function Utf8(c: char): (r: seq<int>)
    ensures 1 <= |r| <= 4
    ensures forall i :: 0 <= i < |r| ==> 0 <= r[i] < 256
  {
    var n := c as int;
    if n < 0x80 then [n]
    else if n < 0x800 then [0xC0 + n / 64, 0x80 + n % 64]
    else if n < 0x10000 then [0xE0 + n / 4096, 0x80 + n / 64 % 64, 0x80 + n % 64]
    else [0xF0 + n / 262144, 0x80 + n / 4096 % 64, 0x80 + n / 64 % 64, 0x80 + n % 64]
  }

  /** The UTF-8 bytes of a text. */
  function Utf8s(s: string): seq<int>
    decreases |s|
  {
    if s == [] then [] else Utf8(s[0]) + Utf8s(s[1..])
  }

  /** An upper-case hexadecimal digit. */
  function Hex(d: int): (c: char)
    requires 0 <= d < 16
    ensures IsHex(c) && HexValue(c) == d
  {
    if d < 10 then ('0' as int + d) as char else ('A' as int + d - 10) as char
  }

  predicate IsHex(c: char) {
    ('0' <= c <= '9') || ('A' <= c <= 'F') || ('a' <= c <= 'f')
  }

  function HexValue(c: char): (d: int)
    requires IsHex(c)
    ensures 0 <= d < 16
  {
    if '0' <= c <= '9' then c as int - '0' as int
    else if 'A' <= c <= 'F' then c as int - 'A' as int + 10
    else c as int - 'a' as int + 10
  }

  /** Each byte written "%XX". */
  function Percentuais(bs: seq<int>): (r: string)
    requires forall i :: 0 <= i < |bs| ==> 0 <= bs[i] < 256
    ensures forall i :: 0 <= i < |r| ==> NaoReservado(r[i]) || r[i] == '%'
    decreases |bs|
  {
    if bs == [] then [] else ['%', Hex(bs[0] / 16), Hex(bs[0] % 16)] + Percentuais(bs[1..])
  }

  /** `encodeURIComponent`: unreserved characters stay, every other character becomes the
      percent escapes of its UTF-8 bytes. */
  function Codificar(s: string): (r: string)
    ensures forall i :: 0 <= i < |r| ==> NaoReservado(r[i]) || r[i] == '%'
    decreases |s|
  {
    if s == [] then []
    else (if NaoReservado(s[0]) then [s[0]] else Percentuais(Utf8(s[0]))) + Codificar(s[1..])
  }

  function Prefixar(bs: seq<int>, o: Option<seq<int>>): Option<seq<int>> {
    if o.None? then None else Some(bs + o.value)
  }

  /** What the server undoes: each "%XX" read back as its byte, any other character as its
      code. */
  function DecodificarPercentuais(t: string): Option<seq<int>>
    decreases |t|
  {
    if t == [] then Some([])
    else if t[0] == '%' then
      if |t| >= 3 && IsHex(t[1]) && IsHex(t[2]) then
        Prefixar([HexValue(t[1]) * 16 + HexValue(t[2])], DecodificarPercentuais(t[3..]))
      else None
    else Prefixar([t[0] as int], DecodificarPercentuais(t[1..]))
  }

  lemma {:induction false} PercentuaisIda(bs: seq<int>, resto: string)
    requires forall i :: 0 <= i < |bs| ==> 0 <= bs[i] < 256
    ensures DecodificarPercentuais(Percentuais(bs) + resto) == Prefixar(bs, DecodificarPercentuais(resto))
    decreases |bs|
  {
    if bs != [] {
      var t := Percentuais(bs) + resto;
      var b := bs[0];
      assert t[0] == '%' && t[1] == Hex(b / 16) && t[2] == Hex(b % 16);
      assert HexValue(t[1]) * 16 + HexValue(t[2]) == b;
      assert t[3..] == Percentuais(bs[1..]) + resto;
      PercentuaisIda(bs[1..], resto);
      var o := DecodificarPercentuais(resto);
      assert DecodificarPercentuais(t) == Prefixar([b], Prefixar(bs[1..], o));
      if o.Some? {
        assert [b] + (bs[1..] + o.value) == bs + o.value;
      }
    } else {
      assert Percentuais(bs) + resto == resto;
      var o := DecodificarPercentuais(resto);
      if o.Some? {
        assert bs + o.value == o.value;
      }
    }
  }

  /** Decoding the escapes of the request path gives back exactly the UTF-8 bytes of the
      text encoded. */
  lemma {:induction false} CodificarIda(s: string)
    ensures DecodificarPercentuais(Codificar(s)) == Some(Utf8s(s))
    decreases |s|
  {
    if s != [] {
      CodificarIda(s[1..]);
      if NaoReservado(s[0]) {
        assert Codificar(s)[1..] == Codificar(s[1..]);
      } else {
        PercentuaisIda(Utf8(s[0]), Codificar(s[1..]));
      }
    }
  }

  // ---------------------------------------------------------------------------------
  // formatarResultado
  // ---------------------------------------------------------------------------------

  /** The characters the regular-expression `.` does not match. */
  predicate Terminador(c: char) {
    c == '\n' || c == '\r' || c == '\U{2028}' || c == '\U{2029}'
  }

  /** The lazy `(.*?)` followed by the closing tag: the first position from `k` on where
      the closing tag starts, if no line ends before it. */
  function FechoDesde(s: string, k: nat, fecha: string): (r: Option<nat>)
    requires k <= |s|
    ensures r.Some? ==> k <= r.value && r.value + |fecha| <= |s| && fecha <= s[r.value..]
    ensures r.Some? ==> forall j :: k <= j < r.value ==> !Terminador(s[j]) && !(fecha <= s[j..])
    decreases |s| - k
  {
    if fecha <= s[k..] then Some(k)
    else if k == |s| || Terminador(s[k]) then None
    else FechoDesde(s, k + 1, fecha)
  }

  /** `s.replace(/abre(.*?)fecha/g, antes + '$1' + depois)`. */
  function Reescrever(s: string, abre: string, fecha: string, antes: string, depois: string): (r: string)
    requires |abre| > 0
    ensures abre[0] !in s ==> r == s
    decreases |s|
  {
    if s == [] then []
    else if abre <= s then
      match FechoDesde(s, |abre|, fecha)
      case Some(j) => antes + s[|abre|..j] + depois + Reescrever(s[j + |fecha|..], abre, fecha, antes, depois)
      case None => [s[0]] + Reescrever(s[1..], abre, fecha, antes, depois)
    else [s[0]] + Reescrever(s[1..], abre, fecha, antes, depois)
  }

  /** One tag of the answer and the markup around its content. */
  datatype Marca = Marca(abre: string, fecha: string, antes: string, depois: string)

  const Marcas: seq<Marca> := [
    Marca("[TITULO]", "[/TITULO]", "<h2 class=\"resultado-titulo\">", "</h2>"),
    Marca("[SUBTITULO]", "[/SUBTITULO]", "<h3 class=\"resultado-subtitulo\">", "</h3>"),
    Marca("[INFO]", "[/INFO]", "<div class=\"info-box\">", "</div>"),
    Marca("[LINKS]", "[/LINKS]", "<div class=\"links-container\">", "</div>"),
    Marca("[LINK_PAGINA]", "[/LINK_PAGINA]", "<a href=\"",
      "\" target=\"_blank\" class=\"link-proposicao\">📄 Página da proposição</a>"),
    Marca("[LINK_TEXTO]", "[/LINK_TEXTO]", "<a href=\"",
      "\" target=\"_blank\" class=\"link-texto\">📑 Texto completo</a>")
  ]

  /** Tags open and close with brackets. */
  predicate MarcaValida(m: Marca) {
    |m.abre| > 0 && m.abre[0] == '[' && |m.fecha| > 0 && m.fecha[0] == '['
  }

  /** The tag rewrites, in order. */
  function Aplicar(ms: seq<Marca>, s: string): string
    requires forall i :: 0 <= i < |ms| ==> MarcaValida(ms[i])
    decreases |ms|
  {
    if ms == [] then s
    else
      assert MarcaValida(ms[0]);
      Aplicar(ms[1..], Reescrever(s, ms[0].abre, ms[0].fecha, ms[0].antes, ms[0].depois))
  }

  predicate NaoDoisPontos(c: char) {
    c != ':'
  }

  const AbreItem: string := "<span class=\"item\">"
  const FechaItem: string := ":</span>"

  /** `s.replace(/•\s([^:]+):/g, '<span class="item">$1:</span>')`: a bullet, one
      whitespace character and the name up to the first ':' become a highlighted name.
      The rewrite brings in no line break of its own. */
  function Destaques(s: string): (r: string)
    ensures '\n' !in s ==> '\n' !in r
    decreases |s|
  {
    if s == [] then []
    else if |s| >= 3 && s[0] == '•' && IsSpace(s[1]) then
      var nome := Run(s[2..], NaoDoisPontos);
      if nome != [] && 2 + |nome| < |s| then
        ItemSemQuebra();
        AbreItem + nome + FechaItem + Destaques(s[3 + |nome|..])
      else [s[0]] + Destaques(s[1..])
    else [s[0]] + Destaques(s[1..])
  }

  lemma ItemSemQuebra()
    ensures '\n' !in AbreItem && '\n' !in FechaItem
  {
  }

  /** A bullet, one whitespace character and a name closed by ':' become the highlighted
      name, and the rest is rewritten the same way. */
  lemma DestaquesMarcador(w: char, nome: string, resto: string)
    requires IsSpace(w) && nome != [] && ':' !in nome
    ensures Destaques("•" + [w] + nome + ":" + resto) == AbreItem + nome + FechaItem + Destaques(resto)
  {
    var s := "•" + [w] + nome + ":" + resto;
    assert s[0] == '•' && s[1] == w;
    assert s[2..] == nome + (":" + resto);
    RunIs(nome, ":" + resto, NaoDoisPontos);
    assert s[3 + |nome|..] == resto;
  }

  /** `formatarResultado`: no raw line break is left in the markup, each one having become
      `<br>`. */
  function FormatarResultado(texto: string): (r: string)
    ensures '\n' !in r
  {
    assert forall i :: 0 <= i < |Marcas| ==> MarcaValida(Marcas[i]);
    SemQuebra(Aplicar(Marcas, texto));
    Destaques(ReplaceChar(Aplicar(Marcas, texto), '\n', "<br>"))
  }

  lemma {:induction false} AplicarSemColchete(ms: seq<Marca>, s: string)
    requires forall i :: 0 <= i < |ms| ==> MarcaValida(ms[i])
    requires '[' !in s
    ensures Aplicar(ms, s) == s
    decreases |ms|
  {
    if ms != [] {
      assert ms[0].abre[0] !in s;
      AplicarSemColchete(ms[1..], s);
    }
  }

  lemma {:induction false} FechoDesdeEncontra(s: string, k: nat, m: nat, fecha: string)
    requires k <= m <= |s| && |fecha| > 0 && fecha <= s[m..]
    requires forall j :: k <= j < m ==> s[j] != fecha[0] && !Terminador(s[j])
    ensures FechoDesde(s, k, fecha) == Some(m)
    decreases m - k
  {
    if k < m {
      assert !(fecha <= s[k..]) by { assert s[k..][0] == s[k]; }
      FechoDesdeEncontra(s, k + 1, m, fecha);
    }
  }

  lemma {:induction false} FechoDesdeCorta(s: string, k: nat, t: nat, fecha: string)
    requires k <= t < |s| && |fecha| > 0 && Terminador(s[t]) && !Terminador(fecha[0])
    requires forall j :: k <= j < t ==> s[j] != fecha[0]
    ensures FechoDesde(s, k, fecha).None?
    decreases t - k
  {
    assert !(fecha <= s[k..]) by { assert s[k..][0] == s[k]; }
    if k < t {
      FechoDesdeCorta(s, k + 1, t, fecha);
    }
  }

  /** A tag pair around one line of text without brackets becomes the markup around
      that text. */
  lemma ReescreverPar(x: string, resto: string, abre: string, fecha: string, antes: string, depois: string)
    requires |abre| > 0 && |fecha| > 0 && fecha[0] == '['
    requires '[' !in x && forall j :: 0 <= j < |x| ==> !Terminador(x[j])
    ensures Reescrever(abre + x + fecha + resto, abre, fecha, antes, depois)
      == antes + x + depois + Reescrever(resto, abre, fecha, antes, depois)
  {
    var s := abre + x + fecha + resto;
    var m := |abre| + |x|;
    PartesPar(s, abre, x, fecha, resto);
    forall j | |abre| <= j < m
      ensures s[j] != fecha[0] && !Terminador(s[j])
    {
      assert s[j] == x[j - |abre|];
    }
    FechoDesdeEncontra(s, |abre|, m, fecha);
  }

  /** Where the pieces of `abre + x + fecha + resto` sit. */
  lemma PartesPar(s: string, abre: string, x: string, fecha: string, resto: string)
    requires s == abre + x + fecha + resto
    ensures abre <= s && s[|abre|..|abre| + |x|] == x
    ensures s[|abre| + |x|..] == fecha + resto && s[|abre| + |x| + |fecha|..] == resto
  {
    assert s[..|abre|] == abre;
  }

  /** A tag pair whose content spans a line break is not converted: the opening tag's
      first character is kept as it is. */
  lemma ReescreverQuebra(x: string, resto: string, abre: string, fecha: string, antes: string, depois: string)
    requires |abre| > 0 && |fecha| > 0 && fecha[0] == '['
    requires '[' !in x && exists j :: 0 <= j < |x| && Terminador(x[j])
    ensures var s := abre + x + fecha + resto;
      Reescrever(s, abre, fecha, antes, depois) == [s[0]] + Reescrever(s[1..], abre, fecha, antes, depois)
  {
    var s := abre + x + fecha + resto;
    var t :| 0 <= t < |x| && Terminador(x[t]);
    forall j | |abre| <= j < |abre| + t
      ensures s[j] != fecha[0]
    {
      assert s[j] == x[j - |abre|];
    }
    assert s[|abre| + t] == x[t];
    FechoDesdeCorta(s, |abre|, |abre| + t, fecha);
  }

  lemma {:induction false} DestaquesSemMarcador(s: string)
    requires '•' !in s
    ensures Destaques(s) == s
    decreases |s|
  {
    if s != [] {
      DestaquesSemMarcador(s[1..]);
    }
  }

  lemma {:induction false} ReplaceCharAusente(s: string, c: char, rep: string)
    requires c !in s
    ensures ReplaceChar(s, c, rep) == s
    decreases |s|
  {
    if s != [] {
      ReplaceCharAusente(s[1..], c, rep);
    }
  }

  /** Text without tags or bullets only has its line breaks turned into `<br>`. */
  lemma FormatarTextoSimples(s: string)
    requires '[' !in s && '•' !in s
    ensures FormatarResultado(s) == ReplaceChar(s, '\n', "<br>")
    ensures '\n' !in FormatarResultado(s)
  {
    var r := ReplaceChar(s, '\n', "<br>");
    MarcasSemColchete(s);
    ReplaceCharSemMarcador(s);
    DestaquesSemMarcador(r);
    assert FormatarResultado(s) == Destaques(r) == r;
    SemQuebra(s);
  }

  /** Every line break is replaced, so none is left. */
  lemma SemQuebra(s: string)
    ensures '\n' !in ReplaceChar(s, '\n', "<br>")
  {
    assert '\n' !in "<br>";
  }

  lemma MarcasSemColchete(s: string)
    requires '[' !in s
    ensures Aplicar(Marcas, s) == s
  {
    MarcasValidas();
    AplicarSemColchete(Marcas, s);
  }

  lemma {:induction false} ReplaceCharSemMarcador(s: string)
    requires '•' !in s
    ensures '•' !in ReplaceChar(s, '\n', "<br>")
    decreases |s|
  {
    if s != [] {
      ReplaceCharSemMarcador(s[1..]);
    }
  }

  lemma MarcasValidas()
    ensures forall i :: 0 <= i < |Marcas| ==> MarcaValida(Marcas[i])
  {
  }

  /** One plain line between two markup pieces free of brackets, bullets and line breaks
      carries none of them either. */
  lemma Simples(antes: string, x: string, depois: string)
    requires '[' !in antes && '•' !in antes && '\n' !in antes
    requires '[' !in depois && '•' !in depois && '\n' !in depois
    requires '[' !in x && '•' !in x && forall j :: 0 <= j < |x| ==> !Terminador(x[j])
    ensures var h := antes + x + depois; '[' !in h && '•' !in h && '\n' !in h
  {
    assert '\n' !in x by {
      forall j | 0 <= j < |x| ensures x[j] != '\n' { assert !Terminador(x[j]); }
    }
  }

  /** A title tag around one plain line becomes the title heading. */
  lemma FormatarTitulo(x: string)
    requires '[' !in x && '•' !in x && forall j :: 0 <= j < |x| ==> !Terminador(x[j])
    ensures FormatarResultado("[TITULO]" + x + "[/TITULO]") == "<h2 class=\"resultado-titulo\">" + x + "</h2>"
  {
    var h := "<h2 class=\"resultado-titulo\">" + x + "</h2>";
    TituloSimples();
    FechoTituloSimples();
    MarcasValidas();
    assert Marcas == [Marcas[0]] + Marcas[1..];
    ParAplicado(Marcas[0], Marcas[1..], x);
    ReplaceCharAusente(h, '\n', "<br>");
    DestaquesSemMarcador(h);
  }

  /** The rewrites, led by one tag whose markup has no brackets, bullets or line breaks,
      turn that tag around one plain line into its markup and leave the markup alone. */
  lemma ParAplicado(m: Marca, resto: seq<Marca>, x: string)
    requires MarcaValida(m) && forall i :: 0 <= i < |resto| ==> MarcaValida(resto[i])
    requires '[' !in x && '•' !in x && forall j :: 0 <= j < |x| ==> !Terminador(x[j])
    requires '[' !in m.antes && '•' !in m.antes && '\n' !in m.antes
    requires '[' !in m.depois && '•' !in m.depois && '\n' !in m.depois
    ensures forall i :: 0 <= i < |[m] + resto| ==> MarcaValida(([m] + resto)[i])
    ensures var h := m.antes + x + m.depois;
      Aplicar([m] + resto, m.abre + x + m.fecha) == h && '\n' !in h && '•' !in h
  {
    var h := m.antes + x + m.depois;
    ReescreverPar(x, [], m.abre, m.fecha, m.antes, m.depois);
    assert m.abre + x + m.fecha + [] == m.abre + x + m.fecha;
    assert h + [] == h;
    assert ([m] + resto)[0] == m && ([m] + resto)[1..] == resto;
    Simples(m.antes, x, m.depois);
    AplicarSemColchete(resto, h);
  }

  /** The title markup holds no bracket, bullet or line break. */
  lemma TituloSimples()
    ensures var antes := "<h2 class=\"resultado-titulo\">";
      '[' !in antes && '•' !in antes && '\n' !in antes
  {
    SemColchete("<h2 class=\"resultado-titulo\">");
  }

  /** Text made of lower-case ASCII letters, digits and the markup characters `<>/="- `
      holds no bracket, bullet or line break. */
  lemma SemColchete(s: string)
    requires forall i :: 0 <= i < |s| ==> Marcacao(s[i])
    ensures '[' !in s && '•' !in s && '\n' !in s
  {
  }

  predicate Marcacao(c: char) {
    'a' <= c <= 'z' || '0' <= c <= '9' || c == '<' || c == '>' || c == '/' || c == '=' || c == '"' || c == '-' || c == ' '
  }

  lemma FechoTituloSimples()
    ensures '[' !in "</h2>" && '•' !in "</h2>" && '\n' !in "</h2>"
  {
  }

  // ---------------------------------------------------------------------------------
  // consultarPL
  // ---------------------------------------------------------------------------------

  /** What `fetch` and `response.json()` give: a thrown error, or the JSON's `status`,
      `data` and `message`. */
  datatype RespostaApi = Lancou | Json(status: string, data: string, message: string)

  const ErroVazio: string := "<div class=\"error\">Digite o número da proposição</div>"
  const Carregando: string := "<div class=\"loading\">Consultando...</div>"
  const ErroRede: string := AbreErro + "Erro ao consultar proposição</div>"

  function ErroServidor(message: string): string {
    AbreErro + message + "</div>"
  }

  /** The path requested for a trimmed, non-empty input. */
  function Url(pl: string): string {
    "/consulta/" + Codificar(Formatado(pl))
  }

  const AbreErro: string := "<div class=\"error\">"

  /** The panel's content once the answer has arrived: a success shows the data rendered,
      with no raw line break; anything else shows an error box. */
  function Exibicao(r: RespostaApi): (e: string)
    ensures r.Json? && r.status == "success" ==> e == FormatarResultado(r.data) && '\n' !in e
    ensures r.Json? && r.status != "success" ==> e == ErroServidor(r.message)
    ensures r.Lancou? ==> e == ErroRede
    ensures !(r.Json? && r.status == "success") ==> AbreErro <= e
  {
    match r
    case Lancou => ErroRede
    case Json(status, data, message) =>
      if status == "success" then FormatarResultado(data) else ErroServidor(message)
  }

  /** The request path is `/consulta/` and one path segment, and that segment decodes to
      the UTF-8 bytes of the input with its whitespace collapsed. */
  lemma UrlUmSegmento(valor: string)
    ensures var pl := Strip(valor);
      var seg := Url(pl)[|"/consulta/"|..];
      && Url(pl) == "/consulta/" + seg
      && '/' !in seg && ' ' !in seg
      && DecodificarPercentuais(seg) == Some(Utf8s(Colapsar(pl)))
  {
    var pl := Strip(valor);
    var seg := Codificar(Formatado(pl));
    var prefixo := "/consulta/";
    assert |prefixo| == 10;
    assert Url(pl) == prefixo + seg;
    assert Url(pl)[|prefixo|..] == seg;
    CodificadoSemSeparador(Formatado(pl));
    FormatadoSemAparar(valor);
    CodificarIda(Formatado(pl));
  }

  /** An encoded reference holds neither a path separator nor a space. */
  lemma CodificadoSemSeparador(s: string)
    ensures '/' !in Codificar(s) && ' ' !in Codificar(s)
  {
    var seg := Codificar(s);
    forall i | 0 <= i < |seg|
      ensures seg[i] != '/' && seg[i] != ' '
    {
      assert NaoReservado(seg[i]) || seg[i] == '%';
    }
  }

  /** The result panel and the requests the page has made. */
  class Painel {
    /** The panel's `innerHTML`. */
    var resultado: string
    /** Every value written to `innerHTML`, in order. */
    var escritas: seq<string>
    /** Every path fetched, in order. */
    var pedidos: seq<string>

    /** The panel shows the last value written to it. */
    predicate Valid()
      reads this
    {
      escritas != [] ==> resultado == escritas[|escritas| - 1]
    }

    constructor(inicial: string)
      ensures Valid()
      ensures resultado == inicial && escritas == [] && pedidos == []
    {
      resultado := inicial;
      escritas := [];
      pedidos := [];
    }

    method Escrever(html: string)
      requires Valid()
      modifies this
      ensures Valid()
      ensures resultado == html && escritas == old(escritas) + [html] && pedidos == old(pedidos)
    {
      resultado := html;
      escritas := escritas + [html];
    }

    /** `consultarPL`: blank input only shows the prompt and requests nothing; otherwise
        the panel shows the loading message, one request is made, and the panel ends
        showing the answer. */
    method ConsultarPL(valor: string, servidor: string -> RespostaApi)
      requires Valid()
      modifies this
      ensures Valid()
      ensures var pl := Strip(valor);
        if pl == [] then
          && resultado == ErroVazio && escritas == old(escritas) + [ErroVazio] && pedidos == old(pedidos)
        else
          var url := Url(pl);
          && pedidos == old(pedidos) + [url]
          && escritas == old(escritas) + [Carregando, Exibicao(servidor(url))]
          && resultado == Exibicao(servidor(url))
    {
      var pl := Strip(valor);
      if pl == [] {
        Escrever(ErroVazio);
        return;
      }
      Enviar(pl, servidor);
    }

    /** The `try` block: the loading message, the request, and the answer shown. */
    method Enviar(pl: string, servidor: string -> RespostaApi)
      requires Valid()
      modifies this
      ensures Valid()
      ensures pedidos == old(pedidos) + [Url(pl)]
      ensures escritas == old(escritas) + [Carregando, Exibicao(servidor(Url(pl)))]
      ensures resultado == Exibicao(servidor(Url(pl)))
    {
      ghost var antes := escritas;
      Escrever(Carregando);
      var plFormatado := Strip(Colapsar(pl));
      var url := "/consulta/" + Codificar(plFormatado);
      pedidos := pedidos + [url];
      var resposta := servidor(url);
      var html: string;
      match resposta {
        case Lancou =>
          html := ErroRede;
        case Json(status, data, message) =>
          if status == "success" {
            html := FormatarResultado(data);
          } else {
            html := ErroServidor(message);
          }
      }
      assert html == Exibicao(resposta);
      Escrever(html);
      assert escritas == antes + [Carregando] + [html];
      assert antes + [Carregando] + [html] == antes + [Carregando, html];
    }
  }
}
