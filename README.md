# Câmara bill lookup — a Dafny model

This project models the lookup layer of a small assistant for bills (proposições) of the
Brazilian Chamber of Deputies, and proves properties of that model:

- the two copies of the lookup module (`src/teste_consulta.py` and the root
  `teste_consulta.py`): searching by "NUM/ANO", by "SIGLA NUM/ANO" or by free text (portal
  search), the detailed report of one bill, the summary of its web page, and the combined
  report;
- the text chatbot (`chatbot.py`), which routes a question by the first regular expression
  it matches;
- the web chatbot (`chat-camara/chatbot.py`), which pulls the fields of a report back out
  with one regular expression per label and shows a warning or an error block otherwise;
- the browser script (`static/script.js`), which normalises the input, requests
  `/consulta/<reference>`, and turns the tagged reply text into HTML.

Every remote call (the open-data API endpoints, the `fichadetramitacao` page, the portal
search) is a field of the oracle datatype `Camara.Api`: a total function from the request's
parameters to `Fail(message)` (any exception while requesting or decoding) or `Got(dados)`.
Web pages come already reduced to the parts the code looks at (the text of a few elements,
tables as rows of cell texts, the portal's anchors). A Python exception is an `Err(message)`
of `Wrappers.Result`; the messages of the unpacking error, `KeyError`, `IndexError` are
reproduced. Loops become methods proved equal to a specification function, and the
properties are proved about those functions.

Modules: `Wrappers` (Option, Result), `Text` (Python's `strip`, `split`, `upper`, tuple
unpacking, digit runs), `Sorting` (Python's stable `sort(reverse=True)` as an insertion sort
on lexicographic keys), `Dates` (`strptime`, `datetime.min`), `Camara` (the records and
the oracle), `SrcConsulta` (`src/teste_consulta.py`), `RootConsulta` (`teste_consulta.py`),
`Patterns` (the chatbots' regular expressions), `Chatbot`, `ChatCamara`, `Script`.

Both chatbots import `teste_consulta`; the model takes that to be the root copy (see
"## Left out"), so `ChatCamara` and `Chatbot` build on `RootConsulta`.

## Model

| member | source | states |
|---|---|---|
| Text.Strip | src/teste_consulta.py:26 | the result is a slice of the input with only whitespace before and after it, itself neither starting nor ending with whitespace, and empty exactly when the input is all whitespace |
| Text.StripUnchanged | static/script.js:14 | a text that neither starts nor ends with whitespace is left unchanged by the trim |
| Text.Split | src/teste_consulta.py:30 | at least one piece, and no piece holds the separator |
| Text.SplitCount | src/teste_consulta.py:30 | one more piece than separators |
| Text.JoinSplit | src/teste_consulta.py:30 | joining the pieces with the separator gives the text back |
| Text.SplitJoin | src/teste_consulta.py:30 | splitting the join of separator-free pieces gives those pieces back |
| Text.SplitUnpacksIffOneSeparator | src/teste_consulta.py:51-52 | unpacking a split into two names succeeds exactly when the separator occurs once, and then the two names rebuild the text |
| Text.LastSegment | src/teste_consulta.py:162 | the last segment is no longer than the text |
| Text.LastSegmentNoSeparator | src/teste_consulta.py:162 | the last segment holds no separator |
| Text.LastSegmentWhole | src/teste_consulta.py:162 | a text without the separator is its own last segment |
| Text.LastSegmentAfter | src/teste_consulta.py:162 | whatever precedes a separator does not change the last segment |
| Text.LastSegmentSuffix | src/teste_consulta.py:162 | the last segment is a suffix of the text, preceded by a separator unless it is the whole text |
| Text.SplitLastIsLastSegment | src/teste_consulta.py:162 | `split('/')[-1]` is that last segment |
| Text.Upper | src/teste_consulta.py:55 | same length; no lower-case ASCII letter is left, every other character is kept, and each lower-case letter becomes its capital |
| Text.UpperIdempotent | src/teste_consulta.py:55 | upper-casing twice is upper-casing once |
| Text.DigitsValueOfNatToString | chatbot.py:37-38 | reading back a rendered list number gives that number |
| Text.ReplaceChar | static/script.js:40 | after replacing every occurrence of a character by a text that does not hold it, the character no longer occurs |
| Text.ReplaceCharAppend | static/script.js:40 | the replacement distributes over concatenation |
| Text.ReplaceCharOne | static/script.js:40 | on one character, the replaced character becomes the replacement text and any other character is kept; with `ReplaceCharAppend` this fixes the result on every text |
| Text.CodePointsInjective | src/teste_consulta.py:141 | distinct strings have distinct code point sequences |
| Text.CodePointsOrder | src/teste_consulta.py:141 | comparing the code point sequences lexicographically is exactly Python's `<=` on strings: a prefix, or a smaller code point at the first difference |
| Sorting.KeyLeTotal | src/teste_consulta.py:241 | the key order used for sorting is total |
| Sorting.KeyLeTransitive | src/teste_consulta.py:241 | the key order is transitive |
| Sorting.KeyLeAntisymmetric | src/teste_consulta.py:241 | the key order is antisymmetric |
| Sorting.SortDescPermutation | src/teste_consulta.py:241 | sorting keeps exactly the same elements (multiset) |
| Sorting.SortDescSorted | src/teste_consulta.py:241 | the sorted sequence is in descending key order |
| Sorting.SortDescStable | src/teste_consulta.py:241 | elements with equal keys keep their original relative order |
| Sorting.HeadIsFirstMaximal | src/teste_consulta.py:302-303 | the head after sorting is the first element with the largest key |
| Sorting.Top | src/teste_consulta.py:247 | a prefix of the sequence holding exactly `n` elements, or the whole sequence when it has fewer |
| Sorting.TopKeepsLargest | src/teste_consulta.py:247 | no element left out of the first `n` has a larger key than one kept |
| Sorting.SortDescending | src/teste_consulta.py:241 | the in-order insertion loop computes the stable descending sort |
| Dates.MinIsLeast | src/teste_consulta.py:227 | `datetime.min` is a valid date and sorts below every other valid date |
| Dates.ParseDayMonthYear | src/teste_consulta.py:224 | a parsed `%d/%m/%Y` date is a valid calendar date |
| Dates.DayMonthYearRoundTrip | src/teste_consulta.py:224 | parsing the `%d/%m/%Y` rendering of a valid date gives that date back at midnight |
| Dates.ParseYearMonthDay | src/teste_consulta.py:297 | a parsed `%Y-%m-%d` date is a valid calendar date, and YearMonthDayRoundTrip gives completeness on zero-padded text |
| Dates.YearMonthDayRoundTrip | src/teste_consulta.py:297 | parsing the `%Y-%m-%d` rendering of a valid date gives that date back at midnight |
| Dates.ParseDateHourMinute | src/teste_consulta.py:190 | a parsed `%Y-%m-%dT%H:%M` timestamp is a valid date and time, and DateHourMinuteRoundTrip gives completeness on zero-padded text |
| Dates.DateHourMinuteRoundTrip | src/teste_consulta.py:190 | parsing the `%Y-%m-%dT%H:%M` rendering of a valid timestamp gives that timestamp back |
| Dates.PaddedReadsBack | src/teste_consulta.py:190 | a zero-padded field of the rendered date has the requested width and reads back as its number |
| Camara.OrgaoAtual | src/teste_consulta.py:306-311 | no organ lookup without `statusProposicao.siglaOrgao`; with it, a failing lookup raises its message, an empty one gives no organ, and a non-empty one gives its first entry |
| Camara.ResolverSiglaMalformed | src/teste_consulta.py:269-270 | a reference without exactly one space raises |
| Camara.ResolverSiglaMalformedAno | src/teste_consulta.py:270 | a reference with one space whose second name does not hold exactly one '/' ("PL 123", "PL 1/2/3") raises with the second unpacking's message, before any lookup |
| Camara.ResolverSiglaLookup | src/teste_consulta.py:269-282 | a well-formed "SIGLA NUM/ANO" is looked up with exactly those three parameters; the lookup's failure is the error, else the first id or none |
| SrcConsulta.NumeroAnoIsPattern | src/teste_consulta.py:29 | the "NUM/ANO" test holds exactly for digits, '/', digits |
| SrcConsulta.AcertoDoTipo | src/teste_consulta.py:40-46 | each type code contributes at most one hit |
| SrcConsulta.PrimeirosAcertosReference | src/teste_consulta.py:32-47 | the loop over the codes yields every code's first hit in code order, or nothing at all once any lookup raises |
| SrcConsulta.BuscarEmTodosOsTipos | src/teste_consulta.py:32-47 | the loop over the ten codes computes that result, `[]` after an exception |
| SrcConsulta.BuscarProposicoes | src/teste_consulta.py:20-72 | the search procedure computes `Buscar` |
| SrcConsulta.BuscarNumeroAno | src/teste_consulta.py:29-47 | a "NUM/ANO" term yields at most ten hits, the first hit of each code in code order, or `[]` if any lookup fails |
| SrcConsulta.BuscarTipada | src/teste_consulta.py:50-66 | a stripped term "SIGLA NUM/ANO" with one space and a '/' after it, whatever its parts hold, is looked up once with the upper-cased code and the parts as written, and yields at most that listing's first entry |
| SrcConsulta.BuscarOutraForma | src/teste_consulta.py:68 | a term that is neither "NUM/ANO" nor contains a space yields no hit |
| SrcConsulta.BuscarTipadaMalformada | src/teste_consulta.py:51-52 | a typed term without exactly one space is swallowed by the handler and yields no hit |
| SrcConsulta.BuscarLinks | src/teste_consulta.py:45 | every hit's link is the tramitação page of its own id |
| SrcConsulta.BuscarMesmaListagem | src/teste_consulta.py:20-72 | the search depends on the listing endpoint only |
| SrcConsulta.FormatarMultiplos | src/teste_consulta.py:112-116 | the list loop builds the heading, one bullet per hit, and the closing hint |
| SrcConsulta.ListaMultiplaNamesEvery | src/teste_consulta.py:114-115 | every hit's title appears as a bullet line |
| SrcConsulta.ProcessarAutores | src/teste_consulta.py:150-173 | the author loop computes `AutoresInfo` |
| SrcConsulta.AutoresInfoShape | src/teste_consulta.py:152-173 | at most two authors are described, each by its own entry, and "e outros" closes the list when there are more |
| SrcConsulta.EntradasShape | src/teste_consulta.py:157-173 | one entry per author, in order |
| SrcConsulta.AutoresInfoOnlyFirstTwo | src/teste_consulta.py:153-155 | only the first two authors' deputy records are looked up |
| SrcConsulta.UltimaPorDataHora | src/teste_consulta.py:141-142 | there is a latest event exactly when there are events |
| SrcConsulta.UltimaPorDataHoraIsLatest | src/teste_consulta.py:141-142 | the latest event is the first one with the greatest `dataHora` text |
| SrcConsulta.ConsultarDetalhe | src/teste_consulta.py:119-197 | the single-hit procedure computes the detailed report or the exception |
| SrcConsulta.ConsultarProposicaoCompleta | src/teste_consulta.py:101-200 | the procedure computes `Completa` |
| SrcConsulta.CompletaSemDetalhe | src/teste_consulta.py:106-117 | with no hit the help text, with several the list, and then no endpoint besides the listing is used |
| SrcConsulta.CompletaSemAutores | src/teste_consulta.py:184 | a bill without authors raises `IndexError` from `autores[0]` |
| SrcConsulta.LinhaDe | src/teste_consulta.py:219-237 | a row keeps its stripped date text; its sort date is the parsed date, or `datetime.min` when it does not parse |
| SrcConsulta.LinhasWeb | src/teste_consulta.py:218-238 | at most one entry per row; with the three lemmas below, exactly one `LinhaDe` entry per row of three cells or more, in document order |
| SrcConsulta.LinhasWebAppend | src/teste_consulta.py:218-238 | the entries of two runs of rows are those of each run, concatenated in order |
| SrcConsulta.LinhasWebUma | src/teste_consulta.py:220-238 | a row of three cells or more gives its `LinhaDe` entry, a shorter row gives nothing |
| SrcConsulta.LinhasWebEmpty | src/teste_consulta.py:220 | no entry exactly when every row has fewer than three cells |
| SrcConsulta.LinhasWebValidas | src/teste_consulta.py:219-237 | every kept row has a valid sort date |
| SrcConsulta.ColetarLinhas | src/teste_consulta.py:216-238 | the row loop skips the header and short rows |
| SrcConsulta.FormatarHistorico | src/teste_consulta.py:246-252 | the history loop emits the heading and one block per shown row |
| SrcConsulta.ConsultarTramitacaoWeb | src/teste_consulta.py:202-258 | the page procedure computes `TramitacaoWeb` |
| SrcConsulta.TramitacaoWebEmpty | src/teste_consulta.py:244-258 | the page summary is empty exactly when the page fails or has no usable row |
| SrcConsulta.MostradasAreNewest | src/teste_consulta.py:241-247 | five rows are shown, or all rows when there are fewer, newest first, drawn from the rows, none older than a row left out, ties in page order |
| SrcConsulta.UnreadableDatesLast | src/teste_consulta.py:224-241 | once the sorted rows reach the sentinel date `datetime.min` (an unreadable date, or a readable 01/01/0001, which parses to the same value), every later row carries it too: sentinel rows come after every row with a later date, and among themselves keep page order |
| SrcConsulta.SentinelaLegivel | src/teste_consulta.py:221-228 | a row whose date cell reads 01/01/0001 is parsed, yet its sort date equals the sentinel given to unreadable dates |
| SrcConsulta.DataDoEvento | src/teste_consulta.py:296-300 | an event's date is its parsed day, or `datetime.min` when it does not parse |
| SrcConsulta.UltimaPorData | src/teste_consulta.py:302-303 | there is a latest event exactly when there are events |
| SrcConsulta.UltimaPorDataIsLatest | src/teste_consulta.py:302-303 | the latest event is the first one with the greatest day |
| SrcConsulta.DatarEventos | src/teste_consulta.py:295-300 | the dating loop computes `Eventos` |
| SrcConsulta.ConsultarProposicao | src/teste_consulta.py:260-344 | the procedure computes `Consulta` |
| SrcConsulta.ConsultaSemEventos | src/teste_consulta.py:329-333 | without events every field of the last event reads "N/A" |
| SrcConsulta.ConsultaSemOrgao | src/teste_consulta.py:325-327 | without an organ record the two organ lines are empty |
| SrcConsulta.ConsultaNaoEncontrada | src/teste_consulta.py:278-281 | an empty listing answers "Proposição não encontrada" whatever the other endpoints do |
| RootConsulta.Listagem | teste_consulta.py:54-59 | one hit per listing entry |
| RootConsulta.ListagemAt | teste_consulta.py:54-59 | the hit at each position is made from the entry at that position |
| RootConsulta.DosTiposAppend | teste_consulta.py:43-62 | the hits of a list of codes are those of each part, concatenated |
| RootConsulta.DosTiposMembership | teste_consulta.py:43-62 | a hit is found exactly when some code's successful listing yields it |
| RootConsulta.TipoComFalha | teste_consulta.py:60-62 | a code whose lookup raises is skipped and the loop goes on |
| RootConsulta.IdDoLink | teste_consulta.py:85 | a matched id is a digit run that follows `idProposicao=` in the link |
| RootConsulta.IdDoLinkLeftmost | teste_consulta.py:85 | no match exactly when `idProposicao=` plus a digit never occurs; otherwise the leftmost occurrence's whole digit run |
| RootConsulta.AcertosPortal | teste_consulta.py:81-91 | at most one hit per portal item; with the two lemmas below, one hit per item whose link carries an id, in item order |
| RootConsulta.AcertosPortalAppend | teste_consulta.py:81-91 | the hits of two runs of items are those of each run, concatenated in order |
| RootConsulta.AcertosPortalUm | teste_consulta.py:82-91 | an item gives a hit exactly when it has the anchor and its `href` holds `idProposicao=` followed by a digit; the hit is the stripped anchor text, that id and the absolute link |
| RootConsulta.AcrescentarListagem | teste_consulta.py:54-59 | the loop appends one hit per entry |
| RootConsulta.BuscarNosTipos | teste_consulta.py:43-62 | the loop over the codes computes `DosTipos` |
| RootConsulta.ColetarPortal | teste_consulta.py:81-91 | the loop over the items computes `AcertosPortal` |
| RootConsulta.BuscarProposicoes | teste_consulta.py:5-97 | the search procedure computes `Buscar` |
| RootConsulta.BuscarNumeroAno | teste_consulta.py:28-40 | "NUM/ANO" searches all ten codes and never raises |
| RootConsulta.BuscarTipada | teste_consulta.py:33-40 | "SIGLA NUM/ANO" searches the upper-cased code only |
| RootConsulta.BuscarMalformada | teste_consulta.py:33-40 | a term with '/' and several spaces raises from the unpacking |
| RootConsulta.BuscarLinks | teste_consulta.py:58 | every hit's link carries its own id after `idProposicao=` |
| RootConsulta.ListagemLink | teste_consulta.py:58 | a listing hit's link carries its id |
| RootConsulta.PortalLinks | teste_consulta.py:85-90 | a portal hit's link carries its id |
| RootConsulta.BuscarTextoLivre | teste_consulta.py:67-97 | a term without '/' never raises and depends on the portal only |
| RootConsulta.LinhasPagina | teste_consulta.py:118-130 | at most one entry per row |
| RootConsulta.LinhasPaginaAppend | teste_consulta.py:119-130 | the entries of two runs of rows are those of each run, concatenated |
| RootConsulta.LinhasPaginaEmpty | teste_consulta.py:121 | no entry exactly when every row has fewer than three cells |
| RootConsulta.ColetarLinhas | teste_consulta.py:118-130 | the row loop skips the header and short rows |
| RootConsulta.FormatarPagina | teste_consulta.py:142-147 | the loop appends one block per shown row |
| RootConsulta.ConsultarTramitacaoWeb | teste_consulta.py:99-152 | the page procedure computes `TramitacaoWeb` |
| RootConsulta.BlocosPaginaContains | teste_consulta.py:142-147 | every shown row has its block |
| RootConsulta.TramitacaoWebPrimeiras | teste_consulta.py:142-147 | each of the first five rows appears in page order, without sorting |
| RootConsulta.TramitacaoWebSemLinhas | teste_consulta.py:133-140 | without usable rows the summary is the header alone |
| RootConsulta.ConsultaPrimeiroEvento | teste_consulta.py:212-236 | the last event shown is the first one the endpoint returns, with its raw `dataHora` |
| RootConsulta.ConsultaSemDocumento | teste_consulta.py:239-244 | a bill without `urlInteiroTeor` answers the `KeyError` text |
| RootConsulta.ConsultaMalformada | teste_consulta.py:187-189 | a reference without exactly one space answers the unpacking error, whatever the endpoints |
| RootConsulta.CompletaComecaPelaConsulta | teste_consulta.py:154-176 | the combined report opens with the plain report, adds the page summary only for a resolved id, and raises exactly when the reference's resolution raises |
| RootConsulta.CompletaMalformada | teste_consulta.py:159-164 | a malformed reference lets the exception out, with the message the plain report shows |
| RootConsulta.CompletaComPagina | teste_consulta.py:162-174 | a resolved reference yields the plain report, a blank line and the page summary of the first id |
| Patterns.SiglaPlAlternativas | chatbot.py:10 | the character test on the type code accepts exactly the alternatives `PL`, `pl` and `Pl` |
| Patterns.PlEm | chatbot.py:10 | a match at a position has a spelling of "PL" and two digit runs |
| Patterns.PlEmIsText | chatbot.py:10 | a match is the text at that position: spelling, whitespace, number, '/', year |
| Patterns.PlEmFinds | chatbot.py:10 | conversely such text at a position is a match there, with that number |
| Patterns.BuscaPlLeftmost | chatbot.py:17 | the search finds the leftmost match, and nothing only when no position matches |
| Patterns.PlEmNumero | chatbot.py:10-11 | where the bill pattern matches, the bare-number pattern matches at its number, with the same number and year |
| Patterns.BuscaNumero | chatbot.py:11 | a bare-number match consists of two digit runs |
| Patterns.PlImpliesNumero | chatbot.py:10-11 | whatever the bill pattern finds, the bare-number pattern finds too |
| Patterns.SituacaoTemPl | chatbot.py:12-18 | a status question always contains a bill reference |
| Chatbot.ListarResultados | chatbot.py:36-40 | the list loop numbers the hits from 1 with their titles and links |
| Chatbot.ListaNumerada | chatbot.py:37-39 | the hit at position k is listed under number k + 1 |
| Chatbot.ProcessarPergunta | chatbot.py:5-55 | the procedure computes `Processar` |
| Chatbot.PerguntaSituacao | chatbot.py:16-20 | a status question shows the combined report of its first bill reference |
| Chatbot.SiglaMaiuscula | teste_consulta.py:35 | every spelling of the code is searched as "PL" and holds no space |
| Chatbot.PerguntaPl | chatbot.py:23-28 | a bill reference apologises when the PL listing is empty and shows the combined report otherwise |
| Chatbot.PerguntaNumero | chatbot.py:31-40 | a bare "NUM/ANO" lists the hits of all ten codes or apologises |
| Chatbot.PerguntaLivre | chatbot.py:43-50 | a question without '/' depends on the portal only and never raises |
| Chatbot.PerguntaLivreComBarra | chatbot.py:43-55 | a free question with '/' and several spaces shows the error text |
| ChatCamara.Ocorrencia | chat-camara/chatbot.py:8 | a found position holds the label |
| ChatCamara.OcorrenciaPrimeira | chat-camara/chatbot.py:8 | no position exactly when the label is absent; otherwise no earlier position holds it |
| ChatCamara.Campo | chat-camara/chatbot.py:8-19 | a captured value has no line break and appears after its label and before a line break |
| ChatCamara.CampoIsLeftmostMatch | chat-camara/chatbot.py:8-19 | wherever the label starts a line-terminated value, the search captures the value of the first occurrence of the label, at or before it |
| ChatCamara.CampoAusente | chat-camara/chatbot.py:8-19 | an absent label captures nothing |
| ChatCamara.Extrair | chat-camara/chatbot.py:5-94 | each of the twelve fields is its default ("" or "N/A") or the rest of a line of the report that starts with the field's label; `CampoIsLeftmostMatch` pins it to the first such line |
| ChatCamara.ExtrairPadroes | chat-camara/chatbot.py:25-71 | with no label present every field takes its default, "" or "N/A" |
| ChatCamara.CampoAbertura | chat-camara/chatbot.py:8 | a report opening with "Proposição: " and an identification line captures that identification |
| ChatCamara.ExtrairIdentificacao | chat-camara/chatbot.py:8-25 | the card's heading is the "SIGLA NUM/ANO" line of the plain report |
| ChatCamara.ProcessarConsulta | chat-camara/chatbot.py:96-116 | the warning exactly when the input holds no bill reference; otherwise the root combined report of the normalised reference, its exception shown as the error block, or the card of the fields read from it |
| ChatCamara.ConsultaAviso | chat-camara/chatbot.py:98-110 | without a bill reference the answer is the same whatever the endpoints would reply: no lookup is made |
| ChatCamara.CompletaResolvida | teste_consulta.py:159-171 | the combined report raises with the resolution's message, and otherwise succeeds |
| ChatCamara.ConsultaLookup | chat-camara/chatbot.py:98-116 | the reference is looked up with the type as typed; a failing lookup shows the error block with its message, a successful one the card |
| Script.Colapsar | static/script.js:14 | empty exactly when the input is, and it starts and ends with whitespace exactly when the input does |
| Script.ColapsarAppend | static/script.js:14 | collapsing works piece by piece wherever the cut does not fall inside a whitespace run |
| Script.ColapsarCorrida | static/script.js:14 | a non-empty whitespace run between visible characters (or the ends) becomes exactly one space |
| Script.ColapsarColapsado | static/script.js:14 | the result has no two adjacent whitespace characters and only plain spaces |
| Script.ColapsadoFixo | static/script.js:14 | a collapsed text is left unchanged |
| Script.ColapsarIdempotente | static/script.js:14 | collapsing twice is collapsing once |
| Script.ColapsarPreservaVisivel | static/script.js:14 | the non-whitespace characters are kept, in order |
| Script.FormatadoSemAparar | static/script.js:4-14 | after the first trim, the second trim changes nothing and the reference is the input with its whitespace runs collapsed |
| Script.Utf8 | static/script.js:15 | a character encodes to one to four bytes |
| Script.Hex | static/script.js:15 | a hex digit reads back as its value |
| Script.Codificar | static/script.js:15 | the encoded text holds only unreserved characters and '%' |
| Script.PercentuaisIda | static/script.js:15 | percent-encoded bytes decode back to those bytes |
| Script.CodificarIda | static/script.js:15 | decoding the encoded reference gives its UTF-8 bytes |
| Script.FechoDesde | static/script.js:31 | a found closing tag is the nearest one, with no line terminator before it |
| Script.Reescrever | static/script.js:31-36 | text without the opening tag's first character is left alone; `ReescreverPar` and `ReescreverQuebra` give the pairs that are and are not converted |
| Script.AplicarSemColchete | static/script.js:30-36 | text without '[' is left alone by all six tag rewrites |
| Script.FechoDesdeEncontra | static/script.js:31 | the nearest closing tag on the same line is found |
| Script.FechoDesdeCorta | static/script.js:31 | a line terminator before any closing tag stops the search |
| Script.ReescreverPar | static/script.js:31-36 | a tag pair around one line of text becomes the HTML pair around it, and the rest is rewritten the same way |
| Script.ReescreverQuebra | static/script.js:31-36 | a tag pair whose content spans a line break is not converted |
| Script.Destaques | static/script.js:41 | the bullet rewrite brings in no line break of its own |
| Script.DestaquesMarcador | static/script.js:41 | a bullet, one whitespace character and a name closed by ':' become the highlighted name, and the rest is rewritten the same way |
| Script.DestaquesSemMarcador | static/script.js:41 | text without a bullet is left alone by the bullet rewrite |
| Script.ReplaceCharAusente | static/script.js:40 | text without a line break is left alone by the `<br>` rewrite |
| Script.FormatarResultado | static/script.js:28-42 | no raw line break is left in the markup |
| Script.FormatarTextoSimples | static/script.js:28-42 | text without tags or bullets only has its line breaks turned into `<br>` |
| Script.FormatarTitulo | static/script.js:31-40 | a one-line title tag pair becomes the `h2` heading |
| Script.UrlUmSegmento | static/script.js:14-15 | the request path is `/consulta/` and a single segment that decodes to the UTF-8 bytes of the collapsed input |
| Script.Exibicao | static/script.js:18-25 | a success shows the data rendered, with no raw line break; a thrown error the fixed network message; any other status the server's message; every failure inside the error box |
| Script.Painel.constructor | static/script.js:2-3 | a panel starts with its initial content, no writes and no requests |
| Script.Painel.Escrever | static/script.js:7 | a write replaces the shown content and is recorded |
| Script.Painel.ConsultarPL | static/script.js:1-26 | a blank input shows the error and sends nothing; otherwise one request to the encoded path, the loading message and then the reply's rendering |
| Script.Painel.Enviar | static/script.js:11-25 | the loading message, one request to the reference's path, then the rendered reply, which stays shown |

## Left out

- Network, HTML parsing and JSON decoding are not modelled: every remote call is a field of the oracle `Camara.Api`, and the pages arrive as already extracted element texts and table cells.
- `print` calls inside the handlers, the interactive `__main__` loops, and the Gradio interfaces and CSS are left out.
- Character classes are ASCII only. `\s`, `\d`, `str.strip`, `str.upper` and JavaScript's `trim` are modelled on ASCII whitespace (space, tab, line feed, carriage return, vertical tab, form feed), digits and letters; Unicode spaces, digits and case mappings are not. Python's `str.strip` and `re`'s `\s` also treat the separators `\x1c`-`\x1f` as whitespace, which JavaScript's `\s` does not; `Text.IsSpace` leaves them out for both.
- Dates.ParseDayMonthYear: `strptime` is modelled only approximately. Day, month, hour and minute fields are one or two digits and the year four digits; the space-padded forms `strptime` also accepts are not modelled, and the text of its `ValueError` message is approximated. The same holds for `Dates.ParseYearMonthDay` and `Dates.ParseDateHourMinute`; the latter also matches only an upper-case `T`, while `strptime` matches format letters case-insensitively.
- Text.Unpack2: the "too many values to unpack" message is the wording of Python 3.12 and earlier; Python 3.13 appends ", got N".
- ChatCamara.Extrair: the card's HTML markup is not modelled. Only the twelve captured values and their defaults are; `Cartao` carries them.
- ChatCamara.ProcessarConsulta: the markup of the format warning and of the error block is not modelled either; `Aviso` stands for the warning, and `Falha` carries the exception's message.
- In-place `list.sort` and the dictionary updates of the event records are modelled on values: the sorted list is a new sequence and the event carries its date beside it.
- JSON `null` values and members of unexpected types in API replies are not modelled. Records carry strings or `Option`s for members read with `.get`. Members read with `[...]` (such as `prop['ementa']`, `tram['despacho']` or `orgao_atual['nome']`) are assumed present; in the source a missing one raises `KeyError`, which only `urlInteiroTeor`, `statusProposicao` and `statusProposicao.siglaOrgao` reproduce here.
- ChatCamara.ProcessarConsulta: `from teste_consulta import ...` is taken to load the root `teste_consulta.py`; which copy Python actually loads depends on the directory and path the script runs with. Under this assumption the labels "Página da proposição: " and "Texto completo: ", which only `src/teste_consulta.py` writes (lines 194-195 and 338-339), are found only when the bill's own texts contain them, so `linkPagina` and `linkTexto` are otherwise "".
- Script.Exibicao: a reply whose `message` is undefined, or whose `data` is not a string, is not modelled. `RespostaApi` has string members and `Lancou` stands for any exception of `fetch` or `response.json()`.
- Script.Painel.ConsultarPL: the asynchronous interleaving of two consultations and the Enter-key handler are left out. One consultation runs to completion, and the server is a function of the path.
- Script.Codificar: `encodeURIComponent`'s `URIError` on lone surrogates is not modelled, because a Dafny `char` is a Unicode scalar value and cannot hold one.
- The other files of the repository (`app.py`, `api/*`, `public/script.js`, `seu_arquivo.py`) are not part of this model.
