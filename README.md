# Technical report app: verified model of its core logic

The Android application lets field technicians record maintenance reports for
clients' machines. The report kind modelled here is the compressor
inspection. The application then renders reports as PDF documents. This
project models, in Dafny, the parts of the application that are logic rather
than screens:

- **The compressor checklist summary** (`montarResumoChecklist`).
  - The fixed 42-row inspection table becomes one text line per row: number,
    title, status, and the trimmed, non-empty field values.
  - Also modelled: the checks made before the report is saved, the request
    body that is sent, the reading of the reply, and the image picker's
    replacement of the selection.
- **The A4 report layout** (`PdfUtils.gerarPdfRelatorio`).
  - A header band, five titled text sections and a signature go on page 1.
  - Then come the report's photos. Each is scaled to fit 515 × 250 points and
    moves to a new page when it would not fit above the bottom margin.
  - Text heights and bitmap sizes are inputs. Coordinates are exact reals.
  - The loop is specified as a function of the images (`LayoutImages`).
    Proved about it:
    - every picture shows a readable image at its scaled size, inside the
      page;
    - pictures on a page do not overlap;
    - pages are numbered 1, 2, 3, …;
    - exactly the readable images are drawn, in order;
    - the loop starts at most one page per readable image.
- **The one-page report** (`PdfGenerator.gerarPdf`). Its greedy word wrap is
  parameterised by the paint's width measure. Proved about the wrap:
  - every word is kept, in order;
  - multi-word lines fit in 480 points;
  - every break was forced;
  - the cursor moves by a fixed amount per line.
  - a double space makes an empty word, which can become an empty line of
    its own.
- **Login** (`LoginActivity`):
  - the input checks;
  - the reading of the login reply;
  - the remote token check, which lets the user in when the server cannot be
    reached;
  - the start-up routing.

  These work over the three-key preferences store of `SessionManager`.
- **The technician list** (`TecnicosCadastradosActivity.carregarTecnicos`).
  The list is rebuilt from the server's array, then narrowed in place by a
  case-insensitive name search.

Files:

- `wrappers.dfy`: Option.
- `text.dfy`: the Kotlin string functions the core relies on: `trim`,
  `isBlank`, number rendering, `joinToString`, `split(" ")` and
  `contains(ignoreCase = true)`.
- `session.dfy`: `SessionManager` as a class over a map.
- `login.dfy`: the login screen.
- `technicians.dfy`: the technician list.
- `checklist.dfy`: the compressor form.
- `pdf_layout.dfy`: `PdfUtils`.
- `wrapped_text.dfy`: `PdfGenerator`.

## Model

| member | source | states |
|---|---|---|
| Text.Trim | app/src/main/java/com/soutech/relatoriotecnico/ui/login/LoginActivity.kt:73-74 | `trim()` neither starts nor ends with whitespace, and is empty exactly when the input is blank; that it is the input with only its end whitespace cut is stated by `TrimIsSlice` |
| Text.TrimIsSlice | app/src/main/java/com/soutech/relatoriotecnico/ui/login/LoginActivity.kt:73-74 | `trim()` is the slice of the input between a blank prefix and a blank suffix: it removes whitespace at the ends and nothing else |
| Text.NatToString | app/src/main/java/com/soutech/relatoriotecnico/ui/login/LoginActivity.kt:111 | the rendering of a status code is a non-empty string of decimal digits |
| Text.NatToStringRoundTrip | app/src/main/java/com/soutech/relatoriotecnico/ui/login/LoginActivity.kt:111 | reading the rendered digits back gives the number: the rendering loses nothing |
| Text.SplitOnSpace | app/src/main/java/com/soutech/relatoriotecnico/data/PdfGenerator.kt:65 | `split(" ")` gives at least one piece, and no piece holds a space |
| Text.SplitOnSpaceJoin | app/src/main/java/com/soutech/relatoriotecnico/data/PdfGenerator.kt:65 | joining the pieces with single spaces gives back the text, so `split(" ")` loses no character |
| Text.SplitOnSpaceJoined | app/src/main/java/com/soutech/relatoriotecnico/data/PdfGenerator.kt:65 | splitting `a + " " + b` splits `a` and `b` separately |
| Text.SplitOnSpaceWord | app/src/main/java/com/soutech/relatoriotecnico/data/PdfGenerator.kt:65 | a text without spaces is one piece |
| Text.ContainsIgnoreCaseExtend | app/src/main/java/com/soutech/relatoriotecnico/ui/tecnico/TecnicosCadastradosActivity.kt:92 | a name that contains the search term still contains it once any text is added before or after it |
| Text.ContainsIgnoreCaseVariant | app/src/main/java/com/soutech/relatoriotecnico/ui/tecnico/TecnicosCadastradosActivity.kt:92 | two search terms that differ only in letter case select exactly the same names |
| Session.SessionManager.constructor | app/src/main/java/com/soutech/relatoriotecnico/util/SessionManager.kt:30-34 | a store never written has no token, no e-mail, and is not authorised |
| Session.SessionManager.SaveSession | app/src/main/java/com/soutech/relatoriotecnico/util/SessionManager.kt:18-24 | afterwards `getToken` is the token, `getEmail` the e-mail and `isAuthorized` true, whatever was stored before; other keys are kept |
| Session.SessionManager.ClearSession | app/src/main/java/com/soutech/relatoriotecnico/util/SessionManager.kt:26-28 | the store is emptied: no token, no e-mail, not authorised; a second clear gives the same empty store |
| Login.CheckLoginInput | app/src/main/java/com/soutech/relatoriotecnico/ui/login/LoginActivity.kt:72-87 | a request is sent iff trimmed e-mail and password are non-empty and the device is online, with the trimmed values; otherwise the missing-credentials or offline message, in that priority |
| Login.ClassifyLoginReply | app/src/main/java/com/soutech/relatoriotecnico/ui/login/LoginActivity.kt:93-136 | login succeeds iff a 2xx reply has status `ok` and a non-empty token, and then with that token; non-2xx gives `Erro: <code>`; `pending_approval`, `blocked`, `ok` without a token, any other status and an exception each fail with their own message |
| Login.RealizarLogin | app/src/main/java/com/soutech/relatoriotecnico/ui/login/LoginActivity.kt:91-146 | the main screen opens iff the reply grants access, and the session then holds the typed e-mail and the token; any failure stores nothing and shows its message |
| Login.OnLoginClick | app/src/main/java/com/soutech/relatoriotecnico/ui/login/LoginActivity.kt:72-88 | when the input checks fail no request is sent, the session is unchanged and the check's message is shown; otherwise the main screen opens iff the reply grants access, the session then holding the trimmed e-mail and the reply's token, and a refused login stores nothing and shows the reply's message |
| Login.CheckRemoteStatus | app/src/main/java/com/soutech/relatoriotecnico/ui/login/LoginActivity.kt:148-168 | allowed iff there is a token and either the request threw (fail-open) or a 2xx reply has status `ok`, a missing status counting as `blocked` |
| Login.OnCreate | app/src/main/java/com/soutech/relatoriotecnico/ui/login/LoginActivity.kt:35-58 | not authorised: login form, session unchanged; authorised and offline: main screen; online: main screen iff the remote check allows, otherwise the session is cleared and the block message shown |
| Technicians.ParseTecnico | app/src/main/java/com/soutech/relatoriotecnico/ui/tecnico/TecnicosCadastradosActivity.kt:125-130 | an element without a readable `id` throws; otherwise the id is kept, a missing `name` reads as `""` and `role` is kept, null when missing |
| Technicians.ParseAll | app/src/main/java/com/soutech/relatoriotecnico/ui/tecnico/TecnicosCadastradosActivity.kt:80-87 | the whole array parses iff every element does, and then element `k` gives item `k` |
| Technicians.FilterByName | app/src/main/java/com/soutech/relatoriotecnico/ui/tecnico/TecnicosCadastradosActivity.kt:90-96 | a technician is kept iff it was listed and its name contains the term ignoring case (sound and complete); the result is a subsequence, so order is kept |
| Technicians.FilterByNameAppend | app/src/main/java/com/soutech/relatoriotecnico/ui/tecnico/TecnicosCadastradosActivity.kt:90-96 | filtering a concatenation filters each part, so the relative order of kept items is that of the list |
| Technicians.TecnicosScreen.constructor | app/src/main/java/com/soutech/relatoriotecnico/ui/tecnico/TecnicosCadastradosActivity.kt:27 | the list starts empty |
| Technicians.TecnicosScreen.CarregarTecnicos | app/src/main/java/com/soutech/relatoriotecnico/ui/tecnico/TecnicosCadastradosActivity.kt:48-103 | the load ends `Offline` iff the device is offline, `SessionExpired` iff online without a token, `HttpError` iff a non-2xx reply comes back, and `Loaded` iff a 2xx array reply parses completely; offline, without a token, on a non-2xx reply or a failure before the clear the list is untouched; when loaded it holds exactly the parsed items in response order, narrowed by the trimmed term unless that is empty; an element that throws leaves the items parsed before it |
| PdfGenerator.GlueSnoc | app/src/main/java/com/soutech/relatoriotecnico/data/PdfGenerator.kt:68 | adding a word gives the word alone on an empty line and `line + " " + w` otherwise |
| PdfGenerator.GlueEmpty | app/src/main/java/com/soutech/relatoriotecnico/data/PdfGenerator.kt:66-77 | a line is empty exactly when all its words are |
| PdfGenerator.StepKeepsWords | app/src/main/java/com/soutech/relatoriotecnico/data/PdfGenerator.kt:67-76 | one turn of the loop keeps the lines holding the words read, in order |
| PdfGenerator.StepGroupsFit | app/src/main/java/com/soutech/relatoriotecnico/data/PdfGenerator.kt:67-76 | one turn keeps every line of two or more words within 480 |
| PdfGenerator.StepOnlyFirstEmpty | app/src/main/java/com/soutech/relatoriotecnico/data/PdfGenerator.kt:67-76 | one turn keeps every line after the first holding at least one word |
| PdfGenerator.StepBrokenGreedily | app/src/main/java/com/soutech/relatoriotecnico/data/PdfGenerator.kt:67-76 | one turn keeps every break forced by the next word not fitting |
| PdfGenerator.WrapKeepsAllWords | app/src/main/java/com/soutech/relatoriotecnico/data/PdfGenerator.kt:65-76 | after all the words, the lines hold exactly the words of `split(" ")`, in order |
| PdfGenerator.WrapGroupsFit | app/src/main/java/com/soutech/relatoriotecnico/data/PdfGenerator.kt:67-76 | after all the words, every line of two or more words measures at most 480 |
| PdfGenerator.WrapOnlyFirstEmpty | app/src/main/java/com/soutech/relatoriotecnico/data/PdfGenerator.kt:67-76 | after all the words, every line after the first holds at least one word (possibly an empty one) |
| PdfGenerator.WrapKeepsWords | app/src/main/java/com/soutech/relatoriotecnico/data/PdfGenerator.kt:65-80 | every word is drawn once and in order; only a trailing run of empty words, whose line is not drawn, is left out |
| PdfGenerator.WrapLinesFit | app/src/main/java/com/soutech/relatoriotecnico/data/PdfGenerator.kt:67-80 | a drawn line of two or more words is at most 480 wide, and every drawn line after the first holds at least one word |
| PdfGenerator.WrapEmptyWordLine | app/src/main/java/com/soutech/relatoriotecnico/data/PdfGenerator.kt:65-80 | a double space gives an empty word that can be drawn as an empty line after the first: with `A` fitting alone, `A ` too wide and `B` too wide, the words `A`, ``, `B` are drawn as the lines `A`, ``, `B` |
| PdfGenerator.WrapIsGreedy | app/src/main/java/com/soutech/relatoriotecnico/data/PdfGenerator.kt:67-76 | every line was ended only because adding the next word would have made it wider than 480 |
| PdfGenerator.WrapAdvanceBounds | app/src/main/java/com/soutech/relatoriotecnico/data/PdfGenerator.kt:60-82 | a null or blank text does not move the cursor; a drawn one moves it at least 16 + 8 |
| PdfGenerator.DrawLines | app/src/main/java/com/soutech/relatoriotecnico/data/PdfGenerator.kt:66-80 | the loop draws the wrapped lines, 14 apart from its start; the cursor ends 14 per line drawn in the loop, plus 16 for a non-empty last line |
| PdfGenerator.AddWord | app/src/main/java/com/soutech/relatoriotecnico/data/PdfGenerator.kt:67-76 | one turn: the word joins the line iff the extended line measures at most 480, otherwise the line is drawn, the cursor moves 14 and the word starts the next line |
| PdfGenerator.DrawWrappedText | app/src/main/java/com/soutech/relatoriotecnico/data/PdfGenerator.kt:60-82 | what is drawn is `WrappedBlock`: nothing for a null or blank text, otherwise the heading at the cursor and then the wrapped lines 16 + 14k below it; the cursor moves by the text's advance (16 + 14 per line + 8), and baselines lie between the two cursors, increasing |
| PdfGenerator.WrappedBlockPlacement | app/src/main/java/com/soutech/relatoriotecnico/data/PdfGenerator.kt:60-82 | a wrapped text's block lies between its cursor and the cursor moved by its advance, the heading first and each line below the previous |
| PdfGenerator.DrawHeader | app/src/main/java/com/soutech/relatoriotecnico/data/PdfGenerator.kt:36-58 | the fixed header block is drawn top to bottom and leaves the cursor at 240 whatever the content |
| PdfGenerator.DrawSections | app/src/main/java/com/soutech/relatoriotecnico/data/PdfGenerator.kt:84-86 | the page gets the occurrence's block at the cursor, then the proposed solution's block where that leaves the cursor, then the parts list's block where that one leaves it; the cursor moves by the three advances, everything drawn between the start and the end, top to bottom |
| PdfGenerator.DrawBlock | app/src/main/java/com/soutech/relatoriotecnico/data/PdfGenerator.kt:84-86 | one more wrapped text appends its `WrappedBlock` at the cursor after what is drawn, moves the cursor by its advance and keeps the baselines increasing |
| PdfGenerator.GerarPdf | app/src/main/java/com/soutech/relatoriotecnico/data/PdfGenerator.kt:36-90 | the page is exactly the header block, the three wrapped texts stacked from 240, and the signature 30 below the last of them (at 240 plus the three advances plus 30); baselines strictly increase |
| CompressorChecklist.ChecklistTableNumbered | app/src/main/java/com/soutech/relatoriotecnico/ui/relatorio/RelatorioCompressorFormActivity.kt:501-764 | the table has 42 rows numbered 1 to 42 consecutively |
| CompressorForm.StatusText | app/src/main/java/com/soutech/relatoriotecnico/ui/relatorio/RelatorioCompressorFormActivity.kt:768-769 | the status is the selected text, or `-` when nothing is selected or the text is blank; never blank |
| CompressorForm.CleanValues | app/src/main/java/com/soutech/relatoriotecnico/ui/relatorio/RelatorioCompressorFormActivity.kt:771-773 | the values are trimmed and non-empty, at most one per field; which values, in which order, is stated by `CleanValuesSingle` and `CleanValuesAppend` |
| CompressorForm.CleanValuesEmpty | app/src/main/java/com/soutech/relatoriotecnico/ui/relatorio/RelatorioCompressorFormActivity.kt:771-776 | no value remains exactly when every field text is blank |
| CompressorForm.CleanValuesSingle | app/src/main/java/com/soutech/relatoriotecnico/ui/relatorio/RelatorioCompressorFormActivity.kt:771-773 | one field text gives its trimmed text, or nothing when it is blank |
| CompressorForm.CleanValuesAppend | app/src/main/java/com/soutech/relatoriotecnico/ui/relatorio/RelatorioCompressorFormActivity.kt:771-773 | the values of a concatenation are the values of each part, in order: every value comes from its own field and field order is kept |
| CompressorForm.ItemLineShape | app/src/main/java/com/soutech/relatoriotecnico/ui/relatorio/RelatorioCompressorFormActivity.kt:775-778 | a line starts with the number, a dot, the title and the status part; the values part, with the values joined by ` ; `, follows exactly when some value remains |
| CompressorForm.TerminatedSnoc | app/src/main/java/com/soutech/relatoriotecnico/ui/relatorio/RelatorioCompressorFormActivity.kt:779 | one more line appends it and its newline to the text |
| CompressorForm.ResumoSnoc | app/src/main/java/com/soutech/relatoriotecnico/ui/relatorio/RelatorioCompressorFormActivity.kt:767-780 | one more item appends its line and a newline to the summary |
| CompressorForm.AppendItemLine | app/src/main/java/com/soutech/relatoriotecnico/ui/relatorio/RelatorioCompressorFormActivity.kt:775-779 | one turn of the loop turns the summary of the items so far into that of one more item |
| CompressorForm.MontarResumoChecklist | app/src/main/java/com/soutech/relatoriotecnico/ui/relatorio/RelatorioCompressorFormActivity.kt:766-781 | the builder returns the items' lines, each newline-terminated, in item order |
| CompressorForm.TerminatedLines | app/src/main/java/com/soutech/relatoriotecnico/ui/relatorio/RelatorioCompressorFormActivity.kt:767-780 | single-line lines, newline-terminated, are read back exactly, one per line |
| CompressorForm.ItemLineSingle | app/src/main/java/com/soutech/relatoriotecnico/ui/relatorio/RelatorioCompressorFormActivity.kt:775-778 | an item's line holds no newline when its title, status and texts hold none |
| CompressorForm.ChecklistResumoLines | app/src/main/java/com/soutech/relatoriotecnico/ui/relatorio/RelatorioCompressorFormActivity.kt:501-780 | the summary reads back as exactly 42 lines, line `i` being row `i + 1`'s number, title, status and values |
| CompressorForm.SalvarRelatorio | app/src/main/java/com/soutech/relatoriotecnico/ui/relatorio/RelatorioCompressorFormActivity.kt:385-454 | no clients, a negative client index, or an empty trimmed entry date, exit date or model refuse with their messages; an index past the list is the out-of-range crash; a missing or empty token ends the session; with all checks passed and no connection it refuses with `Sem conexão com a internet.`; a request is built iff all checks pass and the device is online, with type `compressor`, the client's id, the selected technician or null, title `Relatório compressor - <modelo>` and the trimmed fields |
| CompressorForm.SaveResult | app/src/main/java/com/soutech/relatoriotecnico/ui/relatorio/RelatorioCompressorFormActivity.kt:465-485 | success iff the reply is 2xx; a non-2xx reply shows code and body; an exception shows its message |
| CompressorForm.ImageSelection.constructor | app/src/main/java/com/soutech/relatoriotecnico/ui/relatorio/RelatorioCompressorFormActivity.kt:62 | the selection starts empty |
| CompressorForm.ImageSelection.OnImagesPicked | app/src/main/java/com/soutech/relatoriotecnico/ui/relatorio/RelatorioCompressorFormActivity.kt:66-75 | a non-empty pick replaces the whole selection and reports the count; a null or empty pick leaves it unchanged and reports nothing |
| PdfLayout.ScaledSize | app/src/main/java/com/soutech/relatoriotecnico/util/PdfUtils.kt:179-185 | the drawn size is positive and within 515 × 250 |
| PdfLayout.ScaledSizeShape | app/src/main/java/com/soutech/relatoriotecnico/util/PdfUtils.kt:179-185 | the drawn size keeps the bitmap's aspect ratio and reaches one of the two limits |
| PdfLayout.DrawHeader | app/src/main/java/com/soutech/relatoriotecnico/util/PdfUtils.kt:230-251 | the band is drawn and the cursor is 94 whatever came before |
| PdfLayout.DrawSectionTitle | app/src/main/java/com/soutech/relatoriotecnico/util/PdfUtils.kt:253-275 | the band is 8 below the cursor and the cursor moves 42 |
| PdfLayout.DrawMultiline | app/src/main/java/com/soutech/relatoriotecnico/util/PdfUtils.kt:277-303 | blank text draws nothing and moves the cursor 8; other text is laid out at the cursor, which moves its height plus 8; the cursor never moves up |
| PdfLayout.DrawSection | app/src/main/java/com/soutech/relatoriotecnico/util/PdfUtils.kt:85-92 | a titled section appends its title band 8 below the cursor and, unless the text is blank, its text block 42 below, and moves the cursor 42 plus the block's advance |
| PdfLayout.DrawTextSections | app/src/main/java/com/soutech/relatoriotecnico/util/PdfUtils.kt:48-119 | page 1's text part is exactly `TextSectionsMarks`: the header band, then each of the five sections' title band 8 below the cursor and, unless its text is blank, its text block 42 below, each section starting where the previous one leaves the cursor, then the signature 16 below the last; the cursor ends at the sum of the advances, and no picture is drawn |
| PdfLayout.TextSectionsTitles | app/src/main/java/com/soutech/relatoriotecnico/util/PdfUtils.kt:85-115 | the title bands of page 1 carry the five titles "Dados do Cliente", "Dados do Atendimento", "Ocorrência", "Solução proposta", "Lista de peças", each once and in that order, whatever the texts |
| PdfLayout.StepNumbered | app/src/main/java/com/soutech/relatoriotecnico/util/PdfUtils.kt:188-196 | one image keeps the pages numbered one after another |
| PdfLayout.LayoutNumbered | app/src/main/java/com/soutech/relatoriotecnico/util/PdfUtils.kt:140-208 | the loop keeps the pages numbered one after another: a break takes the next number |
| PdfLayout.AddPicture | app/src/main/java/com/soutech/relatoriotecnico/util/PdfUtils.kt:200-207 | a picture placed below the cursor keeps the page free of overlaps, and the cursor moves 16 below it |
| PdfLayout.StepOnPage | app/src/main/java/com/soutech/relatoriotecnico/util/PdfUtils.kt:200-207 | an image that fits keeps every picture inside its page and above the cursor |
| PdfLayout.StepNewPage | app/src/main/java/com/soutech/relatoriotecnico/util/PdfUtils.kt:187-207 | an image that does not fit goes on a new page, inside it, and every page stays well laid out |
| PdfLayout.LayoutPlacement | app/src/main/java/com/soutech/relatoriotecnico/util/PdfUtils.kt:140-208 | every drawn picture shows a readable image at its scaled size, on the left margin, below the band, at least 28 above the bottom edge, and pictures of a page do not overlap |
| PdfLayout.ContinuationIndices | app/src/main/java/com/soutech/relatoriotecnico/util/PdfUtils.kt:189-204 | a page started for an image holds that picture alone |
| PdfLayout.StepIndicesOnPage | app/src/main/java/com/soutech/relatoriotecnico/util/PdfUtils.kt:200-204 | an image that fits is drawn after those before it |
| PdfLayout.StepIndicesNewPage | app/src/main/java/com/soutech/relatoriotecnico/util/PdfUtils.kt:187-204 | an image that does not fit is drawn after those before it, on the new page |
| PdfLayout.StepIndices | app/src/main/java/com/soutech/relatoriotecnico/util/PdfUtils.kt:140-207 | one image adds its picture iff it is readable; an unreadable one changes nothing |
| PdfLayout.LayoutIndices | app/src/main/java/com/soutech/relatoriotecnico/util/PdfUtils.kt:140-208 | the loop draws exactly the readable images, in order, once each |
| PdfLayout.StepKeeps | app/src/main/java/com/soutech/relatoriotecnico/util/PdfUtils.kt:187-207 | one image only adds: finished pages and what was on the open page stay |
| PdfLayout.KeepsTransitive | app/src/main/java/com/soutech/relatoriotecnico/util/PdfUtils.kt:140-208 | only adding, twice, is only adding |
| PdfLayout.LayoutKeeps | app/src/main/java/com/soutech/relatoriotecnico/util/PdfUtils.kt:140-208 | the loop only adds: the pages it found stay, and the open page keeps what was drawn on it |
| PdfLayout.StepText | app/src/main/java/com/soutech/relatoriotecnico/util/PdfUtils.kt:187-207 | one image draws no text on the pages after the first |
| PdfLayout.LayoutText | app/src/main/java/com/soutech/relatoriotecnico/util/PdfUtils.kt:140-208 | the pages the loop starts hold no text |
| PdfLayout.LayoutPageCount | app/src/main/java/com/soutech/relatoriotecnico/util/PdfUtils.kt:140-208 | the loop starts at most one page per readable image and none for an unreadable one |
| PdfLayout.NewPage | app/src/main/java/com/soutech/relatoriotecnico/util/PdfUtils.kt:189-196 | the page is finished, the next number taken, and the new page has the band with the cursor at 94 |
| PdfLayout.DrawImages | app/src/main/java/com/soutech/relatoriotecnico/util/PdfUtils.kt:140-208 | the images loop leaves exactly the state `LayoutImages` gives |
| PdfLayout.PlaceImage | app/src/main/java/com/soutech/relatoriotecnico/util/PdfUtils.kt:179-207 | a readable image is drawn as one `PlaceStep` says: under the cursor, or on a new page under the "(cont.)" title |
| PdfLayout.GerarPdfRelatorio | app/src/main/java/com/soutech/relatoriotecnico/util/PdfUtils.kt:27-212 | page 1 begins with the whole text part `TextSectionsMarks`; pages numbered from 1; one page without images; at most two plus one per readable image; every picture inside its page, none overlapping; exactly the readable images in order; text on page 1 only; with images, the images section starts on page 2 under its own header band when the text ends fewer than 200 points above the bottom, and otherwise its title comes right after the text on page 1, 8 below the cursor |
| PdfLayout.FinishPages | app/src/main/java/com/soutech/relatoriotecnico/util/PdfUtils.kt:121-226 | after a text part with no pictures, the pages are numbered from 1, well laid out, hold exactly the readable images in order and keep the text part as page 1's start; without images page 1 alone; the images section placed as in `GerarPdfRelatorio` |
| PdfLayout.TextOnlyReport | app/src/main/java/com/soutech/relatoriotecnico/util/PdfUtils.kt:122 | without images the report is page 1 alone, with no picture |
| PdfLayout.ImagesReport | app/src/main/java/com/soutech/relatoriotecnico/util/PdfUtils.kt:121-212 | with images, the report's pages have all the properties of `GerarPdfRelatorio` |
| PdfLayout.DrawImagesSection | app/src/main/java/com/soutech/relatoriotecnico/util/PdfUtils.kt:121-208 | the images section leaves pages numbered from 1, well laid out, holding exactly the readable images, with page 1's text kept in front |
| PdfLayout.StartImagesSection | app/src/main/java/com/soutech/relatoriotecnico/util/PdfUtils.kt:122-135 | with fewer than 200 points left page 2 is started; the title goes under the cursor |
| PdfLayout.ImagesStartSamePage | app/src/main/java/com/soutech/relatoriotecnico/util/PdfUtils.kt:122-135 | a section started on page 1 has no picture yet and is well laid out |
| PdfLayout.ImagesStartNewPage | app/src/main/java/com/soutech/relatoriotecnico/util/PdfUtils.kt:122-135 | a section started on page 2 has no picture yet, and page 2 holds no text |
| PdfLayout.ImagesEnd | app/src/main/java/com/soutech/relatoriotecnico/util/PdfUtils.kt:140-212 | from a valid start the loop leaves numbered, well laid out pages holding exactly the readable images, and keeps what it found |
| PdfLayout.PagesOfState | app/src/main/java/com/soutech/relatoriotecnico/util/PdfUtils.kt:212 | finishing the open page keeps the numbering, the placement and the drawn images |
| PdfLayout.ImagesSection | app/src/main/java/com/soutech/relatoriotecnico/util/PdfUtils.kt:121-208 | the images section, from the end of page 1's text, leaves pages with all the properties of the report |
| PdfLayout.ImagesSectionNewPage | app/src/main/java/com/soutech/relatoriotecnico/util/PdfUtils.kt:122-208 | with fewer than 200 points left, page 2 starts with the band and the section title |
| PdfLayout.ImagesSectionSamePage | app/src/main/java/com/soutech/relatoriotecnico/util/PdfUtils.kt:122-208 | otherwise the section title goes 8 below page 1's text |

## Left out

- Screens and widgets are not modelled: spinners, dialogs, date pickers, toasts and visibility toggles. A spinner's selection and the texts of fields are inputs.
- HTTP (OkHttp) and JSON (`org.json`) are not modelled. A reply is an input: its status code plus the parsed fields the screen reads, or the exception it raised.
- `optString` on a field that holds JSON null returns the text "null". The parsed-fields abstraction does not model this.
- The Room database, the other screens and the coroutine dispatching are not modelled.
- `NetworkUtils.isOnline` is a boolean input.
- Rendering is given as inputs:
  - `StaticLayout` heights are a function from text to a non-negative height;
  - `measureText` is a function from text to a width;
  - bitmap decoding gives a pixel size or one of three failures.
  The header title text, colours and fonts are not recorded.
- PdfLayout: Kotlin `Float` arithmetic is modelled with exact reals, so no float-exact coordinate is claimed.
- PdfLayout: `SimpleDateFormat` is not modelled. The client and service blocks are inputs whose dates are already formatted.
- PdfLayout: writing the document, creating the directory, and the file name built from the clock are I/O, so they are not modelled.
- PdfLayout: the text sections of page 1 are never split across pages, because the code never breaks a page inside them. The model does the same.
- PdfLayout: `gerarPdfRelatorioCompressor` (PdfUtils.kt:307-450) is not part of this model. It calls helpers private to `PdfUtils` and an image field the entity does not have. Its pagination is the same rule with different section titles.
- PdfGenerator: the two dates are inputs already formatted. Writing the file and `IOException` are I/O, so they are not modelled.
- CompressorForm.SalvarRelatorio: the `content` field is modelled as structured data, not as the JSON text it is serialised to. The summary is an argument: the code builds it with `montarResumoChecklist` before the token check.
- CompressorForm.ChecklistResumoLines: it assumes no table title, status text or typed text holds a newline. With one, the summary reads back as more lines.
- CompressorForm.SaveResult: the re-enabling of the save button and the closing of the screen are UI. The model gives only the boolean that decides them.
- Login: the request bodies, the URLs and the base address are not modelled.
- Text.IsWhitespace: only the first 256 code points are classified. Whitespace above them that Kotlin's `trim()` and `isBlank()` also remove, such as U+2003 (em space) and U+3000 (ideographic space), is kept by the model.
- Text.Fold: only ASCII and Latin-1 case pairs are folded. Pairs that `contains(ignoreCase = true)` also matches are not: ÿ and Ÿ, µ and Μ, and the Greek and Cyrillic letters.
