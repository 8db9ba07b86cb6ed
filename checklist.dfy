/**
 * The fixed 42-item inspection checklist of the compressor report form, as
 * the form's summary builder lists it.
 */
module CompressorChecklist {
  /** A row of the fixed checklist table: its number, its title and how many text fields it has. */
  datatype Row = Row(numero: nat, titulo: string, fieldCount: nat)

  /**
   * The checklist table of the form, in display order: general inspections
   * (1-29), electrical inspections (30-39) and the refrigeration dryer (40-42).
   */
  const ChecklistTable: seq<Row> := [
    Row(1, "Total de horas de funcionamento / em carga", 1),
    Row(2, "Pressão de descarga do pacote (carga/alívio)", 1),
    Row(3, "Temp. de descarga do pacote a plena carga (°F / °C)", 1),
    Row(4, "Temp. de descarga da unidade compressora a plena carga (°F / °C)", 1),
    Row(5, "Temp. injeção do óleo a plena carga (°F / °C)", 1),
    Row(6, "Pressão do cárter em alívio (PSIG / BarG)", 1),
    Row(7, "Vácuo na admissão em alívio (PSIG / BarG)", 1),
    Row(8, "Condição do filtro de admissão", 0),
    Row(9, "Última substituição do filtro de admissão (Data / Horas)", 2),
    Row(10, "Verificar nível do óleo refrigerante", 1),
    Row(11, "Inspecionar vazamentos de óleo", 1),
    Row(12, "Substituição do filtro de óleo (2.000 h ou 1 ano)", 1),
    Row(13, "Queda de pressão do separador de óleo da plena carga (PSIG / BarG)", 1),
    Row(14, "Data da última substituição do elemento separador (Data / Horas)", 2),
    Row(15, "Inspecionar e limpar o orifício e tela do descarregador", 1),
    Row(16, "Inspecionar e limpar o respiro da caixa de engrenagens", 1),
    Row(17, "Temperatura ambiente da instalação (°F / °C)", 1),
    Row(18, "Temp. da válvula de controle termostático (°F / °C) / Abertura", 0),
    Row(19, "Alinhamento da correia verificado e em boas condições (A / B / C)", 0),
    Row(20, "Sistema da tensão da correia verificado", 1),
    Row(21, "Inspecionar por vazamentos de ar", 1),
    Row(22, "Inspecionar os núcleos de trocadores de calor", 1),
    Row(23, "Inspecionar e limpar o dreno de condensado", 1),
    Row(24, "Inspecionar o motor principal e o ventilador", 1),
    Row(25, "Última lubrificação do motor principal (Data / Horas)", 2),
    Row(26, "Última lubrificação do motor do ventilador (Data / Horas)", 2),
    Row(27, "Válvula de segurança instalada e operacional", 1),
    Row(28, "Tipo de óleo refrigerante", 1),
    Row(29, "Última troca do óleo refrigerante (Data / Horas)", 2),
    // electrical inspections
    Row(30, "Tensão (plena carga) L1 / L2 / L3", 3),
    Row(31, "Tensão (sem carga) L1 / L2 / L3", 3),
    Row(32, "Corrente do motor (plena carga) T1 / T2 / T3", 3),
    Row(33, "Corrente do motor (sem carga) T1 / T2 / T3", 3),
    Row(34, "Queda de tensão através da chave de partida L1 / L2 / L3", 3),
    Row(35, "Corrente total do pacote (plena carga) L1 / L2 / L3", 3),
    Row(36, "Dados da placa de identificação do motor (HP/kW, RPM, V, A)", 4),
    Row(37, "Inspecionar os contatores", 1),
    Row(38, "Verificar as conexões elétricas", 1),
    Row(39, "Temp. operacional HAT (°C) (corte de alta temperatura)", 1),
    // refrigeration dryer
    Row(40, "Ponto de orvalho (°C)", 1),
    Row(41, "Pré-filtro (Ref.)", 1),
    Row(42, "Pós-filtro (Ref.)", 1)
  ]

  /** The table has 42 rows, numbered 1 to 42 consecutively in table order. */
  lemma ChecklistTableNumbered()
    ensures |ChecklistTable| == 42
    ensures forall i :: 0 <= i < |ChecklistTable| ==> ChecklistTable[i].numero == i + 1
  {
    var t := ChecklistTable;
    assert |t| == 42;
  }

}
/**
 * The compressor report form: the fixed 42-item inspection checklist, the
 * text summary built from it (`montarResumoChecklist`), the checks made
 * before a report is sent and the request it sends, and the image picker.
 */
module CompressorForm {
  import opened Wrappers
  import opened Text
  import opened CompressorChecklist

  /** One checklist row as filled in: the status spinner's selected text (if any) and the texts of its fields. */
  datatype ChecklistItem = ChecklistItem(numero: nat, titulo: string, status: Option<string>, campos: seq<string>)

  /** The items of the form: each table row paired with its spinner selection and its field texts. */
  function FillRows(rows: seq<Row>, statuses: seq<Option<string>>, campos: seq<seq<string>>): (items: seq<ChecklistItem>)
    requires |statuses| == |rows| && |campos| == |rows|
    requires forall i :: 0 <= i < |rows| ==> |campos[i]| == rows[i].fieldCount
    ensures |items| == |rows|
    ensures forall i :: 0 <= i < |rows| ==>
      items[i] == ChecklistItem(rows[i].numero, rows[i].titulo, statuses[i], campos[i])
  {
    seq(|rows|, i requires 0 <= i < |rows| => ChecklistItem(rows[i].numero, rows[i].titulo, statuses[i], campos[i]))
  }

  /** The status written for an item: the selected text, or "-" when nothing is selected or the text is blank. */
  function StatusText(selected: Option<string>): (s: string)
    ensures selected.None? || IsBlank(selected.value) ==> s == "-"
    ensures selected.Some? && !IsBlank(selected.value) ==> s == selected.value
    ensures !IsBlank(s)
  {
    assert !IsBlank("-") by { assert "-"[0] == '-'; }
    if selected.Some? && !IsBlank(selected.value) then selected.value else "-"
  }

  /**
   * The values written for an item: each field text trimmed, the empty ones
   * dropped, the rest in field order.
   */
  function CleanValues(campos: seq<string>): (vals: seq<string>)
    ensures |vals| <= |campos|
    ensures forall k :: 0 <= k < |vals| ==> vals[k] != "" && !IsWhitespace(vals[k][0]) && !IsWhitespace(vals[k][|vals[k]| - 1])
  {
    if campos == [] then []
    else
      var v := Trim(campos[0]);
      if v != "" then [v] + CleanValues(campos[1..]) else CleanValues(campos[1..])
  }

  /** No value remains exactly when every field text is blank. */
  lemma {:induction false} CleanValuesEmpty(campos: seq<string>)
    ensures CleanValues(campos) == [] <==> forall j :: 0 <= j < |campos| ==> IsBlank(campos[j])
  {
    if campos != [] {
      CleanValuesEmpty(campos[1..]);
      forall j | 1 <= j < |campos| ensures campos[j] == campos[1..][j - 1] {}
    }
  }

  /** One field text contributes its trimmed text, or nothing when it is blank. */
  lemma CleanValuesSingle(x: string)
    ensures CleanValues([x]) == if IsBlank(x) then [] else [Trim(x)]
  {
    assert [x][1..] == [];
  }

  /**
   * The fields are cleaned one by one: cleaning a concatenation cleans each
   * part, so every value comes from its own field and the field order is kept.
   */
  lemma {:induction false} CleanValuesAppend(a: seq<string>, b: seq<string>)
    ensures CleanValues(a + b) == CleanValues(a) + CleanValues(b)
  {
    if a != [] {
      assert (a + b)[1..] == a[1..] + b;
      CleanValuesAppend(a[1..], b);
    } else {
      assert a + b == b;
    }
  }

  /** The fixed start of an item's line: number, title and status. */
  function ItemHeader(item: ChecklistItem): string
  {
    NatToString(item.numero) + ". " + item.titulo + " | Status: " + StatusText(item.status)
  }

  /** An item's summary line. */
  function ItemLine(item: ChecklistItem): string
  {
    var vals := CleanValues(item.campos);
    ItemHeader(item) + (if vals == [] then "" else " | Valores/Obs: " + Join(" ; ", vals))
  }

  /**
   * An item's summary line starts with `"<numero>. <titulo> | Status: <status>"`;
   * the ` | Valores/Obs: ` part follows exactly when some value remains, with
   * the values joined by ` ; `.
   */
  lemma ItemLineShape(item: ChecklistItem)
    ensures var line := ItemLine(item);
      && |ItemHeader(item)| <= |line| && line[..|ItemHeader(item)|] == ItemHeader(item)
      && (|line| > |ItemHeader(item)| <==> CleanValues(item.campos) != [])
      && (CleanValues(item.campos) != [] ==>
            line[|ItemHeader(item)|..] == " | Valores/Obs: " + Join(" ; ", CleanValues(item.campos)))
  {
    var line := ItemLine(item);
    assert line[..|ItemHeader(item)|] == ItemHeader(item);
  }

  /** A text made of the given lines, each followed by a newline. */
  function Terminated(lines: seq<string>): string
  {
    if lines == [] then "" else lines[0] + "\n" + Terminated(lines[1..])
  }

  /** Appending a line appends it, with its newline, to the text. */
  lemma {:induction false} TerminatedSnoc(lines: seq<string>, line: string)
    ensures Terminated(lines + [line]) == Terminated(lines) + line + "\n"
  {
    if lines == [] {
      assert [line][1..] == [];
    } else {
      assert (lines + [line])[1..] == lines[1..] + [line];
      TerminatedSnoc(lines[1..], line);
    }
  }

  /** The line of each item, in item order. */
  function ItemLines(items: seq<ChecklistItem>): seq<string>
  {
    seq(|items|, i requires 0 <= i < |items| => ItemLine(items[i]))
  }

  /** The checklist summary: the items' lines, each followed by a newline, in item order. */
  function Resumo(items: seq<ChecklistItem>): string
  {
    Terminated(ItemLines(items))
  }

  /** One more item adds its line, and a newline, at the end of the summary. */
  lemma ResumoSnoc(items: seq<ChecklistItem>, item: ChecklistItem)
    ensures Resumo(items + [item]) == Resumo(items) + ItemLine(item) + "\n"
  {
    assert ItemLines(items + [item]) == ItemLines(items) + [ItemLine(item)];
    TerminatedSnoc(ItemLines(items), ItemLine(item));
  }

  /** One step of `montarResumoChecklist`: the item's line and a newline are appended. */
  method AppendItemLine(ghost done: seq<ChecklistItem>, resumo: string, item: ChecklistItem) returns (r: string)
    requires resumo == Resumo(done)
    ensures r == Resumo(done + [item])
  {
    ResumoSnoc(done, item);
    r := resumo + ItemLine(item) + "\n";
  }

  /** `montarResumoChecklist`: appends, item by item, the item's line and a newline. */
  method MontarResumoChecklist(items: seq<ChecklistItem>) returns (resumo: string)
    ensures resumo == Resumo(items)
  {
    resumo := "";
    for i := 0 to |items|
      invariant resumo == Resumo(items[..i])
    {
      assert items[..i + 1] == items[..i] + [items[i]];
      resumo := AppendItemLine(items[..i], resumo, items[i]);
    }
    assert items[..|items|] == items;
  }

  /** Reads a text back as lines: each newline ends a line; text after the last newline is a last line. */
  function SplitLines(s: string): seq<string>
  {
    SplitLinesFrom("", s)
  }

  /** `SplitLines` with the part of the current line already read. */
  function SplitLinesFrom(current: string, s: string): seq<string>
    decreases |s|
  {
    if s == [] then (if current == "" then [] else [current])
    else if s[0] == '\n' then [current] + SplitLinesFrom("", s[1..])
    else SplitLinesFrom(current + [s[0]], s[1..])
  }

  /** A line without newlines, followed by a newline, is read back as one line. */
  lemma {:induction false} SplitLinesFromLine(current: string, line: string, rest: string)
    requires '\n' !in line
    decreases |line|
    ensures SplitLinesFrom(current, line + "\n" + rest) == [current + line] + SplitLinesFrom("", rest)
  {
    if line == [] {
      assert line + "\n" + rest == ['\n'] + rest;
      assert current + line == current;
    } else {
      var s := line + "\n" + rest;
      assert s[0] == line[0] && s[1..] == line[1..] + "\n" + rest;
      assert '\n' !in line[1..] by {
        forall k | 0 <= k < |line| - 1 ensures line[1..][k] != '\n' { assert line[1..][k] == line[k + 1]; }
      }
      SplitLinesFromLine(current + [line[0]], line[1..], rest);
      assert current + [line[0]] + line[1..] == current + line;
    }
  }

  /** Newline-terminated single-line lines are read back exactly, one per line, in order. */
  lemma {:induction false} TerminatedLines(lines: seq<string>)
    requires forall k :: 0 <= k < |lines| ==> '\n' !in lines[k]
    ensures SplitLines(Terminated(lines)) == lines
  {
    if lines != [] {
      SplitLinesFromLine("", lines[0], Terminated(lines[1..]));
      assert "" + lines[0] == lines[0];
      assert forall k :: 0 <= k < |lines| - 1 ==> '\n' !in lines[1..][k] by {
        forall k | 0 <= k < |lines| - 1 ensures '\n' !in lines[1..][k] { assert lines[1..][k] == lines[k + 1]; }
      }
      TerminatedLines(lines[1..]);
      assert [lines[0]] + lines[1..] == lines;
    }
  }

  /** Nothing the user typed or selected for an item, nor its title, contains a newline. */
  predicate SingleLineInputs(item: ChecklistItem)
  {
    && '\n' !in item.titulo
    && (item.status.Some? ==> '\n' !in item.status.value)
    && (forall j :: 0 <= j < |item.campos| ==> '\n' !in item.campos[j])
  }

  lemma {:induction false} JoinSingleLine(sep: string, parts: seq<string>)
    requires '\n' !in sep && forall k :: 0 <= k < |parts| ==> '\n' !in parts[k]
    ensures '\n' !in Join(sep, parts)
  {
    if |parts| > 1 {
      JoinSingleLine(sep, parts[1..]);
    }
  }

  lemma {:induction false} CleanValuesSingleLine(campos: seq<string>)
    requires forall j :: 0 <= j < |campos| ==> '\n' !in campos[j]
    ensures forall k :: 0 <= k < |CleanValues(campos)| ==> '\n' !in CleanValues(campos)[k]
  {
    if campos != [] {
      CleanValuesSingleLine(campos[1..]);
      var t := TrimStart(campos[0]);
      assert '\n' !in t by {
        forall k | 0 <= k < |t| ensures t[k] != '\n' { assert t[k] == campos[0][|campos[0]| - |t| + k]; }
      }
      var v := TrimEnd(t);
      assert '\n' !in v by {
        forall k | 0 <= k < |v| ensures v[k] != '\n' { assert v[k] == t[k]; }
      }
    }
  }

  /** An item's line is a single line when its title, status and typed texts are. */
  lemma ItemLineSingle(item: ChecklistItem)
    requires SingleLineInputs(item)
    ensures '\n' !in ItemLine(item)
  {
    var n := NatToString(item.numero);
    assert '\n' !in n by {
      forall k | 0 <= k < |n| ensures n[k] != '\n' { assert '0' <= n[k] <= '9'; }
    }
    var status := StatusText(item.status);
    assert '\n' !in status;
    assert '\n' !in ". " && '\n' !in " | Status: ";
    var header := n + ". " + item.titulo + " | Status: " + status;
    assert '\n' !in header;
    assert header == ItemHeader(item);
    var vals := CleanValues(item.campos);
    if vals != [] {
      CleanValuesSingleLine(item.campos);
      JoinSingleLine(" ; ", vals);
      assert '\n' !in " | Valores/Obs: ";
      assert ItemLine(item) == header + (" | Valores/Obs: " + Join(" ; ", vals));
    } else {
      assert ItemLine(item) == header + "";
    }
  }

  /**
   * The checklist summary of the form has exactly one newline-terminated line
   * per table row, in table order: line `i` is row `i + 1`'s number, title,
   * status and values. The table's titles are taken to be single-line, like
   * the texts typed into the form.
   */
  lemma ChecklistResumoLines(statuses: seq<Option<string>>, campos: seq<seq<string>>)
    requires |statuses| == |ChecklistTable| && |campos| == |ChecklistTable|
    requires forall i :: 0 <= i < |ChecklistTable| ==> |campos[i]| == ChecklistTable[i].fieldCount
    requires forall i :: 0 <= i < |ChecklistTable| ==> SingleLineInputs(FillRows(ChecklistTable, statuses, campos)[i])
    ensures |SplitLines(Resumo(FillRows(ChecklistTable, statuses, campos)))| == 42
    ensures forall i :: 0 <= i < 42 ==>
      SplitLines(Resumo(FillRows(ChecklistTable, statuses, campos)))[i]
      == ItemLine(ChecklistItem(i + 1, ChecklistTable[i].titulo, statuses[i], campos[i]))
  {
    ChecklistTableNumbered();
    var items := FillRows(ChecklistTable, statuses, campos);
    var lines := ItemLines(items);
    forall k | 0 <= k < |lines| ensures '\n' !in lines[k] {
      ItemLineSingle(items[k]);
    }
    TerminatedLines(lines);
  }

  // ---------------------------------------------------------------------
  // Saving: the checks made before the report is sent, and what is sent
  // ---------------------------------------------------------------------

  /** A client offered by the client spinner. */
  datatype ClienteRemoto = ClienteRemoto(id: int, nomeFantasia: string)

  /** The state of the form when "save" is pressed. */
  datatype SaveForm = SaveForm(
    clientes: seq<ClienteRemoto>,
    idxCliente: int,
    dataEntrada: string,
    dataSaida: string,
    modelo: string,
    tipo: Option<string>,
    observacoes: string,
    tecnicoSelecionadoId: Option<int>,
    imagensUris: seq<string>)

  /** The report's detailed content, sent as the `content` string of the request. */
  datatype ReportContent = ReportContent(
    dataEntrada: string,
    dataSaida: string,
    modeloMaquina: string,
    tipoManutencao: string,
    observacoes: string,
    checklistResumo: string,
    imagensUris: seq<string>)

  /** The body of the `POST /api/reports` request; `None` stands for JSON null. */
  datatype ReportBody = ReportBody(
    reportType: string,
    clientId: int,
    machineId: Option<int>,
    technicianId: Option<int>,
    title: string,
    content: ReportContent,
    pdfUrl: Option<string>)

  const MsgNoClients: string := "Cadastre pelo menos um cliente."
  const MsgSelectClient: string := "Selecione um cliente."
  const MsgMissingFields: string := "Preencha data de entrada, saída, modelo e cliente."
  const MsgSessionExpired: string := "Sessão expirada. Faça login novamente."
  const MsgNoConnection: string := "Sem conexão com a internet."
  const MsgSaved: string := "Relatório de compressor salvo no servidor."

  /**
   * What pressing "save" does before any request: refuse with a message,
   * end the screen because the session expired, crash on a client index past
   * the list (the list read is unguarded), or send the request body.
   */
  datatype SaveDecision =
    | Refused(message: string)
    | ExpiredSession
    | ClientIndexOutOfRange
    | SendRequest(body: ReportBody)

  /** The three required fields, trimmed, are all present. */
  predicate RequiredFieldsFilled(form: SaveForm)
  {
    Trim(form.dataEntrada) != "" && Trim(form.dataSaida) != "" && Trim(form.modelo) != ""
  }

  /**
   * `salvarRelatorio` up to the request: the checks run in source order
   * (clients, client selection, required fields, session token, connection),
   * and a request is built only when all pass. `checklistResumo` is the
   * summary built by `MontarResumoChecklist`.
   */
  function SalvarRelatorio(form: SaveForm, checklistResumo: string, token: Option<string>, online: bool): (d: SaveDecision)
    ensures form.clientes == [] ==> d == Refused(MsgNoClients)
    ensures form.clientes != [] && form.idxCliente < 0 ==> d == Refused(MsgSelectClient)
    ensures 0 <= form.idxCliente < |form.clientes| && !RequiredFieldsFilled(form) ==> d == Refused(MsgMissingFields)
    ensures d == ClientIndexOutOfRange <==> form.clientes != [] && form.idxCliente >= |form.clientes|
    ensures d == ExpiredSession <==>
      0 <= form.idxCliente < |form.clientes| && RequiredFieldsFilled(form) && (token.None? || token.value == "")
    ensures d.SendRequest? <==>
      0 <= form.idxCliente < |form.clientes| && RequiredFieldsFilled(form) && token.Some? && token.value != "" && online
    ensures 0 <= form.idxCliente < |form.clientes| && RequiredFieldsFilled(form) && token.Some? && token.value != "" && !online
      ==> d == Refused(MsgNoConnection)
    ensures d.SendRequest? ==>
      && d.body.reportType == "compressor"
      && d.body.clientId == form.clientes[form.idxCliente].id
      && d.body.machineId.None? && d.body.pdfUrl.None?
      && d.body.technicianId == form.tecnicoSelecionadoId
      && d.body.title == "Relatório compressor - " + Trim(form.modelo)
      && d.body.content == ReportContent(Trim(form.dataEntrada), Trim(form.dataSaida), Trim(form.modelo),
                                         form.tipo.GetOr(""), Trim(form.observacoes), checklistResumo, form.imagensUris)
  {
    if form.clientes == [] then Refused(MsgNoClients)
    else if form.idxCliente < 0 then Refused(MsgSelectClient)
    else if form.idxCliente >= |form.clientes| then ClientIndexOutOfRange
    else
      var cliente := form.clientes[form.idxCliente];
      var dataEntrada := Trim(form.dataEntrada);
      var dataSaida := Trim(form.dataSaida);
      var modelo := Trim(form.modelo);
      if dataEntrada == "" || dataSaida == "" || modelo == "" then Refused(MsgMissingFields)
      else if token.None? || token.value == "" then ExpiredSession
      else if !online then Refused(MsgNoConnection)
      else
        var content := ReportContent(dataEntrada, dataSaida, modelo, form.tipo.GetOr(""),
                                     Trim(form.observacoes), checklistResumo, form.imagensUris);
        SendRequest(ReportBody("compressor", cliente.id, None, form.tecnicoSelecionadoId,
                               "Relatório compressor - " + modelo, content, None))
  }

  /** What the save request came back with. */
  datatype SaveOutcome = SaveReply(code: nat, body: string) | SaveException(message: string)

  /**
   * The result of the save request: success (the screen closes) only on a
   * 2xx reply; otherwise the message shown, the button being enabled again.
   */
  function SaveResult(outcome: SaveOutcome): (r: (bool, string))
    ensures r.0 <==> outcome.SaveReply? && 200 <= outcome.code < 300
    ensures r.0 ==> r.1 == MsgSaved
    ensures outcome.SaveReply? && !r.0 ==>
      r.1 == "Erro ao salvar relatório: " + NatToString(outcome.code) + " - " + outcome.body
    ensures outcome.SaveException? ==> r.1 == "Erro: " + outcome.message
  {
    match outcome
    case SaveException(message) => (false, "Erro: " + message)
    case SaveReply(code, body) =>
      if 200 <= code < 300 then (true, MsgSaved)
      else (false, "Erro ao salvar relatório: " + NatToString(code) + " - " + body)
  }

  // ---------------------------------------------------------------------
  // The image picker
  // ---------------------------------------------------------------------

  /** The images selected on the form, kept as their URI strings. */
  class ImageSelection {
    var imagensUris: seq<string>

    constructor ()
      ensures imagensUris == []
    {
      imagensUris := [];
    }

    /**
     * The picker's callback: a non-empty pick replaces the whole selection
     * (clear, then add all) and reports how many images were chosen; a null
     * or empty pick leaves the selection as it was and reports nothing.
     */
    method OnImagesPicked(uris: Option<seq<string>>) returns (toast: Option<string>)
      modifies this
      ensures uris.Some? && uris.value != [] ==>
        imagensUris == uris.value && toast == Some(NatToString(|uris.value|) + " imagem(ns) selecionada(s).")
      ensures uris.None? || uris.value == [] ==> imagensUris == old(imagensUris) && toast.None?
    {
      toast := None;
      if uris.Some? && uris.value != [] {
        imagensUris := [];
        imagensUris := imagensUris + uris.value;
        toast := Some(NatToString(|uris.value|) + " imagem(ns) selecionada(s).");
      }
    }
  }
}
