/**
 * The simple one-page report of `PdfGenerator.gerarPdf`: a fixed block of
 * header lines, then up to three labelled texts broken greedily into lines
 * no wider than 480 points, then the signature line. Text widths come from
 * the paint's `measureText`, given here as a function; every `drawText` call
 * is recorded with its text, baseline and paint (the x coordinate is always 50).
 */
module PdfGenerator {
  import opened Wrappers
  import opened Text

  /** The widest a line may be, in points. */
  const MaxWidth: real := 480.0

  /** The three paints of the page: title (18 pt bold), subtitle (12 pt bold) and body text (10 pt). */
  datatype PaintKind = TitlePaint | SubPaint | TextPaint

  /** One `drawText` call: what was drawn, on which baseline, with which paint. */
  datatype DrawnText = DrawnText(text: string, y: real, paint: PaintKind)

  // ---------------------------------------------------------------------
  // The greedy line breaking of `drawWrappedText`, as a specification
  // ---------------------------------------------------------------------

  /**
   * The line made of a group of words: each word is added after a space,
   * except onto a line that is still empty.
   */
  function Glue(group: seq<string>): string
  {
    if group == [] then ""
    else
      var line := Glue(group[..|group| - 1]);
      var w := group[|group| - 1];
      if line == "" then w else line + " " + w
  }

  /** Adding a word to a group gives the line the loop tests. */
  lemma GlueSnoc(group: seq<string>, w: string)
    ensures Glue(group + [w]) == if Glue(group) == "" then w else Glue(group) + " " + w
  {
    assert (group + [w])[..|group|] == group;
  }

  /** A group glues to the empty line only when all its words are empty. */
  lemma {:induction false} GlueEmpty(group: seq<string>)
    ensures Glue(group) == "" <==> forall k :: 0 <= k < |group| ==> group[k] == ""
  {
    if group != [] {
      var init := group[..|group| - 1];
      GlueEmpty(init);
      assert forall k :: 0 <= k < |init| ==> init[k] == group[k];
      if Glue(init) != "" {
        assert |Glue(group)| > 0;
      }
    }
  }

  /**
   * The state of the loop after some words: the groups of the lines already
   * drawn, and the group of the line being built.
   */
  datatype WrapState = WrapState(done: seq<seq<string>>, group: seq<string>)

  /**
   * One iteration: the word joins the current line exactly when the extended
   * line measures at most `MaxWidth`; otherwise the current line is drawn and
   * the word starts a new one.
   */
  function WrapStep(measure: string -> real, st: WrapState, w: string): WrapState
  {
    if measure(Glue(st.group + [w])) > MaxWidth then WrapState(st.done + [st.group], [w])
    else WrapState(st.done, st.group + [w])
  }

  /** The state after all the words, taken left to right from an empty line. */
  function Wrap(measure: string -> real, words: seq<string>): WrapState
  {
    if words == [] then WrapState([], [])
    else WrapStep(measure, Wrap(measure, words[..|words| - 1]), words[|words| - 1])
  }

  /** The groups whose lines are drawn: those drawn in the loop, and the last one unless its line is empty. */
  function DrawnGroups(st: WrapState): seq<seq<string>>
  {
    st.done + (if Glue(st.group) != "" then [st.group] else [])
  }

  /** The lines `drawWrappedText` draws for the words, in order. */
  function WrapLines(measure: string -> real, words: seq<string>): seq<string>
  {
    var groups := DrawnGroups(Wrap(measure, words));
    seq(|groups|, k requires 0 <= k < |groups| => Glue(groups[k]))
  }

  /** The words of a sequence of groups, in order. */
  function Flatten(groups: seq<seq<string>>): seq<string>
  {
    if groups == [] then [] else Flatten(groups[..|groups| - 1]) + groups[|groups| - 1]
  }

  lemma FlattenSnoc(groups: seq<seq<string>>, g: seq<string>)
    ensures Flatten(groups + [g]) == Flatten(groups) + g
  {
    assert (groups + [g])[..|groups|] == groups;
  }

  /** All the groups of a state, the current one last. */
  function AllGroups(st: WrapState): seq<seq<string>>
  {
    st.done + [st.group]
  }

  /** The groups hold the words, in order. */
  predicate KeepsWords(words: seq<string>, st: WrapState)
  {
    Flatten(AllGroups(st)) == words
  }

  /** Every group of two or more words fits. */
  predicate GroupsFit(measure: string -> real, st: WrapState)
  {
    forall k :: 0 <= k < |AllGroups(st)| && |AllGroups(st)[k]| >= 2 ==> measure(Glue(AllGroups(st)[k])) <= MaxWidth
  }

  /** Only the first group can be empty. */
  predicate OnlyFirstEmpty(st: WrapState)
  {
    forall k :: 0 < k < |AllGroups(st)| ==> AllGroups(st)[k] != []
  }

  /** The `k`-th drawn group was drawn because adding the first word of the next group made it too wide. */
  predicate BreakForced(measure: string -> real, st: WrapState, k: nat)
    requires k < |st.done|
  {
    AllGroups(st)[k + 1] != [] && measure(Glue(st.done[k] + [AllGroups(st)[k + 1][0]])) > MaxWidth
  }

  /** Every drawn group was drawn because the next word did not fit. */
  predicate BrokenGreedily(measure: string -> real, st: WrapState)
  {
    forall k: nat :: k < |st.done| ==> BreakForced(measure, st, k)
  }

  // Each part of the invariant is kept by one step, and so holds after any words.

  lemma StepKeepsWords(measure: string -> real, words: seq<string>, st: WrapState, w: string)
    requires KeepsWords(words, st)
    ensures KeepsWords(words + [w], WrapStep(measure, st, w))
  {
    if measure(Glue(st.group + [w])) > MaxWidth {
      assert AllGroups(WrapStep(measure, st, w)) == AllGroups(st) + [[w]];
      FlattenSnoc(AllGroups(st), [w]);
    } else {
      assert AllGroups(WrapStep(measure, st, w)) == st.done + [st.group + [w]];
      FlattenSnoc(st.done, st.group);
      FlattenSnoc(st.done, st.group + [w]);
    }
  }

  lemma StepGroupsFit(measure: string -> real, st: WrapState, w: string)
    requires GroupsFit(measure, st)
    ensures GroupsFit(measure, WrapStep(measure, st, w))
  {
    var st' := WrapStep(measure, st, w);
    forall k | 0 <= k < |AllGroups(st')| && |AllGroups(st')[k]| >= 2
      ensures measure(Glue(AllGroups(st')[k])) <= MaxWidth
    {
      if k < |st.done| {
        assert AllGroups(st')[k] == AllGroups(st)[k];
      } else if measure(Glue(st.group + [w])) > MaxWidth {
        assert AllGroups(st')[k] == AllGroups(st)[k];
      }
    }
  }

  lemma StepOnlyFirstEmpty(measure: string -> real, st: WrapState, w: string)
    requires OnlyFirstEmpty(st)
    ensures OnlyFirstEmpty(WrapStep(measure, st, w))
  {
    var st' := WrapStep(measure, st, w);
    forall k | 0 < k < |AllGroups(st')| ensures AllGroups(st')[k] != [] {
      if k < |st.done| {
        assert AllGroups(st')[k] == AllGroups(st)[k];
      } else if measure(Glue(st.group + [w])) > MaxWidth && k == |st.done| {
        assert AllGroups(st')[k] == AllGroups(st)[k];
      }
    }
  }

  lemma StepBrokenGreedily(measure: string -> real, st: WrapState, w: string)
    requires BrokenGreedily(measure, st)
    ensures BrokenGreedily(measure, WrapStep(measure, st, w))
  {
    var st' := WrapStep(measure, st, w);
    forall k: nat | k < |st'.done| ensures BreakForced(measure, st', k) {
      var next := AllGroups(st')[k + 1];
      if measure(Glue(st.group + [w])) > MaxWidth {
        if k < |st.done| {
          assert BreakForced(measure, st, k);
          assert st'.done[k] == st.done[k] && next == AllGroups(st)[k + 1];
        } else {
          assert st'.done[k] == st.group && next == [w];
        }
      } else if k + 1 < |st.done| {
        assert BreakForced(measure, st, k);
        assert st'.done[k] == st.done[k] && next == AllGroups(st)[k + 1];
      } else {
        assert BreakForced(measure, st, k);
        assert AllGroups(st)[k + 1] == st.group && next == st.group + [w];
        assert next[0] == st.group[0];
      }
    }
  }

  lemma {:induction false} WrapKeepsAllWords(measure: string -> real, words: seq<string>)
    ensures KeepsWords(words, Wrap(measure, words))
  {
    if words == [] {
      assert AllGroups(Wrap(measure, words)) == [[]];
      assert Flatten([[]]) == Flatten([]) + [];
    } else {
      var init := words[..|words| - 1];
      WrapKeepsAllWords(measure, init);
      StepKeepsWords(measure, init, Wrap(measure, init), words[|words| - 1]);
      assert init + [words[|words| - 1]] == words;
    }
  }

  lemma {:induction false} WrapGroupsFit(measure: string -> real, words: seq<string>)
    ensures GroupsFit(measure, Wrap(measure, words))
  {
    if words != [] {
      var init := words[..|words| - 1];
      WrapGroupsFit(measure, init);
      StepGroupsFit(measure, Wrap(measure, init), words[|words| - 1]);
    }
  }

  lemma {:induction false} WrapOnlyFirstEmpty(measure: string -> real, words: seq<string>)
    ensures OnlyFirstEmpty(Wrap(measure, words))
  {
    if words != [] {
      var init := words[..|words| - 1];
      WrapOnlyFirstEmpty(measure, init);
      StepOnlyFirstEmpty(measure, Wrap(measure, init), words[|words| - 1]);
    }
  }

  /**
   * Every word of the text is drawn once, in order: the drawn lines' groups,
   * followed by a last group whose words are all empty (and whose line is
   * therefore not drawn), are exactly the words.
   */
  lemma WrapKeepsWords(measure: string -> real, words: seq<string>)
    ensures var st := Wrap(measure, words);
      exists dropped: seq<string> ::
        && Flatten(DrawnGroups(st)) + dropped == words
        && (forall k :: 0 <= k < |dropped| ==> dropped[k] == "")
        && (dropped != [] ==> Glue(st.group) == "")
  {
    var st := Wrap(measure, words);
    WrapKeepsAllWords(measure, words);
    if Glue(st.group) != "" {
      assert DrawnGroups(st) == AllGroups(st);
      assert Flatten(DrawnGroups(st)) + [] == words;
    } else {
      GlueEmpty(st.group);
      FlattenSnoc(st.done, st.group);
      assert DrawnGroups(st) == st.done;
      assert Flatten(DrawnGroups(st)) + st.group == words;
    }
  }

  /**
   * A drawn line of two or more words is at most `MaxWidth` wide; only a line
   * that is a single overlong word, or the empty first line such a word
   * forces, can be otherwise, and an empty group can only come first.
   */
  lemma WrapLinesFit(measure: string -> real, words: seq<string>)
    ensures var groups := DrawnGroups(Wrap(measure, words));
      && (forall k :: 0 <= k < |groups| && |groups[k]| >= 2 ==> measure(Glue(groups[k])) <= MaxWidth)
      && (forall k :: 0 < k < |groups| ==> groups[k] != [])
  {
    var st := Wrap(measure, words);
    WrapGroupsFit(measure, words);
    WrapOnlyFirstEmpty(measure, words);
    var groups := DrawnGroups(st);
    forall k | 0 <= k < |groups| ensures groups[k] == AllGroups(st)[k] { }
  }

  /** The lines of the groups used by `WrapEmptyWordLine`. */
  lemma GlueExamples()
    ensures Glue(["A"]) == "A" && Glue(["B"]) == "B" && Glue([""]) == ""
    ensures Glue(["A", ""]) == "A " && Glue(["", "B"]) == "B"
  {
    GlueSnoc([], "A");
    GlueSnoc([], "B");
    GlueSnoc([], "");
    assert [] + ["A"] == ["A"] && [] + ["B"] == ["B"] && [] + [""] == [""];
    GlueSnoc(["A"], "");
    assert ["A"] + [""] == ["A", ""] && "A" + " " + "" == "A ";
    GlueSnoc([""], "B");
    assert [""] + ["B"] == ["", "B"];
  }

  /** The loop's state after the words `A`, the empty word and `B`, when only `A` alone fits. */
  lemma WrapEmptyWordState(measure: string -> real)
    requires measure("A") <= MaxWidth && measure("A ") > MaxWidth && measure("B") > MaxWidth
    ensures Wrap(measure, ["A", "", "B"]) == WrapState([["A"], [""]], ["B"])
  {
    GlueExamples();
    var words := ["A", "", "B"];
    assert words[..2] == ["A", ""] && words[..2][..1] == ["A"] && words[..2][..1][..0] == [];
    assert [] + ["A"] == ["A"] && ["A"] + [""] == ["A", ""] && [""] + ["B"] == ["", "B"];
    assert Wrap(measure, ["A"]) == WrapState([], ["A"]);
    assert [] + [["A"]] == [["A"]];
    assert Wrap(measure, ["A", ""]) == WrapState([["A"]], [""]);
    assert [["A"]] + [[""]] == [["A"], [""]];
  }

  /**
   * A line after the first can still be empty: a double space gives an empty
   * word, which starts a line of its own when it does not fit after the
   * previous word, and that empty line is drawn once the next word does not
   * fit after it either.
   */
  lemma WrapEmptyWordLine(measure: string -> real)
    requires measure("A") <= MaxWidth && measure("A ") > MaxWidth && measure("B") > MaxWidth
    ensures WrapLines(measure, ["A", "", "B"]) == ["A", "", "B"]
  {
    WrapEmptyWordState(measure);
    GlueExamples();
    var groups := DrawnGroups(Wrap(measure, ["A", "", "B"]));
    assert groups == [["A"], [""], ["B"]];
  }

  /**
   * The breaking is greedy: a line drawn before the last was drawn only
   * because adding the next word, which starts the following line, would
   * have made it wider than `MaxWidth`.
   */
  lemma {:induction false} WrapIsGreedy(measure: string -> real, words: seq<string>)
    ensures BrokenGreedily(measure, Wrap(measure, words))
  {
    if words != [] {
      var init := words[..|words| - 1];
      WrapIsGreedy(measure, init);
      StepBrokenGreedily(measure, Wrap(measure, init), words[|words| - 1]);
    }
  }

  /** How far `drawWrappedText` moves the cursor: nothing for a null or blank text. */
  function WrapAdvance(measure: string -> real, text: Option<string>): real
  {
    if text.None? || IsBlank(text.value) then 0.0
    else
      var st := Wrap(measure, SplitOnSpace(text.value));
      16.0 + 14.0 * (|st.done| as real) + (if Glue(st.group) != "" then 16.0 else 0.0) + 8.0
  }

  /** A drawn text moves the cursor by at least 24 points; a null or blank one does not move it. */
  lemma WrapAdvanceBounds(measure: string -> real, text: Option<string>)
    ensures text.None? || IsBlank(text.value) ==> WrapAdvance(measure, text) == 0.0
    ensures text.Some? && !IsBlank(text.value) ==> WrapAdvance(measure, text) >= 24.0
  {
  }

  /**
   * What `drawWrappedText(heading, text)` draws with the cursor at `y0`:
   * nothing for a null or blank text; otherwise the heading on `y0`, then the
   * wrapped lines of the text's words, the first 16 below the heading and
   * each next one 14 lower.
   */
  function WrappedBlock(y0: real, heading: string, text: Option<string>, measure: string -> real): seq<DrawnText>
  {
    if text.None? || IsBlank(text.value) then []
    else
      var lines := WrapLines(measure, SplitOnSpace(text.value));
      [DrawnText(heading, y0, SubPaint)]
        + seq(|lines|, k requires 0 <= k < |lines| => DrawnText(lines[k], y0 + 16.0 + 14.0 * (k as real), TextPaint))
  }

  /** A non-blank text's block is its heading followed by the drawn lines. */
  lemma WrappedBlockLines(y0: real, heading: string, text: Option<string>, measure: string -> real, drawn: seq<DrawnText>)
    requires text.Some? && !IsBlank(text.value)
    requires var groups := DrawnGroups(Wrap(measure, SplitOnSpace(text.value)));
      && |drawn| == |groups|
      && forall k :: 0 <= k < |groups| ==> drawn[k] == DrawnText(Glue(groups[k]), y0 + 16.0 + 14.0 * (k as real), TextPaint)
    ensures WrappedBlock(y0, heading, text, measure) == [DrawnText(heading, y0, SubPaint)] + drawn
  {
    var lines := WrapLines(measure, SplitOnSpace(text.value));
    var block := WrappedBlock(y0, heading, text, measure);
    var expected := [DrawnText(heading, y0, SubPaint)] + drawn;
    assert |block| == |expected|;
    forall k | 0 < k < |block|
      ensures block[k] == expected[k]
    {
      assert block[k] == DrawnText(lines[k - 1], y0 + 16.0 + 14.0 * ((k - 1) as real), TextPaint);
    }
  }

  /**
   * A block lies between its cursor and the cursor moved by the text's
   * advance, top to bottom: the heading first, each line below the previous.
   */
  lemma WrappedBlockPlacement(y0: real, heading: string, text: Option<string>, measure: string -> real)
    ensures Between(WrappedBlock(y0, heading, text, measure), y0, y0 + WrapAdvance(measure, text))
    ensures Ascending(WrappedBlock(y0, heading, text, measure))
  {
    if text.Some? && !IsBlank(text.value) {
      var st := Wrap(measure, SplitOnSpace(text.value));
      var groups := DrawnGroups(st);
      var block := WrappedBlock(y0, heading, text, measure);
      var y := y0 + WrapAdvance(measure, text);
      assert |groups| <= |st.done| + 1;
      assert |block| == 1 + |groups|;
      forall k | 0 <= k < |block|
        ensures y0 <= block[k].y < y
      {
        if k > 0 {
          assert block[k].y == y0 + 16.0 + 14.0 * ((k - 1) as real);
          if k - 1 == |st.done| {
            assert groups[k - 1] == st.group;
          }
        }
      }
      forall k | 0 <= k < |block| - 1
        ensures block[k].y < block[k + 1].y
      {
        if k > 0 {
          assert block[k].y == y0 + 16.0 + 14.0 * ((k - 1) as real);
        }
      }
    }
  }

  /**
   * The three wrapped texts of the page from the cursor `y0`: the occurrence,
   * then the proposed solution where the occurrence's advance leaves the
   * cursor, then the parts list where the solution's leaves it.
   */
  function SectionsBlock(y0: real, r: Relatorio, measure: string -> real): seq<DrawnText>
  {
    WrappedBlock(y0, OcorrenciaHeading, Some(r.ocorrencia), measure)
      + WrappedBlock(SolucaoTop(y0, r, measure), SolucaoHeading, Some(r.solucaoProposta), measure)
      + WrappedBlock(PecasTop(y0, r, measure), PecasHeading, r.pecasTexto, measure)
  }

  /** Where the proposed solution starts: below the occurrence. */
  function SolucaoTop(y0: real, r: Relatorio, measure: string -> real): real
  {
    y0 + WrapAdvance(measure, Some(r.ocorrencia))
  }

  /** Where the parts list starts: below the proposed solution. */
  function PecasTop(y0: real, r: Relatorio, measure: string -> real): real
  {
    SolucaoTop(y0, r, measure) + WrapAdvance(measure, Some(r.solucaoProposta))
  }

  // ---------------------------------------------------------------------
  // The drawing
  // ---------------------------------------------------------------------

  /**
   * The loop of `drawWrappedText` and the line after it, with the cursor at
   * `y0` below the heading: each line drawn inside the loop moves the cursor
   * 14, and the last line, when not empty, is drawn and moves it 16.
   */
  method DrawLines(y0: real, words: seq<string>, measure: string -> real) returns (y: real, drawn: seq<DrawnText>)
    ensures var groups := DrawnGroups(Wrap(measure, words));
      && |drawn| == |groups|
      && forall k :: 0 <= k < |groups| ==> drawn[k] == DrawnText(Glue(groups[k]), y0 + 14.0 * (k as real), TextPaint)
    ensures var st := Wrap(measure, words);
      y == y0 + 14.0 * (|st.done| as real) + (if Glue(st.group) != "" then 16.0 else 0.0)
  {
    y, drawn := y0, [];
    var line := "";
    ghost var st := WrapState([], []);
    for i := 0 to |words|
      invariant st == Wrap(measure, words[..i])
      invariant DrawnSoFar(y0, st, line, y, drawn)
    {
      assert words[..i + 1][..i] == words[..i];
      line, y, drawn := AddWord(y0, st, line, y, drawn, words[i], measure);
      st := WrapStep(measure, st, words[i]);
    }
    assert words[..|words|] == words;
    if line != "" {
      drawn := drawn + [DrawnText(line, y, TextPaint)];
      y := y + 16.0;
    }
  }

  /**
   * What the loop of `drawWrappedText` has done for the state `st`: `line`
   * is the line being built, the lines of the groups closed so far are drawn
   * 14 apart from `y0`, and the cursor is under the last of them.
   */
  predicate DrawnSoFar(y0: real, st: WrapState, line: string, y: real, drawn: seq<DrawnText>)
  {
    && line == Glue(st.group)
    && y == y0 + 14.0 * (|st.done| as real)
    && |drawn| == |st.done|
    && forall k :: 0 <= k < |st.done| ==> drawn[k] == DrawnText(Glue(st.done[k]), y0 + 14.0 * (k as real), TextPaint)
  }

  /**
   * One turn of the loop: the word is added to the line after a space when
   * the result measures at most `MaxWidth`; otherwise the line is drawn, the
   * cursor moves 14, and the word starts the next line.
   */
  method AddWord(y0: real, ghost st: WrapState, line: string, y: real, drawn: seq<DrawnText>, w: string, measure: string -> real)
    returns (line': string, y': real, drawn': seq<DrawnText>)
    requires DrawnSoFar(y0, st, line, y, drawn)
    ensures DrawnSoFar(y0, WrapStep(measure, st, w), line', y', drawn')
  {
    var testLine := if line == "" then w else line + " " + w;
    GlueSnoc(st.group, w);
    if measure(testLine) > MaxWidth {
      drawn' := drawn + [DrawnText(line, y, TextPaint)];
      y' := y + 14.0;
      line' := w;
      GlueSnoc([], w);
      assert [] + [w] == [w];
    } else {
      line', y', drawn' := testLine, y, drawn;
    }
  }

  /**
   * `drawWrappedText(heading, text)` with the cursor at `y0`: a null or blank
   * text draws nothing and leaves the cursor; otherwise the heading is drawn,
   * the cursor moves 16, the lines are drawn, and then it moves 8.
   */
  method DrawWrappedText(y0: real, heading: string, text: Option<string>, measure: string -> real)
    returns (y: real, drawn: seq<DrawnText>)
    ensures drawn == WrappedBlock(y0, heading, text, measure)
    ensures y == y0 + WrapAdvance(measure, text)
    ensures Between(drawn, y0, y) && Ascending(drawn)
  {
    if text.None? || IsBlank(text.value) {
      return y0, [];
    }
    var words := SplitOnSpace(text.value);
    var lines;
    y, lines := DrawLines(y0 + 16.0, words, measure);
    drawn := [DrawnText(heading, y0, SubPaint)] + lines;
    y := y + 8.0;
    WrappedBlockLines(y0, heading, text, measure, lines);
    WrappedBlockPlacement(y0, heading, text, measure);
  }

  /** The client fields the page prints. */
  datatype Cliente = Cliente(nomeFantasia: string, razaoSocial: string, documento: Option<string>, endereco: Option<string>)

  /** The report fields the page prints; the two dates come already formatted as `dd/MM/yyyy HH:mm`. */
  datatype Relatorio = Relatorio(
    dataEntrada: string,
    dataSaida: string,
    modeloMaquina: string,
    tipoManutencao: string,
    ocorrencia: string,
    solucaoProposta: string,
    pecasTexto: Option<string>)

  /** The headings of the three wrapped texts. */
  const OcorrenciaHeading: string := "Ocorrência"
  const SolucaoHeading: string := "Solução proposta"
  const PecasHeading: string := "Lista de peças"

  const SignatureText: string := "Assinatura do responsável: ____________________________"

  /** The fixed block at the top of the page: title, client data and service data, 11 texts. */
  function HeaderBlock(c: Cliente, r: Relatorio): seq<DrawnText>
  {
    [ DrawnText("Relatório Técnico de Manutenção", 60.0, TitlePaint),
      DrawnText("Dados do Cliente", 80.0, SubPaint),
      DrawnText("Nome fantasia: " + c.nomeFantasia, 96.0, TextPaint),
      DrawnText("Razão social: " + c.razaoSocial, 110.0, TextPaint),
      DrawnText("CNPJ/CPF: " + c.documento.GetOr(""), 124.0, TextPaint),
      DrawnText("Endereço: " + c.endereco.GetOr(""), 138.0, TextPaint),
      DrawnText("Dados do Atendimento", 162.0, SubPaint),
      DrawnText("Entrada: " + r.dataEntrada, 178.0, TextPaint),
      DrawnText("Saída:   " + r.dataSaida, 192.0, TextPaint),
      DrawnText("Modelo da máquina: " + r.modeloMaquina, 206.0, TextPaint),
      DrawnText("Tipo de manutenção: " + r.tipoManutencao, 220.0, TextPaint) ]
  }

  /**
   * `gerarPdf`'s drawing: the fixed header block, whose cursor ends at 240
   * whatever the content, then the occurrence, the proposed solution and the
   * parts list, each wrapped, then the signature 30 below the end of the last.
   * Baselines strictly increase down the page.
   */
  method GerarPdf(c: Cliente, r: Relatorio, measure: string -> real) returns (drawn: seq<DrawnText>)
    ensures drawn == HeaderBlock(c, r) + SectionsBlock(240.0, r, measure)
      + [DrawnText(SignatureText,
                   240.0 + WrapAdvance(measure, Some(r.ocorrencia)) + WrapAdvance(measure, Some(r.solucaoProposta))
                         + WrapAdvance(measure, r.pecasTexto) + 30.0, TextPaint)]
    ensures forall k :: 0 <= k < |drawn| - 1 ==> drawn[k].y < drawn[k + 1].y
  {
    var y, sections;
    y, drawn := DrawHeader(c, r);
    ghost var header := drawn;
    var yEnd;
    yEnd, sections := DrawSections(y, r, measure);
    drawn := Append(drawn, sections, y);
    y := yEnd + 30.0;
    drawn := Append(drawn, [DrawnText(SignatureText, y, TextPaint)], y);
  }

  /** Baselines strictly increase down the page. */
  predicate Ascending(drawn: seq<DrawnText>)
  {
    forall k :: 0 <= k < |drawn| - 1 ==> drawn[k].y < drawn[k + 1].y
  }

  /** Every baseline lies in `[lo, hi)`. */
  predicate Between(drawn: seq<DrawnText>, lo: real, hi: real)
  {
    forall k :: 0 <= k < |drawn| ==> lo <= drawn[k].y < hi
  }

  /**
   * The occurrence, the proposed solution and the parts list, each wrapped
   * under its heading from the cursor `y0`: the cursor moves by the three
   * advances, and everything lands between `y0` and it, top to bottom.
   */
  method DrawSections(y0: real, r: Relatorio, measure: string -> real) returns (y: real, drawn: seq<DrawnText>)
    ensures y == y0 + WrapAdvance(measure, Some(r.ocorrencia)) + WrapAdvance(measure, Some(r.solucaoProposta))
                   + WrapAdvance(measure, r.pecasTexto)
    ensures drawn == SectionsBlock(y0, r, measure)
    ensures Between(drawn, y0, y) && Ascending(drawn)
  {
    var y1, d1 := DrawBlock(y0, [], y0, OcorrenciaHeading, Some(r.ocorrencia), measure);
    var y2, d2 := DrawBlock(y0, d1, y1, SolucaoHeading, Some(r.solucaoProposta), measure);
    y, drawn := DrawBlock(y0, d2, y2, PecasHeading, r.pecasTexto, measure);
    SectionsBlockChain(y0, r, measure, y1, y2, d1, d2, drawn);
  }

  /** The three blocks appended one after the other, each at the cursor the previous leaves, are `SectionsBlock`. */
  lemma SectionsBlockChain(y0: real, r: Relatorio, measure: string -> real, y1: real, y2: real,
                           d1: seq<DrawnText>, d2: seq<DrawnText>, d3: seq<DrawnText>)
    requires y1 == y0 + WrapAdvance(measure, Some(r.ocorrencia))
    requires y2 == y1 + WrapAdvance(measure, Some(r.solucaoProposta))
    requires d1 == [] + WrappedBlock(y0, OcorrenciaHeading, Some(r.ocorrencia), measure)
    requires d2 == d1 + WrappedBlock(y1, SolucaoHeading, Some(r.solucaoProposta), measure)
    requires d3 == d2 + WrappedBlock(y2, PecasHeading, r.pecasTexto, measure)
    ensures d3 == SectionsBlock(y0, r, measure)
  {
    assert y1 == SolucaoTop(y0, r, measure);
    assert y2 == PecasTop(y0, r, measure);
    assert d1 == WrappedBlock(y0, OcorrenciaHeading, Some(r.ocorrencia), measure);
  }

  /** One more wrapped text under what is drawn, from the cursor `y`. */
  method DrawBlock(y0: real, drawn: seq<DrawnText>, y: real, heading: string, text: Option<string>, measure: string -> real)
    returns (y': real, drawn': seq<DrawnText>)
    requires y0 <= y && Between(drawn, y0, y) && Ascending(drawn)
    ensures y' == y + WrapAdvance(measure, text)
    ensures drawn' == drawn + WrappedBlock(y, heading, text, measure)
    ensures Between(drawn', y0, y') && Ascending(drawn')
  {
    WrapAdvanceBounds(measure, text);
    var block;
    y', block := DrawWrappedText(y, heading, text, measure);
    drawn' := Append(drawn, block, y);
  }

  /**
   * The fixed header of `gerarPdf`: the title, the client block and the
   * service block, each text on its own baseline, leaving the cursor at 240
   * whatever the content.
   */
  method DrawHeader(c: Cliente, r: Relatorio) returns (y: real, drawn: seq<DrawnText>)
    ensures drawn == HeaderBlock(c, r) && y == 240.0
    ensures forall k :: 0 <= k < |drawn| ==> drawn[k].y < y
    ensures forall k :: 0 <= k < |drawn| - 1 ==> drawn[k].y < drawn[k + 1].y
  {
    y := 60.0;
    drawn := [DrawnText("Relatório Técnico de Manutenção", y, TitlePaint)];
    y := y + 20.0;
    drawn := drawn + [DrawnText("Dados do Cliente", y, SubPaint)];
    y := y + 16.0;
    drawn := drawn + [DrawnText("Nome fantasia: " + c.nomeFantasia, y, TextPaint)]; y := y + 14.0;
    drawn := drawn + [DrawnText("Razão social: " + c.razaoSocial, y, TextPaint)]; y := y + 14.0;
    drawn := drawn + [DrawnText("CNPJ/CPF: " + c.documento.GetOr(""), y, TextPaint)]; y := y + 14.0;
    drawn := drawn + [DrawnText("Endereço: " + c.endereco.GetOr(""), y, TextPaint)]; y := y + 14.0;
    y := y + 10.0;
    drawn := drawn + [DrawnText("Dados do Atendimento", y, SubPaint)];
    y := y + 16.0;
    drawn := drawn + [DrawnText("Entrada: " + r.dataEntrada, y, TextPaint)]; y := y + 14.0;
    drawn := drawn + [DrawnText("Saída:   " + r.dataSaida, y, TextPaint)]; y := y + 14.0;
    drawn := drawn + [DrawnText("Modelo da máquina: " + r.modeloMaquina, y, TextPaint)]; y := y + 14.0;
    drawn := drawn + [DrawnText("Tipo de manutenção: " + r.tipoManutencao, y, TextPaint)]; y := y + 20.0;
  }

  /**
   * Draws `more` after `drawn`: when everything drawn so far lies above
   * `from` and `more` starts at or below it, baselines keep increasing.
   */
  method Append(drawn: seq<DrawnText>, more: seq<DrawnText>, from: real) returns (r: seq<DrawnText>)
    requires forall k :: 0 <= k < |drawn| - 1 ==> drawn[k].y < drawn[k + 1].y
    requires forall k :: 0 <= k < |more| - 1 ==> more[k].y < more[k + 1].y
    requires drawn != [] ==> drawn[|drawn| - 1].y < from
    requires forall k :: 0 <= k < |more| ==> from <= more[k].y
    ensures r == drawn + more
    ensures forall k :: 0 <= k < |r| - 1 ==> r[k].y < r[k + 1].y
  {
    r := drawn + more;
    forall k | 0 <= k < |r| - 1 ensures r[k].y < r[k + 1].y {
      if k + 1 < |drawn| {
        assert r[k] == drawn[k] && r[k + 1] == drawn[k + 1];
      } else if k + 1 == |drawn| {
        assert r[k] == drawn[k] && r[k + 1] == more[0];
      } else {
        assert r[k] == more[k - |drawn|] && r[k + 1] == more[k - |drawn| + 1];
      }
    }
  }
}
