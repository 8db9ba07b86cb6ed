/**
 * The A4 report of `PdfUtils.gerarPdfRelatorio`: a header band, five titled
 * text sections and a signature line on the first page, then the report's
 * photos, each scaled to fit 515 x 250 points and moved to a new page when it
 * would not fit above the bottom margin. Text heights (from the text layout)
 * and bitmap sizes (from decoding) are inputs; coordinates are exact reals.
 */
module PdfLayout {
  import opened Wrappers
  import opened Text

  const PageWidth: real := 595.0
  const PageHeight: real := 842.0
  const Margin: real := 40.0
  /** The width between the two margins: 515 points. */
  const ContentWidth: real := PageWidth - Margin * 2.0
  const MaxImageHeight: real := 250.0
  const HeaderHeight: real := 70.0

  const ImagesTitle: string := "Imagens do atendimento"
  const ImagesContTitle: string := "Imagens do atendimento (cont.)"
  const SignatureText: string := "Assinatura do responsável: ____________________________"

  /** A pixel dimension of a decoded bitmap. */
  type Pixels = n: int | n > 0 witness 1

  /** What opening and decoding an image gave: a bitmap of that size, or a failure that makes the loop skip it. */
  datatype ImageLoad = InvalidUri | NoStream | DecodeFailed | Bitmap(width: Pixels, height: Pixels)

  /** One image of the report: its stored URI and what reading it gives. */
  datatype Imagem = Imagem(uri: Option<string>, load: ImageLoad)

  /** Something drawn on a page. */
  datatype Mark =
    | HeaderBand                                   // the coloured band from 0 to 70 with the report title
    | SectionTitle(title: string, top: real)       // the grey band from `top` to `top + 26`
    | TextBlock(text: string, top: real, height: real)
    | Picture(index: nat, left: real, top: real, width: real, height: real)

  /** A finished page: its number and what was drawn on it, in order. */
  datatype Page = Page(number: nat, marks: seq<Mark>)

  // ---------------------------------------------------------------------
  // Image scaling
  // ---------------------------------------------------------------------

  function Min(a: real, b: real): real
  {
    if a <= b then a else b
  }

  /**
   * The drawn size of a `width x height` bitmap, scaled by the smaller of the
   * two ratios: it fits 515 x 250.
   */
  function ScaledSize(width: Pixels, height: Pixels): (size: (real, real))
    ensures 0.0 < size.0 <= ContentWidth && 0.0 < size.1 <= MaxImageHeight
  {
    var w, h := width as real, height as real;
    var scale := Min(ContentWidth / w, MaxImageHeight / h);
    ScaledSizeFacts(w, h, scale);
    (w * scale, h * scale)
  }

  /** The scaled size keeps the bitmap's aspect ratio and touches one of the two limits. */
  lemma ScaledSizeShape(width: Pixels, height: Pixels)
    ensures var size := ScaledSize(width, height);
      && size.0 * (height as real) == size.1 * (width as real)
      && (size.0 == ContentWidth || size.1 == MaxImageHeight)
  {
    var w, h := width as real, height as real;
    ScaledSizeFacts(w, h, Min(ContentWidth / w, MaxImageHeight / h));
  }

  lemma ScaledSizeFacts(w: real, h: real, scale: real)
    requires w > 0.0 && h > 0.0 && scale == Min(ContentWidth / w, MaxImageHeight / h)
    ensures 0.0 < w * scale <= ContentWidth && 0.0 < h * scale <= MaxImageHeight
    ensures (w * scale) * h == (h * scale) * w
    ensures w * scale == ContentWidth || h * scale == MaxImageHeight
  {
    assert ContentWidth == 515.0;
    var a, b := 515.0 / w, 250.0 / h;
    assert a * w == 515.0 && b * h == 250.0;
    if a <= b {
      assert h * a <= h * b;
    } else {
      assert w * b <= w * a;
    }
  }

  // ---------------------------------------------------------------------
  // The drawing helpers: each draws on the current page and returns the cursor below
  // ---------------------------------------------------------------------

  /** `drawHeader`: draws the 70-point band and leaves the cursor at 94 whatever came before. */
  method DrawHeader(marks: seq<Mark>) returns (marks': seq<Mark>, y: real)
    ensures marks' == marks + [HeaderBand]
    ensures y == HeaderHeight + 24.0 && y > HeaderHeight
  {
    marks' := marks + [HeaderBand];
    y := HeaderHeight + 24.0;
  }

  /** `drawSectionTitle`: a 26-point band 8 below the cursor, and the cursor 8 below the band. */
  method DrawSectionTitle(marks: seq<Mark>, title: string, yStart: real) returns (marks': seq<Mark>, y: real)
    ensures marks' == marks + [SectionTitle(title, yStart + 8.0)]
    ensures yStart < yStart + 8.0 && yStart + 8.0 + 26.0 < y && y == yStart + 42.0
  {
    var top := yStart + 8.0;
    var bottom := top + 26.0;
    marks' := marks + [SectionTitle(title, top)];
    y := bottom + 8.0;
  }

  /**
   * `drawMultiline`: a blank text draws nothing and moves the cursor 8; any
   * other text is laid out at the cursor and the cursor moves past its height
   * plus 8. The cursor never moves up.
   */
  method DrawMultiline(marks: seq<Mark>, text: string, yStart: real, layoutHeight: real) returns (marks': seq<Mark>, y: real)
    requires layoutHeight >= 0.0
    ensures IsBlank(text) ==> marks' == marks && y == yStart + 8.0
    ensures !IsBlank(text) ==> marks' == marks + [TextBlock(text, yStart, layoutHeight)] && y == yStart + layoutHeight + 8.0
    ensures y > yStart
  {
    if IsBlank(text) {
      return marks, yStart + 8.0;
    }
    marks' := marks + [TextBlock(text, yStart, layoutHeight)];
    y := yStart + layoutHeight + 8.0;
  }

  // ---------------------------------------------------------------------
  // The text sections of the first page
  // ---------------------------------------------------------------------

  /**
   * The texts of the report. The client and service blocks come already
   * composed (their dates formatted as `dd/MM/yyyy HH:mm`); the parts list is
   * nullable.
   */
  datatype ReportTexts = ReportTexts(
    dadosCliente: string,
    dadosAtendimento: string,
    ocorrencia: string,
    solucaoProposta: string,
    pecasTexto: Option<string>)

  /** `replace(";", "\n")`: each semicolon becomes a line break. */
  function SemicolonsToLines(s: string): (r: string)
  {
    seq(|s|, i requires 0 <= i < |s| => if s[i] == ';' then '\n' else s[i])
  }

  /** The text of the parts section: the parts list, or "-" when there is none, one part per line. */
  function PecasSection(pecasTexto: Option<string>): string
  {
    SemicolonsToLines(pecasTexto.GetOr("-"))
  }

  /** How far a text block moves the cursor. */
  function BlockAdvance(text: string, layoutHeight: string -> real): real
  {
    if IsBlank(text) then 8.0 else layoutHeight(text) + 8.0
  }

  /**
   * Where the cursor is after the header, the five titled sections, the
   * 16-point gap and the signature line.
   */
  function TextSectionsEnd(t: ReportTexts, layoutHeight: string -> real): real
  {
    SectionTop(t, layoutHeight, 5) + 16.0 + BlockAdvance(SignatureText, layoutHeight)
  }

  /** Nothing drawn is a picture. */
  predicate NoPictures(marks: seq<Mark>)
  {
    forall k :: 0 <= k < |marks| ==> !marks[k].Picture?
  }

  /**
   * What a titled section draws from the cursor `yStart`: its title band 8
   * below the cursor and, unless the text is blank, the text laid out 42 below.
   */
  function SectionMarks(title: string, text: string, yStart: real, layoutHeight: string -> real): seq<Mark>
  {
    [SectionTitle(title, yStart + 8.0)] + (if IsBlank(text) then [] else [TextBlock(text, yStart + 42.0, layoutHeight(text))])
  }

  /** The titles of the five sections of page 1, in drawing order. */
  const SectionTitles: seq<string> :=
    ["Dados do Cliente", "Dados do Atendimento", "Ocorrência", "Solução proposta", "Lista de peças"]

  /** The texts of the five sections of page 1, in drawing order. */
  function SectionTexts(t: ReportTexts): seq<string>
  {
    [t.dadosCliente, t.dadosAtendimento, t.ocorrencia, t.solucaoProposta, PecasSection(t.pecasTexto)]
  }

  /** The cursor where section `n` starts, below the header and the sections before it; `SectionTop(t, h, 5)` is below all five. */
  function SectionTop(t: ReportTexts, layoutHeight: string -> real, n: nat): real
    requires n <= 5
  {
    if n == 0 then HeaderHeight + 24.0
    else SectionTop(t, layoutHeight, n - 1) + 42.0 + BlockAdvance(SectionTexts(t)[n - 1], layoutHeight)
  }

  /** What section `n` of page 1 draws. */
  function SectionMarksAt(t: ReportTexts, layoutHeight: string -> real, n: nat): seq<Mark>
    requires n < 5
  {
    SectionMarks(SectionTitles[n], SectionTexts(t)[n], SectionTop(t, layoutHeight, n), layoutHeight)
  }

  /**
   * Everything page 1 holds before the images: the header band, the five
   * sections one below the other, and the signature line 16 below the last.
   */
  function TextSectionsMarks(t: ReportTexts, layoutHeight: string -> real): seq<Mark>
  {
    [HeaderBand] + SectionsFrom(t, layoutHeight, 0)
  }

  /** What section `n` and the ones after it draw, each below the previous, then the signature 16 below the last. */
  function SectionsFrom(t: ReportTexts, layoutHeight: string -> real, n: nat): seq<Mark>
    requires n <= 5
    decreases 5 - n
  {
    if n == 5 then [TextBlock(SignatureText, SectionTop(t, layoutHeight, 5) + 16.0, layoutHeight(SignatureText))]
    else SectionMarksAt(t, layoutHeight, n) + SectionsFrom(t, layoutHeight, n + 1)
  }

  /** The signature line always draws. */
  lemma SignatureNotBlank()
    ensures !IsBlank(SignatureText)
  {
    assert SignatureText[|SignatureText| - 1] == '_';
  }

  /** The titles of the section bands among `marks`, in drawing order. */
  function TitlesOf(marks: seq<Mark>): seq<string>
  {
    if marks == [] then []
    else (if marks[0].SectionTitle? then [marks[0].title] else []) + TitlesOf(marks[1..])
  }

  lemma {:induction false} TitlesOfAppend(a: seq<Mark>, b: seq<Mark>)
    ensures TitlesOf(a + b) == TitlesOf(a) + TitlesOf(b)
  {
    if a != [] {
      assert (a + b)[1..] == a[1..] + b;
      TitlesOfAppend(a[1..], b);
    } else {
      assert a + b == b;
    }
  }

  /** A section contributes exactly its own title. */
  lemma SectionMarksTitle(title: string, text: string, yStart: real, layoutHeight: string -> real)
    ensures TitlesOf(SectionMarks(title, text, yStart, layoutHeight)) == [title]
  {
    var rest := if IsBlank(text) then [] else [TextBlock(text, yStart + 42.0, layoutHeight(text))];
    var m := SectionMarks(title, text, yStart, layoutHeight);
    assert m == [SectionTitle(title, yStart + 8.0)] + rest && m[1..] == rest;
    if rest != [] {
      assert rest[1..] == [];
    }
    assert TitlesOf(rest) == [];
  }

  /**
   * The section bands of page 1 carry the five titles, each once, in the
   * order "Dados do Cliente", "Dados do Atendimento", "Ocorrência",
   * "Solução proposta", "Lista de peças", whatever the texts.
   */
  lemma TextSectionsTitles(t: ReportTexts, layoutHeight: string -> real)
    ensures TitlesOf(TextSectionsMarks(t, layoutHeight)) == SectionTitles
  {
    assert TitlesOf([HeaderBand]) == [] by { assert [HeaderBand][1..] == []; }
    TitlesOfAppend([HeaderBand], SectionsFrom(t, layoutHeight, 0));
    SectionsFromTitles(t, layoutHeight, 0);
  }

  /** Section `n` onwards carry the titles from `n` on, in order. */
  lemma {:induction false} SectionsFromTitles(t: ReportTexts, layoutHeight: string -> real, n: nat)
    requires n <= 5
    ensures TitlesOf(SectionsFrom(t, layoutHeight, n)) == SectionTitles[n..]
    decreases 5 - n
  {
    if n == 5 {
      var sig := SectionsFrom(t, layoutHeight, 5);
      assert sig[1..] == [];
    } else {
      SectionsFromTitles(t, layoutHeight, n + 1);
      SectionMarksTitle(SectionTitles[n], SectionTexts(t)[n], SectionTop(t, layoutHeight, n), layoutHeight);
      TitlesOfAppend(SectionMarksAt(t, layoutHeight, n), SectionsFrom(t, layoutHeight, n + 1));
      assert SectionTitles[n..] == [SectionTitles[n]] + SectionTitles[n + 1..];
    }
  }

  /** A titled section: its title band, then its text block. */
  method DrawSection(marks: seq<Mark>, title: string, text: string, yStart: real, layoutHeight: string -> real)
    returns (marks': seq<Mark>, y: real)
    requires forall s :: layoutHeight(s) >= 0.0
    requires NoPictures(marks)
    ensures y == yStart + 42.0 + BlockAdvance(text, layoutHeight) && y >= yStart + 50.0
    ensures marks' == marks + SectionMarks(title, text, yStart, layoutHeight)
    ensures NoPictures(marks')
  {
    marks', y := DrawSectionTitle(marks, title, yStart);
    marks', y := DrawMultiline(marks', text, y, layoutHeight(text));
  }

  /**
   * The first page's text part: header, the five sections in order, the gap
   * and the signature. It is never split across pages, and it draws no picture.
   */
  method DrawTextSections(t: ReportTexts, layoutHeight: string -> real) returns (marks: seq<Mark>, y: real)
    requires forall s :: layoutHeight(s) >= 0.0
    ensures marks == TextSectionsMarks(t, layoutHeight)
    ensures y == TextSectionsEnd(t, layoutHeight)
    ensures y >= HeaderHeight + 24.0 + 5.0 * 50.0 + 24.0
    ensures |marks| >= 2 && marks[0] == HeaderBand && marks[1] == SectionTitle("Dados do Cliente", HeaderHeight + 32.0)
    ensures NoPictures(marks)
  {
    var texts := SectionTexts(t);
    marks, y := DrawHeader([]);
    ghost var m0 := marks;
    marks, y := DrawSection(marks, SectionTitles[0], texts[0], y, layoutHeight);
    ghost var m1 := marks;
    assert m1 == m0 + SectionMarksAt(t, layoutHeight, 0);
    assert y == SectionTop(t, layoutHeight, 1);
    marks, y := DrawSection(marks, SectionTitles[1], texts[1], y, layoutHeight);
    ghost var m2 := marks;
    assert m2 == m1 + SectionMarksAt(t, layoutHeight, 1);
    assert y == SectionTop(t, layoutHeight, 2);
    marks, y := DrawSection(marks, SectionTitles[2], texts[2], y, layoutHeight);
    ghost var m3 := marks;
    assert m3 == m2 + SectionMarksAt(t, layoutHeight, 2);
    assert y == SectionTop(t, layoutHeight, 3);
    marks, y := DrawSection(marks, SectionTitles[3], texts[3], y, layoutHeight);
    ghost var m4 := marks;
    assert m4 == m3 + SectionMarksAt(t, layoutHeight, 3);
    assert y == SectionTop(t, layoutHeight, 4);
    marks, y := DrawSection(marks, SectionTitles[4], texts[4], y, layoutHeight);
    ghost var m5 := marks;
    assert m5 == m4 + SectionMarksAt(t, layoutHeight, 4);
    assert y == SectionTop(t, layoutHeight, 5);
    y := y + 16.0;
    SignatureNotBlank();
    marks, y := DrawMultiline(marks, SignatureText, y, layoutHeight(SignatureText));
    TextSectionsMarksChain(t, layoutHeight, m0, m1, m2, m3, m4, m5, marks);
  }

  lemma AppendAssoc(a: seq<Mark>, b: seq<Mark>, c: seq<Mark>)
    ensures (a + b) + c == a + (b + c)
  {
  }

  /** Drawing the header, the five sections and the signature one after the other gives `TextSectionsMarks`. */
  lemma TextSectionsMarksChain(t: ReportTexts, layoutHeight: string -> real,
                               m0: seq<Mark>, m1: seq<Mark>, m2: seq<Mark>, m3: seq<Mark>, m4: seq<Mark>, m5: seq<Mark>,
                               marks: seq<Mark>)
    requires m0 == [HeaderBand]
    requires m1 == m0 + SectionMarksAt(t, layoutHeight, 0) && m2 == m1 + SectionMarksAt(t, layoutHeight, 1)
    requires m3 == m2 + SectionMarksAt(t, layoutHeight, 2) && m4 == m3 + SectionMarksAt(t, layoutHeight, 3)
    requires m5 == m4 + SectionMarksAt(t, layoutHeight, 4)
    requires marks == m5 + [TextBlock(SignatureText, SectionTop(t, layoutHeight, 5) + 16.0, layoutHeight(SignatureText))]
    ensures marks == TextSectionsMarks(t, layoutHeight)
  {
    var s5 := SectionsFrom(t, layoutHeight, 5);
    var s4 := SectionsFrom(t, layoutHeight, 4);
    var s3 := SectionsFrom(t, layoutHeight, 3);
    var s2 := SectionsFrom(t, layoutHeight, 2);
    var s1 := SectionsFrom(t, layoutHeight, 1);
    var s0 := SectionsFrom(t, layoutHeight, 0);
    assert marks == m5 + s5;
    assert s4 == SectionMarksAt(t, layoutHeight, 4) + s5;
    AppendAssoc(m4, SectionMarksAt(t, layoutHeight, 4), s5);
    assert s3 == SectionMarksAt(t, layoutHeight, 3) + s4;
    AppendAssoc(m3, SectionMarksAt(t, layoutHeight, 3), s4);
    assert s2 == SectionMarksAt(t, layoutHeight, 2) + s3;
    AppendAssoc(m2, SectionMarksAt(t, layoutHeight, 2), s3);
    assert s1 == SectionMarksAt(t, layoutHeight, 1) + s2;
    AppendAssoc(m1, SectionMarksAt(t, layoutHeight, 1), s2);
    assert s0 == SectionMarksAt(t, layoutHeight, 0) + s1;
    AppendAssoc(m0, SectionMarksAt(t, layoutHeight, 0), s1);
  }

  // ---------------------------------------------------------------------
  // The images section and its pagination
  // ---------------------------------------------------------------------

  /** The image is drawn: its URI is not blank and it opened and decoded. */
  predicate Readable(img: Imagem)
  {
    img.uri.Some? && !IsBlank(img.uri.value) && img.load.Bitmap?
  }

  /** The positions, in order, of the readable images among the first `n`. */
  function ReadableIndices(imagens: seq<Imagem>, n: nat): seq<nat>
    requires n <= |imagens|
  {
    if n == 0 then []
    else ReadableIndices(imagens, n - 1) + IfReadable(imagens, n - 1)
  }

  /** Position `i` when image `i` is readable, nothing otherwise. */
  function IfReadable(imagens: seq<Imagem>, i: nat): seq<nat>
    requires i < |imagens|
  {
    if Readable(imagens[i]) then [i] else []
  }

  /** The image positions of the pictures drawn, in drawing order. */
  function PictureIndices(marks: seq<Mark>): seq<nat>
  {
    if marks == [] then []
    else
      var last := marks[|marks| - 1];
      PictureIndices(marks[..|marks| - 1]) + (if last.Picture? then [last.index] else [])
  }

  /** The image positions of the pictures of all the pages, page after page. */
  function PagesPictureIndices(pages: seq<Page>): seq<nat>
  {
    if pages == [] then [] else PagesPictureIndices(pages[..|pages| - 1]) + PictureIndices(pages[|pages| - 1].marks)
  }

  lemma PictureIndicesSnoc(marks: seq<Mark>, m: Mark)
    ensures PictureIndices(marks + [m]) == PictureIndices(marks) + (if m.Picture? then [m.index] else [])
  {
    assert (marks + [m])[..|marks|] == marks;
  }

  lemma {:induction false} NoPicturesNoIndices(marks: seq<Mark>)
    requires NoPictures(marks)
    ensures PictureIndices(marks) == []
  {
    if marks != [] {
      NoPicturesNoIndices(marks[..|marks| - 1]);
    }
  }

  /**
   * A picture is placed as its image requires: it shows a readable image at
   * its scaled size, on the left margin, below the header band, with its
   * bottom at least 28 points above the page's bottom edge.
   */
  predicate PlacedWell(imagens: seq<Imagem>, m: Mark)
  {
    m.Picture? ==>
      && m.index < |imagens|
      && Readable(imagens[m.index])
      && (m.width, m.height) == ScaledSize(imagens[m.index].load.width, imagens[m.index].load.height)
      && m.left == Margin && m.left + m.width <= PageWidth - Margin
      && HeaderHeight < m.top && m.top + m.height <= PageHeight - 28.0
  }

  /** Every picture of the page is placed well, and each lies wholly above the next. */
  predicate PageWellLaidOut(imagens: seq<Imagem>, marks: seq<Mark>)
  {
    && (forall k :: 0 <= k < |marks| ==> PlacedWell(imagens, marks[k]))
    && (forall i, j :: 0 <= i < j < |marks| && marks[i].Picture? && marks[j].Picture? ==>
          marks[i].top + marks[i].height < marks[j].top)
  }

  /** Every picture lies above the cursor, with the 16-point gap kept below it. */
  predicate AboveCursor(marks: seq<Mark>, y: real)
  {
    forall k :: 0 <= k < |marks| && marks[k].Picture? ==> marks[k].top + marks[k].height + 16.0 <= y
  }

  /** Pages numbered on from `first`. */
  predicate NumberedFrom(pages: seq<Page>, first: nat)
  {
    forall k :: 0 <= k < |pages| ==> pages[k].number == first + k
  }

  predicate AllWellLaidOut(imagens: seq<Imagem>, pages: seq<Page>)
  {
    forall p :: 0 <= p < |pages| ==> PageWellLaidOut(imagens, pages[p].marks)
  }

  /** No text block was drawn: only bands, titles and pictures. */
  predicate NoText(marks: seq<Mark>)
  {
    forall k :: 0 <= k < |marks| ==> !marks[k].TextBlock?
  }

  /** The pages after the first hold no text. */
  predicate TextOnFirstOnly(pages: seq<Page>)
  {
    forall p :: 0 < p < |pages| ==> NoText(pages[p].marks)
  }

  lemma PagesPictureIndicesSnoc(pages: seq<Page>, p: Page)
    ensures PagesPictureIndices(pages + [p]) == PagesPictureIndices(pages) + PictureIndices(p.marks)
  {
    assert (pages + [p])[..|pages|] == pages;
  }

  lemma PrefixSnoc(a: seq<Mark>, b: seq<Mark>, m: Mark)
    requires a <= b
    ensures a <= b + [m]
  {
    assert (b + [m])[..|a|] == b[..|a|];
  }

  lemma PrefixTransitive(a: seq<Mark>, b: seq<Mark>, c: seq<Mark>)
    requires a <= b && b <= c
    ensures a <= c
  {
    assert c[..|a|] == c[..|b|][..|a|];
  }

  // ---------------------------------------------------------------------
  // The images loop, as a function of the images
  // ---------------------------------------------------------------------

  /** The loop's state: the finished pages, the page still being drawn on, and the cursor on it. */
  datatype Layout = Layout(finished: seq<Page>, open: Page, y: real)

  /** All the pages of a state, the open one last. */
  function Pages(st: Layout): seq<Page>
  {
    st.finished + [st.open]
  }

  /** The size a readable image is drawn at. */
  function DrawnSize(img: Imagem): (real, real)
    requires img.load.Bitmap?
  {
    ScaledSize(img.load.width, img.load.height)
  }

  /** Image `i` fits under the cursor `y`, with 40 points to spare above the page's bottom edge. */
  predicate FitsBelow(imagens: seq<Imagem>, i: nat, y: real)
    requires i < |imagens| && imagens[i].load.Bitmap?
  {
    y + DrawnSize(imagens[i]).1 + 40.0 <= PageHeight
  }

  /** A page started for image `i`: the header band, the "(cont.)" title, and the picture 12 points under it. */
  function ContinuationPage(number: nat, i: nat, size: (real, real)): Page
  {
    Page(number, [HeaderBand, SectionTitle(ImagesContTitle, HeaderHeight + 32.0),
                  Picture(i, Margin, HeaderHeight + 78.0, size.0, size.1)])
  }

  /**
   * One turn of the images loop: an unreadable image changes nothing; a
   * readable one goes 12 points under the cursor when it fits on the page,
   * and otherwise the page is finished and the image goes on the next one;
   * the cursor ends 16 points under it.
   */
  function PlaceStep(imagens: seq<Imagem>, i: nat, st: Layout): Layout
    requires i < |imagens|
  {
    if !Readable(imagens[i]) then st
    else
      var size := DrawnSize(imagens[i]);
      if FitsBelow(imagens, i, st.y) then
        Layout(st.finished, Page(st.open.number, st.open.marks + [Picture(i, Margin, st.y + 12.0, size.0, size.1)]),
               st.y + 12.0 + size.1 + 16.0)
      else
        Layout(st.finished + [st.open], ContinuationPage(st.open.number + 1, i, size), HeaderHeight + 78.0 + size.1 + 16.0)
  }

  /** The state after the first `n` images, from `start`. */
  function LayoutImages(imagens: seq<Imagem>, n: nat, start: Layout): Layout
    requires n <= |imagens|
  {
    if n == 0 then start else PlaceStep(imagens, n - 1, LayoutImages(imagens, n - 1, start))
  }

  // Numbering

  /** The finished pages, then the open one, are numbered on from `first`. */
  predicate NumberedLayout(st: Layout, first: nat)
  {
    NumberedFrom(st.finished, first) && st.open.number == first + |st.finished|
  }

  lemma StepNumbered(imagens: seq<Imagem>, i: nat, st: Layout, first: nat)
    requires i < |imagens| && NumberedLayout(st, first)
    ensures NumberedLayout(PlaceStep(imagens, i, st), first)
  {
  }

  /** The pages keep being numbered one after another: a page break takes the next number. */
  lemma {:induction false} LayoutNumbered(imagens: seq<Imagem>, n: nat, start: Layout, first: nat)
    requires n <= |imagens| && NumberedLayout(start, first)
    ensures NumberedLayout(LayoutImages(imagens, n, start), first)
  {
    if n > 0 {
      LayoutNumbered(imagens, n - 1, start, first);
      StepNumbered(imagens, n - 1, LayoutImages(imagens, n - 1, start), first);
    }
  }

  // Placement

  /** Adding a picture below the cursor keeps the page well laid out, and the cursor moves below it. */
  lemma AddPicture(imagens: seq<Imagem>, marks: seq<Mark>, y: real, picture: Mark)
    requires PageWellLaidOut(imagens, marks) && AboveCursor(marks, y)
    requires picture.Picture? && PlacedWell(imagens, picture) && picture.top > y
    ensures PageWellLaidOut(imagens, marks + [picture])
    ensures AboveCursor(marks + [picture], picture.top + picture.height + 16.0)
  {
    assert picture.height > 0.0;
  }

  /** What the loop keeps about placement: every page well laid out, the pictures of the open page above the cursor. */
  predicate PlacementHolds(imagens: seq<Imagem>, st: Layout)
  {
    && AllWellLaidOut(imagens, st.finished)
    && PageWellLaidOut(imagens, st.open.marks)
    && AboveCursor(st.open.marks, st.y)
    && st.y >= HeaderHeight + 24.0
  }

  lemma StepOnPage(imagens: seq<Imagem>, i: nat, st: Layout)
    requires i < |imagens| && Readable(imagens[i]) && FitsBelow(imagens, i, st.y)
    requires PlacementHolds(imagens, st)
    ensures PlacementHolds(imagens, PlaceStep(imagens, i, st))
  {
    var size := DrawnSize(imagens[i]);
    var picture := Picture(i, Margin, st.y + 12.0, size.0, size.1);
    AddPicture(imagens, st.open.marks, st.y, picture);
  }

  lemma StepNewPage(imagens: seq<Imagem>, i: nat, st: Layout)
    requires i < |imagens| && Readable(imagens[i]) && !FitsBelow(imagens, i, st.y)
    requires PlacementHolds(imagens, st)
    ensures PlacementHolds(imagens, PlaceStep(imagens, i, st))
  {
    var size := DrawnSize(imagens[i]);
    var page := ContinuationPage(st.open.number + 1, i, size);
    var picture := Picture(i, Margin, HeaderHeight + 78.0, size.0, size.1);
    var top := [HeaderBand, SectionTitle(ImagesContTitle, HeaderHeight + 32.0)];
    AddPicture(imagens, top, HeaderHeight + 66.0, picture);
    assert page.marks == top + [picture];
    var finished := st.finished + [st.open];
    forall p | 0 <= p < |finished| ensures PageWellLaidOut(imagens, finished[p].marks) {
      if p < |st.finished| { assert finished[p] == st.finished[p]; }
    }
  }

  /**
   * Every picture the loop draws shows a readable image at its scaled size,
   * inside the margins and at least 28 points above the page's bottom edge,
   * and no two pictures of a page overlap.
   */
  lemma {:induction false} LayoutPlacement(imagens: seq<Imagem>, n: nat, start: Layout)
    requires n <= |imagens| && PlacementHolds(imagens, start)
    ensures PlacementHolds(imagens, LayoutImages(imagens, n, start))
  {
    if n > 0 {
      LayoutPlacement(imagens, n - 1, start);
      var st := LayoutImages(imagens, n - 1, start);
      if Readable(imagens[n - 1]) {
        if FitsBelow(imagens, n - 1, st.y) {
          StepOnPage(imagens, n - 1, st);
        } else {
          StepNewPage(imagens, n - 1, st);
        }
      }
    }
  }

  // Which images are drawn

  /** The image positions of the pictures of a state's pages, page after page. */
  function LayoutPictureIndices(st: Layout): seq<nat>
  {
    PagesPictureIndices(st.finished) + PictureIndices(st.open.marks)
  }

  /** A page started for image `i` shows image `i` alone. */
  lemma ContinuationIndices(number: nat, i: nat, size: (real, real))
    ensures PictureIndices(ContinuationPage(number, i, size).marks) == [i]
  {
    var band, title := HeaderBand, SectionTitle(ImagesContTitle, HeaderHeight + 32.0);
    var picture := Picture(i, Margin, HeaderHeight + 78.0, size.0, size.1);
    assert PictureIndices([band]) == [] by {
      PictureIndicesSnoc([], band);
      assert [] + [band] == [band];
    }
    assert PictureIndices([band, title]) == [] by {
      PictureIndicesSnoc([band], title);
      assert [band] + [title] == [band, title];
    }
    assert ContinuationPage(number, i, size).marks == [band, title] + [picture];
    PictureIndicesSnoc([band, title], picture);
  }

  lemma StepIndicesOnPage(imagens: seq<Imagem>, i: nat, st: Layout)
    requires i < |imagens| && Readable(imagens[i]) && FitsBelow(imagens, i, st.y)
    ensures LayoutPictureIndices(PlaceStep(imagens, i, st)) == LayoutPictureIndices(st) + [i]
  {
    var size := DrawnSize(imagens[i]);
    var a, b := PagesPictureIndices(st.finished), PictureIndices(st.open.marks);
    PictureIndicesSnoc(st.open.marks, Picture(i, Margin, st.y + 12.0, size.0, size.1));
    assert a + (b + [i]) == (a + b) + [i];
  }

  lemma StepIndicesNewPage(imagens: seq<Imagem>, i: nat, st: Layout)
    requires i < |imagens| && Readable(imagens[i]) && !FitsBelow(imagens, i, st.y)
    ensures LayoutPictureIndices(PlaceStep(imagens, i, st)) == LayoutPictureIndices(st) + [i]
  {
    PagesPictureIndicesSnoc(st.finished, st.open);
    ContinuationIndices(st.open.number + 1, i, DrawnSize(imagens[i]));
  }

  lemma StepIndices(imagens: seq<Imagem>, i: nat, st: Layout)
    requires i < |imagens|
    ensures LayoutPictureIndices(PlaceStep(imagens, i, st)) == LayoutPictureIndices(st) + IfReadable(imagens, i)
  {
    if !Readable(imagens[i]) {
      assert LayoutPictureIndices(st) + [] == LayoutPictureIndices(st);
    } else if FitsBelow(imagens, i, st.y) {
      StepIndicesOnPage(imagens, i, st);
    } else {
      StepIndicesNewPage(imagens, i, st);
    }
  }

  /**
   * The loop draws exactly the readable images, in their order, once each:
   * an image with a blank URI, or one that cannot be opened or decoded, is
   * skipped.
   */
  lemma {:induction false} LayoutIndices(imagens: seq<Imagem>, n: nat, start: Layout)
    requires n <= |imagens|
    ensures LayoutPictureIndices(LayoutImages(imagens, n, start)) == LayoutPictureIndices(start) + ReadableIndices(imagens, n)
  {
    if n > 0 {
      var before := LayoutImages(imagens, n - 1, start);
      LayoutIndices(imagens, n - 1, start);
      StepIndices(imagens, n - 1, before);
      assert LayoutImages(imagens, n, start) == PlaceStep(imagens, n - 1, before);
      var a, b, c := LayoutPictureIndices(start), ReadableIndices(imagens, n - 1), IfReadable(imagens, n - 1);
      assert ReadableIndices(imagens, n) == b + c;
      assert (a + b) + c == a + (b + c);
    } else {
      assert LayoutPictureIndices(start) + [] == LayoutPictureIndices(start);
    }
  }

  // What the loop leaves of the pages it found

  /** The loop only adds: the finished pages stay in front, and the page that was open keeps its number and what was drawn on it. */
  predicate Keeps(before: Layout, after: Layout)
  {
    && |before.finished| <= |after.finished|
    && after.finished[..|before.finished|] == before.finished
    && before.open.marks <= Pages(after)[|before.finished|].marks
    && before.open.number == Pages(after)[|before.finished|].number
  }

  lemma StepKeeps(imagens: seq<Imagem>, i: nat, st: Layout)
    requires i < |imagens|
    ensures Keeps(st, PlaceStep(imagens, i, st))
  {
    var after := PlaceStep(imagens, i, st);
    if Readable(imagens[i]) {
      var size := DrawnSize(imagens[i]);
      if FitsBelow(imagens, i, st.y) {
        assert after.finished[..|st.finished|] == st.finished;
        PrefixSnoc(st.open.marks, st.open.marks, Picture(i, Margin, st.y + 12.0, size.0, size.1));
      } else {
        assert after.finished[..|st.finished|] == st.finished;
        assert Pages(after)[|st.finished|] == st.open;
      }
    } else {
      assert st.finished[..|st.finished|] == st.finished;
    }
  }

  lemma KeepsTransitive(a: Layout, b: Layout, c: Layout)
    requires Keeps(a, b) && Keeps(b, c)
    ensures Keeps(a, c)
  {
    var n := |a.finished|;
    assert c.finished[..n] == c.finished[..|b.finished|][..n];
    if n == |b.finished| {
      PrefixTransitive(a.open.marks, b.open.marks, Pages(c)[n].marks);
    } else {
      assert Pages(b)[n] == b.finished[n] == c.finished[..|b.finished|][n] == Pages(c)[n];
    }
  }

  /**
   * The loop only adds: the finished pages stay as they were, and the page
   * that was open keeps everything drawn on it before.
   */
  lemma {:induction false} LayoutKeeps(imagens: seq<Imagem>, n: nat, start: Layout)
    requires n <= |imagens|
    ensures Keeps(start, LayoutImages(imagens, n, start))
  {
    if n == 0 {
      assert start.finished[..|start.finished|] == start.finished;
      assert Pages(start)[|start.finished|] == start.open;
    } else {
      LayoutKeeps(imagens, n - 1, start);
      var st := LayoutImages(imagens, n - 1, start);
      StepKeeps(imagens, n - 1, st);
      KeepsTransitive(start, st, PlaceStep(imagens, n - 1, st));
    }
  }

  lemma StepText(imagens: seq<Imagem>, i: nat, st: Layout)
    requires i < |imagens| && TextOnFirstOnly(Pages(st))
    ensures TextOnFirstOnly(Pages(PlaceStep(imagens, i, st)))
  {
    var after := PlaceStep(imagens, i, st);
    if Readable(imagens[i]) {
      forall p | 0 < p < |Pages(after)| ensures NoText(Pages(after)[p].marks) {
        if p < |Pages(st)| && FitsBelow(imagens, i, st.y) && p == |st.finished| {
          assert NoText(Pages(st)[p].marks);
        } else if p < |Pages(st)| {
          assert Pages(after)[p] == Pages(st)[p];
        }
      }
    }
  }

  /** The pages the loop starts hold no text. */
  lemma {:induction false} LayoutText(imagens: seq<Imagem>, n: nat, start: Layout)
    requires n <= |imagens| && TextOnFirstOnly(Pages(start))
    ensures TextOnFirstOnly(Pages(LayoutImages(imagens, n, start)))
  {
    if n > 0 {
      LayoutText(imagens, n - 1, start);
      StepText(imagens, n - 1, LayoutImages(imagens, n - 1, start));
    }
  }

  /** The loop starts at most one page per readable image, and none for an unreadable one. */
  lemma {:induction false} LayoutPageCount(imagens: seq<Imagem>, n: nat, start: Layout)
    requires n <= |imagens|
    ensures |start.finished| <= |LayoutImages(imagens, n, start).finished| <= |start.finished| + |ReadableIndices(imagens, n)|
  {
    if n > 0 {
      LayoutPageCount(imagens, n - 1, start);
    }
  }

  // ---------------------------------------------------------------------
  // The drawing, step by step
  // ---------------------------------------------------------------------

  /** Ends the current page and starts the next with its header band. */
  method NewPage(finished: seq<Page>, pageNumber: nat, marks: seq<Mark>)
    returns (finished': seq<Page>, pageNumber': nat, marks': seq<Mark>, y: real)
    ensures finished' == finished + [Page(pageNumber, marks)]
    ensures pageNumber' == pageNumber + 1
    ensures marks' == [HeaderBand] && y == HeaderHeight + 24.0
  {
    finished' := finished + [Page(pageNumber, marks)];
    pageNumber' := pageNumber + 1;
    marks', y := DrawHeader([]);
  }

  /**
   * The images loop: for each image in order, skip it when its URI is blank
   * or it cannot be opened or decoded; otherwise scale it, break the page
   * when it does not fit under the cursor, draw it 12 points under the
   * cursor and move the cursor 16 points under it. The result is the
   * `LayoutImages` state.
   */
  method DrawImages(imagens: seq<Imagem>, finished0: seq<Page>, page0: nat, marks0: seq<Mark>, y0: real)
    returns (finished: seq<Page>, pageNumber: nat, marks: seq<Mark>, y: real)
    ensures Layout(finished, Page(pageNumber, marks), y) ==
      LayoutImages(imagens, |imagens|, Layout(finished0, Page(page0, marks0), y0))
  {
    finished, pageNumber, marks, y := finished0, page0, marks0, y0;
    for i := 0 to |imagens|
      invariant Layout(finished, Page(pageNumber, marks), y) ==
        LayoutImages(imagens, i, Layout(finished0, Page(page0, marks0), y0))
    {
      var img := imagens[i];
      if img.uri.None? || IsBlank(img.uri.value) {
        continue;
      }
      match img.load {
        case InvalidUri =>
        case NoStream =>
        case DecodeFailed =>
        case Bitmap(_, _) =>
          finished, pageNumber, marks, y := PlaceImage(imagens, i, finished, pageNumber, marks, y);
      }
    }
  }

  /**
   * Draws readable image `i`: scaled to fit, on a new page under the
   * "(cont.)" title when it does not fit under the cursor, 12 points under
   * the cursor, which then moves 16 points under the picture.
   */
  method PlaceImage(imagens: seq<Imagem>, i: nat, finished: seq<Page>, pageNumber: nat, marks: seq<Mark>, y: real)
    returns (finished': seq<Page>, pageNumber': nat, marks': seq<Mark>, y': real)
    requires i < |imagens| && Readable(imagens[i])
    ensures Layout(finished', Page(pageNumber', marks'), y') ==
      PlaceStep(imagens, i, Layout(finished, Page(pageNumber, marks), y))
  {
    var size := ScaledSize(imagens[i].load.width, imagens[i].load.height);
    var drawWidth, drawHeight := size.0, size.1;
    finished', pageNumber', marks', y' := finished, pageNumber, marks, y;
    if y' + drawHeight + 40.0 > PageHeight {
      finished', pageNumber', marks', y' := NewPage(finished', pageNumber', marks');
      marks', y' := DrawSectionTitle(marks', ImagesContTitle, y');
    }
    var top := y' + 12.0;
    var picture := Picture(i, Margin, top, drawWidth, drawHeight);
    marks' := marks' + [picture];
    y' := top + drawHeight + 16.0;
    if y + drawHeight + 40.0 > PageHeight {
      assert marks' == ContinuationPage(pageNumber + 1, i, size).marks;
    }
  }

  /**
   * `gerarPdfRelatorio`: the text sections on page 1; then, when there are
   * images, their section, started on a fresh page when the cursor is below
   * 642 (fewer than 200 points left), and the pictures.
   */
  method GerarPdfRelatorio(t: ReportTexts, imagens: seq<Imagem>, layoutHeight: string -> real)
    returns (pages: seq<Page>)
    requires forall s :: layoutHeight(s) >= 0.0
    ensures pages != [] && NumberedFrom(pages, 1)
    ensures imagens == [] ==> |pages| == 1
    ensures |pages| <= 2 + |ReadableIndices(imagens, |imagens|)|
    ensures AllWellLaidOut(imagens, pages)
    ensures PagesPictureIndices(pages) == ReadableIndices(imagens, |imagens|)
    ensures TextSectionsMarks(t, layoutHeight) <= pages[0].marks
    ensures [HeaderBand, SectionTitle("Dados do Cliente", HeaderHeight + 32.0)] <= pages[0].marks
    ensures TextOnFirstOnly(pages)
    ensures ImagesSectionPlaced(imagens, TextSectionsMarks(t, layoutHeight), TextSectionsEnd(t, layoutHeight), pages)
  {
    var marks, y := DrawTextSections(t, layoutHeight);
    pages := FinishPages(imagens, marks, y);
  }

  /**
   * Everything after the text of page 1 (`marks`, the cursor at `y`): the
   * images section when there are images, then the last page closed. Page 1
   * keeps the text as its start.
   */
  method FinishPages(imagens: seq<Imagem>, marks: seq<Mark>, y: real) returns (pages: seq<Page>)
    requires NoPictures(marks) && y >= HeaderHeight + 24.0
    requires |marks| >= 2 && marks[0] == HeaderBand && marks[1] == SectionTitle("Dados do Cliente", HeaderHeight + 32.0)
    ensures pages != [] && NumberedFrom(pages, 1)
    ensures imagens == [] ==> pages == [Page(1, marks)]
    ensures |pages| <= 2 + |ReadableIndices(imagens, |imagens|)|
    ensures AllWellLaidOut(imagens, pages) && TextOnFirstOnly(pages)
    ensures PagesPictureIndices(pages) == ReadableIndices(imagens, |imagens|)
    ensures marks <= pages[0].marks
    ensures [HeaderBand, SectionTitle("Dados do Cliente", HeaderHeight + 32.0)] <= pages[0].marks
    ensures ImagesSectionPlaced(imagens, marks, y, pages)
  {
    if imagens == [] {
      pages := [Page(1, marks)];
      TextOnlyReport(imagens, marks);
      return;
    }
    var finished, pageNumber, marks', y' := DrawImagesSection(imagens, marks, y);
    pages := finished + [Page(pageNumber, marks')];
    ImagesReport(imagens, marks, y, pages);
  }

  /**
   * Where the images section goes once the text of page 1 (`marks`) leaves
   * the cursor at `y`: with images, on a fresh page 2 under its own header
   * band when fewer than 200 points are left, otherwise titled right after
   * the text on page 1.
   */
  predicate ImagesSectionPlaced(imagens: seq<Imagem>, marks: seq<Mark>, y: real, pages: seq<Page>)
  {
    imagens != [] && pages != [] ==>
      if y > PageHeight - 200.0 then
        |pages| >= 2 && [HeaderBand, SectionTitle(ImagesTitle, HeaderHeight + 32.0)] <= pages[1].marks
      else
        marks + [SectionTitle(ImagesTitle, y + 8.0)] <= pages[0].marks
  }

  /** Without images the report is page 1 alone, with no picture on it. */
  lemma TextOnlyReport(imagens: seq<Imagem>, marks: seq<Mark>)
    requires NoPictures(marks)
    requires |marks| >= 2 && marks[0] == HeaderBand && marks[1] == SectionTitle("Dados do Cliente", HeaderHeight + 32.0)
    ensures NumberedFrom([Page(1, marks)], 1) && AllWellLaidOut(imagens, [Page(1, marks)])
    ensures PagesPictureIndices([Page(1, marks)]) == []
    ensures [HeaderBand, SectionTitle("Dados do Cliente", HeaderHeight + 32.0)] <= marks
  {
    NoPicturesNoIndices(marks);
    assert PagesPictureIndices([Page(1, marks)]) == PagesPictureIndices([]) + PictureIndices(marks);
    assert marks[..2] == [HeaderBand, SectionTitle("Dados do Cliente", HeaderHeight + 32.0)];
  }

  /** With images, the report's pages as the images section leaves them, read from page 1's start. */
  lemma ImagesReport(imagens: seq<Imagem>, marks: seq<Mark>, y: real, pages: seq<Page>)
    requires |marks| >= 2 && marks[0] == HeaderBand && marks[1] == SectionTitle("Dados do Cliente", HeaderHeight + 32.0)
    requires ImagesSectionDone(imagens, marks, y, pages)
    ensures pages != [] && NumberedFrom(pages, 1)
    ensures |pages| <= 2 + |ReadableIndices(imagens, |imagens|)|
    ensures AllWellLaidOut(imagens, pages) && TextOnFirstOnly(pages)
    ensures PagesPictureIndices(pages) == ReadableIndices(imagens, |imagens|)
    ensures [HeaderBand, SectionTitle("Dados do Cliente", HeaderHeight + 32.0)] <= pages[0].marks
    ensures if y > PageHeight - 200.0 then
        |pages| >= 2 && [HeaderBand, SectionTitle(ImagesTitle, HeaderHeight + 32.0)] <= pages[1].marks
      else
        SectionTitle(ImagesTitle, y + 8.0) in pages[0].marks
  {
    FirstPageStart(marks, pages[0].marks);
    if y <= PageHeight - 200.0 {
      assert pages[0].marks[|marks|] == (marks + [SectionTitle(ImagesTitle, y + 8.0)])[|marks|];
    }
  }

  /** Whatever follows the text of page 1, the page still starts with the header band and the first title. */
  lemma FirstPageStart(marks: seq<Mark>, first: seq<Mark>)
    requires |marks| >= 2 && marks <= first
    ensures marks[..2] <= first && first[0] == marks[0] && first[1] == marks[1]
  {
    assert first[..2] == marks[..2];
  }

  /** What the images section leaves, the text of page 1 ending at `y`. */
  predicate ImagesSectionDone(imagens: seq<Imagem>, marks: seq<Mark>, y: real, pages: seq<Page>)
  {
    && pages != []
    && NumberedFrom(pages, 1) && AllWellLaidOut(imagens, pages) && TextOnFirstOnly(pages)
    && PagesPictureIndices(pages) == ReadableIndices(imagens, |imagens|)
    && |pages| <= 2 + |ReadableIndices(imagens, |imagens|)|
    && marks <= pages[0].marks
    && (y > PageHeight - 200.0 ==>
          |pages| >= 2 && [HeaderBand, SectionTitle(ImagesTitle, HeaderHeight + 32.0)] <= pages[1].marks)
    && (y <= PageHeight - 200.0 ==> marks + [SectionTitle(ImagesTitle, y + 8.0)] <= pages[0].marks)
  }

  /**
   * The images section under the text of page 1, the cursor at `y`: moved
   * to page 2 when fewer than 200 points are left, then titled, then the
   * images loop. Gives the finished pages, and the open page with its number
   * and cursor.
   */
  method DrawImagesSection(imagens: seq<Imagem>, marks: seq<Mark>, y: real)
    returns (finished: seq<Page>, pageNumber: nat, marks': seq<Mark>, y': real)
    requires NoPictures(marks) && |marks| >= 2 && y >= HeaderHeight + 24.0
    ensures ImagesSectionDone(imagens, marks, y, finished + [Page(pageNumber, marks')])
  {
    finished, pageNumber, marks', y' := StartImagesSection(marks, y);
    finished, pageNumber, marks', y' := DrawImages(imagens, finished, pageNumber, marks', y');
    ImagesSection(imagens, marks, y);
  }

  /**
   * Where the images loop starts, the text of page 1 ending at `y`: with
   * 200 points left, the section title goes 8 points under the text;
   * otherwise page 2 is started and the title goes under its header band.
   * The cursor is 42 points under the top of the title.
   */
  function ImagesStartLayout(marks: seq<Mark>, y: real): Layout
  {
    if y > PageHeight - 200.0 then
      Layout([Page(1, marks)], Page(2, [HeaderBand, SectionTitle(ImagesTitle, HeaderHeight + 32.0)]), HeaderHeight + 66.0)
    else
      Layout([], Page(1, marks + [SectionTitle(ImagesTitle, y + 8.0)]), y + 42.0)
  }

  /** The page break, if any, and the title of the images section. */
  method StartImagesSection(marks: seq<Mark>, y: real)
    returns (finished: seq<Page>, pageNumber: nat, marks': seq<Mark>, y': real)
    ensures Layout(finished, Page(pageNumber, marks'), y') == ImagesStartLayout(marks, y)
  {
    finished, pageNumber, marks', y' := [], 1, marks, y;
    if y' > PageHeight - 200.0 {
      finished, pageNumber, marks', y' := NewPage(finished, pageNumber, marks');
    }
    marks', y' := DrawSectionTitle(marks', ImagesTitle, y');
    if y > PageHeight - 200.0 {
      assert [HeaderBand] + [SectionTitle(ImagesTitle, HeaderHeight + 32.0)]
        == [HeaderBand, SectionTitle(ImagesTitle, HeaderHeight + 32.0)];
    }
  }

  /** What the images loop needs at its start: no picture yet, pages numbered from 1, text only on page 1. */
  predicate LoopStart(imagens: seq<Imagem>, start: Layout)
  {
    && PlacementHolds(imagens, start) && NumberedLayout(start, 1)
    && TextOnFirstOnly(Pages(start)) && LayoutPictureIndices(start) == []
  }

  lemma ImagesStartSamePage(imagens: seq<Imagem>, marks: seq<Mark>, y: real)
    requires NoPictures(marks) && |marks| >= 2 && HeaderHeight + 24.0 <= y <= PageHeight - 200.0
    ensures LoopStart(imagens, ImagesStartLayout(marks, y))
  {
    var first := marks + [SectionTitle(ImagesTitle, y + 8.0)];
    assert NoPictures(first) by {
      forall k | 0 <= k < |first| ensures !first[k].Picture? {
        if k < |marks| { assert first[k] == marks[k]; }
      }
    }
    NoPicturesNoIndices(first);
  }

  /** A page without pictures is well laid out, whatever the cursor. */
  lemma NoPicturesLaidOut(imagens: seq<Imagem>, marks: seq<Mark>, y: real)
    requires NoPictures(marks)
    ensures PageWellLaidOut(imagens, marks) && AboveCursor(marks, y)
  {
  }

  lemma ImagesStartNewPage(imagens: seq<Imagem>, marks: seq<Mark>, y: real)
    requires NoPictures(marks) && |marks| >= 2 && y > PageHeight - 200.0
    ensures LoopStart(imagens, ImagesStartLayout(marks, y))
  {
    var start := ImagesStartLayout(marks, y);
    NoPicturesNoIndices(marks);
    NoPicturesNoIndices(start.open.marks);
    NoPicturesLaidOut(imagens, marks, y);
    NoPicturesLaidOut(imagens, start.open.marks, start.y);
    assert AllWellLaidOut(imagens, start.finished) by {
      assert start.finished == [Page(1, marks)];
    }
    PagesPictureIndicesSnoc([], Page(1, marks));
    assert [] + [Page(1, marks)] == start.finished;
    assert LayoutPictureIndices(start) == [];
    assert Pages(start) == [Page(1, marks), start.open];
    assert NoText(Pages(start)[1].marks);
  }

  /** What the images loop leaves, from what it started with. */
  lemma ImagesEnd(imagens: seq<Imagem>, start: Layout, final: Layout)
    requires LoopStart(imagens, start)
    requires final == LayoutImages(imagens, |imagens|, start)
    ensures NumberedFrom(Pages(final), 1) && AllWellLaidOut(imagens, Pages(final)) && TextOnFirstOnly(Pages(final))
    ensures PagesPictureIndices(Pages(final)) == ReadableIndices(imagens, |imagens|)
    ensures Keeps(start, final)
    ensures |final.finished| <= |start.finished| + |ReadableIndices(imagens, |imagens|)|
  {
    LayoutNumbered(imagens, |imagens|, start, 1);
    LayoutPlacement(imagens, |imagens|, start);
    LayoutText(imagens, |imagens|, start);
    LayoutIndices(imagens, |imagens|, start);
    LayoutKeeps(imagens, |imagens|, start);
    LayoutPageCount(imagens, |imagens|, start);
    PagesOfState(imagens, final);
  }

  /** A state's properties, read on its pages. */
  lemma PagesOfState(imagens: seq<Imagem>, st: Layout)
    ensures NumberedLayout(st, 1) ==> NumberedFrom(Pages(st), 1)
    ensures PlacementHolds(imagens, st) ==> AllWellLaidOut(imagens, Pages(st))
    ensures PagesPictureIndices(Pages(st)) == LayoutPictureIndices(st)
  {
    PagesPictureIndicesSnoc(st.finished, st.open);
    var pages := Pages(st);
    if PlacementHolds(imagens, st) {
      forall p | 0 <= p < |pages| ensures PageWellLaidOut(imagens, pages[p].marks) {
        if p < |st.finished| { assert pages[p] == st.finished[p]; }
      }
    }
  }

  /**
   * The images section, from the end of page 1's text: the pages are numbered
   * from 1, well laid out, hold every readable image once and in order, and
   * at most one page per readable image is added after the section's start.
   */
  lemma ImagesSection(imagens: seq<Imagem>, marks: seq<Mark>, y: real)
    requires NoPictures(marks) && |marks| >= 2 && y >= HeaderHeight + 24.0
    ensures ImagesSectionDone(imagens, marks, y, Pages(LayoutImages(imagens, |imagens|, ImagesStartLayout(marks, y))))
  {
    if y > PageHeight - 200.0 {
      ImagesSectionNewPage(imagens, marks, y);
    } else {
      ImagesSectionSamePage(imagens, marks, y);
    }
  }

  lemma ImagesSectionNewPage(imagens: seq<Imagem>, marks: seq<Mark>, y: real)
    requires NoPictures(marks) && |marks| >= 2 && y > PageHeight - 200.0
    ensures ImagesSectionDone(imagens, marks, y, Pages(LayoutImages(imagens, |imagens|, ImagesStartLayout(marks, y))))
  {
    var start := ImagesStartLayout(marks, y);
    var final := LayoutImages(imagens, |imagens|, start);
    ImagesStartNewPage(imagens, marks, y);
    ImagesEnd(imagens, start, final);
    assert Pages(final)[0] == final.finished[..1][0] == Page(1, marks);
  }

  lemma ImagesSectionSamePage(imagens: seq<Imagem>, marks: seq<Mark>, y: real)
    requires NoPictures(marks) && |marks| >= 2 && HeaderHeight + 24.0 <= y <= PageHeight - 200.0
    ensures ImagesSectionDone(imagens, marks, y, Pages(LayoutImages(imagens, |imagens|, ImagesStartLayout(marks, y))))
  {
    var start := ImagesStartLayout(marks, y);
    var final := LayoutImages(imagens, |imagens|, start);
    ImagesStartSamePage(imagens, marks, y);
    ImagesEnd(imagens, start, final);
    PrefixTransitive(marks, marks + [SectionTitle(ImagesTitle, y + 8.0)], Pages(final)[0].marks);
  }
}
