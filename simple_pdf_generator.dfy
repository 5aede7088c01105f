/**
 * The plain jsPDF renderer (`generateBoletimPDF` of `simplePdfGenerator.ts`): a page
 * of labelled lines whose sections appear only when the report has something for them,
 * and whose observations run onto new pages. Each text is modelled with its page and
 * its y coordinate (millimetres from the top of an A4 page); x coordinates, fonts and
 * the fixed title block are not.
 */
module SimplePdfGenerator {
  import opened Text
  import opened Types
  import opened PdfGenerator

  /** `addText`: a text on a page (numbered from 1) at height `y`. */
  datatype Line = Line(text: string, page: nat, y: int)

  /** Where the next text goes. */
  datatype Pos = Pos(page: nat, y: int)

  const Margin: int := 15
  /** Past this height an observation line starts a new page. */
  const PageBreakY: int := 250
  /** An A4 page is 297 mm tall; the footer sits 20 mm above its bottom edge. */
  const PageHeight: int := 297
  const FooterY: int := 277

  // ---------------------------------------------------------------------------
  // Lists built with `push`
  // ---------------------------------------------------------------------------

  /** The names of the six scaffold types this renderer knows that the report ticks, in its fixed order. */
  function TipoNames(b: Boletim): seq<string>
  {
    (if b.andaimeConvencional then ["Convencional"] else [])
    + (if b.andaimeEspecial then ["Especial"] else [])
    + (if b.escoramento then ["Escoramento"] else [])
    + (if b.escada then ["Escada"] else [])
    + (if b.torreAcima5m then ["Torre Acima 5M"] else [])
    + (if b.guardaCorpo then ["Guarda Corpo"] else [])
  }

  /** The `tipos` array, pushed one `if` at a time. */
  method BuildTipos(b: Boletim) returns (tipos: seq<string>)
    ensures tipos == TipoNames(b)
  {
    tipos := [];
    // Each step pins the prefix built so far; without them the solver splits on all 64
    // combinations of the six flags and runs out of resource.
    if b.andaimeConvencional { tipos := tipos + ["Convencional"]; }
    ghost var expected := if b.andaimeConvencional then ["Convencional"] else [];
    assert tipos == expected;
    if b.andaimeEspecial { tipos := tipos + ["Especial"]; }
    expected := expected + (if b.andaimeEspecial then ["Especial"] else []);
    assert tipos == expected;
    if b.escoramento { tipos := tipos + ["Escoramento"]; }
    expected := expected + (if b.escoramento then ["Escoramento"] else []);
    assert tipos == expected;
    if b.escada { tipos := tipos + ["Escada"]; }
    expected := expected + (if b.escada then ["Escada"] else []);
    assert tipos == expected;
    if b.torreAcima5m { tipos := tipos + ["Torre Acima 5M"]; }
    expected := expected + (if b.torreAcima5m then ["Torre Acima 5M"] else []);
    assert tipos == expected;
    if b.guardaCorpo { tipos := tipos + ["Guarda Corpo"]; }
    expected := expected + (if b.guardaCorpo then ["Guarda Corpo"] else []);
    assert tipos == expected;
  }

  /**
   * At most the six known types are listed, and none when the report ticks none of
   * them; the other grid flags (passarela, balancim, the lower tower, lifeline, cargo
   * pole, confined space, rodizio, tent) never appear.
   */
  lemma TipoNamesFacts(b: Boletim)
    ensures |TipoNames(b)| <= 6
    ensures TipoNames(b) == [] <==>
      !(b.andaimeConvencional || b.andaimeEspecial || b.escoramento || b.escada || b.torreAcima5m || b.guardaCorpo)
  {
  }

  /** A scaffold kind is listed exactly when the report ticks it. */
  lemma TipoNamesKinds(b: Boletim)
    ensures "Convencional" in TipoNames(b) <==> b.andaimeConvencional
    ensures "Especial" in TipoNames(b) <==> b.andaimeEspecial
  {
  }

  /** Shoring and ladder are listed exactly when the report ticks them. */
  lemma TipoNamesSupports(b: Boletim)
    ensures "Escoramento" in TipoNames(b) <==> b.escoramento
    ensures "Escada" in TipoNames(b) <==> b.escada
  {
  }

  /** The tall tower and the guard rail are listed exactly when the report ticks them. */
  lemma TipoNamesGuards(b: Boletim)
    ensures "Torre Acima 5M" in TipoNames(b) <==> b.torreAcima5m
    ensures "Guarda Corpo" in TipoNames(b) <==> b.guardaCorpo
  {
  }

  /** Length, width and height in metres, then the quantity, each only when filled in. */
  function DimensionTexts(b: Boletim): seq<string>
  {
    (if b.comprimento != "" then ["Comprimento: " + b.comprimento + "m"] else [])
    + (if b.largura != "" then ["Largura: " + b.largura + "m"] else [])
    + (if b.altura != "" then ["Altura: " + b.altura + "m"] else [])
    + (if b.quantidade != "" then ["Quantidade: " + b.quantidade] else [])
  }

  /** The `dimensoes` array, pushed one `if` at a time. */
  method BuildDimensoes(b: Boletim) returns (dimensoes: seq<string>)
    ensures dimensoes == DimensionTexts(b)
  {
    dimensoes := [];
    if b.comprimento != "" { dimensoes := dimensoes + ["Comprimento: " + b.comprimento + "m"]; }
    if b.largura != "" { dimensoes := dimensoes + ["Largura: " + b.largura + "m"]; }
    if b.altura != "" { dimensoes := dimensoes + ["Altura: " + b.altura + "m"]; }
    if b.quantidade != "" { dimensoes := dimensoes + ["Quantidade: " + b.quantidade]; }
  }

  /** The dimensions section shows when length, width or height is set; the quantity alone does not open it. */
  predicate ShowsDimensions(b: Boletim)
  {
    b.comprimento != "" || b.largura != "" || b.altura != ""
  }

  /**
   * Inside the section the list is never empty; a quantity alone would have made
   * a non-empty list, but the section stays closed.
   */
  lemma DimensionFacts(b: Boletim)
    ensures ShowsDimensions(b) ==> DimensionTexts(b) != []
    ensures |DimensionTexts(b)| <= 4
    ensures b.quantidade != "" && !ShowsDimensions(b) ==> DimensionTexts(b) == ["Quantidade: " + b.quantidade]
  {
  }

  // ---------------------------------------------------------------------------
  // Observations and page breaks
  // ---------------------------------------------------------------------------

  /**
   * The observation lines from `p` on: a line that would start below 250 goes to the
   * top (y 15) of a new page; each line moves y down by 6.
   */
  function PlaceLines(ls: seq<string>, p: Pos): (seq<Line>, Pos)
    decreases |ls|
  {
    if ls == [] then ([], p)
    else
      var at := if p.y > PageBreakY then Pos(p.page + 1, Margin) else p;
      var rest := PlaceLines(ls[1..], Pos(at.page, at.y + 6));
      ([Line(ls[0], at.page, at.y)] + rest.0, rest.1)
  }

  /** The observation loop, over the lines the runtime split the text into. */
  method PlaceObservationLines(ls: seq<string>, p: Pos) returns (placed: seq<Line>, q: Pos)
    ensures placed == PlaceLines(ls, p).0 && q == PlaceLines(ls, p).1
  {
    placed := [];
    var page := p.page;
    var y := p.y;
    var i := 0;
    while i < |ls|
      invariant 0 <= i <= |ls|
      invariant placed + PlaceLines(ls[i..], Pos(page, y)).0 == PlaceLines(ls, p).0
      invariant PlaceLines(ls[i..], Pos(page, y)).1 == PlaceLines(ls, p).1
    {
      ghost var before := PlaceLines(ls[i..], Pos(page, y));
      if y > PageBreakY {
        page := page + 1;
        y := Margin;
      }
      assert ls[i..][1..] == ls[i + 1..];
      ghost var after := PlaceLines(ls[i + 1..], Pos(page, y + 6));
      assert before.0 == [Line(ls[i], page, y)] + after.0 && before.1 == after.1;
      placed := placed + [Line(ls[i], page, y)];
      y := y + 6;
      i := i + 1;
    }
    assert ls[i..] == [];
    q := Pos(page, y);
  }

  /**
   * The lines keep their text and order; started at y 15 or lower down, every line lies
   * between 15 and 250, pages never go back, and the next y is at most 256.
   */
  lemma {:induction false} PlaceLinesFacts(ls: seq<string>, p: Pos)
    requires p.y >= Margin
    ensures var (placed, q) := PlaceLines(ls, p);
      && |placed| == |ls|
      && (forall i :: 0 <= i < |ls| ==> placed[i].text == ls[i])
      && (forall i :: 0 <= i < |ls| ==> Margin <= placed[i].y <= PageBreakY && placed[i].page >= p.page)
      && q.page >= p.page && q.y >= Margin
      && (ls != [] ==> q.y <= PageBreakY + 6)
      && (ls == [] ==> q == p)
    decreases |ls|
  {
    if ls != [] {
      var at := if p.y > PageBreakY then Pos(p.page + 1, Margin) else p;
      PlaceLinesFacts(ls[1..], Pos(at.page, at.y + 6));
    }
  }

  /** While the lines fit above the break, they stay on the page, 6 apart. */
  lemma {:induction false} PlaceLinesFit(ls: seq<string>, p: Pos)
    requires p.y + 6 * (|ls| - 1) <= PageBreakY
    ensures PlaceLines(ls, p).1 == Pos(p.page, p.y + 6 * |ls|)
    decreases |ls|
  {
    if ls != [] {
      PlaceLinesFit(ls[1..], Pos(p.page, p.y + 6));
    }
  }

  /** Placing `a + b` places `a`, then `b` from where `a` ended. */
  lemma {:induction false} PlaceLinesAppend(a: seq<string>, b: seq<string>, p: Pos)
    ensures PlaceLines(a + b, p).1 == PlaceLines(b, PlaceLines(a, p).1).1
    decreases |a|
  {
    if a != [] {
      var at := if p.y > PageBreakY then Pos(p.page + 1, Margin) else p;
      assert (a + b)[1..] == a[1..] + b;
      PlaceLinesAppend(a[1..], b, Pos(at.page, at.y + 6));
      assert PlaceLines(a + b, p).1 == PlaceLines(a[1..] + b, Pos(at.page, at.y + 6)).1;
      assert PlaceLines(a, p).1 == PlaceLines(a[1..], Pos(at.page, at.y + 6)).1;
    } else {
      assert a + b == b;
    }
  }

  // ---------------------------------------------------------------------------
  // The page
  // ---------------------------------------------------------------------------

  /** Number, client, requester, equipment and date (page 1); an empty value shows "N/A", an empty date nothing. */
  function GeneralLines(b: Boletim, localeDate: string -> string): (r: seq<Line>)
    ensures |r| == 7 && forall i :: 0 <= i < 7 ==> r[i].page == 1
    ensures b.numero == "" ==> r[0].text == "Nº: N/A"
    ensures b.numero != "" ==> r[0].text == "Nº: " + b.numero
    ensures b.cliente == "" ==> r[2].text == "Cliente: N/A"
    ensures b.cliente != "" ==> r[2].text == "Cliente: " + b.cliente
    ensures b.solicitante == "" ==> r[3].text == "Solicitante: N/A"
    ensures b.solicitante != "" ==> r[3].text == "Solicitante: " + b.solicitante
    ensures b.equipamento == "" ==> r[4].text == "Equipamento: N/A"
    ensures b.equipamento != "" ==> r[4].text == "Equipamento: " + b.equipamento
    ensures b.data == "" ==> r[5].text == "Data: "
  {
    [Line("Nº: " + Or(b.numero, "N/A"), 1, 50),
     Line("INFORMAÇÕES GERAIS", 1, 65),
     Line("Cliente: " + Or(b.cliente, "N/A"), 1, 75),
     Line("Solicitante: " + Or(b.solicitante, "N/A"), 1, 87),
     Line("Equipamento: " + Or(b.equipamento, "N/A"), 1, 99),
     Line("Data: " + FormatDate(b.data, localeDate), 1, 111),
     Line("APROPRIAÇÃO DE ANDAIMES", 1, 135)]
  }

  /** The y below the general section. */
  const AfterGeneralY: int := 150

  /**
   * An assembly or disassembly block, only when its date is set: title, then date and
   * hours on one row; `gap` is the space left after it.
   */
  function PeriodLines(title: string, date: string, start: string, end: string,
                       localeDate: string -> string, y: int, gap: int): (r: (seq<Line>, int))
    ensures date == "" <==> r.0 == []
    ensures r.1 == if date == "" then y else y + 8 + gap
  {
    if date == "" then ([], y)
    else ([Line(title, 1, y), Line("Data: " + FormatDate(date, localeDate), 1, y + 8),
           Line("Hora: " + start + " às " + end, 1, y + 8)], y + 8 + gap)
  }

  /** The types title, and the ticked types joined by ", " when there is one. */
  function TiposLines(b: Boletim, y: int): (r: (seq<Line>, int))
    ensures |r.0| == 1 <==> TipoNames(b) == []
  {
    if TipoNames(b) == [] then ([Line("TIPOS DE ANDAIME", 1, y)], y + 10)
    else ([Line("TIPOS DE ANDAIME", 1, y), Line(Join(TipoNames(b), ", "), 1, y + 10)], y + 25)
  }

  /** The dimensions title and the entries joined by " | ", when the section shows. */
  function DimensionLines(b: Boletim, y: int): (r: (seq<Line>, int))
    ensures r.0 == [] <==> !ShowsDimensions(b)
  {
    if !ShowsDimensions(b) then ([], y)
    else ([Line("DIMENSÕES", 1, y), Line(Join(DimensionTexts(b), " | "), 1, y + 10)], y + 25)
  }

  /** The observations title and lines when there are observations; 10 more below them. */
  function ObservationLines(b: Boletim, split: seq<string>, y: int): (r: (seq<Line>, Pos))
    ensures b.observacoes == "" <==> r.0 == []
  {
    if b.observacoes == "" then ([], Pos(1, y))
    else
      var placed := PlaceLines(split, Pos(1, y + 10));
      ([Line("OBSERVAÇÕES", 1, y)] + placed.0, Pos(placed.1.page, placed.1.y + 10))
  }

  /** The signatories, when either is named; each named one gets a line. */
  function SignatoryLines(b: Boletim, p: Pos): (r: (seq<Line>, Pos))
    ensures r.0 == [] <==> b.responsavelEngeval == "" && b.responsavelContratante == ""
    ensures r.1.page == p.page
  {
    if b.responsavelEngeval == "" && b.responsavelContratante == "" then ([], p)
    else
      var y := p.y + 20 + 15;
      var engeval := if b.responsavelEngeval != "" then [Line("Responsável ENGEVAL: " + b.responsavelEngeval, p.page, y)] else [];
      var y2 := if b.responsavelEngeval != "" then y + 12 else y;
      var contratante := if b.responsavelContratante != "" then [Line("Responsável Contratante: " + b.responsavelContratante, p.page, y2)] else [];
      var y3 := if b.responsavelContratante != "" then y2 + 12 else y2;
      ([Line("RESPONSÁVEIS", p.page, p.y + 20)] + engeval + contratante, Pos(p.page, y3))
  }

  /** The footer, on whichever page is current, always reading "Página 1". */
  function FooterLines(page: nat): seq<Line>
  {
    [Line("BMC - ANDAIME V0 - ENGEVAL", page, FooterY), Line("Página 1", page, FooterY)]
  }

  /** Everything the renderer writes for the report, in order. `split` is the runtime's split of the observations. */
  function Document(b: Boletim, localeDate: string -> string, split: seq<string>): seq<Line>
  {
    var mont := PeriodLines("Montagem:", b.montagemData, b.montagemHoraInicial, b.montagemHoraFinal,
                            localeDate, AfterGeneralY, 12);
    var desm := PeriodLines("Desmontagem:", b.desmontagemData, b.desmontagemHoraInicial, b.desmontagemHoraFinal,
                            localeDate, mont.1, 15);
    var tipos := TiposLines(b, desm.1);
    var dims := DimensionLines(b, tipos.1);
    var obs := ObservationLines(b, split, dims.1);
    var sig := SignatoryLines(b, obs.1);
    GeneralLines(b, localeDate) + mont.0 + desm.0 + tipos.0 + dims.0 + obs.0 + sig.0 + FooterLines(sig.1.page)
  }

  /** The assembly or disassembly block as the renderer writes it. */
  method WritePeriod(title: string, date: string, start: string, end: string,
                     localeDate: string -> string, y0: int, gap: int) returns (lines: seq<Line>, y: int)
    ensures lines == PeriodLines(title, date, start, end, localeDate, y0, gap).0
    ensures y == PeriodLines(title, date, start, end, localeDate, y0, gap).1
  {
    lines := [];
    y := y0;
    if date != "" {
      lines := lines + [Line(title, 1, y)];
      y := y + 8;
      lines := lines + [Line("Data: " + FormatDate(date, localeDate), 1, y), Line("Hora: " + start + " às " + end, 1, y)];
      y := y + gap;
    }
  }

  /** The types section as the renderer writes it. */
  method WriteTipos(b: Boletim, y0: int) returns (lines: seq<Line>, y: int)
    ensures lines == TiposLines(b, y0).0 && y == TiposLines(b, y0).1
  {
    lines := [Line("TIPOS DE ANDAIME", 1, y0)];
    y := y0 + 10;
    var tipos := BuildTipos(b);
    if |tipos| > 0 {
      lines := lines + [Line(Join(tipos, ", "), 1, y)];
      y := y + 15;
    }
  }

  /** The dimensions section as the renderer writes it. */
  method WriteDimensions(b: Boletim, y0: int) returns (lines: seq<Line>, y: int)
    ensures lines == DimensionLines(b, y0).0 && y == DimensionLines(b, y0).1
  {
    lines := [];
    y := y0;
    if b.comprimento != "" || b.largura != "" || b.altura != "" {
      lines := lines + [Line("DIMENSÕES", 1, y)];
      y := y + 10;
      var dimensoes := BuildDimensoes(b);
      lines := lines + [Line(Join(dimensoes, " | "), 1, y)];
      y := y + 15;
    }
  }

  /** The observations section as the renderer writes it. */
  method WriteObservations(b: Boletim, split: seq<string>, y0: int) returns (lines: seq<Line>, p: Pos)
    ensures lines == ObservationLines(b, split, y0).0 && p == ObservationLines(b, split, y0).1
  {
    lines := [];
    p := Pos(1, y0);
    if b.observacoes != "" {
      lines := lines + [Line("OBSERVAÇÕES", 1, y0)];
      var placed, at := PlaceObservationLines(split, Pos(1, y0 + 10));
      lines := lines + placed;
      p := Pos(at.page, at.y + 10);
    }
  }

  /** The signatories section as the renderer writes it. */
  method WriteSignatories(b: Boletim, p0: Pos) returns (lines: seq<Line>, p: Pos)
    ensures lines == SignatoryLines(b, p0).0 && p == SignatoryLines(b, p0).1
  {
    lines := [];
    var y := p0.y;
    if b.responsavelEngeval != "" || b.responsavelContratante != "" {
      y := y + 20;
      lines := lines + [Line("RESPONSÁVEIS", p0.page, y)];
      y := y + 15;
      if b.responsavelEngeval != "" {
        lines := lines + [Line("Responsável ENGEVAL: " + b.responsavelEngeval, p0.page, y)];
        y := y + 12;
      }
      if b.responsavelContratante != "" {
        lines := lines + [Line("Responsável Contratante: " + b.responsavelContratante, p0.page, y)];
        y := y + 12;
      }
    }
    p := Pos(p0.page, y);
  }

  /**
   * `generateBoletimPDF`: writes the sections in order, moving `y` down as it goes,
   * and names the file as the other jsPDF renderer does.
   */
  method GenerateBoletimPdf(b: Boletim, localeDate: string -> string, split: seq<string>, localeToday: string)
    returns (lines: seq<Line>, fileName: string)
    ensures lines == Document(b, localeDate, split)
    ensures fileName == PdfFileName(b.numero, localeToday)
  {
    lines := GeneralLines(b, localeDate);
    var y := AfterGeneralY;
    var section, p;
    section, y := WritePeriod("Montagem:", b.montagemData, b.montagemHoraInicial, b.montagemHoraFinal, localeDate, y, 12);
    lines := lines + section;
    section, y := WritePeriod("Desmontagem:", b.desmontagemData, b.desmontagemHoraInicial, b.desmontagemHoraFinal,
                              localeDate, y, 15);
    lines := lines + section;
    section, y := WriteTipos(b, y);
    lines := lines + section;
    section, y := WriteDimensions(b, y);
    lines := lines + section;
    section, p := WriteObservations(b, split, y);
    lines := lines + section;
    section, p := WriteSignatories(b, p);
    lines := lines + section;
    lines := lines + FooterLines(p.page);
    fileName := PdfFileName(b.numero, localeToday);
  }

  /**
   * Only the observations break pages: when they end low on a page, the signatories
   * are written below its bottom edge. Here the observations are 54 lines of "x", which
   * the runtime splits back into those 54 lines; they end at y 249 of page 2 and the
   * ENGEVAL signatory lands at y 300 of a 297 mm page.
   */
  lemma SignatoriesBelowPage(localeDate: string -> string)
    ensures var split := seq(54, _ => "x");
      var b := BlankBoletim("b", "u", 0, 0).(observacoes := Join(split, "\n"), responsavelEngeval := "E");
      && Line("Responsável ENGEVAL: " + "E", 2, 300) in Document(b, localeDate, split)
      && 300 > PageHeight
  {
    var split := seq(54, _ => "x");
    assert Join(split, "\n") == Join(split[..53], "\n") + "\n" + "x";
    var b := BlankBoletim("b", "u", 0, 0).(observacoes := Join(split, "\n"), responsavelEngeval := "E");
    assert b.observacoes != "";
    var first := split[..14];
    var second := split[14..];
    assert split == first + second;
    PlaceLinesFit(first, Pos(1, 170));
    PlaceLinesFit(second[1..], Pos(2, 21));
    assert PlaceLines(second, Pos(1, 254)).1 == PlaceLines(second[1..], Pos(2, 21)).1;
    PlaceLinesAppend(first, second, Pos(1, 170));
    assert PlaceLines(split, Pos(1, 170)).1 == Pos(2, 255);
    var tipos := TiposLines(b, 150);
    assert tipos.1 == 160;
    var obs := ObservationLines(b, split, 160);
    assert obs.1 == Pos(2, 265);
    var sig := SignatoryLines(b, obs.1);
    assert b.responsavelContratante == "" && b.responsavelEngeval == "E";
    assert sig.0 == [Line("RESPONSÁVEIS", 2, 285)] + [Line("Responsável ENGEVAL: " + "E", 2, 300)] + [];
    assert sig.0 == [Line("RESPONSÁVEIS", 2, 285), Line("Responsável ENGEVAL: " + "E", 2, 300)];
    assert Document(b, localeDate, split)
        == GeneralLines(b, localeDate) + [] + [] + tipos.0 + [] + obs.0 + sig.0 + FooterLines(sig.1.page);
  }
}
