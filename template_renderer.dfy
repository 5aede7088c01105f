/**
 * The template renderer: fills the fixed PDF form of a field report with text drawn at
 * fixed positions. Drawing is modelled as the list of draw commands the renderer emits,
 * in order; every y coordinate hangs off the page height through a chain of anchors.
 */
module TemplateRenderer {
  import opened Wrappers
  import opened Text
  import opened Types
  import opened Seqs
  import opened TextWrap

  datatype Font = Regular | Bold

  /** `page.drawText(text, { x, y, size, font })`. */
  datatype Draw = Draw(text: string, x: int, y: real, size: nat, font: Font)

  // ---------------------------------------------------------------------------
  // The anchor chain
  // ---------------------------------------------------------------------------

  function BaseY(h: real): real { h - 145.0 }
  function StatusY(h: real): real { BaseY(h) - 74.0 }
  function TabelaY(h: real): real { BaseY(h) - 187.0 }
  function TiposY(h: real): real { TabelaY(h) - 100.0 }
  function DimensoesY(h: real): real { TiposY(h) - 65.0 }
  function HorasY(h: real): real { DimensoesY(h) - 35.0 }
  function SolicitanteY(h: real): real { HorasY(h) - 65.0 }
  function ObsY(h: real): real { SolicitanteY(h) - 65.0 }
  function RespY(h: real): real { ObsY(h) - 105.0 }

  // ---------------------------------------------------------------------------
  // Text pieces
  // ---------------------------------------------------------------------------

  /** The header number: `numero`, or the current month (two digits) followed by the year. */
  function NumberText(numero: string, now: DateParts): string
  {
    if numero != "" then numero else Pad2(now.month) + NatToString(now.year)
  }

  /** `quebrarHora`: the parts before and after the first `:`; a missing part is empty. */
  function QuebrarHora(hora: string): (string, string)
  {
    if hora == "" then ("", "")
    else
      var parts := Split(hora, ':');
      (parts[0], if |parts| > 1 then parts[1] else "")
  }

  /**
   * `quebrarData`: day and month padded to two digits, the year as is. `dateOf` is the
   * runtime's reading of the date string; an unreadable date gives "NaN" everywhere.
   */
  function QuebrarData(data: string, dateOf: string -> Option<DateParts>): (string, string, string)
  {
    if data == "" then ("", "", "")
    else match dateOf(data)
      case Some(d) => (Pad2(d.day), Pad2(d.month), NatToString(d.year))
      case None => ("NaN", "NaN", "NaN")
  }

  /** The availability date as `DD/MM/YYYY`. */
  function DataFormatada(data: string, dateOf: string -> Option<DateParts>): string
  {
    match dateOf(data)
    case Some(d) => Pad2(d.day) + "/" + Pad2(d.month) + "/" + NatToString(d.year)
    case None => "NaN/NaN/NaN"
  }

  // ---------------------------------------------------------------------------
  // Draw commands
  // ---------------------------------------------------------------------------

  /** A regular-font text drawn only when it is non-empty (`if (boletim.campo) drawText(...)`). */
  function Field(value: string, x: int, y: real, size: nat): seq<Draw>
  {
    if value != "" then [Draw(value, x, y, size, Regular)] else []
  }

  /** Lines drawn one under the other, `step` apart, starting at `top`. */
  function Stack(lines: seq<string>, x: int, top: real, step: nat, size: nat): seq<Draw>
  {
    seq(|lines|, i requires 0 <= i < |lines| => Draw(lines[i], x, top - (step * i) as real, size, Regular))
  }

  /** `lines.slice(0, n)`. */
  function Take(lines: seq<string>, n: nat): seq<string>
  {
    if |lines| <= n then lines else lines[..n]
  }

  function NumberDraw(b: Boletim, h: real, now: DateParts): Draw
  {
    Draw(NumberText(b.numero, now), 475, h - 107.0, 10, Bold)
  }

  /** Client, equipment, requester, OM and management: always drawn, "" when empty. */
  function HeaderDraws(b: Boletim, h: real): seq<Draw>
  {
    [ Draw(b.cliente, 150, BaseY(h), 9, Regular),
      Draw(b.equipamento, 435, BaseY(h), 9, Regular),
      Draw(b.solicitante, 150, BaseY(h) - 20.0, 9, Regular),
      Draw(b.om, 435, BaseY(h) - 20.0, 9, Regular),
      Draw(b.gerencia, 175, BaseY(h) - 50.0, 9, Regular) ]
  }

  /** At most three wrapped lines of the description, 11 apart. */
  function DescriptionDraws(b: Boletim, h: real): seq<Draw>
  {
    if b.descricaoServicos == "" then []
    else Stack(Take(DescriptionLines(b.descricaoServicos), 3), 132, BaseY(h) - 100.0, 11, 8)
  }

  function DateCells(data: string, dateOf: string -> Option<DateParts>, xs: (int, int, int), y: real): seq<Draw>
  {
    if data == "" then []
    else
      var (dia, mes, ano) := QuebrarData(data, dateOf);
      [Draw(dia, xs.0, y, 8, Regular), Draw(mes, xs.1, y, 8, Regular), Draw(ano, xs.2, y, 8, Regular)]
  }

  function TimeCells(hora: string, xs: (int, int), y: real): seq<Draw>
  {
    if hora == "" then []
    else
      var (hh, mm) := QuebrarHora(hora);
      [Draw(hh, xs.0, y, 8, Regular), Draw(mm, xs.1, y, 8, Regular)]
  }

  /** One period's row of the table: its date split in three, then its start and end times. */
  function PeriodCells(data: string, inicial: string, final: string, dateOf: string -> Option<DateParts>,
                       xs: (int, int, int), xi: (int, int), xf: (int, int), y: real): seq<Draw>
  {
    DateCells(data, dateOf, xs, y) + TimeCells(inicial, xi, y) + TimeCells(final, xf, y)
  }

  /** The four requester and registration cells under the table. */
  function CrewCells(b: Boletim, y: real): seq<Draw>
  {
    Field(b.montagemSolicitante, 75, y, 7)
    + Field(b.montagemMatricula, 210, y, 7)
    + Field(b.desmontagemSolicitante, 350, y, 7)
    + Field(b.desmontagemMatricula, 485, y, 7)
  }

  /** The assembly/disassembly table: split dates and times, then requester and registration. */
  function TableDraws(b: Boletim, h: real, dateOf: string -> Option<DateParts>): seq<Draw>
  {
    var y := TabelaY(h);
    PeriodCells(b.montagemData, b.montagemHoraInicial, b.montagemHoraFinal, dateOf, (48, 72, 95), (155, 172), (248, 265), y)
    + PeriodCells(b.desmontagemData, b.desmontagemHoraInicial, b.desmontagemHoraFinal, dateOf,
                  (330, 353, 375), (432, 449), (513, 529), y)
    + CrewCells(b, y - 40.0)
  }

  function DimensionDraws(b: Boletim, h: real): seq<Draw>
  {
    var y := DimensoesY(h);
    Field(b.comprimento, 105, y, 8) + Field(b.largura, 225, y, 8)
    + Field(b.altura, 355, y, 8) + Field(b.quantidade, 510, y, 8)
  }

  function AvailabilityDraws(b: Boletim, h: real, dateOf: string -> Option<DateParts>): seq<Draw>
  {
    var y := HorasY(h);
    (if b.disposicaoData != "" then [Draw(DataFormatada(b.disposicaoData, dateOf), 130, y, 8, Regular)] else [])
    + Field(b.disposicaoHoraInicial, 305, y, 8)
    + Field(b.disposicaoHoraFinal, 500, y, 8)
  }

  function RequesterDraws(b: Boletim, h: real): seq<Draw>
  {
    Field(b.solicitanteServico, 75, SolicitanteY(h) + 5.0, 8)
    + Field(b.matriculaSolicitante, 255, SolicitanteY(h) + 5.0, 8)
  }

  /** At most four observation lines, 14 apart. */
  function ObservationDraws(b: Boletim, h: real): seq<Draw>
  {
    if b.observacoes == "" then []
    else Stack(Take(ObservationLines(b.observacoes), 4), 35, ObsY(h), 14, 9)
  }

  function SignatoryDraws(b: Boletim, h: real): seq<Draw>
  {
    Field(b.responsavelEngeval, 100, RespY(h), 8) + Field(b.responsavelContratante, 335, RespY(h), 8)
  }

  // ---------------------------------------------------------------------------
  // The check marks
  // ---------------------------------------------------------------------------

  /** The 18 flags the form marks with an `X`. */
  datatype Flag =
    | Montado | Desmontado
    | Convencional | Especial
    | Escoramento | TorreAcima5m | Passarela | Balancim
    | Escada | TorreAbaixo5m | LinhaDeVida | PauDeCarga
    | EspacoConfinado | GuardaCorpo | Rodizio | Barraca
    | LiderMontagem | Montador

  function FlagSet(b: Boletim, f: Flag): bool
  {
    match f
    case Montado => b.andaimeMontado
    case Desmontado => b.andaimeDesmontado
    case Convencional => b.andaimeConvencional
    case Especial => b.andaimeEspecial
    case Escoramento => b.escoramento
    case TorreAcima5m => b.torreAcima5m
    case Passarela => b.passarela
    case Balancim => b.balancim
    case Escada => b.escada
    case TorreAbaixo5m => b.torreAbaixo5m
    case LinhaDeVida => b.linhaDeVida
    case PauDeCarga => b.pauDeCarga
    case EspacoConfinado => b.espacoConfinado
    case GuardaCorpo => b.guardaCorpo
    case Rodizio => b.rodizio
    case Barraca => b.barraca
    case LiderMontagem => b.liderMontagem
    case Montador => b.montador
  }

  function IsSetIn(b: Boletim): Flag -> bool
  {
    f => FlagSet(b, f)
  }

  /** The `X` a set flag gets, at its fixed place on the form. */
  function Mark(f: Flag, h: real): Draw
  {
    var tipoAndaimeX := 40;
    match f
    case Montado => Draw("X", 132, StatusY(h), 10, Bold)
    case Desmontado => Draw("X", 310, StatusY(h), 10, Bold)
    case Convencional => Draw("X", 115, TiposY(h) + 14.0, 8, Bold)
    case Especial => Draw("X", 328, TiposY(h) + 14.0, 8, Bold)
    case Escoramento => Draw("X", tipoAndaimeX, TiposY(h) - 10.0, 8, Bold)
    case TorreAcima5m => Draw("X", tipoAndaimeX + 126, TiposY(h) - 9.0, 8, Bold)
    case Passarela => Draw("X", tipoAndaimeX + 248, TiposY(h) - 9.0, 8, Bold)
    case Balancim => Draw("X", tipoAndaimeX + 366, TiposY(h) - 8.0, 8, Bold)
    case Escada => Draw("X", tipoAndaimeX, TiposY(h) - 22.0, 8, Bold)
    case TorreAbaixo5m => Draw("X", tipoAndaimeX + 126, TiposY(h) - 22.0, 8, Bold)
    case LinhaDeVida => Draw("X", tipoAndaimeX + 248, TiposY(h) - 22.0, 8, Bold)
    case PauDeCarga => Draw("X", tipoAndaimeX + 366, TiposY(h) - 22.0, 8, Bold)
    case EspacoConfinado => Draw("X", tipoAndaimeX, TiposY(h) - 34.0, 8, Bold)
    case GuardaCorpo => Draw("X", tipoAndaimeX + 126, TiposY(h) - 34.0, 8, Bold)
    case Rodizio => Draw("X", tipoAndaimeX + 248, TiposY(h) - 34.0, 8, Bold)
    case Barraca => Draw("X", tipoAndaimeX + 366, TiposY(h) - 34.0, 8, Bold)
    case LiderMontagem => Draw("X", 377, SolicitanteY(h) + 17.0, 12, Bold)
    case Montador => Draw("X", 377, SolicitanteY(h) - 3.0, 12, Bold)
  }

  const StatusFlags: seq<Flag> := [Montado, Desmontado]
  /** The two main types, then the `tiposEspecificos` grid in its row order. */
  const TipoFlags: seq<Flag> := [Convencional, Especial,
    Escoramento, TorreAcima5m, Passarela, Balancim,
    Escada, TorreAbaixo5m, LinhaDeVida, PauDeCarga,
    EspacoConfinado, GuardaCorpo, Rodizio, Barraca]
  const CrewFlags: seq<Flag> := [LiderMontagem, Montador]
  const AllFlags: seq<Flag> := StatusFlags + TipoFlags + CrewFlags

  function MarksOf(fs: seq<Flag>, h: real): seq<Draw>
  {
    if fs == [] then [] else [Mark(fs[0], h)] + MarksOf(fs[1..], h)
  }

  /** The marks of the set flags among `fs`, in order. */
  function MarksFor(b: Boletim, fs: seq<Flag>, h: real): seq<Draw>
  {
    MarksOf(Filter(fs, IsSetIn(b)), h)
  }

  // ---------------------------------------------------------------------------
  // The whole page
  // ---------------------------------------------------------------------------

  /** Every draw after the header number, in the order the renderer issues them. */
  function BodyDraws(b: Boletim, h: real, dateOf: string -> Option<DateParts>): seq<Draw>
  {
    HeaderDraws(b, h)
    + MarksFor(b, StatusFlags, h)
    + DescriptionDraws(b, h)
    + TableDraws(b, h, dateOf)
    + MarksFor(b, TipoFlags, h)
    + DimensionDraws(b, h)
    + AvailabilityDraws(b, h, dateOf)
    + RequesterDraws(b, h)
    + MarksFor(b, CrewFlags, h)
    + ObservationDraws(b, h)
    + SignatoryDraws(b, h)
  }

  /**
   * The page for report `b` on a template page of height `h`; `now` is the local date
   * of the moment of rendering.
   */
  function Render(b: Boletim, h: real, now: DateParts, dateOf: string -> Option<DateParts>): seq<Draw>
  {
    [NumberDraw(b, h, now)] + BodyDraws(b, h, dateOf)
  }

  /** `Boletim_<number>_<UTC date>.pdf`; `isoNow` is `new Date().toISOString()`. */
  function FileName(b: Boletim, now: DateParts, isoNow: string): string
  {
    "Boletim_" + NumberText(b.numero, now) + "_" + Split(isoNow, 'T')[0] + ".pdf"
  }

  const GenerationError: string := "Erro ao gerar PDF. Verifique os dados do boletim."

  datatype Pdf = Pdf(draws: seq<Draw>, fileName: string)

  /**
   * `generateBoletimPDFFromTemplate`. `template` is the height of the template's first
   * page, or None when the template could not be fetched or loaded; every failure is
   * reported with the same message.
   */
  function Generate(b: Boletim, template: Option<real>, now: DateParts, dateOf: string -> Option<DateParts>,
                    isoNow: string): (r: Result<Pdf>)
    ensures r.Failure? <==> template.None?
    ensures r.Failure? ==> r.message == GenerationError
  {
    match template
    case None => Failure(GenerationError)
    case Some(h) => Success(Pdf(Render(b, h, now, dateOf), FileName(b, now, isoNow)))
  }

  /** A report with a number gives its file that number. */
  lemma NamedAfterNumber(b: Boletim, now: DateParts, isoNow: string)
    requires b.numero != ""
    ensures FileName(b, now, isoNow) == "Boletim_" + b.numero + "_" + Split(isoNow, 'T')[0] + ".pdf"
  {
  }

  /** With a template, the document holds the page's draws and the report's file name. */
  lemma GenerateSucceeds(b: Boletim, h: real, now: DateParts, dateOf: string -> Option<DateParts>, isoNow: string)
    ensures Generate(b, Some(h), now, dateOf, isoNow) == Success(Pdf(Render(b, h, now, dateOf), FileName(b, now, isoNow)))
  {
  }

  // ---------------------------------------------------------------------------
  // Properties
  // ---------------------------------------------------------------------------

  /**
   * Without a number, the header shows six digits: the month padded to two digits and
   * the four-digit year; a number that is set is shown as it is.
   */
  lemma NumberFallback(numero: string, now: DateParts)
    requires 1 <= now.month <= 12 && 1000 <= now.year <= 9999
    ensures numero != "" ==> NumberText(numero, now) == numero
    ensures numero == "" ==>
      var n := NumberText(numero, now);
      |n| == 6 && AllDigits(n) && DigitsValue(n[..2]) == now.month && DigitsValue(n[2..]) == now.year
  {
    if numero == "" {
      var mm, yyyy := Pad2(now.month), NatToString(now.year);
      Pad2Value(now.month);
      NatToStringLength(now.year);
      NatToStringValue(now.year);
      assert |mm| == 2 && DigitsValue(mm) == now.month;
      assert |yyyy| == 4 && DigitsValue(yyyy) == now.year;
      var n := mm + yyyy;
      AllDigitsAppend(mm, yyyy);
      assert NumberText(numero, now) == n;
      assert n[..2] == mm;
      assert n[2..] == yyyy;
    }
  }

  /** `quebrarHora`: empty gives two empty parts; `HH:MM` gives `HH` and `MM`; no colon gives no minutes. */
  lemma QuebrarHoraFacts(hh: string, mm: string)
    requires ':' !in hh && ':' !in mm
    ensures QuebrarHora("") == ("", "")
    ensures QuebrarHora(hh + ":" + mm) == (hh, mm)
    ensures hh != "" ==> QuebrarHora(hh) == (hh, "")
  {
    SplitNoSeparator(hh, ':');
    SplitAppend(hh, ':', mm);
    assert hh + ":" + mm == hh + [':'] + mm;
  }

  /** `quebrarData` pads day and month to two digits and reads them back as the date's own. */
  lemma QuebrarDataFacts(data: string, dateOf: string -> Option<DateParts>)
    requires data != "" && dateOf(data).Some?
    requires dateOf(data).value.day < 100 && dateOf(data).value.month < 100
    ensures var (dia, mes, ano) := QuebrarData(data, dateOf);
      |dia| == 2 && |mes| == 2 && AllDigits(dia) && AllDigits(mes) && AllDigits(ano)
      && DigitsValue(dia) == dateOf(data).value.day && DigitsValue(mes) == dateOf(data).value.month
      && DigitsValue(ano) == dateOf(data).value.year
  {
    var d := dateOf(data).value;
    Pad2Value(d.day);
    Pad2Value(d.month);
    NatToStringValue(d.year);
  }

  /** The file name ends in the UTC date part of the ISO timestamp. */
  lemma FileNameDate(b: Boletim, now: DateParts, date: string, time: string)
    requires 'T' !in date && 'T' !in time
    ensures FileName(b, now, date + "T" + time) == "Boletim_" + NumberText(b.numero, now) + "_" + date + ".pdf"
  {
    SplitNoSeparator(date, 'T');
    SplitAppend(date, 'T', time);
    assert date + "T" + time == date + ['T'] + time;
  }

  /** Two different flags never share a place on the form. */
  lemma MarksDistinct(f: Flag, g: Flag, h: real)
    requires f != g
    ensures (Mark(f, h).x, Mark(f, h).y) != (Mark(g, h).x, Mark(g, h).y)
  {
  }

  lemma {:induction false} MarksOfAppend(fs: seq<Flag>, gs: seq<Flag>, h: real)
    ensures MarksOf(fs + gs, h) == MarksOf(fs, h) + MarksOf(gs, h)
    decreases |fs|
  {
    if fs != [] {
      MarksOfAppend(fs[1..], gs, h);
      assert (fs + gs)[1..] == fs[1..] + gs;
    } else {
      assert fs + gs == gs;
    }
  }

  lemma {:induction false} MarksOfMembers(fs: seq<Flag>, h: real, f: Flag)
    ensures |MarksOf(fs, h)| == |fs|
    ensures Mark(f, h) in MarksOf(fs, h) <==> f in fs
    ensures forall i :: 0 <= i < |fs| ==> MarksOf(fs, h)[i] == Mark(fs[i], h)
    decreases |fs|
  {
    if fs != [] {
      MarksOfMembers(fs[1..], h, f);
      if f != fs[0] {
        MarksDistinct(f, fs[0], h);
      }
    }
  }

  /**
   * Exactly one `X` per set flag: the marks are the set flags' places, one each, in
   * form order; with every flag clear there is none.
   */
  lemma MarksExactly(b: Boletim, h: real)
    ensures |MarksFor(b, AllFlags, h)| == |Filter(AllFlags, IsSetIn(b))|
    ensures forall f :: Mark(f, h) in MarksFor(b, AllFlags, h) <==> FlagSet(b, f)
    ensures (forall f :: !FlagSet(b, f)) ==> MarksFor(b, AllFlags, h) == []
  {
    forall f ensures Mark(f, h) in MarksFor(b, AllFlags, h) <==> FlagSet(b, f) {
      MarksOfMembers(Filter(AllFlags, IsSetIn(b)), h, f);
      EveryFlagListed(f);
    }
    MarksOfMembers(Filter(AllFlags, IsSetIn(b)), h, Montado);
    if forall f :: !FlagSet(b, f) {
      FilterNone(AllFlags, IsSetIn(b));
    }
  }

  lemma EveryFlagListed(f: Flag)
    ensures f in AllFlags
  {
    match f
    case Montado => assert AllFlags[0] == f;
    case Desmontado => assert AllFlags[1] == f;
    case Convencional => assert AllFlags[2] == f;
    case Especial => assert AllFlags[3] == f;
    case Escoramento => assert AllFlags[4] == f;
    case TorreAcima5m => assert AllFlags[5] == f;
    case Passarela => assert AllFlags[6] == f;
    case Balancim => assert AllFlags[7] == f;
    case Escada => assert AllFlags[8] == f;
    case TorreAbaixo5m => assert AllFlags[9] == f;
    case LinhaDeVida => assert AllFlags[10] == f;
    case PauDeCarga => assert AllFlags[11] == f;
    case EspacoConfinado => assert AllFlags[12] == f;
    case GuardaCorpo => assert AllFlags[13] == f;
    case Rodizio => assert AllFlags[14] == f;
    case Barraca => assert AllFlags[15] == f;
    case LiderMontagem => assert AllFlags[16] == f;
    case Montador => assert AllFlags[17] == f;
  }

  function IsBold(d: Draw): bool
  {
    d.font == Bold
  }

  predicate AllRegular(ds: seq<Draw>)
  {
    forall d :: d in ds ==> d.font == Regular
  }

  lemma NoBold(ds: seq<Draw>)
    requires AllRegular(ds)
    ensures Filter(ds, IsBold) == []
  {
    assert forall i :: 0 <= i < |ds| ==> ds[i] in ds;
    FilterNone(ds, IsBold);
  }

  lemma MarksBold(b: Boletim, fs: seq<Flag>, h: real)
    ensures Filter(MarksFor(b, fs, h), IsBold) == MarksFor(b, fs, h)
  {
    var m := MarksFor(b, fs, h);
    forall i | 0 <= i < |m| ensures IsBold(m[i]) {
      MarksOfMembers(Filter(fs, IsSetIn(b)), h, Montado);
    }
    FilterAll(m, IsBold);
  }

  lemma TextsRegular(b: Boletim, h: real, dateOf: string -> Option<DateParts>)
    ensures AllRegular(HeaderDraws(b, h)) && AllRegular(DescriptionDraws(b, h))
    ensures AllRegular(TableDraws(b, h, dateOf)) && AllRegular(DimensionDraws(b, h))
    ensures AllRegular(AvailabilityDraws(b, h, dateOf)) && AllRegular(RequesterDraws(b, h))
    ensures AllRegular(ObservationDraws(b, h)) && AllRegular(SignatoryDraws(b, h))
  {
    HeaderRegular(b, h);
    DescriptionRegular(b, h);
    TableRegular(b, h, dateOf);
    DimensionsRegular(b, h);
    AvailabilityRegular(b, h, dateOf);
    RequesterRegular(b, h);
    ObservationRegular(b, h);
    SignatoryRegular(b, h);
  }

  lemma HeaderRegular(b: Boletim, h: real)
    ensures AllRegular(HeaderDraws(b, h))
  {
  }

  lemma DescriptionRegular(b: Boletim, h: real)
    ensures AllRegular(DescriptionDraws(b, h))
  {
    StackRegular(Take(DescriptionLines(b.descricaoServicos), 3), 132, BaseY(h) - 100.0, 11, 8);
  }

  lemma ObservationRegular(b: Boletim, h: real)
    ensures AllRegular(ObservationDraws(b, h))
  {
    StackRegular(Take(ObservationLines(b.observacoes), 4), 35, ObsY(h), 14, 9);
  }

  lemma FieldRegular(value: string, x: int, y: real, size: nat)
    ensures AllRegular(Field(value, x, y, size))
  {
  }

  lemma DimensionsRegular(b: Boletim, h: real)
    ensures AllRegular(DimensionDraws(b, h))
  {
    var y := DimensoesY(h);
    FieldRegular(b.comprimento, 105, y, 8);
    FieldRegular(b.largura, 225, y, 8);
    FieldRegular(b.altura, 355, y, 8);
    FieldRegular(b.quantidade, 510, y, 8);
    RegularAppend4(Field(b.comprimento, 105, y, 8), Field(b.largura, 225, y, 8),
                   Field(b.altura, 355, y, 8), Field(b.quantidade, 510, y, 8));
  }

  lemma AvailabilityRegular(b: Boletim, h: real, dateOf: string -> Option<DateParts>)
    ensures AllRegular(AvailabilityDraws(b, h, dateOf))
  {
    var y := HorasY(h);
    var d := if b.disposicaoData != "" then [Draw(DataFormatada(b.disposicaoData, dateOf), 130, y, 8, Regular)] else [];
    FieldRegular(b.disposicaoHoraInicial, 305, y, 8);
    FieldRegular(b.disposicaoHoraFinal, 500, y, 8);
    RegularAppend(d, Field(b.disposicaoHoraInicial, 305, y, 8));
    RegularAppend(d + Field(b.disposicaoHoraInicial, 305, y, 8), Field(b.disposicaoHoraFinal, 500, y, 8));
  }

  lemma RequesterRegular(b: Boletim, h: real)
    ensures AllRegular(RequesterDraws(b, h))
  {
    FieldRegular(b.solicitanteServico, 75, SolicitanteY(h) + 5.0, 8);
    FieldRegular(b.matriculaSolicitante, 255, SolicitanteY(h) + 5.0, 8);
    RegularAppend(Field(b.solicitanteServico, 75, SolicitanteY(h) + 5.0, 8),
                  Field(b.matriculaSolicitante, 255, SolicitanteY(h) + 5.0, 8));
  }

  lemma SignatoryRegular(b: Boletim, h: real)
    ensures AllRegular(SignatoryDraws(b, h))
  {
    FieldRegular(b.responsavelEngeval, 100, RespY(h), 8);
    FieldRegular(b.responsavelContratante, 335, RespY(h), 8);
    RegularAppend(Field(b.responsavelEngeval, 100, RespY(h), 8), Field(b.responsavelContratante, 335, RespY(h), 8));
  }

  lemma RegularAppend(a: seq<Draw>, b: seq<Draw>)
    requires AllRegular(a) && AllRegular(b)
    ensures AllRegular(a + b)
  {
  }

  lemma RegularAppend4(a: seq<Draw>, b: seq<Draw>, c: seq<Draw>, d: seq<Draw>)
    requires AllRegular(a) && AllRegular(b) && AllRegular(c) && AllRegular(d)
    ensures AllRegular(a + b + c + d)
  {
    RegularAppend(a, b);
    RegularAppend(a + b, c);
    RegularAppend(a + b + c, d);
  }

  lemma DateCellsRegular(data: string, dateOf: string -> Option<DateParts>, xs: (int, int, int), y: real)
    ensures AllRegular(DateCells(data, dateOf, xs, y))
  {
  }

  lemma TimeCellsRegular(hora: string, xs: (int, int), y: real)
    ensures AllRegular(TimeCells(hora, xs, y))
  {
  }

  lemma TableParts(b: Boletim, h: real, dateOf: string -> Option<DateParts>)
    ensures TableDraws(b, h, dateOf) ==
      PeriodCells(b.montagemData, b.montagemHoraInicial, b.montagemHoraFinal, dateOf, (48, 72, 95), (155, 172), (248, 265), TabelaY(h))
      + PeriodCells(b.desmontagemData, b.desmontagemHoraInicial, b.desmontagemHoraFinal, dateOf,
                    (330, 353, 375), (432, 449), (513, 529), TabelaY(h))
      + CrewCells(b, TabelaY(h) - 40.0)
  {
  }

  lemma TableRegular(b: Boletim, h: real, dateOf: string -> Option<DateParts>)
    ensures AllRegular(TableDraws(b, h, dateOf))
  {
    TableParts(b, h, dateOf);
    CrewRegular(b, TabelaY(h) - 40.0);
    RowsRegular(b.montagemData, b.montagemHoraInicial, b.montagemHoraFinal,
                b.desmontagemData, b.desmontagemHoraInicial, b.desmontagemHoraFinal,
                dateOf, TabelaY(h), CrewCells(b, TabelaY(h) - 40.0));
  }

  lemma RowsRegular(md: string, mi: string, mf: string, dd: string, di: string, df: string,
                    dateOf: string -> Option<DateParts>, y: real, crew: seq<Draw>)
    requires AllRegular(crew)
    ensures AllRegular(PeriodCells(md, mi, mf, dateOf, (48, 72, 95), (155, 172), (248, 265), y)
                       + PeriodCells(dd, di, df, dateOf, (330, 353, 375), (432, 449), (513, 529), y) + crew)
  {
    PeriodRegular(md, mi, mf, dateOf, (48, 72, 95), (155, 172), (248, 265), y);
    PeriodRegular(dd, di, df, dateOf, (330, 353, 375), (432, 449), (513, 529), y);
    RegularAppend3(PeriodCells(md, mi, mf, dateOf, (48, 72, 95), (155, 172), (248, 265), y),
                   PeriodCells(dd, di, df, dateOf, (330, 353, 375), (432, 449), (513, 529), y), crew);
  }

  lemma RegularAppend3(a: seq<Draw>, b: seq<Draw>, c: seq<Draw>)
    requires AllRegular(a) && AllRegular(b) && AllRegular(c)
    ensures AllRegular(a + b + c)
  {
  }

  lemma PeriodRegular(data: string, inicial: string, final: string, dateOf: string -> Option<DateParts>,
                      xs: (int, int, int), xi: (int, int), xf: (int, int), y: real)
    ensures AllRegular(PeriodCells(data, inicial, final, dateOf, xs, xi, xf, y))
  {
    DateCellsRegular(data, dateOf, xs, y);
    TimeCellsRegular(inicial, xi, y);
    TimeCellsRegular(final, xf, y);
    RegularAppend(DateCells(data, dateOf, xs, y), TimeCells(inicial, xi, y));
    RegularAppend(DateCells(data, dateOf, xs, y) + TimeCells(inicial, xi, y), TimeCells(final, xf, y));
  }

  lemma CrewRegular(b: Boletim, y: real)
    ensures AllRegular(CrewCells(b, y))
  {
    FieldRegular(b.montagemSolicitante, 75, y, 7);
    FieldRegular(b.montagemMatricula, 210, y, 7);
    FieldRegular(b.desmontagemSolicitante, 350, y, 7);
    FieldRegular(b.desmontagemMatricula, 485, y, 7);
    RegularAppend4(Field(b.montagemSolicitante, 75, y, 7), Field(b.montagemMatricula, 210, y, 7),
                   Field(b.desmontagemSolicitante, 350, y, 7), Field(b.desmontagemMatricula, 485, y, 7));
  }

  lemma StackRegular(lines: seq<string>, x: int, top: real, step: nat, size: nat)
    ensures AllRegular(Stack(lines, x, top, step, size))
  {
    var ds := Stack(lines, x, top, step, size);
    forall d | d in ds ensures d.font == Regular {
      var i :| 0 <= i < |ds| && ds[i] == d;
    }
  }

  /**
   * After the header number, the bold draws of the page are exactly the marks of the
   * set flags, in form order: every other text is in the regular font.
   */
  lemma BoldDrawsAreMarks(b: Boletim, h: real, dateOf: string -> Option<DateParts>)
    ensures Filter(BodyDraws(b, h, dateOf), IsBold) == MarksFor(b, AllFlags, h)
  {
    var H, S, D, T := HeaderDraws(b, h), MarksFor(b, StatusFlags, h), DescriptionDraws(b, h), TableDraws(b, h, dateOf);
    var K, Di, A, Q := MarksFor(b, TipoFlags, h), DimensionDraws(b, h), AvailabilityDraws(b, h, dateOf), RequesterDraws(b, h);
    var C, O, R := MarksFor(b, CrewFlags, h), ObservationDraws(b, h), SignatoryDraws(b, h);
    TextsRegular(b, h, dateOf);
    NoBold(H);
    AfterMarks(H, [], b, StatusFlags, h);
    AfterTexts(H + S, S, D);
    AfterTexts(H + S + D, S, T);
    AfterMarks(H + S + D + T, S, b, TipoFlags, h);
    AfterTexts(H + S + D + T + K, S + K, Di);
    AfterTexts(H + S + D + T + K + Di, S + K, A);
    AfterTexts(H + S + D + T + K + Di + A, S + K, Q);
    AfterMarks(H + S + D + T + K + Di + A + Q, S + K, b, CrewFlags, h);
    AfterTexts(H + S + D + T + K + Di + A + Q + C, S + K + C, O);
    AfterTexts(H + S + D + T + K + Di + A + Q + C + O, S + K + C, R);
    assert BodyDraws(b, h, dateOf) == H + S + D + T + K + Di + A + Q + C + O + R;
    MarksForAll(b, h);
  }

  /** Texts in the regular font add nothing to the bold draws. */
  lemma AfterTexts(acc: seq<Draw>, bold: seq<Draw>, texts: seq<Draw>)
    requires Filter(acc, IsBold) == bold && AllRegular(texts)
    ensures Filter(acc + texts, IsBold) == bold
  {
    FilterAppend(acc, texts, IsBold);
    NoBold(texts);
  }

  /** Marks are all bold. */
  lemma AfterMarks(acc: seq<Draw>, bold: seq<Draw>, b: Boletim, fs: seq<Flag>, h: real)
    requires Filter(acc, IsBold) == bold
    ensures Filter(acc + MarksFor(b, fs, h), IsBold) == bold + MarksFor(b, fs, h)
  {
    FilterAppend(acc, MarksFor(b, fs, h), IsBold);
    MarksBold(b, fs, h);
  }

  /** The marks of all flags are the status, type and crew marks, in that order. */
  lemma MarksForAll(b: Boletim, h: real)
    ensures MarksFor(b, AllFlags, h) == MarksFor(b, StatusFlags, h) + MarksFor(b, TipoFlags, h) + MarksFor(b, CrewFlags, h)
  {
    FilterAppend(StatusFlags, TipoFlags, IsSetIn(b));
    FilterAppend(StatusFlags + TipoFlags, CrewFlags, IsSetIn(b));
    MarksOfAppend(Filter(StatusFlags, IsSetIn(b)), Filter(TipoFlags, IsSetIn(b)), h);
    MarksOfAppend(Filter(StatusFlags, IsSetIn(b)) + Filter(TipoFlags, IsSetIn(b)), Filter(CrewFlags, IsSetIn(b)), h);
  }

  /** The header number is the first draw and reappears in the file name, right after `Boletim_`. */
  lemma NumberAndFileName(b: Boletim, h: real, now: DateParts, dateOf: string -> Option<DateParts>, isoNow: string)
    ensures Render(b, h, now, dateOf)[0].text == NumberText(b.numero, now)
    ensures var n := NumberText(b.numero, now);
      |FileName(b, now, isoNow)| > 8 + |n| && FileName(b, now, isoNow)[8..8 + |n|] == n
  {
    var n := NumberText(b.numero, now);
    var f := FileName(b, now, isoNow);
    assert f == "Boletim_" + n + ("_" + Split(isoNow, 'T')[0] + ".pdf");
    assert f[8..8 + |n|] == n;
  }

  /** Every draw lies between `y` bounds. */
  predicate Between(ds: seq<Draw>, lo: real, hi: real)
  {
    forall d :: d in ds ==> lo <= d.y <= hi
  }

  lemma BetweenAppend(a: seq<Draw>, b: seq<Draw>, lo: real, hi: real)
    requires Between(a, lo, hi) && Between(b, lo, hi)
    ensures Between(a + b, lo, hi)
  {
  }

  lemma MarksBetween(b: Boletim, fs: seq<Flag>, h: real)
    ensures Between(MarksFor(b, fs, h), h - 600.0, h - 219.0)
  {
    var gs := Filter(fs, IsSetIn(b));
    MarksOfMembers(gs, h, Montado);
    forall d | d in MarksOf(gs, h) ensures h - 600.0 <= d.y <= h - 219.0 {
      var i :| 0 <= i < |gs| && MarksOf(gs, h)[i] == d;
    }
  }

  lemma StackBetween(lines: seq<string>, x: int, top: real, step: nat, size: nat, n: nat)
    requires |lines| <= n
    ensures Between(Stack(lines, x, top, step, size), top - (step * (n - 1)) as real, top)
  {
    var ds := Stack(lines, x, top, step, size);
    forall i | 0 <= i < |ds| ensures top - (step * (n - 1)) as real <= ds[i].y <= top {
      MulMonotone(step, i, n - 1);
    }
  }

  lemma MulMonotone(k: nat, i: int, j: int)
    requires 0 <= i <= j
    ensures 0 <= k * i <= k * j
  {
  }

  lemma TableBetween(b: Boletim, h: real, dateOf: string -> Option<DateParts>)
    ensures Between(TableDraws(b, h, dateOf), h - 372.0, h - 332.0)
  {
    assert TabelaY(h) == h - 332.0;
    TableParts(b, h, dateOf);
    CrewAt(b, TabelaY(h) - 40.0);
    RowsAt(b.montagemData, b.montagemHoraInicial, b.montagemHoraFinal,
           b.desmontagemData, b.desmontagemHoraInicial, b.desmontagemHoraFinal,
           dateOf, TabelaY(h), CrewCells(b, TabelaY(h) - 40.0), h - 372.0, h - 332.0);
  }

  lemma RowsAt(md: string, mi: string, mf: string, dd: string, di: string, df: string,
               dateOf: string -> Option<DateParts>, y: real, crew: seq<Draw>, lo: real, hi: real)
    requires Between(crew, y - 40.0, y - 40.0) && lo <= y - 40.0 && y <= hi
    ensures Between(PeriodCells(md, mi, mf, dateOf, (48, 72, 95), (155, 172), (248, 265), y)
                    + PeriodCells(dd, di, df, dateOf, (330, 353, 375), (432, 449), (513, 529), y) + crew, lo, hi)
  {
    PeriodAt(md, mi, mf, dateOf, (48, 72, 95), (155, 172), (248, 265), y);
    PeriodAt(dd, di, df, dateOf, (330, 353, 375), (432, 449), (513, 529), y);
    BetweenRows(PeriodCells(md, mi, mf, dateOf, (48, 72, 95), (155, 172), (248, 265), y),
                PeriodCells(dd, di, df, dateOf, (330, 353, 375), (432, 449), (513, 529), y), crew, y, y - 40.0, lo, hi);
  }

  lemma BetweenRows(a: seq<Draw>, b: seq<Draw>, c: seq<Draw>, y: real, y': real, lo: real, hi: real)
    requires Between(a, y, y) && Between(b, y, y) && Between(c, y', y')
    requires lo <= y <= hi && lo <= y' <= hi
    ensures Between(a + b + c, lo, hi)
  {
  }

  lemma BetweenWiden(ds: seq<Draw>, lo: real, hi: real, lo': real, hi': real)
    requires Between(ds, lo, hi) && lo' <= lo && hi <= hi'
    ensures Between(ds, lo', hi')
  {
  }

  lemma PeriodAt(data: string, inicial: string, final: string, dateOf: string -> Option<DateParts>,
                 xs: (int, int, int), xi: (int, int), xf: (int, int), y: real)
    ensures Between(PeriodCells(data, inicial, final, dateOf, xs, xi, xf, y), y, y)
  {
    CellsAt(data, dateOf, xs, y, inicial, xi);
    CellsAt(data, dateOf, xs, y, final, xf);
    BetweenAppend(DateCells(data, dateOf, xs, y), TimeCells(inicial, xi, y), y, y);
    BetweenAppend(DateCells(data, dateOf, xs, y) + TimeCells(inicial, xi, y), TimeCells(final, xf, y), y, y);
  }

  lemma CrewAt(b: Boletim, y: real)
    ensures Between(CrewCells(b, y), y, y)
  {
  }

  lemma CellsAt(data: string, dateOf: string -> Option<DateParts>, xs: (int, int, int), y: real, hora: string, ys: (int, int))
    ensures Between(DateCells(data, dateOf, xs, y), y, y)
    ensures Between(TimeCells(hora, ys, y), y, y)
  {
  }

  lemma WrappedBetween(b: Boletim, h: real)
    ensures Between(DescriptionDraws(b, h), h - 267.0, h - 245.0)
    ensures Between(ObservationDraws(b, h), h - 704.0, h - 662.0)
  {
    if b.descricaoServicos != "" {
      StackBetween(Take(DescriptionLines(b.descricaoServicos), 3), 132, BaseY(h) - 100.0, 11, 8, 3);
    }
    if b.observacoes != "" {
      StackBetween(Take(ObservationLines(b.observacoes), 4), 35, ObsY(h), 14, 9, 4);
    }
  }

  lemma HeaderBetween(b: Boletim, h: real)
    ensures Between(HeaderDraws(b, h), h - 195.0, h - 145.0)
  {
  }

  lemma OtherTextsBetween(b: Boletim, h: real, dateOf: string -> Option<DateParts>)
    ensures Between(DimensionDraws(b, h), h - 497.0, h - 497.0)
    ensures Between(AvailabilityDraws(b, h, dateOf), h - 532.0, h - 532.0)
    ensures Between(RequesterDraws(b, h), h - 592.0, h - 592.0)
    ensures Between(SignatoryDraws(b, h), h - 767.0, h - 767.0)
  {
  }

  /**
   * Every draw sits between 107 and 767 points below the top edge of the page: the y
   * coordinates all hang off the page height.
   */
  lemma RenderWithinPage(b: Boletim, h: real, now: DateParts, dateOf: string -> Option<DateParts>)
    ensures Between(Render(b, h, now, dateOf), h - 767.0, h - 107.0)
  {
    var lo, hi := h - 767.0, h - 107.0;
    var H, S, D, T := HeaderDraws(b, h), MarksFor(b, StatusFlags, h), DescriptionDraws(b, h), TableDraws(b, h, dateOf);
    var K, Di, A, Q := MarksFor(b, TipoFlags, h), DimensionDraws(b, h), AvailabilityDraws(b, h, dateOf), RequesterDraws(b, h);
    var C, O, R := MarksFor(b, CrewFlags, h), ObservationDraws(b, h), SignatoryDraws(b, h);
    MarksBetween(b, StatusFlags, h);
    MarksBetween(b, TipoFlags, h);
    MarksBetween(b, CrewFlags, h);
    WrappedBetween(b, h);
    TableBetween(b, h, dateOf);
    HeaderBetween(b, h);
    OtherTextsBetween(b, h, dateOf);
    assert Between([NumberDraw(b, h, now)], lo, hi);
    BetweenAppend(H, S, lo, hi);
    BetweenAppend(H + S, D, lo, hi);
    BetweenAppend(H + S + D, T, lo, hi);
    BetweenAppend(H + S + D + T, K, lo, hi);
    BetweenAppend(H + S + D + T + K, Di, lo, hi);
    BetweenAppend(H + S + D + T + K + Di, A, lo, hi);
    BetweenAppend(H + S + D + T + K + Di + A, Q, lo, hi);
    BetweenAppend(H + S + D + T + K + Di + A + Q, C, lo, hi);
    BetweenAppend(H + S + D + T + K + Di + A + Q + C, O, lo, hi);
    BetweenAppend(H + S + D + T + K + Di + A + Q + C + O, R, lo, hi);
    assert BodyDraws(b, h, dateOf) == H + S + D + T + K + Di + A + Q + C + O + R;
    BetweenAppend([NumberDraw(b, h, now)], BodyDraws(b, h, dateOf), lo, hi);
  }

  /**
   * An empty report draws six texts: the number fallback and the five header fields,
   * which are drawn even when empty; every other text and every mark is skipped.
   */
  lemma BlankReportDraws(id: string, userId: string, t: int, h: real, now: DateParts, dateOf: string -> Option<DateParts>)
    ensures var ds := Render(BlankBoletim(id, userId, t, t), h, now, dateOf);
      |ds| == 6 && ds[0].text == Pad2(now.month) + NatToString(now.year)
      && ds[1].text == ds[2].text == ds[3].text == ds[4].text == ds[5].text == ""
  {
    var b := BlankBoletim(id, userId, t, t);
    BlankBodyIsHeader(b, h, dateOf);
    BlankHeaderEmpty(id, userId, t);
    HeaderOnlyRender(b, h, now, Render(b, h, now, dateOf));
    assert NumberText("", now) == Pad2(now.month) + NatToString(now.year);
  }

  lemma HeaderOnlyRender(b: Boletim, h: real, now: DateParts, ds: seq<Draw>)
    requires ds == [NumberDraw(b, h, now)] + HeaderDraws(b, h)
    ensures |ds| == 6 && ds[0].text == NumberText(b.numero, now)
      && ds[1].text == b.cliente && ds[2].text == b.equipamento && ds[3].text == b.solicitante
      && ds[4].text == b.om && ds[5].text == b.gerencia
  {
  }

  lemma BlankHeaderEmpty(id: string, userId: string, t: int)
    ensures var b := BlankBoletim(id, userId, t, t);
      b.numero == b.cliente == b.equipamento == b.solicitante == b.om == b.gerencia == ""
  {
  }

  lemma BlankBodyIsHeader(b: Boletim, h: real, dateOf: string -> Option<DateParts>)
    requires b == BlankBoletim(b.id, b.userId, b.createdAt, b.updatedAt)
    ensures BodyDraws(b, h, dateOf) == HeaderDraws(b, h)
  {
    BlankMarksEmpty(b, h);
    BlankTablesEmpty(b, h, dateOf);
    BlankTextsEmpty(b, h);
  }

  lemma BlankMarksEmpty(b: Boletim, h: real)
    requires b == BlankBoletim(b.id, b.userId, b.createdAt, b.updatedAt)
    ensures MarksFor(b, StatusFlags, h) == [] && MarksFor(b, TipoFlags, h) == [] && MarksFor(b, CrewFlags, h) == []
  {
    BlankNoFlags(b);
    NoMarks(b, StatusFlags, h);
    NoMarks(b, TipoFlags, h);
    NoMarks(b, CrewFlags, h);
  }

  lemma BlankNoFlags(b: Boletim)
    requires b == BlankBoletim(b.id, b.userId, b.createdAt, b.updatedAt)
    ensures forall f :: !FlagSet(b, f)
  {
  }

  lemma NoMarks(b: Boletim, fs: seq<Flag>, h: real)
    requires forall f :: !FlagSet(b, f)
    ensures MarksFor(b, fs, h) == []
  {
    FilterNone(fs, IsSetIn(b));
  }

  lemma BlankTablesEmpty(b: Boletim, h: real, dateOf: string -> Option<DateParts>)
    requires b == BlankBoletim(b.id, b.userId, b.createdAt, b.updatedAt)
    ensures TableDraws(b, h, dateOf) == [] && AvailabilityDraws(b, h, dateOf) == []
  {
  }

  lemma BlankTextsEmpty(b: Boletim, h: real)
    requires b == BlankBoletim(b.id, b.userId, b.createdAt, b.updatedAt)
    ensures DescriptionDraws(b, h) == [] && DimensionDraws(b, h) == [] && RequesterDraws(b, h) == []
    ensures ObservationDraws(b, h) == [] && SignatoryDraws(b, h) == []
  {
  }
}
