/**
 * The alternate jsPDF renderer (`generateBoletimPDF` of `pdfGenerator.ts`): which report
 * values reach the page, which fallbacks and placeholders replace them, and how the
 * scaffold-type grid is laid out. Only what depends on the report is modelled; fixed
 * titles, rectangles and coordinates are not.
 */
module PdfGenerator {
  import opened Text
  import opened Types
  import opened TemplateRenderer

  /** What the renderer emits for the report: a text, or the outline of a checkbox. */
  datatype Item = Text(text: string) | BoxOutline

  /** `value || fallback` on strings: the empty string is falsy. */
  function Or(value: string, fallback: string): string
  {
    if value != "" then value else fallback
  }

  /** `addCheckbox`: the box always, an "X" inside only when checked. */
  function Checkbox(checked: bool): (r: seq<Item>)
    ensures |r| >= 1 && r[0] == BoxOutline
    ensures Text("X") in r <==> checked
  {
    [BoxOutline] + (if checked then [Text("X")] else [])
  }

  const DatePlaceholder: string := "___/___/___"
  const TimePlaceholder: string := "___:___"
  const Underscores: string := "___________"

  /** A table cell: its value, and the placeholder written over it when it is empty. */
  function Cell(value: string, placeholder: string): (r: seq<Item>)
    ensures |r| >= 1 && r[0] == Text(value)
    ensures value != "" ==> r == [Text(value)]
    ensures value == "" ==> Text(placeholder) in r
  {
    [Text(value)] + (if value == "" then [Text(placeholder)] else [])
  }

  /** `formatDate`: "" stays ""; otherwise the runtime's pt-BR rendering of the date. */
  function FormatDate(s: string, localeDate: string -> string): string
  {
    if s == "" then "" else localeDate(s)
  }

  // ---------------------------------------------------------------------------
  // Header, status and table
  // ---------------------------------------------------------------------------

  /**
   * Client, equipment, requester, OM and management; an empty field shows a fixed
   * sample value instead.
   */
  function HeaderTexts(b: Boletim): (r: seq<string>)
    ensures |r| == 5
    ensures forall i :: 0 <= i < 5 ==> r[i] != ""
    ensures b.cliente != "" ==> r[0] == b.cliente
    ensures b.equipamento != "" ==> r[1] == b.equipamento
    ensures b.solicitante != "" ==> r[2] == b.solicitante
    ensures b.om != "" ==> r[3] == b.om
    ensures b.gerencia != "" ==> r[4] == b.gerencia
  {
    [Or(b.cliente, "PETROBRAS S.A."), Or(b.equipamento, "Plataforma P-70"),
     Or(b.solicitante, "João Silva Santos"), Or(b.om, "OM-001"),
     Or(b.gerencia, "Gerência de Produção")]
  }

  function TextItems(ts: seq<string>): (r: seq<Item>)
    ensures |r| == |ts| && forall i :: 0 <= i < |ts| ==> r[i] == Text(ts[i])
  {
    seq(|ts|, i requires 0 <= i < |ts| => Text(ts[i]))
  }

  /** The assembly and disassembly cells: date, start time and end time of each. */
  function TableItems(b: Boletim, localeDate: string -> string): seq<Item>
  {
    Cell(FormatDate(b.montagemData, localeDate), DatePlaceholder)
    + Cell(b.montagemHoraInicial, TimePlaceholder)
    + Cell(b.montagemHoraFinal, TimePlaceholder)
    + Cell(FormatDate(b.desmontagemData, localeDate), DatePlaceholder)
    + Cell(b.desmontagemHoraInicial, TimePlaceholder)
    + Cell(b.desmontagemHoraFinal, TimePlaceholder)
  }

  // ---------------------------------------------------------------------------
  // The scaffold-type grid
  // ---------------------------------------------------------------------------

  datatype Slot = Slot(caption: string, checked: bool)

  /** The twelve grid slots, in order; the eleventh is blank and `rodizio` has none. */
  function Slots(b: Boletim): seq<Slot>
  {
    [Slot("ESCORAMENTO", b.escoramento), Slot("TORRE ACIMA 5 M", b.torreAcima5m),
     Slot("PASSARELA", b.passarela), Slot("BALANCIM", b.balancim),
     Slot("ESCADA", b.escada), Slot("TORRE ABAIXO 5 M", b.torreAbaixo5m),
     Slot("LINHA DE VIDA", b.linhaDeVida), Slot("PAU DE CARGA", b.pauDeCarga),
     Slot("ESPAÇO CONFINADO", b.espacoConfinado), Slot("GUARDA CORPO", b.guardaCorpo),
     Slot("", false), Slot("BARRACA", b.barraca)]
  }

  /** A drawn slot with its row and its column (of four). */
  datatype Placed = Placed(row: nat, col: nat, slot: Slot)

  /** The slots among the first `n` that are drawn: those with a caption, four to a row. */
  function PlacedUpTo(slots: seq<Slot>, n: nat): seq<Placed>
    requires n <= |slots|
  {
    if n == 0 then []
    else PlacedUpTo(slots, n - 1)
         + (if slots[n - 1].caption != "" then [Placed((n - 1) / 4, (n - 1) % 4, slots[n - 1])] else [])
  }

  /**
   * The grid loop: rows of four slots, the row's y advancing by 12 after each row;
   * a slot with an empty caption draws nothing.
   */
  method DrawGrid(slots: seq<Slot>, y0: int) returns (placed: seq<Placed>, y: int)
    ensures placed == PlacedUpTo(slots, |slots|)
    ensures y == y0 + 12 * ((|slots| + 3) / 4)
  {
    placed := [];
    y := y0;
    var i := 0;
    var row := 0;
    while i < |slots|
      invariant i == 4 * row && i < |slots| + 4
      invariant placed == PlacedUpTo(slots, if i < |slots| then i else |slots|)
      invariant y == y0 + 12 * row
    {
      var j := 0;
      while j < 4 && i + j < |slots|
        invariant 0 <= j <= 4 && i + j <= |slots|
        invariant placed == PlacedUpTo(slots, i + j)
      {
        var item := slots[i + j];
        if item.caption != "" {
          RowAndColumn(row, j);
          placed := placed + [Placed(row, j, item)];
        }
        j := j + 1;
      }
      y := y + 12;
      i := i + 4;
      row := row + 1;
    }
    RowCount(|slots|, row);
  }

  /** Slot `4 * row + j` of the flat list sits in row `row`, column `j`. */
  lemma RowAndColumn(row: nat, j: nat)
    requires j < 4
    ensures (4 * row + j) / 4 == row && (4 * row + j) % 4 == j
  {
  }

  /** `n` slots fill `(n + 3) / 4` rows of four. */
  lemma RowCount(n: nat, row: nat)
    requires n <= 4 * row < n + 4
    ensures (n + 3) / 4 == row
  {
  }

  /** When the first `n` slots all have captions, the k-th of them sits at row k / 4, column k % 4. */
  lemma {:induction false} AllCaptioned(slots: seq<Slot>, n: nat)
    requires n <= |slots|
    requires forall k :: 0 <= k < n ==> slots[k].caption != ""
    ensures PlacedUpTo(slots, n) == seq(n, k requires 0 <= k < n => Placed(k / 4, k % 4, slots[k]))
  {
    if n > 0 {
      AllCaptioned(slots, n - 1);
    }
  }

  /** Each drawn slot: its checkbox, then its caption. */
  function GridItems(ps: seq<Placed>): seq<Item>
  {
    if ps == [] then [] else Checkbox(ps[0].slot.checked) + [Text(ps[0].slot.caption)] + GridItems(ps[1..])
  }

  /**
   * The report's grid: eleven slots in three rows; the blank slot leaves row 2,
   * column 2 empty, and "BARRACA" closes the last row.
   */
  lemma GridLayout(b: Boletim)
    ensures var ps := PlacedUpTo(Slots(b), 12);
      && |ps| == 11
      && (forall k :: 0 <= k < 11 ==> ps[k].row < 3 && ps[k].col < 4 && ps[k].slot.caption != "")
      && ps[9] == Placed(2, 1, Slot("GUARDA CORPO", b.guardaCorpo))
      && ps[10] == Placed(2, 3, Slot("BARRACA", b.barraca))
  {
    var s := Slots(b);
    AllCaptioned(s, 10);
    var first := PlacedUpTo(s, 10);
    assert PlacedUpTo(s, 11) == first;
    assert PlacedUpTo(s, 12) == first + [Placed(2, 3, s[11])];
  }

  // ---------------------------------------------------------------------------
  // The page and the file name
  // ---------------------------------------------------------------------------

  /** The number, then the five header values. */
  function HeadItems(b: Boletim, now: DateParts): (r: seq<Item>)
    ensures |r| == 6
  {
    [Text(NumberText(b.numero, now))] + TextItems(HeaderTexts(b))
  }

  /** The "still assembled" box (`andaimeMontado || true`), then the "disassembled" box. */
  function StatusItems(b: Boletim): seq<Item>
  {
    Checkbox(b.andaimeMontado || true) + Checkbox(b.andaimeDesmontado)
  }

  /** The description is written only when there is one. */
  function DescriptionItems(b: Boletim): seq<Item>
  {
    if b.descricaoServicos != "" then [Text(b.descricaoServicos)] else []
  }

  /** The two scaffold-type boxes and the grid. */
  function TypeItems(b: Boletim): seq<Item>
  {
    Checkbox(b.andaimeConvencional) + Checkbox(b.andaimeEspecial) + GridItems(PlacedUpTo(Slots(b), 12))
  }

  /**
   * Dimensions and availability always show underscores, and the leader and assembler
   * boxes are always empty.
   */
  function FixedItems(): seq<Item>
  {
    TextItems([Underscores, Underscores, Underscores, Underscores])
    + TextItems([Underscores, TimePlaceholder, TimePlaceholder])
    + Checkbox(false) + Checkbox(false)
  }

  /**
   * The report-dependent output of the page, in drawing order. `now` is the current
   * date and `localeDate` the runtime's pt-BR rendering of a date string.
   */
  function Page(b: Boletim, now: DateParts, localeDate: string -> string): seq<Item>
  {
    HeadItems(b, now) + StatusItems(b) + DescriptionItems(b) + TableItems(b, localeDate)
    + TypeItems(b) + FixedItems()
  }

  /** `s.replace(/from/g, to)` for a single character. */
  function ReplaceChar(s: string, from: char, to: char): (r: string)
    ensures |r| == |s|
    ensures forall i :: 0 <= i < |s| ==> r[i] == if s[i] == from then to else s[i]
    ensures from != to ==> from !in r
  {
    seq(|s|, i requires 0 <= i < |s| => if s[i] == from then to else s[i])
  }

  /** "Boletim_<number or SN>_<today with - for />.pdf". */
  function PdfFileName(numero: string, localeToday: string): string
  {
    "Boletim_" + Or(numero, "SN") + "_" + ReplaceChar(localeToday, '/', '-') + ".pdf"
  }

  /**
   * `generateBoletimPDF`: emits the page and names the file. `localeToday` is today's
   * date as the runtime writes it in pt-BR.
   */
  method GenerateBoletimPdf(b: Boletim, now: DateParts, localeDate: string -> string, localeToday: string)
    returns (items: seq<Item>, fileName: string)
    ensures items == Page(b, now, localeDate)
    ensures fileName == PdfFileName(b.numero, localeToday)
  {
    items := HeadItems(b, now);
    items := items + StatusItems(b);
    if b.descricaoServicos != "" {
      items := items + [Text(b.descricaoServicos)];
    }
    items := items + TableItems(b, localeDate);
    var placed, _ := DrawGrid(Slots(b), 0);
    items := items + (Checkbox(b.andaimeConvencional) + Checkbox(b.andaimeEspecial) + GridItems(placed));
    items := items + FixedItems();
    fileName := "Boletim_" + Or(b.numero, "SN") + "_" + ReplaceChar(localeToday, '/', '-') + ".pdf";
  }

  // ---------------------------------------------------------------------------
  // Properties
  // ---------------------------------------------------------------------------

  /**
   * Fields that never reach this page: the "still assembled" flag (its box is always
   * checked), `rodizio`, the crew flags (their boxes are always empty), the dimensions,
   * the availability window, the requesters and registration numbers, the
   * observations and the signatories.
   */
  lemma IgnoredFields(b: Boletim, c: Boletim, now: DateParts, localeDate: string -> string)
    requires b.numero == c.numero && b.cliente == c.cliente && b.equipamento == c.equipamento
    requires b.solicitante == c.solicitante && b.om == c.om && b.gerencia == c.gerencia
    requires b.andaimeDesmontado == c.andaimeDesmontado && b.descricaoServicos == c.descricaoServicos
    requires b.montagemData == c.montagemData && b.montagemHoraInicial == c.montagemHoraInicial
    requires b.montagemHoraFinal == c.montagemHoraFinal && b.desmontagemData == c.desmontagemData
    requires b.desmontagemHoraInicial == c.desmontagemHoraInicial && b.desmontagemHoraFinal == c.desmontagemHoraFinal
    requires b.andaimeConvencional == c.andaimeConvencional && b.andaimeEspecial == c.andaimeEspecial
    requires Slots(b) == Slots(c)
    ensures Page(b, now, localeDate) == Page(c, now, localeDate)
  {
    assert HeaderTexts(b) == HeaderTexts(c);
    assert TableItems(b, localeDate) == TableItems(c, localeDate);
  }

  /** The "still assembled" box is checked whatever the report says. */
  lemma StillAssembledAlwaysChecked(b: Boletim, now: DateParts, localeDate: string -> string)
    ensures Page(b, now, localeDate)[6..8] == [BoxOutline, Text("X")]
  {
    assert StatusItems(b)[..2] == [BoxOutline, Text("X")];
    SectionAfterHead(HeadItems(b, now), StatusItems(b), DescriptionItems(b), TableItems(b, localeDate),
                     TypeItems(b), FixedItems());
  }

  lemma SectionAfterHead(h: seq<Item>, st: seq<Item>, d: seq<Item>, t: seq<Item>, ty: seq<Item>, f: seq<Item>)
    requires |h| == 6 && |st| >= 2
    ensures (h + st + d + t + ty + f)[6..8] == st[..2]
  {
    assert h + st + d + t + ty + f == h + st + (d + t + ty + f);
  }

  /** An empty report shows the same header as the sample report: the fallbacks are its values. */
  lemma BlankHeaderIsSample(id: string, userId: string, t: int, now: int)
    ensures HeaderTexts(BlankBoletim(id, userId, t, t)) == HeaderTexts(SampleBoletim(now))
  {
    BlankHeaderEmpty(id, userId, t);
    HeaderOf(BlankBoletim(id, userId, t, t), "", "", "", "", "");
    var sample := SampleBoletim(now);
    HeaderOf(sample, sample.cliente, sample.equipamento, sample.solicitante, sample.om, sample.gerencia);
  }

  lemma HeaderOf(b: Boletim, c: string, e: string, s: string, o: string, g: string)
    requires b.cliente == c && b.equipamento == e && b.solicitante == s && b.om == o && b.gerencia == g
    ensures HeaderTexts(b) == [Or(c, "PETROBRAS S.A."), Or(e, "Plataforma P-70"),
                               Or(s, "João Silva Santos"), Or(o, "OM-001"), Or(g, "Gerência de Produção")]
  {
  }

  /**
   * The file name falls back to "SN", not to the header's month-and-year number; the
   * date loses its "/" but the number keeps it.
   */
  lemma FileNameFacts(numero: string, localeToday: string, now: DateParts)
    ensures numero == "" ==> PdfFileName(numero, localeToday)[8..10] == "SN"
    ensures numero == "" ==> NumberText(numero, now) != "SN"
    ensures '/' in PdfFileName(numero, localeToday) <==> '/' in numero
  {
    var d := ReplaceChar(localeToday, '/', '-');
    var f := PdfFileName(numero, localeToday);
    assert f == "Boletim_" + Or(numero, "SN") + "_" + d + ".pdf";
    if numero == "" {
      assert f == "Boletim_" + "SN" + ("_" + d + ".pdf");
      var digits := NatToString(now.month);
      var p := Pad2(now.month);
      assert p[0] == '0' || p[0] == digits[0];
      assert NumberText(numero, now)[0] == p[0];
    }
    assert '/' !in "Boletim_" && '/' !in "SN" && '/' !in "_" && '/' !in ".pdf";
  }
}
