/**
 * The application shell (`AppContent`): which screen shows, which report the form
 * edits, and how a submitted form becomes a stored report.
 */
module App {
  import opened Wrappers
  import opened Text
  import opened Types
  import opened Storage
  import opened LocalDatabase
  import opened AuthContext
  import opened TemplateRenderer

  // ---------------------------------------------------------------------------
  // The report form
  // ---------------------------------------------------------------------------

  /**
   * The 42 report fields the form registers. The identity and timestamps, the service
   * description, the assembly and disassembly requester and registration number, and
   * `rodizio` have no input.
   */
  datatype FormData = FormData(
    numero: string, data: string,
    cliente: string, solicitante: string, equipamento: string, om: string, gerencia: string,
    andaimeMontado: bool, andaimeDesmontado: bool,
    montagemData: string, montagemHoraInicial: string, montagemHoraFinal: string,
    desmontagemData: string, desmontagemHoraInicial: string, desmontagemHoraFinal: string,
    andaimeConvencional: bool, andaimeEspecial: bool,
    escoramento: bool, torreAcima5m: bool, passarela: bool, balancim: bool, escada: bool,
    torreAbaixo5m: bool, linhaDeVida: bool, pauDeCarga: bool, espacoConfinado: bool,
    guardaCorpo: bool, barraca: bool,
    comprimento: string, largura: string, altura: string, quantidade: string,
    disposicaoData: string, disposicaoHoraInicial: string, disposicaoHoraFinal: string,
    solicitanteServico: string, matriculaSolicitante: string,
    liderMontagem: bool, montador: bool,
    observacoes: string,
    responsavelEngeval: string, responsavelContratante: string)

  /** The values the form shows for a stored report. */
  function FormOf(b: Boletim): FormData
  {
    FormData(
      b.numero, b.data, b.cliente, b.solicitante, b.equipamento, b.om, b.gerencia,
      b.andaimeMontado, b.andaimeDesmontado,
      b.montagemData, b.montagemHoraInicial, b.montagemHoraFinal,
      b.desmontagemData, b.desmontagemHoraInicial, b.desmontagemHoraFinal,
      b.andaimeConvencional, b.andaimeEspecial,
      b.escoramento, b.torreAcima5m, b.passarela, b.balancim, b.escada,
      b.torreAbaixo5m, b.linhaDeVida, b.pauDeCarga, b.espacoConfinado,
      b.guardaCorpo, b.barraca,
      b.comprimento, b.largura, b.altura, b.quantidade,
      b.disposicaoData, b.disposicaoHoraInicial, b.disposicaoHoraFinal,
      b.solicitanteServico, b.matriculaSolicitante,
      b.liderMontagem, b.montador,
      b.observacoes,
      b.responsavelEngeval, b.responsavelContratante)
  }

  /** The values a new report's form starts with: today's date, empty texts, flags off. */
  function NewFormDefaults(today: string): FormData
  {
    FormData(
      "", today, "", "", "", "", "",
      false, false,
      "", "", "", "", "", "",
      false, false,
      false, false, false, false, false, false, false, false, false, false, false,
      "", "", "", "",
      "", "", "",
      "", "",
      false, false,
      "",
      "", "")
  }

  /** The form's starting values: the edited report's, or the defaults for a new one. */
  function InitialForm(editing: Option<Boletim>, today: string): FormData
  {
    if editing.Some? then FormOf(editing.value) else NewFormDefaults(today)
  }

  /** The form submits only when report number, date, client and requester are filled. */
  predicate Submittable(f: FormData)
  {
    f.numero != "" && f.data != "" && f.cliente != "" && f.solicitante != ""
  }

  /**
   * `{...b, ...form}`: the submitted values replace the report's; the fields without an
   * input keep the report's values.
   */
  function Overlay(b: Boletim, f: FormData): (r: Boletim)
    ensures r.id == b.id && r.userId == b.userId && r.createdAt == b.createdAt && r.updatedAt == b.updatedAt
    ensures r.descricaoServicos == b.descricaoServicos && r.rodizio == b.rodizio
    ensures r.montagemSolicitante == b.montagemSolicitante && r.montagemMatricula == b.montagemMatricula
    ensures r.desmontagemSolicitante == b.desmontagemSolicitante && r.desmontagemMatricula == b.desmontagemMatricula
  {
    b.(numero := f.numero, data := f.data,
       cliente := f.cliente, solicitante := f.solicitante, equipamento := f.equipamento,
       om := f.om, gerencia := f.gerencia,
       andaimeMontado := f.andaimeMontado, andaimeDesmontado := f.andaimeDesmontado,
       montagemData := f.montagemData, montagemHoraInicial := f.montagemHoraInicial,
       montagemHoraFinal := f.montagemHoraFinal,
       desmontagemData := f.desmontagemData, desmontagemHoraInicial := f.desmontagemHoraInicial,
       desmontagemHoraFinal := f.desmontagemHoraFinal,
       andaimeConvencional := f.andaimeConvencional, andaimeEspecial := f.andaimeEspecial,
       escoramento := f.escoramento, torreAcima5m := f.torreAcima5m, passarela := f.passarela,
       balancim := f.balancim, escada := f.escada, torreAbaixo5m := f.torreAbaixo5m,
       linhaDeVida := f.linhaDeVida, pauDeCarga := f.pauDeCarga,
       espacoConfinado := f.espacoConfinado, guardaCorpo := f.guardaCorpo, barraca := f.barraca,
       comprimento := f.comprimento, largura := f.largura, altura := f.altura,
       quantidade := f.quantidade,
       disposicaoData := f.disposicaoData, disposicaoHoraInicial := f.disposicaoHoraInicial,
       disposicaoHoraFinal := f.disposicaoHoraFinal,
       solicitanteServico := f.solicitanteServico, matriculaSolicitante := f.matriculaSolicitante,
       liderMontagem := f.liderMontagem, montador := f.montador,
       observacoes := f.observacoes,
       responsavelEngeval := f.responsavelEngeval, responsavelContratante := f.responsavelContratante)
  }

  /**
   * The report built from a new form: a fresh id, the user's id, both timestamps `now`,
   * the submitted values, and every field without an input left unset (blank).
   */
  function NewFromForm(id: string, userId: string, now: int, f: FormData): Boletim
  {
    Overlay(BlankBoletim(id, userId, now, now), f)
  }

  /** The merge stores exactly what was submitted, and the form shows it back. */
  lemma OverlayShowsForm(b: Boletim, f: FormData)
    ensures FormOf(Overlay(b, f)) == f
    ensures FormOf(NewFromForm(b.id, b.userId, b.createdAt, f)) == f
  {
    FormOfOverlay(b, f);
    FormOfOverlay(BlankBoletim(b.id, b.userId, b.createdAt, b.createdAt), f);
  }

  lemma FormOfOverlay(b: Boletim, f: FormData)
    ensures FormOf(Overlay(b, f)) == f
  {
  }

  /** Submitting an edited report's form untouched leaves the report as it was. */
  lemma OverlayUnchangedForm(b: Boletim, today: string)
    ensures Overlay(b, InitialForm(Some(b), today)) == b
  {
  }

  /**
   * Two reports that agree on every form field and on every field without an input are
   * the same report: the merge loses nothing.
   */
  lemma OverlayDeterminesReport(b: Boletim, c: Boletim)
    requires FormOf(b) == FormOf(c)
    requires b.id == c.id && b.userId == c.userId && b.createdAt == c.createdAt && b.updatedAt == c.updatedAt
    requires b.descricaoServicos == c.descricaoServicos && b.rodizio == c.rodizio
    requires b.montagemSolicitante == c.montagemSolicitante && b.montagemMatricula == c.montagemMatricula
    requires b.desmontagemSolicitante == c.desmontagemSolicitante && b.desmontagemMatricula == c.desmontagemMatricula
    ensures b == Overlay(c, FormOf(b))
  {
  }

  /**
   * A new report submitted with the form's defaults is the blank report dated today;
   * its number text never falls back to the month and year, because the form demands
   * a number.
   */
  lemma NewReportFacts(id: string, userId: string, now: int, today: string, f: FormData, d: DateParts)
    ensures NewFromForm(id, userId, now, NewFormDefaults(today)) == BlankBoletim(id, userId, now, now).(data := today)
    ensures !Submittable(NewFormDefaults(today))
    ensures Submittable(f) ==> NumberText(NewFromForm(id, userId, now, f).numero, d) == f.numero
  {
  }

  // ---------------------------------------------------------------------------
  // Screens
  // ---------------------------------------------------------------------------

  datatype View = ListView | FormView

  /** What is on screen; the form carries the report it edits, if any. */
  datatype Screen = LoginScreen | ForgotPasswordScreen | ListScreen | FormScreen(editing: Option<Boletim>)

  /**
   * Without a user only the login screen, or the password-recovery screen, shows;
   * with one, the current view does.
   */
  function ScreenFor(user: Option<User>, showForgotPassword: bool, view: View, editing: Option<Boletim>): (s: Screen)
    ensures user.None? <==> s.LoginScreen? || s.ForgotPasswordScreen?
    ensures s.ForgotPasswordScreen? <==> user.None? && showForgotPassword
    ensures s.ListScreen? <==> user.Some? && view == ListView
    ensures s.FormScreen? ==> s.editing == editing
  {
    if user.None? then
      (if showForgotPassword then ForgotPasswordScreen else LoginScreen)
    else if view == ListView then ListScreen
    else FormScreen(editing)
  }

  /**
   * The PDF action of the list always renders the complete example report, whichever
   * report was clicked; a failure is swallowed without a message.
   */
  function ListPdfAction(clicked: Boletim, template: Option<real>, now: DateParts,
                         dateOf: string -> Option<DateParts>, isoNow: string,
                         today: string, stamp: nat): (r: Option<Pdf>)
    ensures r.None? <==> template.None?
    ensures r.Some? ==> r.value.draws == Render(ExemploCompleto(today, stamp), template.value, now, dateOf)
    ensures r.Some? ==> r.value.fileName == FileName(ExemploCompleto(today, stamp), now, isoNow)
  {
    var example := ExemploCompleto(today, stamp);
    if template.None? then None
    else
      GenerateSucceeds(example, template.value, now, dateOf, isoNow);
      Some(Generate(example, template, now, dateOf, isoNow).value)
  }

  /** The clicked report never reaches the document. */
  lemma ListPdfIgnoresClicked(a: Boletim, b: Boletim, template: Option<real>, now: DateParts,
                              dateOf: string -> Option<DateParts>, isoNow: string, today: string, stamp: nat)
    ensures ListPdfAction(a, template, now, dateOf, isoNow, today, stamp)
         == ListPdfAction(b, template, now, dateOf, isoNow, today, stamp)
  {
  }

  /** The example's document is named after its number "2023-001". */
  lemma ListPdfFileName(clicked: Boletim, h: real, now: DateParts, dateOf: string -> Option<DateParts>,
                        isoNow: string, today: string, stamp: nat)
    ensures ListPdfAction(clicked, Some(h), now, dateOf, isoNow, today, stamp).value.fileName
         == "Boletim_" + "2023-001" + "_" + Split(isoNow, 'T')[0] + ".pdf"
  {
    var example := ExemploCompleto(today, stamp);
    var r := ListPdfAction(clicked, Some(h), now, dateOf, isoNow, today, stamp);
    assert r.value.fileName == FileName(example, now, isoNow);
    ExemploNumber(today, stamp);
    NamedAfterNumber(example, now, isoNow);
  }

  // ---------------------------------------------------------------------------
  // The shell's state
  // ---------------------------------------------------------------------------

  class AppContent {
    var currentView: View
    var editingBoletim: Option<Boletim>
    var showForgotPassword: bool
    const auth: AuthProvider

    /** The shell starts on the list, editing nothing. */
    constructor (auth: AuthProvider)
      ensures this.auth == auth
      ensures currentView == ListView && editingBoletim.None? && !showForgotPassword
    {
      this.auth := auth;
      currentView := ListView;
      editingBoletim := None;
      showForgotPassword := false;
    }

    /**
     * `handleSaveBoletim`. An edit stores the merge of the report and the form (the
     * repository stamps `updatedAt`); a new report gets `newId`, the user's id and `now`.
     * Either way the form closes, even when the repository refused the write. A new
     * report without a user fails with a message (`alerted`) and changes nothing.
     */
    method SaveBoletim(form: FormData, newId: string, now: int) returns (alerted: bool)
      modifies this`currentView, this`editingBoletim, auth.db.storage`items
      ensures alerted <==> old(editingBoletim).None? && auth.user.None?
      ensures alerted ==> currentView == old(currentView) && editingBoletim == old(editingBoletim)
      ensures !alerted ==> currentView == ListView && editingBoletim.None?
      ensures var items := old(auth.db.storage.items);
        auth.db.storage.items ==
          if alerted || auth.db.storage.full then items
          else if old(editingBoletim).Some? then
            (match ReplaceById(BoletinsIn(items), Overlay(old(editingBoletim).value, form), now)
             case Some(bs) => items[BoletinsKey := BoletinsBlob(bs)]
             case None => items)
          else items[BoletinsKey := BoletinsBlob(BoletinsIn(items) + [NewFromForm(newId, auth.user.value.id, now, form)])]
    {
      if editingBoletim.Some? {
        var updated := Overlay(editingBoletim.value, form).(updatedAt := now);
        var _ := auth.db.UpdateBoletim(updated, now);
        assert ReplaceById(BoletinsIn(old(auth.db.storage.items)), updated, now)
            == ReplaceById(BoletinsIn(old(auth.db.storage.items)), Overlay(old(editingBoletim).value, form), now);
      } else {
        if auth.user.None? {
          return true;
        }
        var created := NewFromForm(newId, auth.user.value.id, now, form);
        var _ := auth.db.CreateBoletim(created);
      }
      editingBoletim := None;
      currentView := ListView;
      alerted := false;
    }

    /**
     * The form's submit: the save runs only when the required fields are filled;
     * otherwise nothing happens.
     */
    method SubmitForm(form: FormData, newId: string, now: int) returns (saved: bool)
      modifies this`currentView, this`editingBoletim, auth.db.storage`items
      ensures saved <==> Submittable(form) && (old(editingBoletim).Some? || auth.user.Some?)
      ensures !Submittable(form) ==> currentView == old(currentView) && editingBoletim == old(editingBoletim)
                                     && auth.db.storage.items == old(auth.db.storage.items)
      ensures saved ==> currentView == ListView && editingBoletim.None?
    {
      if !Submittable(form) {
        return false;
      }
      var alerted := SaveBoletim(form, newId, now);
      saved := !alerted;
    }

    /** `handleEditBoletim`: the form opens on that report. */
    method EditBoletim(b: Boletim)
      modifies this`currentView, this`editingBoletim
      ensures editingBoletim == Some(b) && currentView == FormView
    {
      editingBoletim := Some(b);
      currentView := FormView;
    }

    /** `handleNewBoletim`: the form opens empty. */
    method NewBoletim()
      modifies this`currentView, this`editingBoletim
      ensures editingBoletim.None? && currentView == FormView
    {
      editingBoletim := None;
      currentView := FormView;
    }

    /** `handleBackToList`: the form closes without saving. */
    method BackToList()
      modifies this`currentView, this`editingBoletim
      ensures editingBoletim.None? && currentView == ListView
    {
      editingBoletim := None;
      currentView := ListView;
    }

    /** The "Lista" button: shows the list but keeps the report being edited. */
    method ShowList()
      modifies this`currentView
      ensures currentView == ListView
    {
      currentView := ListView;
    }

    /** The login screen's "forgot password" link, and the recovery screen's way back. */
    method SetShowForgotPassword(show: bool)
      modifies this`showForgotPassword
      ensures showForgotPassword == show
    {
      showForgotPassword := show;
    }
  }
}
