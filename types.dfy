/**
 * The records the application stores: accounts and field reports ("boletins"),
 * with the report shape of `BoletimCampo`, plus the fixed sample reports.
 * Timestamps (`Date` values) are milliseconds since the epoch.
 */
module Types {
  import opened Text

  /** An account as the application sees it: never carries the password. */
  datatype User = User(id: string, email: string, name: string, createdAt: int)

  /** An account as it is stored in the users collection. */
  datatype StoredUser = StoredUser(id: string, email: string, password: string, name: string, createdAt: int)

  /** The stored account without its password. */
  function WithoutPassword(u: StoredUser): User
  {
    User(u.id, u.email, u.name, u.createdAt)
  }

  /** A field report. Boolean flags default to false and text fields to "". */
  datatype Boletim = Boletim(
    id: string,
    numero: string,
    data: string,
    // header
    cliente: string,
    solicitante: string,
    equipamento: string,
    om: string,
    gerencia: string,
    // scaffold status
    andaimeMontado: bool,
    andaimeDesmontado: bool,
    // service description
    descricaoServicos: string,
    // assembly
    montagemData: string,
    montagemHoraInicial: string,
    montagemHoraFinal: string,
    montagemSolicitante: string,
    montagemMatricula: string,
    // disassembly
    desmontagemData: string,
    desmontagemHoraInicial: string,
    desmontagemHoraFinal: string,
    desmontagemSolicitante: string,
    desmontagemMatricula: string,
    // scaffold type
    andaimeConvencional: bool,
    andaimeEspecial: bool,
    // specific scaffold types
    escoramento: bool,
    torreAcima5m: bool,
    passarela: bool,
    balancim: bool,
    escada: bool,
    torreAbaixo5m: bool,
    linhaDeVida: bool,
    pauDeCarga: bool,
    espacoConfinado: bool,
    guardaCorpo: bool,
    rodizio: bool,
    barraca: bool,
    // dimensions (free text)
    comprimento: string,
    largura: string,
    altura: string,
    quantidade: string,
    // availability window
    disposicaoData: string,
    disposicaoHoraInicial: string,
    disposicaoHoraFinal: string,
    // service requester
    solicitanteServico: string,
    matriculaSolicitante: string,
    // crew available
    liderMontagem: bool,
    montador: bool,
    // observations
    observacoes: string,
    // signatories
    responsavelEngeval: string,
    responsavelContratante: string,
    // metadata
    userId: string,
    createdAt: int,
    updatedAt: int)

  /** A calendar date as the runtime reads it: day of month, month (1-12), full year. */
  datatype DateParts = DateParts(day: nat, month: nat, year: nat)

  /** A report with every text field empty and every flag false. */
  function BlankBoletim(id: string, userId: string, createdAt: int, updatedAt: int): (b: Boletim)
    ensures b.id == id && b.userId == userId && b.createdAt == createdAt && b.updatedAt == updatedAt
    ensures b.numero == "" && b.observacoes == "" && !b.rodizio && !b.andaimeMontado
  {
    Boletim(
      id := id, numero := "", data := "",
      cliente := "", solicitante := "", equipamento := "", om := "", gerencia := "",
      andaimeMontado := false, andaimeDesmontado := false,
      descricaoServicos := "",
      montagemData := "", montagemHoraInicial := "", montagemHoraFinal := "",
      montagemSolicitante := "", montagemMatricula := "",
      desmontagemData := "", desmontagemHoraInicial := "", desmontagemHoraFinal := "",
      desmontagemSolicitante := "", desmontagemMatricula := "",
      andaimeConvencional := false, andaimeEspecial := false,
      escoramento := false, torreAcima5m := false, passarela := false, balancim := false,
      escada := false, torreAbaixo5m := false, linhaDeVida := false, pauDeCarga := false,
      espacoConfinado := false, guardaCorpo := false, rodizio := false, barraca := false,
      comprimento := "", largura := "", altura := "", quantidade := "",
      disposicaoData := "", disposicaoHoraInicial := "", disposicaoHoraFinal := "",
      solicitanteServico := "", matriculaSolicitante := "",
      liderMontagem := false, montador := false,
      observacoes := "",
      responsavelEngeval := "", responsavelContratante := "",
      userId := userId, createdAt := createdAt, updatedAt := updatedAt)
  }

  // ---------------------------------------------------------------------------
  // Sample data written by the repository's first start
  // ---------------------------------------------------------------------------

  const SampleUserId := "sample-user-123"

  function SampleUser(now: int): StoredUser
  {
    StoredUser(SampleUserId, "admin@engeval.com", "admin123", "Administrador ENGEVAL", now)
  }

  /** The sample report's observations. */
  const SampleObservacoes: string :=
    "Andaime instalado conforme procedimento de segurança. Todas as verificações foram realizadas e aprovadas pela equipe técnica. Estrutura testada e liberada para uso."

  /** The sample report; the keys it does not set are blank. */
  function SampleBoletim(now: int): Boletim
  {
    BlankBoletim("sample-boletim-123", SampleUserId, now, now).(
      numero := "001/2024", data := "2024-10-23",
      cliente := "PETROBRAS S.A.", solicitante := "João Silva Santos",
      equipamento := "Plataforma P-70", om := "OM-001", gerencia := "Gerência de Produção",
      andaimeConvencional := true, andaimeMontado := true,
      montagemData := "2024-10-23", montagemHoraInicial := "08:00", montagemHoraFinal := "12:00",
      desmontagemData := "2024-10-25", desmontagemHoraInicial := "14:00", desmontagemHoraFinal := "17:00",
      escoramento := true, torreAcima5m := true, guardaCorpo := true,
      comprimento := "15.5", largura := "8.2", altura := "12.0", quantidade := "2",
      disposicaoData := "2024-10-23", disposicaoHoraInicial := "08:00", disposicaoHoraFinal := "17:00",
      solicitanteServico := "Maria Santos Costa", matriculaSolicitante := "MAT-12345",
      liderMontagem := true, montador := true,
      observacoes := SampleObservacoes,
      responsavelEngeval := "Carlos Eduardo Mendes", responsavelContratante := "Ana Paula Oliveira")
  }

  /** The example's long service description. */
  const ExemploDescricao: string :=
    "SERVIÇO DE MONTAGEM E DESMONTAGEM DE ANDAIMES FACHADEIROS E METÁLICOS. "
    + "Execução de montagem de andaime tubular metálico em estrutura metálica, com altura máxima de 12,00m, "
    + "com plataformas de trabalho em prancha de madeira, escada de acesso, guarda-corpo e rodapé de segurança. "
    + "Instalação de tela de proteção contra queda de materiais e sinalização de segurança. O serviço inclui também "
    + "a desmontagem após o término dos trabalhos e limpeza do local. Serão utilizados equipamentos de proteção "
    + "individual (EPI) e coletiva (EPC) conforme normas de segurança do trabalho."

  /** The example's long observations. */
  const ExemploObservacoes: string :=
    "OBSERVAÇÕES IMPORTANTES: 1) É obrigatório o uso de EPI completo por todos os envolvidos. 2) Área classificada como de risco elevado. 3) Realizar inspeção diária antes do início dos trabalhos. 4) Verificar condições climáticas. 5) Sinalizar área de trabalho. 6) Manter distância segura de redes elétricas. 7) Proibido fumar no local. 8) Em caso de emergência, acionar a brigada de incêndio. 9) Respeitar os limites de carga do andaime. 10) Manter o local limpo e organizado."

  /**
   * The complete example report that the list's PDF action renders. `today` is the
   * ISO date (YYYY-MM-DD) of the moment the module was loaded, `stamp` the
   * millisecond clock at that moment.
   */
  function ExemploCompleto(today: string, stamp: nat): Boletim
  {
    Boletim(
      id := "exemplo-" + NatToString(stamp), numero := "2023-001", data := today,
      cliente := "Exemplo de Cliente Ltda", solicitante := "João da Silva",
      equipamento := "Andaime Multidirecional", om := "OM-12345", gerencia := "Gerência de Operações",
      andaimeMontado := true, andaimeDesmontado := true,
      descricaoServicos := ExemploDescricao,
      montagemData := today, montagemHoraInicial := "08:00", montagemHoraFinal := "12:00",
      montagemSolicitante := "Carlos Eduardo", montagemMatricula := "MAT-789",
      desmontagemData := today, desmontagemHoraInicial := "16:00", desmontagemHoraFinal := "17:30",
      desmontagemSolicitante := "Ana Paula", desmontagemMatricula := "MAT-456",
      andaimeConvencional := true, andaimeEspecial := true,
      escoramento := true, torreAcima5m := true, passarela := true, balancim := true,
      escada := true, torreAbaixo5m := true, linhaDeVida := true, pauDeCarga := true,
      espacoConfinado := true, guardaCorpo := true, rodizio := true, barraca := true,
      comprimento := "10,00", largura := "5,00", altura := "8,50", quantidade := "2",
      disposicaoData := today, disposicaoHoraInicial := "08:00", disposicaoHoraFinal := "18:00",
      solicitanteServico := "Engenheiro de Segurança do Trabalho Responsável",
      matriculaSolicitante := "ENG-123",
      liderMontagem := true, montador := true,
      observacoes := ExemploObservacoes,
      responsavelEngeval := "Eng. Responsável - CREA 123456/SP",
      responsavelContratante := "Responsável Técnico - CREA 654321/SP",
      userId := "user-" + NatToString(stamp), createdAt := stamp, updatedAt := stamp)
  }


  lemma ExemploNumber(today: string, stamp: nat)
    ensures ExemploCompleto(today, stamp).numero == "2023-001"
  {
  }
}
