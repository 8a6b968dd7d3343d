/**
 * The fixture tables the application starts with: employees, users,
 * requests, checklist templates and their tasks, departments, approvals,
 * request-type definitions, systems and access levels. The lemmas state the
 * facts about these tables that the handlers and screens rely on.
 */
module SampleData {
  import opened Types
  import opened Constants
  import opened Lookups
  import ChecklistTemplateForm
  import AccessRequestForm
  import EmployeeForm

  // Dates `new Date(y, m, d, h, min)` are written as the integer with digits
  // yyyy_mm_dd_hhmm, the month counted from zero as in JavaScript; the
  // encoding preserves the order of dates.

  // ---------------------------------------------------------------------
  // People

  function Emp(id: string, fullName: string, nif: string, department: string, role: string,
               status: EmployeeStatus, onboarding: Option<string>, offboarding: Option<string>): Employee
  {
    Employee(id, fullName, nif, department, role, status, onboarding, offboarding)
  }

  const SampleEmployees: seq<Employee> := [
    Emp("emp_001", "Anna Puig", "12345678A", "Informàtica", "Desenvolupador/a", Active, None, None),
    Emp("emp_002", "Carles Bosch", "87654321B", "Recursos Humans", "Tècnic/a de Suport", Active, None, None),
    Emp("emp_003", "Laura Vidal", "11223344C", "Màrqueting", "Especialista en Màrqueting", Inactive, None, Some("REQ003")),
    Emp("emp_004", "Jordi Martí", "44556677D", "Finances", "Comptable", Active, None, None),
    Emp("emp_005", "Elena Roca", "55667788E", "Operacions", "Cap de Projecte", Active, None, None),
    Emp("emp_006", "Marc Soler", "66778899F", "Informàtica", "Analista de Sistemes", Active, None, None),
    Emp("emp_007", "Sofia Pons", "12121212S", "Operacions", "Analista de Dades", Active, Some("REQ007"), None),
    Emp("emp_008", "Robert Grau", "77889900G", "Vendes", "Comercial", Active, Some("REQ005"), None),
    Emp("emp_009", "System Admin Employee", "X0000000X", "Administració Sistema", "Administrador App", Active, None, None),
    Emp("emp_010", "David Mas", "99887766H", "Informàtica", "Director/a de Departament", Active, None, None),
    Emp("emp_011", "Clara Font", "10101010Z", "Màrqueting", "Intern", Active, None, None)
  ]

  function AppUser(id: string, sam: string, name: string, email: string, roles: seq<string>,
                   departments: seq<string>, nif: string): User
  {
    User(id, sam, Some(name), Some(email), Some("https://placehold.co/100x100.png"), roles, departments, Some(nif))
  }

  const SampleUsers: seq<User> := [
    AppUser("user_001", "anna.puig", "Anna Puig", "anna.puig@example.com", [RoleEmployee, RoleIT], [DeptIT], "12345678A"),
    AppUser("user_002", "carles.bosch", "Carles Bosch", "carles.bosch@example.com", [RoleEmployee, RoleRRHH], [DeptHR], "87654321B"),
    AppUser("user_003", "admin.user", "System Admin", "admin@example.com", [RoleAdmin], ["Administració Sistema"], "X0000000X"),
    AppUser("user_004", "elena.roca", "Elena Roca", "elena.roca@example.com", [RoleEmployee, RoleManager], ["Operacions", DeptIT], "55667788E"),
    AppUser("user_005", "david.mas", "David Mas (Manager IT)", "david.mas@example.com", [RoleEmployee, RoleManager, RoleIT], [DeptIT], "99887766H")
  ]

  // ---------------------------------------------------------------------
  // Requests

  function OnboardingDetails(fullName: string, nif: string, role: string, department: string): Details
  {
    NoDetails.(fullName := Some(fullName), nif := Some(nif), role := Some(role), department := Some(department))
  }

  function OneAccess(system: string, level: string, justification: string): Details
  {
    NoDetails.(requestedAccesses := Some([RequestedAccessItem(system, level, justification)]))
  }

  const SampleRequests: seq<Request> := [
    Request("REQ001", Onboarding, Some("onboarding_general"), Some("emp_001"), None, "user_002", Completed,
      2023_10_15_0900, 2023_10_18_0900, Some("Alta General d'Empleat: Anna Puig"), Some(DeptHR),
      OnboardingDetails("Anna Puig", "12345678A", "Desenvolupador/a", "Informàtica")),
    Request("REQ002", Access, Some("access_request_std"), None, Some("emp_002"), "user_004", PendingManagerApproval,
      2023_11_01_1430, 2023_11_01_1430,
      Some("Sol·licitud d'Accés (Estàndard) per a Carles Bosch (1 sistema/es)"), Some(DeptIT),
      OneAccess("CRM (Gestió de Relacions amb Clients)", "Lectura i Escriptura", "Necessari per tasques diàries de suport.")),
    Request("REQ003", Offboarding, Some("offboarding_standard"), Some("emp_003"), None, "user_002", Completed,
      2024_00_05_1115, 2024_00_15_1645, Some("Baixa empleada: Laura Vidal"), Some(DeptHR),
      NoDetails.(lastDay := Some(2024_00_15_0000), reason := Some("Fi de contracte"))),
    Request("REQ004", Access, Some("access_request_critical"), None, Some("emp_001"), "user_001", Rejected,
      2024_01_10_1000, 2024_01_10_1200,
      Some("Sol·licitud d'Accés Crític (ERP Admin) per a Anna Puig (1 sistema/es)"), Some(DeptIT),
      OneAccess("ERP (Sistema de Planificació de Recursos)", "Administrador del Sistema", "Desplegament urgent")
        .(rejectionReason := Some("Política de seguretat no ho permet sense aprovació de nivell superior."))),
    Request("REQ005", Onboarding, Some("onboarding_general"), Some("emp_008"), None, "user_002", PendingITProcessing,
      2024_02_01_1000, 2024_02_05_1400, Some("Alta General d'Empleat: Robert Grau"), Some(DeptIT),
      OnboardingDetails("Robert Grau", "77889900G", "Comercial", "Vendes")),
    Request("REQ006", Access, Some("access_request_std"), None, Some("emp_004"), "user_004", Pending,
      2024_02_20_1600, 2024_02_20_1600,
      Some("Sol·licitud d'Accés (Estàndard) per a Jordi Martí (1 sistema/es)"), Some(DeptIT),
      OneAccess("Plataforma de Business Intelligence", "Només Lectura", "Necessita generar informes financers.")),
    Request("REQ007", Access, Some("access_hr_validation"), None, Some("emp_007"), "user_002", PendingFinalValidation,
      2023_09_05_1100, 2023_09_06_1700,
      Some("Sol·licitud Accés BI (amb Validació RRHH) per a Sofia Pons"), Some(DeptHR),
      OneAccess("Plataforma de Business Intelligence", "Lectura i Escriptura",
        "Necessari per anàlisi de dades avançat i reporting departamental.")),
    Request("REQ008", Access, Some("access_request_std"), None, Some("emp_006"), "user_001", Completed,
      2024_01_25_0930, 2024_01_26_1100,
      Some("Sol·licitud d'Accés (Estàndard) per a Marc Soler (1 sistema/es)"), Some(DeptIT),
      OneAccess("VPN (Accés Remot Segur)", "Permisos Específics d'Usuari", "Treball remot ocasional.")),
    Request("REQ009", Access, Some("access_request_critical"), None, Some("emp_005"), "user_002", Cancelled,
      2024_00_10_1500, 2024_00_11_1000,
      Some("Sol·licitud d'Accés Crític (ERP Admin) per a Elena Roca (1 sistema/es)"), Some(DeptIT),
      OneAccess("ERP (Sistema de Planificació de Recursos)", "Administrador del Sistema", "Rol canviat, ja no necessari.")
        .(cancellationReason := Some("Sol·licitud duplicada."))),
    Request("REQ010", Access, Some("access_hr_validation"), None, Some("emp_004"), "user_001", PendingITProcessing,
      2024_03_01_1000, 2024_03_01_1000,
      Some("Sol·licitud Accés BI (Validació RRHH) per a Jordi Martí"), Some(DeptIT),
      OneAccess("Plataforma de Business Intelligence", "Lectura i Escriptura", "Requereix accés complet per anàlisi financera."))
  ]

  // ---------------------------------------------------------------------
  // Checklist templates

  function Tpl(id: string, title: string, department: string, order: int, description: Option<string>): TaskTemplate
  {
    TaskTemplate(id, title, description, department, Some(order))
  }

  const OnboardingTemplates: seq<TaskTemplate> := [
    Tpl("OT_001", "Preparar documentació de benvinguda", "RRHH", 1, None),
    Tpl("OT_002", "Crear compte d'usuari (AD, Email)", "IT", 2, None),
    Tpl("OT_003", "Configurar estació de treball (PC, perifèrics)", "IT", 3, None),
    Tpl("OT_004", "Assignar accessos bàsics (Intranet, Eines comunes)", "IT", 4, None),
    Tpl("OT_005", "Programar sessió d'orientació", "RRHH", 5, None),
    Tpl("OT_006", "Presentació a l'equip i manager", "RRHH", 6, Some("Coordinar amb el manager directe de l'empleat."))
  ]

  const AccessRequestTemplates: seq<TaskTemplate> := [
    Tpl("AT_001", "Verificar elegibilitat de l'accés sol·licitat", "IT", 1,
      Some("Comprovar si el rol i departament justifiquen l'accés.")),
    Tpl("AT_002", "Obtenir aprovació del propietari del sistema (si s'escau)", "IT", 2, None),
    Tpl("AT_003", "Concedir accés al sistema", "IT", 3, None),
    Tpl("AT_004", "Notificar a l'usuari i al sol·licitant", "IT", 4, None)
  ]

  const InternOnboardingTemplates: seq<TaskTemplate> := [
    Tpl("IOT_001", "Preparar documentació bàsica de benvinguda (Intern)", "RRHH", 1, None),
    Tpl("IOT_002", "Crear compte d'usuari temporal (AD, Email)", "IT", 2, None),
    Tpl("IOT_003", "Assignar accessos limitats a eines de projecte", "IT", 3, None),
    Tpl("IOT_004", "Presentació al tutor i equip", "RRHH", 4, Some("Coordinar amb el tutor assignat."))
  ]

  const DevToolsTemplates: seq<TaskTemplate> := [
    Tpl("DT_001", "Verificar rol de desenvolupador", "IT", 1, None),
    Tpl("DT_002", "Provisionar llicències de programari", "IT", 2, None),
    Tpl("DT_003", "Configurar accés a repositoris de codi", "IT", 3, None),
    Tpl("DT_004", "Notificar al desenvolupador", "IT", 4, None)
  ]

  const OffboardingTemplates: seq<TaskTemplate> := [
    Tpl("OFFT_001", "Confirmar data de baixa amb l'empleat", "RRHH", 1, Some("Comunicar i confirmar l'últim dia laborable.")),
    Tpl("OFFT_002", "Recollir equipament IT (PC, mòbil, etc.)", "IT", 2,
      Some("Assegurar la devolució de tot el material de l'empresa.")),
    Tpl("OFFT_003", "Revocar accessos a sistemes i aplicacions", "IT", 3, Some("Desactivar comptes i permisos.")),
    Tpl("OFFT_004", "Processar documentació de sortida (finiquito, etc.)", "RRHH", 4,
      Some("Gestionar tots els tràmits administratius de la baixa.")),
    Tpl("OFFT_005", "Realitzar entrevista de sortida (opcional)", "RRHH", 5, None)
  ]

  const AccessValidationHRTemplates: seq<TaskTemplate> := [
    Tpl("AVHR_001", "Verificar i concedir accessos tècnics", "IT", 1, None),
    Tpl("AVHR_002", "Validació final de conformitat d'accessos per RRHH", "RRHH", 2,
      Some("Verificar que els accessos concedits són adequats i compleixen polítiques."))
  ]

  const SampleChecklists: seq<ChecklistTemplate> := [
    ChecklistTemplate("CLT_ONBOARDING_GENERAL", "Checklist General d'Onboarding", "ONBOARDING_GENERAL",
      Some("Tasques estàndard per a la incorporació de nous empleats."), OnboardingTemplates),
    ChecklistTemplate("CLT_ACCESS_REQUEST_STD", "Checklist Estàndard de Sol·licitud d'Accés", "ACCESS_REQUEST_STD",
      Some("Passos per processar una sol·licitud d'accés a un sistema."), AccessRequestTemplates),
    ChecklistTemplate("CLT_ONBOARDING_INTERN", "Checklist Onboarding Estudiant Pràctiques", "ONBOARDING_INTERN",
      Some("Tasques simplificades per a la incorporació d'estudiants en pràctiques."), InternOnboardingTemplates),
    ChecklistTemplate("CLT_ACCESS_DEV_TOOLS", "Checklist Accés Eines de Desenvolupament", "ACCESS_DEV_TOOLS",
      Some("Tasques per concedir accés a entorns i eines de desenvolupament."), DevToolsTemplates),
    ChecklistTemplate("CLT_OFFBOARDING_STD", "Checklist Estàndard de Baixa", "OFFBOARDING_STANDARD",
      Some("Tasques estàndard per al procés de baixa d'empleats."), OffboardingTemplates),
    ChecklistTemplate("CLT_ACCESS_VALIDATION_HR", "Checklist Accés amb Validació RRHH", "ACCESS_HR_VALIDATION",
      Some("Passos per processar una sol·licitud d'accés que requereix validació final per RRHH."),
      AccessValidationHRTemplates)
  ]

  // ---------------------------------------------------------------------
  // Tasks

  function Tsk(id: string, requestId: string, checklistId: string, templateId: string, title: string,
               description: Option<string>, department: string, status: TaskStatus,
               created: Timestamp, updated: Timestamp, order: int, due: Option<Timestamp>): Task
  {
    Task(id, requestId, Some(checklistId), Some(templateId), title, description, department, None, status, None,
         created, updated, due, Some(order), None)
  }

  const SampleTasks: seq<Task> := [
    Tsk("TSK_001_01", "REQ001", "CLT_ONBOARDING_GENERAL", "OT_001", "Preparar documentació de benvinguda per a Anna Puig",
      None, "RRHH", TaskCompleted, 2023_10_15_0905, 2023_10_15_1000, 1, Some(2023_10_16_0000)),
    Tsk("TSK_001_02", "REQ001", "CLT_ONBOARDING_GENERAL", "OT_002", "Crear compte d'usuari (AD, Email) per a Anna Puig",
      None, "IT", TaskCompleted, 2023_10_15_0910, 2023_10_16_1100, 2, None),
    Tsk("TSK_001_03", "REQ001", "CLT_ONBOARDING_GENERAL", "OT_003", "Configurar estació de treball per a Anna Puig",
      None, "IT", TaskCompleted, 2023_10_15_0915, 2023_10_17_1400, 3, Some(2023_10_17_0000)),
    Tsk("TSK_001_04", "REQ001", "CLT_ONBOARDING_GENERAL", "OT_004", "Assignar accessos bàsics per a Anna Puig",
      None, "IT", TaskCompleted, 2023_10_15_0920, 2023_10_17_1600, 4, None),
    Tsk("TSK_001_05", "REQ001", "CLT_ONBOARDING_GENERAL", "OT_005", "Programar sessió d'orientació per a Anna Puig",
      None, "RRHH", TaskCompleted, 2023_10_15_0925, 2023_10_18_0900, 5, None),
    Tsk("TSK_001_06", "REQ001", "CLT_ONBOARDING_GENERAL", "OT_006", "Presentació a l'equip i manager per a Anna Puig",
      None, "RRHH", TaskCompleted, 2023_10_15_0930, 2023_10_18_0900, 6, None),
    Tsk("TSK_002_01", "REQ002", "CLT_ACCESS_REQUEST_STD", "AT_001", "Verificar elegibilitat accés CRM per a Carles Bosch",
      None, "IT", TaskPending, 2023_11_01_1435, 2023_11_01_1435, 1, Some(2023_11_05_0000)),
    Tsk("TSK_003_01", "REQ003", "CLT_OFFBOARDING_STD", "OFFT_001", "Confirmar data de baixa amb Laura Vidal",
      None, "RRHH", TaskCompleted, 2024_00_05_1120, 2024_00_05_1200, 1, None),
    Tsk("TSK_003_02", "REQ003", "CLT_OFFBOARDING_STD", "OFFT_002", "Recollir equipament IT de Laura Vidal",
      None, "IT", TaskCompleted, 2024_00_05_1125, 2024_00_15_1000, 2, Some(2024_00_15_0000)),
    Tsk("TSK_003_03", "REQ003", "CLT_OFFBOARDING_STD", "OFFT_003", "Revocar accessos a sistemes per a Laura Vidal",
      None, "IT", TaskCompleted, 2024_00_05_1130, 2024_00_15_1600, 3, None),
    Tsk("TSK_003_04", "REQ003", "CLT_OFFBOARDING_STD", "OFFT_004", "Processar documentació de sortida per a Laura Vidal",
      None, "RRHH", TaskCompleted, 2024_00_05_1135, 2024_00_15_1645, 4, None),
    Tsk("TSK_005_01", "REQ005", "CLT_ONBOARDING_GENERAL", "OT_001", "Preparar documentació de benvinguda per a Robert Grau",
      None, "RRHH", TaskCompleted, 2024_02_01_1005, 2024_02_01_1200, 1, Some(2024_02_02_0000)),
    Tsk("TSK_005_02", "REQ005", "CLT_ONBOARDING_GENERAL", "OT_002", "Crear compte d'usuari (AD, Email) per a Robert Grau",
      None, "IT", TaskPending, 2024_02_01_1010, 2024_02_02_1500, 2, Some(2024_02_04_0000)),
    Tsk("TSK_005_03", "REQ005", "CLT_ONBOARDING_GENERAL", "OT_003", "Configurar estació de treball per a Robert Grau",
      None, "IT", TaskPending, 2024_02_01_1015, 2024_02_01_1015, 3, None),
    Tsk("TSK_005_04", "REQ005", "CLT_ONBOARDING_GENERAL", "OT_004",
      "Assignar accessos bàsics (Intranet, Eines comunes) per a Robert Grau",
      None, "IT", TaskPending, 2024_02_01_1020, 2024_02_01_1020, 4, Some(2024_02_05_0000)),
    Tsk("TSK_005_05", "REQ005", "CLT_ONBOARDING_GENERAL", "OT_005", "Programar sessió d'orientació per a Robert Grau",
      None, "RRHH", TaskPending, 2024_02_01_1025, 2024_02_01_1025, 5, None),
    Tsk("TSK_005_06", "REQ005", "CLT_ONBOARDING_GENERAL", "OT_006", "Presentació a l'equip i manager per a Robert Grau",
      Some("Coordinar amb el manager directe de Robert Grau."), "RRHH", TaskPending,
      2024_02_01_1030, 2024_02_01_1030, 6, None),
    Tsk("TSK_007_01", "REQ007", "CLT_ACCESS_VALIDATION_HR", "AVHR_001",
      "Verificar i concedir accessos tècnics BI per a Sofia Pons",
      None, "IT", TaskCompleted, 2023_09_05_1105, 2023_09_06_1600, 1, Some(2023_09_06_0000)),
    Tsk("TSK_007_02", "REQ007", "CLT_ACCESS_VALIDATION_HR", "AVHR_002",
      "Validació final de conformitat d'accessos BI per a Sofia Pons",
      None, "RRHH", TaskPending, 2023_09_05_1110, 2023_09_06_1700, 2, Some(2023_09_07_0000)),
    Tsk("TSK_008_01", "REQ008", "CLT_ACCESS_REQUEST_STD", "AT_001", "Verificar elegibilitat accés VPN per a Marc Soler",
      None, "IT", TaskCompleted, 2024_01_25_0935, 2024_01_25_1000, 1, Some(2024_01_26_0000)),
    Tsk("TSK_008_02", "REQ008", "CLT_ACCESS_REQUEST_STD", "AT_003", "Concedir accés VPN per a Marc Soler",
      None, "IT", TaskCompleted, 2024_01_25_0940, 2024_01_26_1000, 3, None),
    Tsk("TSK_008_03", "REQ008", "CLT_ACCESS_REQUEST_STD", "AT_004", "Notificar accés VPN a Marc Soler",
      None, "IT", TaskCompleted, 2024_01_25_0945, 2024_01_26_1100, 4, None),
    Tsk("TSK_010_01", "REQ010", "CLT_ACCESS_VALIDATION_HR", "AVHR_001",
      "Verificar i concedir accessos tècnics BI per a Jordi Martí",
      None, "IT", TaskPending, 2024_03_01_1005, 2024_03_01_1005, 1, Some(2024_03_03_0000)),
    Tsk("TSK_010_02", "REQ010", "CLT_ACCESS_VALIDATION_HR", "AVHR_002",
      "Validació final de conformitat d'accessos BI per a Jordi Martí",
      None, "RRHH", TaskPending, 2024_03_01_1010, 2024_03_01_1010, 2, Some(2024_03_05_0000))
  ]

  // ---------------------------------------------------------------------
  // Reference tables

  const SampleDepartments: seq<Department> := [
    Department("hr", "Recursos Humans"),
    Department("it", "Informàtica"),
    Department("finance", "Finances"),
    Department("marketing", "Màrqueting"),
    Department("sales", "Vendes"),
    Department("operations", "Operacions"),
    Department("admin_dept", "Administració Sistema")
  ]

  const SampleApprovals: seq<Approval> := [
    Approval("APP001", "REQ002", "user_005", ApprovalPending, None,
      2023_11_01_1435, 2023_11_01_1435, None),
    Approval("APP002", "REQ006", "user_005", ApprovalPending, None,
      2024_02_20_1605, 2024_02_20_1605, None),
    Approval("APP003", "REQ001", "user_002", ApprovalApproved, Some("Tot correcte per l'alta."),
      2023_10_15_0905, 2023_10_16_1000, Some(2023_10_16_1000))
  ]

  const SampleRequestTypes: seq<RequestTypeDefinition> := [
    RequestTypeDefinition("onboarding_general", "Alta General d'Empleat",
      Some("Procés estàndard per a noves incorporacions."), AppliesOnboarding, "CLT_ONBOARDING_GENERAL", true),
    RequestTypeDefinition("onboarding_intern", "Alta Estudiant en Pràctiques",
      Some("Procés simplificat per a estudiants en pràctiques."), AppliesOnboarding, "CLT_ONBOARDING_INTERN", true),
    RequestTypeDefinition("access_request_std", "Sol·licitud d'Accés (Estàndard)",
      Some("Procés estàndard per a sol·licitar accessos a sistemes comuns."), AppliesAccess, "CLT_ACCESS_REQUEST_STD", true),
    RequestTypeDefinition("access_dev_tools", "Sol·licitud Accés Eines Desenvolupament",
      Some("Procés per a sol·licitar accés a eines específiques de desenvolupament."), AppliesAccess,
      "CLT_ACCESS_DEV_TOOLS", true),
    RequestTypeDefinition("access_request_critical", "Sol·licitud d'Accés Crític (ERP Admin)",
      Some("Procés per a sol·licitar accessos de nivell administrador a sistemes crítics."), AppliesAccess,
      "CLT_ACCESS_REQUEST_STD", true),
    RequestTypeDefinition("offboarding_standard", "Baixa General d'Empleat",
      Some("Procés estàndard per a la baixa d'empleats."), AppliesOffboarding, "CLT_OFFBOARDING_STD", true),
    RequestTypeDefinition("access_hr_validation", "Sol·licitud d'Accés amb Validació RRHH",
      Some("Procés d'accés que requereix una validació final per part de Recursos Humans."), AppliesAccess,
      "CLT_ACCESS_VALIDATION_HR", true)
  ]

  const ErpPolicy: string := "Rol: Manager"
  const ProjectPolicy: string := "Rol: Cap de Projecte"

  const SampleSystems: seq<System> := [
    System("erp", "ERP (Sistema de Planificació de Recursos)", Some(ErpPolicy)),
    System("crm", "CRM (Gestió de Relacions amb Clients)", Some(ErpPolicy)),
    System("network_shared", "Unitats de Xarxa Compartides", None),
    System("vpn", "VPN (Accés Remot Segur)", None),
    System("email_corporate", "Correu Electrònic Corporatiu", None),
    System("project_management_tool", "Eina de Gestió de Projectes", Some(ProjectPolicy)),
    System("bi_platform", "Plataforma de Business Intelligence", None),
    System("intranet", "Intranet Corporativa", None)
  ]

  const SampleAccessLevels: seq<AccessLevel> := [
    AccessLevel("read_only", "Només Lectura"),
    AccessLevel("read_write", "Lectura i Escriptura"),
    AccessLevel("read_write_delete", "Lectura, Escriptura i Esborrat"),
    AccessLevel("admin", "Administrador del Sistema"),
    AccessLevel("user_specific", "Permisos Específics d'Usuari")
  ]

  // ---------------------------------------------------------------------
  // Facts about the fixtures

  /**
   * Every checklist numbers its task templates 1..n, so the template
   * editor's renumbering leaves each of them exactly as it is.
   */
  lemma ChecklistsNumbered(i: nat)
    requires i < |SampleChecklists|
    ensures ChecklistTemplateForm.Numbered(SampleChecklists[i].taskTemplates)
    ensures ChecklistTemplateForm.Renumbered(SampleChecklists[i].taskTemplates) == SampleChecklists[i].taskTemplates
  {
    TemplatesNumbered();
    ChecklistTemplateForm.RenumberedShape(SampleChecklists[i].taskTemplates);
  }

  lemma TemplatesNumbered()
    ensures ChecklistTemplateForm.Numbered(OnboardingTemplates)
    ensures ChecklistTemplateForm.Numbered(AccessRequestTemplates)
    ensures ChecklistTemplateForm.Numbered(InternOnboardingTemplates)
    ensures ChecklistTemplateForm.Numbered(DevToolsTemplates)
    ensures ChecklistTemplateForm.Numbered(OffboardingTemplates)
    ensures ChecklistTemplateForm.Numbered(AccessValidationHRTemplates)
  {
  }

  /**
   * Every request-type definition names an existing checklist, and that
   * checklist has task templates, so creating a request of any sample type
   * generates tasks.
   */
  lemma RequestTypesResolve(i: nat)
    requires i < |SampleRequestTypes|
    ensures ChecklistFor(SampleRequestTypes[i], SampleChecklists).Some?
    ensures TemplateCount(SampleRequestTypes[i], SampleChecklists) >= 2
  {
    var k := [0, 2, 1, 3, 1, 4, 5][i];
    assert SampleChecklists[k].id == SampleRequestTypes[i].checklistTemplateId;
    ChecklistsSized();
  }

  lemma ChecklistsSized()
    ensures forall c :: c in SampleChecklists ==> |c.taskTemplates| >= 2
  {
    forall j | 0 <= j < |SampleChecklists|
      ensures |SampleChecklists[j].taskTemplates| >= 2
    {
    }
  }

  /** No request-type definition is of the catch-all category, and every one is enabled. */
  lemma RequestTypesCategorised()
    ensures forall i :: 0 <= i < |SampleRequestTypes| ==>
      TypeOfCategory(SampleRequestTypes[i].appliesTo).Some? && SampleRequestTypes[i].isEnabled
  {
  }

  /** The employees' NIFs are pairwise distinct and all of the accepted format. */
  lemma EmployeeNifsUnique()
    ensures EmployeeForm.NifsUnique(SampleEmployees)
  {
  }

  /**
   * Only erp and crm (a manager) and project_management_tool (a project
   * lead) are gated; every other system has no approval policy.
   */
  lemma SystemPolicies()
    ensures forall i :: 0 <= i < |SampleSystems| ==>
      (SampleSystems[i].requiresApprovalBy.Some? <==> SampleSystems[i].id in {"erp", "crm", "project_management_tool"})
    ensures forall i :: 0 <= i < |SampleSystems| && SampleSystems[i].id in {"erp", "crm"} ==>
      SampleSystems[i].requiresApprovalBy == Some(ErpPolicy)
    ensures forall i :: 0 <= i < |SampleSystems| && SampleSystems[i].id == "project_management_tool" ==>
      SampleSystems[i].requiresApprovalBy == Some(ProjectPolicy)
  {
  }

  /**
   * With the sample users, a "Rol: Manager" policy resolves to Elena Roca
   * (user_004, a manager in Informàtica) and "Rol: Cap de Projecte", which
   * no user holds, falls back to the first IT manager, user_005.
   */
  lemma SampleApprovers(previous: string)
    ensures AccessRequestForm.ResolveApprover(ErpPolicy, SampleUsers, previous) == "user_004"
    ensures AccessRequestForm.ResolveApprover(ProjectPolicy, SampleUsers, previous) == "user_005"
  {
    ErpApprover(previous);
    ProjectApprover(previous);
  }

  /** The "Rol: Manager" half of `SampleApprovers`. */
  lemma ErpApprover(previous: string)
    ensures AccessRequestForm.ResolveApprover(ErpPolicy, SampleUsers, previous) == "user_004"
  {
    assert ErpPolicy[..4] == "Rol:" && ErpPolicy[5..] == RoleManager;
    forall i | 0 <= i < 3
      ensures !AccessRequestForm.HoldsRoleInIT(SampleUsers[i], RoleManager)
    {
    }
    assert AccessRequestForm.HoldsRoleInIT(SampleUsers[3], RoleManager);
    assert AccessRequestForm.ResolveRole(RoleManager, SampleUsers) == SampleUsers[3].id;
  }

  /** The "Rol: Cap de Projecte" half of `SampleApprovers`. */
  lemma ProjectApprover(previous: string)
    ensures AccessRequestForm.ResolveApprover(ProjectPolicy, SampleUsers, previous) == "user_005"
  {
    assert ProjectPolicy[..4] == "Rol:" && ProjectPolicy[5..] == "Cap de Projecte";
    forall i | 0 <= i < |SampleUsers|
      ensures !AccessRequestForm.HoldsRoleInIT(SampleUsers[i], "Cap de Projecte")
      ensures AccessRequestForm.IsITManager(SampleUsers[i]) <==> i == 4
    {
    }
  }

  /**
   * REQ002 asks for CRM. Routed by the access form against the sample
   * tables it is gated and goes to user_004, whereas the stored approval
   * APP001 for it names user_005: the fixture approval was not produced by
   * this routing.
   */
  lemma Req002Routing()
    ensures SampleRequests[1].id == "REQ002" && SampleRequests[1].details.requestedAccesses.Some?
    ensures var routing := AccessRequestForm.Route(SampleRequests[1].details.requestedAccesses.value, SampleSystems, SampleUsers);
      routing.needsApproval && routing.policies == {ErpPolicy} && routing.approver == "user_004"
    ensures SampleApprovals[0].requestId == "REQ002" && SampleApprovals[0].approverId == "user_005"
  {
    var items := SampleRequests[1].details.requestedAccesses.value;
    assert |items| == 1 && items[..0] == [];
    AccessRequestForm.PolicyOfFirst(items[0], SampleSystems, 1);
    SampleApprovers(AccessRequestForm.DefaultApprover);
  }

  /**
   * Checklist tasks name their department "IT" or "RRHH", while the
   * department table and the requests say "Informàtica" and "Recursos
   * Humans": no template department matches a department name.
   */
  lemma DepartmentSpellings()
    ensures forall i, k :: 0 <= i < |SampleChecklists| && 0 <= k < |SampleChecklists[i].taskTemplates| ==>
      SampleChecklists[i].taskTemplates[k].assigneeDepartment in {RoleIT, RoleRRHH}
    ensures forall i :: 0 <= i < |SampleTasks| ==> SampleTasks[i].assigneeDepartment in {RoleIT, RoleRRHH}
    ensures forall i :: 0 <= i < |SampleDepartments| ==> SampleDepartments[i].name !in {RoleIT, RoleRRHH}
    ensures forall i :: 0 <= i < |SampleRequests| ==> SampleRequests[i].assignedDepartment in {Some(DeptIT), Some(DeptHR)}
  {
  }

  /** The completed requests are exactly REQ001, REQ003 and REQ008, and every task of theirs is completed. */
  lemma CompletedRequestsDone()
    ensures forall i :: 0 <= i < |SampleRequests| ==> (SampleRequests[i].status == Completed <==> i in {0, 2, 7})
    ensures SampleRequests[0].id == "REQ001" && SampleRequests[2].id == "REQ003" && SampleRequests[7].id == "REQ008"
    ensures forall i, k ::
      && 0 <= i < |SampleRequests| && 0 <= k < |SampleTasks|
      && SampleRequests[i].status == Completed && SampleTasks[k].requestId == SampleRequests[i].id
      ==> SampleTasks[k].status == TaskCompleted
  {
  }

  /** REQ007 waits for the final HR validation, assigned to Recursos Humans. */
  lemma Req007Record()
    ensures RequestIndex(SampleRequests, "REQ007") == Some(6)
    ensures SampleRequests[6].status == PendingFinalValidation && SampleRequests[6].assignedDepartment == Some(DeptHR)
  {
    assert SampleRequests[6].id == "REQ007";
    forall j | 0 <= j < 6
      ensures SampleRequests[j].id != "REQ007"
    {
      assert SampleRequests[j].id[5] != "REQ007"[5];
    }
  }

  /** REQ007 has two tasks: the IT one is completed and the RRHH one is still pending. */
  lemma Req007Tasks()
    ensures forall k :: 0 <= k < |SampleTasks| && SampleTasks[k].requestId == "REQ007" ==> k in {17, 18}
    ensures SampleTasks[17].requestId == "REQ007" && SampleTasks[17].assigneeDepartment == RoleIT
      && SampleTasks[17].status == TaskCompleted
    ensures SampleTasks[18].requestId == "REQ007" && SampleTasks[18].assigneeDepartment == RoleRRHH
      && SampleTasks[18].status == TaskPending
  {
  }

  /** No two request-type definitions share an id. */
  lemma RequestTypeIdsDistinct()
    ensures forall i, j :: 0 <= i < j < |SampleRequestTypes| ==> SampleRequestTypes[i].id != SampleRequestTypes[j].id
  {
  }

  /**
   * Every request names a definition that exists and applies to the
   * request's own category.
   */
  lemma RequestsMatchTheirTypes(i: nat)
    requires i < |SampleRequests|
    ensures SampleRequests[i].requestTypeDefinitionId.Some?
    ensures var d := FindRequestType(SampleRequestTypes, SampleRequests[i].requestTypeDefinitionId.value);
      d.Some? && d.value.appliesTo == CategoryOf(SampleRequests[i].rtype)
  {
    var k := [0, 2, 5, 4, 0, 2, 6, 2, 4, 6][i];
    assert SampleRequestTypes[k].id == SampleRequests[i].requestTypeDefinitionId.value;
    assert SampleRequestTypes[k].appliesTo == CategoryOf(SampleRequests[i].rtype);
    RequestTypeIdsDistinct();
    FindDistinctRequestType(SampleRequestTypes, k);
  }
}

