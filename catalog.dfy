/** The catalog of automation categories the page displays. */
module Catalog {
  import opened Text

  /** One automation domain: its title, accent colour token, icon class,
      description, key tools and typical workflow steps (both in display order). */
  datatype AutomationCategory = AutomationCategory(
    category: String,
    color: String,
    icon: String,
    description: String,
    tools: seq<String>,
    workflow: seq<String>)

  /** The fixed catalog, in display order. Long texts below are written as
      concatenations of short word-aligned literals; the value is the same. */
  const AutomationData: seq<AutomationCategory> :=
    [CustomerSupport, Marketing, Sales, Finance, HumanResources, Analytics]

  /** Automation of customer support. */
  const CustomerSupport := AutomationCategory(
    category :=
      "Automatización "
      + "de Soporte al Cliente",
    color := "var(--c-customer-support)",
    icon := "fas fa-headset",
    description :=
      "Chatbots y asistentes "
      + "virtuales impulsados por IA "
      + "gestionan consultas de "
      + "clientes 24/7, reduciendo el "
      + "soporte manual y mejorando "
      + "los tiempos de respuesta.",
    tools := ["ChatGPT", "Zendesk AI", "Intercom", "Tidio", "Drift"],
    workflow := [
      "Recopilar FAQs",
      "Elegir herramienta de IA",
      "Entrenar chatbot",
      "Integrar con CRM",
      "Escalar soporte",
      "Mejorar precisión",
      "Monitorear respuestas",
      "Configurar flujos de respuesta"])

  /** Automation of marketing and content. */
  const Marketing := AutomationCategory(
    category :=
      "Automatización "
      + "de Marketing y Contenido",
    color := "var(--c-marketing)",
    icon := "fas fa-bullhorn",
    description :=
      "Las herramientas de IA "
      + "automatizan la creación de "
      + "contenido, la generación de "
      + "anuncios y las publicaciones "
      + "en redes sociales para "
      + "aumentar la visibilidad y "
      + "reducir el esfuerzo manual.",
    tools := ["Jasper", "Copy.ai", "Canva AI", "Predis", "Lumen5"],
    workflow := [
      "Definir objetivos",
      "Elegir herramienta de IA",
      "Ingresar brief",
      "Generar contenido",
      "Optimizar estrategia",
      "Analizar resultados",
      "Programar posts",
      "Revisar y editar"])

  /** Automation of the sales process. */
  const Sales := AutomationCategory(
    category :=
      "Automatización "
      + "del Proceso de Ventas",
    color := "var(--c-sales)",
    icon := "fas fa-funnel-dollar",
    description :=
      "Las herramientas de IA ayudan "
      + "a calificar leads, "
      + "automatizar campañas de email "
      + "y personalizar el contacto "
      + "para convertir más prospectos "
      + "en clientes.",
    tools := ["HubSpot", "Zoho CRM", "Lemlist", "Pipedrive AI", "Salesforce Einstein"],
    workflow := [
      "Capturar leads",
      "Segmentar audiencia",
      "Seleccionar CRM con IA",
      "Calificar leads",
      "Refinar embudo",
      "Analizar conversiones",
      "Rastrear engagement",
      "Automatizar contacto"])

  /** Automation of finance and invoicing. */
  const Finance := AutomationCategory(
    category :=
      "Automatización "
      + "Financiera y de Facturación",
    color := "var(--c-financial)",
    icon := "fas fa-file-invoice-dollar",
    description :=
      "Las herramientas de IA "
      + "agilizan el seguimiento de "
      + "gastos, la generación de "
      + "facturas y los pronósticos "
      + "presupuestarios, ahorrando "
      + "tiempo y reduciendo errores.",
    tools := ["FreshBooks", "Bill.com", "Vic.ai", "Zoho Books", "QuickBooks AI"],
    workflow := [
      "Importar gastos",
      "Seleccionar herramienta IA",
      "Categorizar entradas",
      "Generar facturas",
      "Exportar reportes",
      "Predecir flujo de caja",
      "Rastrear pagos",
      "Enviar a clientes"])

  /** Automation of HR and recruiting. */
  const HumanResources := AutomationCategory(
    category :=
      "Automatización "
      + "de RRHH y Contratación",
    color := "var(--c-hr)",
    icon := "fas fa-users",
    description :=
      "La IA acelera la revisión de "
      + "currículums, la puntuación de "
      + "candidatos e incluso los "
      + "procesos de onboarding para "
      + "simplificar la adquisición de "
      + "talento.",
    tools := ["HireLogic", "Paradox AI", "Manatal", "Eightfold", "Zoho Recruit"],
    workflow := [
      "Publicar oferta",
      "Recibir solicitudes",
      "Usar filtro de IA",
      "Clasificar candidatos",
      "Medir rendimiento",
      "Incorporar seleccionados",
      "Enviar evaluaciones",
      "Programar entrevistas"])

  /** Automation of analytics and reporting. */
  const Analytics := AutomationCategory(
    category :=
      "Automatización "
      + "de Análisis y Reportes",
    color := "var(--c-data-analysis)",
    icon := "fas fa-chart-pie",
    description :=
      "La IA analiza grandes "
      + "conjuntos de datos, encuentra "
      + "patrones y genera informes "
      + "con insights accionables para "
      + "una mejor toma de decisiones.",
    tools := ["MonkeyLearn", "Polymer", "Akkio", "Power BI Copilot", "Tableau con GPT"],
    workflow := [
      "Recolectar datos",
      "Elegir herramienta",
      "Limpiar dataset",
      "Ejecutar análisis",
      "Optimizar decisiones",
      "Compartir con equipo",
      "Auto-generar reporte",
      "Visualizar resultados"])
}
