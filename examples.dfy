/** Worked searches over the fixed catalog. */
module CatalogExamples {
  import opened Text
  import opened Catalog
  import opened Search

  /** Nowhere in `s` is a `g` or `G` directly followed by a `p` or `P`:
      then the lower-cased text cannot contain "gpt". */
  ghost predicate GpFree(s: String) {
    forall i :: 0 <= i < |s| - 1 ==>
      !((s[i] == 'g' || s[i] == 'G') && (s[i + 1] == 'p' || s[i + 1] == 'P'))
  }

  lemma GpFreeConcat(a: String, b: String)
    requires GpFree(a) && GpFree(b)
    requires a != [] && b != [] ==>
      !((a[|a| - 1] == 'g' || a[|a| - 1] == 'G') && (b[0] == 'p' || b[0] == 'P'))
    ensures GpFree(a + b)
  {
    var s := a + b;
    forall i | 0 <= i < |s| - 1
      ensures !((s[i] == 'g' || s[i] == 'G') && (s[i + 1] == 'p' || s[i + 1] == 'P'))
    {
      if i >= |a| {
        assert s[i] == b[i - |a|] && s[i + 1] == b[i - |a| + 1];
      }
    }
  }

  lemma GpFreeExcludesGpt(s: String)
    requires GpFree(s)
    ensures !Includes(LowerStr(s), "gpt")
  {
    IncludesIff(LowerStr(s), "gpt");
    var l := LowerStr(s);
    forall i | 0 <= i && i + 3 <= |l| ensures !OccursAt(l, "gpt", i) {
      assert l[i..i + 3][0] == Lower(s[i]) && l[i..i + 3][1] == Lower(s[i + 1]);
    }
  }

  /** A text with no `g` at all, or with no `p` at all, has no "gpt". */
  lemma NoGExcludesGpt(s: String)
    requires 'g' !in s && 'G' !in s
    ensures !Includes(LowerStr(s), "gpt")
  {
    GpFreeExcludesGpt(s);
  }

  lemma NoPExcludesGpt(s: String)
    requires 'p' !in s && 'P' !in s
    ensures !Includes(LowerStr(s), "gpt")
  {
    GpFreeExcludesGpt(s);
  }

  /** `some` over five tools fails when none of them contains the term. */
  lemma NoToolIncludes(a: String, b: String, c: String, d: String, e: String, t: String)
    requires !Includes(LowerStr(a), t) && !Includes(LowerStr(b), t) && !Includes(LowerStr(c), t)
    requires !Includes(LowerStr(d), t) && !Includes(LowerStr(e), t)
    ensures !SomeToolIncludes([a, b, c, d, e], t)
  {
    SomeToolIncludesIff([a, b, c, d, e], t);
  }

  /** One step of the filter over the catalog from position `k` on. */
  lemma FilterMatchingStep(d: seq<AutomationCategory>, k: nat, t: String)
    requires k < |d|
    ensures FilterMatching(d[k..], t)
      == (if Matches(d[k], t) then [d[k]] else []) + FilterMatching(d[k + 1..], t)
  {
    assert d[k..][1..] == d[k + 1..];
  }

  lemma NormalizeAutomatizacion()
    ensures Normalize("automatización") == "automatización"
  {
    assert LowerStr("automatización") == "automatización";
    TrimOfTrimmed("automatización");
  }

  /** A category whose name begins with "Automatización " matches the term
      "automatización". */
  lemma AutomatizacionPrefix(c: AutomationCategory, rest: String)
    requires c.category == "Automatización " + rest
    ensures Matches(c, "automatización")
  {
    var name := LowerStr("Automatización " + rest);
    assert name[..14] == "automatización";
    IncludesAt(name, "automatización", 0);
  }

  /** Every category name begins with "Automatización", so that term keeps
      the whole catalog. */
  lemma AutomatizacionSelectsAll()
    ensures FilterContent(AutomationData, "automatización") == AutomationData
  {
    NormalizeAutomatizacion();
    AutomatizacionPrefix(CustomerSupport, "de Soporte al Cliente");
    AutomatizacionPrefix(Marketing, "de Marketing y Contenido");
    AutomatizacionPrefix(Sales, "del Proceso de Ventas");
    AutomatizacionPrefix(Finance, "Financiera y de Facturación");
    AutomatizacionPrefix(HumanResources, "de RRHH y Contratación");
    AutomatizacionPrefix(Analytics, "de Análisis y Reportes");
    FilterMatchingKeepsMatching(AutomationData, "automatización");
  }

  /** The same search typed in capitals, accented capital included. */
  lemma AutomatizacionUpperSelectsAll()
    ensures FilterContent(AutomationData, "AUTOMATIZACIÓN") == AutomationData
  {
    CaseInsensitive(AutomationData, "AUTOMATIZACIÓN", "automatización");
    AutomatizacionSelectsAll();
  }

  lemma NormalizeGpt()
    ensures Normalize("GPT") == "gpt"
  {
    assert LowerStr("GPT") == "gpt";
    TrimOfTrimmed("gpt");
  }

  /** The first category matches "gpt" through its tool "ChatGPT". */
  lemma CustomerSupportHasGpt()
    ensures Matches(CustomerSupport, "gpt")
  {
    assert LowerStr("ChatGPT")[4..7] == "gpt";
    IncludesAt(LowerStr("ChatGPT"), "gpt", 4);
  }

  /** The last category matches "gpt" through its tool "Tableau con GPT". */
  lemma AnalyticsHasGpt()
    ensures Matches(Analytics, "gpt")
  {
    assert LowerStr("Tableau con GPT")[12..15] == "gpt";
    IncludesAt(LowerStr("Tableau con GPT"), "gpt", 12);
    assert Analytics.tools[4] == "Tableau con GPT";
    SomeToolIncludesIff(Analytics.tools, "gpt");
  }

  /** Past the first category, only the last one matches "gpt". */
  lemma GptTail()
    ensures FilterMatching(AutomationData[1..], "gpt") == [Analytics]
  {
    var d := AutomationData;
    var t := "gpt";
    AnalyticsHasGpt();
    FilterMatchingStep(d, 5, t);
    assert FilterMatching(d[5..], t) == [Analytics];
    HumanResourcesHasNoGpt();
    FilterMatchingStep(d, 4, t);
    FinanceHasNoGpt();
    FilterMatchingStep(d, 3, t);
    SalesHasNoGpt();
    FilterMatchingStep(d, 2, t);
    MarketingHasNoGpt();
    FilterMatchingStep(d, 1, t);
  }

  /** "GPT" keeps exactly the first and the last category, in that order. */
  lemma GptSelectsFirstAndLast()
    ensures FilterContent(AutomationData, "GPT") == [CustomerSupport, Analytics]
  {
    NormalizeGpt();
    CustomerSupportHasGpt();
    GptTail();
    FilterMatchingStep(AutomationData, 0, "gpt");
    assert AutomationData[0..] == AutomationData;
  }

  /** The description of this category, a few pieces at a time, has no
      `g` directly followed by a `p`. */
  lemma MarketingDescriptionGpFree1()
    ensures GpFree("Las herramientas de IA " + "automatizan la creación de ")
  {
    var s := "Las herramientas de IA ";
    GpFreeConcat(s, "automatizan la creación de ");
  }

  lemma MarketingDescriptionGpFree2()
    ensures GpFree("Las herramientas de IA " + "automatizan la creación de " + "contenido, la generación de " + "anuncios y las publicaciones ")
  {
    MarketingDescriptionGpFree1();
    var s := "Las herramientas de IA " + "automatizan la creación de ";
    GpFreeConcat(s, "contenido, la generación de ");
    s := s + "contenido, la generación de ";
    GpFreeConcat(s, "anuncios y las publicaciones ");
  }

  lemma MarketingDescriptionGpFree3()
    ensures GpFree("Las herramientas de IA " + "automatizan la creación de " + "contenido, la generación de " + "anuncios y las publicaciones " + "en redes sociales para " + "aumentar la visibilidad y ")
  {
    MarketingDescriptionGpFree2();
    var s := "Las herramientas de IA " + "automatizan la creación de " + "contenido, la generación de " + "anuncios y las publicaciones ";
    GpFreeConcat(s, "en redes sociales para ");
    s := s + "en redes sociales para ";
    GpFreeConcat(s, "aumentar la visibilidad y ");
  }

  lemma MarketingDescriptionGpFree4()
    ensures GpFree("Las herramientas de IA " + "automatizan la creación de " + "contenido, la generación de " + "anuncios y las publicaciones " + "en redes sociales para " + "aumentar la visibilidad y " + "reducir el esfuerzo manual.")
  {
    MarketingDescriptionGpFree3();
    var s := "Las herramientas de IA " + "automatizan la creación de " + "contenido, la generación de " + "anuncios y las publicaciones " + "en redes sociales para " + "aumentar la visibilidad y ";
    GpFreeConcat(s, "reducir el esfuerzo manual.");
  }

  lemma MarketingDescriptionHasNoGpt()
    ensures !Includes(LowerStr(Marketing.description), "gpt")
  {
    MarketingDescriptionGpFree4();
    GpFreeExcludesGpt(Marketing.description);
  }

  lemma MarketingNameHasNoGpt()
    ensures !Includes(LowerStr(Marketing.category), "gpt")
  {
    GpFreeConcat("Automatización ", "de Marketing y Contenido");
    GpFreeExcludesGpt(Marketing.category);
  }

  lemma MarketingToolTextsHaveNoGpt()
    ensures !Includes(LowerStr("Jasper"), "gpt")
      && !Includes(LowerStr("Copy.ai"), "gpt")
      && !Includes(LowerStr("Canva AI"), "gpt")
      && !Includes(LowerStr("Predis"), "gpt")
      && !Includes(LowerStr("Lumen5"), "gpt")
  {
    assert 'g' !in "Jasper" && 'G' !in "Jasper";
    assert 'g' !in "Copy.ai" && 'G' !in "Copy.ai";
    assert 'g' !in "Canva AI" && 'G' !in "Canva AI";
    assert 'g' !in "Predis" && 'G' !in "Predis";
    assert 'g' !in "Lumen5" && 'G' !in "Lumen5";
    NoGExcludesGpt("Jasper");
    NoGExcludesGpt("Copy.ai");
    NoGExcludesGpt("Canva AI");
    NoGExcludesGpt("Predis");
    NoGExcludesGpt("Lumen5");
  }

  lemma MarketingToolsHaveNoGpt()
    ensures !SomeToolIncludes(Marketing.tools, "gpt")
  {
    MarketingToolTextsHaveNoGpt();
    NoToolIncludes("Jasper", "Copy.ai", "Canva AI", "Predis", "Lumen5", "gpt");
  }

  /** "gpt" occurs neither in the name, nor in the description, nor in
      any tool of this category. */
  lemma MarketingHasNoGpt()
    ensures !Matches(Marketing, "gpt")
  {
    MarketingNameHasNoGpt();
    MarketingDescriptionHasNoGpt();
    MarketingToolsHaveNoGpt();
  }

  /** The description of this category, a few pieces at a time, has no
      `g` directly followed by a `p`. */
  lemma SalesDescriptionGpFree1()
    ensures GpFree("Las herramientas de IA ayudan " + "a calificar leads, ")
  {
    var s := "Las herramientas de IA ayudan ";
    GpFreeConcat(s, "a calificar leads, ");
  }

  lemma SalesDescriptionGpFree2()
    ensures GpFree("Las herramientas de IA ayudan " + "a calificar leads, " + "automatizar campañas de email " + "y personalizar el contacto ")
  {
    SalesDescriptionGpFree1();
    var s := "Las herramientas de IA ayudan " + "a calificar leads, ";
    GpFreeConcat(s, "automatizar campañas de email ");
    s := s + "automatizar campañas de email ";
    GpFreeConcat(s, "y personalizar el contacto ");
  }

  lemma SalesDescriptionGpFree3()
    ensures GpFree("Las herramientas de IA ayudan " + "a calificar leads, " + "automatizar campañas de email " + "y personalizar el contacto " + "para convertir más prospectos " + "en clientes.")
  {
    SalesDescriptionGpFree2();
    var s := "Las herramientas de IA ayudan " + "a calificar leads, " + "automatizar campañas de email " + "y personalizar el contacto ";
    GpFreeConcat(s, "para convertir más prospectos ");
    s := s + "para convertir más prospectos ";
    GpFreeConcat(s, "en clientes.");
  }

  lemma SalesDescriptionHasNoGpt()
    ensures !Includes(LowerStr(Sales.description), "gpt")
  {
    SalesDescriptionGpFree3();
    GpFreeExcludesGpt(Sales.description);
  }

  lemma SalesNameHasNoGpt()
    ensures !Includes(LowerStr(Sales.category), "gpt")
  {
    GpFreeConcat("Automatización ", "del Proceso de Ventas");
    GpFreeExcludesGpt(Sales.category);
  }

  lemma SalesToolTextsHaveNoGpt()
    ensures !Includes(LowerStr("HubSpot"), "gpt")
      && !Includes(LowerStr("Zoho CRM"), "gpt")
      && !Includes(LowerStr("Lemlist"), "gpt")
      && !Includes(LowerStr("Pipedrive AI"), "gpt")
      && !Includes(LowerStr("Salesforce Einstein"), "gpt")
  {
    assert 'g' !in "HubSpot" && 'G' !in "HubSpot";
    assert 'g' !in "Zoho CRM" && 'G' !in "Zoho CRM";
    assert 'g' !in "Lemlist" && 'G' !in "Lemlist";
    assert 'g' !in "Pipedrive AI" && 'G' !in "Pipedrive AI";
    assert 'g' !in "Salesforce Einstein" && 'G' !in "Salesforce Einstein";
    NoGExcludesGpt("HubSpot");
    NoGExcludesGpt("Zoho CRM");
    NoGExcludesGpt("Lemlist");
    NoGExcludesGpt("Pipedrive AI");
    NoGExcludesGpt("Salesforce Einstein");
  }

  lemma SalesToolsHaveNoGpt()
    ensures !SomeToolIncludes(Sales.tools, "gpt")
  {
    SalesToolTextsHaveNoGpt();
    NoToolIncludes("HubSpot", "Zoho CRM", "Lemlist", "Pipedrive AI", "Salesforce Einstein", "gpt");
  }

  /** "gpt" occurs neither in the name, nor in the description, nor in
      any tool of this category. */
  lemma SalesHasNoGpt()
    ensures !Matches(Sales, "gpt")
  {
    SalesNameHasNoGpt();
    SalesDescriptionHasNoGpt();
    SalesToolsHaveNoGpt();
  }

  /** The description of this category, a few pieces at a time, has no
      `g` directly followed by a `p`. */
  lemma FinanceDescriptionGpFree1()
    ensures GpFree("Las herramientas de IA " + "agilizan el seguimiento de ")
  {
    var s := "Las herramientas de IA ";
    GpFreeConcat(s, "agilizan el seguimiento de ");
  }

  lemma FinanceDescriptionGpFree2()
    ensures GpFree("Las herramientas de IA " + "agilizan el seguimiento de " + "gastos, la generación de " + "facturas y los pronósticos ")
  {
    FinanceDescriptionGpFree1();
    var s := "Las herramientas de IA " + "agilizan el seguimiento de ";
    GpFreeConcat(s, "gastos, la generación de ");
    s := s + "gastos, la generación de ";
    GpFreeConcat(s, "facturas y los pronósticos ");
  }

  lemma FinanceDescriptionGpFree3()
    ensures GpFree("Las herramientas de IA " + "agilizan el seguimiento de " + "gastos, la generación de " + "facturas y los pronósticos " + "presupuestarios, ahorrando " + "tiempo y reduciendo errores.")
  {
    FinanceDescriptionGpFree2();
    var s := "Las herramientas de IA " + "agilizan el seguimiento de " + "gastos, la generación de " + "facturas y los pronósticos ";
    GpFreeConcat(s, "presupuestarios, ahorrando ");
    s := s + "presupuestarios, ahorrando ";
    GpFreeConcat(s, "tiempo y reduciendo errores.");
  }

  lemma FinanceDescriptionHasNoGpt()
    ensures !Includes(LowerStr(Finance.description), "gpt")
  {
    FinanceDescriptionGpFree3();
    GpFreeExcludesGpt(Finance.description);
  }

  lemma FinanceNameHasNoGpt()
    ensures !Includes(LowerStr(Finance.category), "gpt")
  {
    GpFreeConcat("Automatización ", "Financiera y de Facturación");
    GpFreeExcludesGpt(Finance.category);
  }

  lemma FinanceToolTextsHaveNoGpt()
    ensures !Includes(LowerStr("FreshBooks"), "gpt")
      && !Includes(LowerStr("Bill.com"), "gpt")
      && !Includes(LowerStr("Vic.ai"), "gpt")
      && !Includes(LowerStr("Zoho Books"), "gpt")
      && !Includes(LowerStr("QuickBooks AI"), "gpt")
  {
    assert 'g' !in "FreshBooks" && 'G' !in "FreshBooks";
    assert 'g' !in "Bill.com" && 'G' !in "Bill.com";
    assert 'g' !in "Vic.ai" && 'G' !in "Vic.ai";
    assert 'g' !in "Zoho Books" && 'G' !in "Zoho Books";
    assert 'g' !in "QuickBooks AI" && 'G' !in "QuickBooks AI";
    NoGExcludesGpt("FreshBooks");
    NoGExcludesGpt("Bill.com");
    NoGExcludesGpt("Vic.ai");
    NoGExcludesGpt("Zoho Books");
    NoGExcludesGpt("QuickBooks AI");
  }

  lemma FinanceToolsHaveNoGpt()
    ensures !SomeToolIncludes(Finance.tools, "gpt")
  {
    FinanceToolTextsHaveNoGpt();
    NoToolIncludes("FreshBooks", "Bill.com", "Vic.ai", "Zoho Books", "QuickBooks AI", "gpt");
  }

  /** "gpt" occurs neither in the name, nor in the description, nor in
      any tool of this category. */
  lemma FinanceHasNoGpt()
    ensures !Matches(Finance, "gpt")
  {
    FinanceNameHasNoGpt();
    FinanceDescriptionHasNoGpt();
    FinanceToolsHaveNoGpt();
  }

  /** The description of this category, a few pieces at a time, has no
      `g` directly followed by a `p`. */
  lemma HumanResourcesDescriptionGpFree1()
    ensures GpFree("La IA acelera la revisión de " + "currículums, la puntuación de ")
  {
    var s := "La IA acelera la revisión de ";
    GpFreeConcat(s, "currículums, la puntuación de ");
  }

  lemma HumanResourcesDescriptionGpFree2()
    ensures GpFree("La IA acelera la revisión de " + "currículums, la puntuación de " + "candidatos e incluso los " + "procesos de onboarding para ")
  {
    HumanResourcesDescriptionGpFree1();
    var s := "La IA acelera la revisión de " + "currículums, la puntuación de ";
    GpFreeConcat(s, "candidatos e incluso los ");
    s := s + "candidatos e incluso los ";
    GpFreeConcat(s, "procesos de onboarding para ");
  }

  lemma HumanResourcesDescriptionGpFree3()
    ensures GpFree("La IA acelera la revisión de " + "currículums, la puntuación de " + "candidatos e incluso los " + "procesos de onboarding para " + "simplificar la adquisición de " + "talento.")
  {
    HumanResourcesDescriptionGpFree2();
    var s := "La IA acelera la revisión de " + "currículums, la puntuación de " + "candidatos e incluso los " + "procesos de onboarding para ";
    GpFreeConcat(s, "simplificar la adquisición de ");
    s := s + "simplificar la adquisición de ";
    GpFreeConcat(s, "talento.");
  }

  lemma HumanResourcesDescriptionHasNoGpt()
    ensures !Includes(LowerStr(HumanResources.description), "gpt")
  {
    HumanResourcesDescriptionGpFree3();
    GpFreeExcludesGpt(HumanResources.description);
  }

  lemma HumanResourcesNameHasNoGpt()
    ensures !Includes(LowerStr(HumanResources.category), "gpt")
  {
    GpFreeConcat("Automatización ", "de RRHH y Contratación");
    GpFreeExcludesGpt(HumanResources.category);
  }

  lemma HumanResourcesToolTextsHaveNoGpt()
    ensures !Includes(LowerStr("HireLogic"), "gpt")
      && !Includes(LowerStr("Paradox AI"), "gpt")
      && !Includes(LowerStr("Manatal"), "gpt")
      && !Includes(LowerStr("Eightfold"), "gpt")
      && !Includes(LowerStr("Zoho Recruit"), "gpt")
  {
    assert 'p' !in "HireLogic" && 'P' !in "HireLogic";
    assert 'g' !in "Paradox AI" && 'G' !in "Paradox AI";
    assert 'g' !in "Manatal" && 'G' !in "Manatal";
    assert 'p' !in "Eightfold" && 'P' !in "Eightfold";
    assert 'g' !in "Zoho Recruit" && 'G' !in "Zoho Recruit";
    NoPExcludesGpt("HireLogic");
    NoGExcludesGpt("Paradox AI");
    NoGExcludesGpt("Manatal");
    NoPExcludesGpt("Eightfold");
    NoGExcludesGpt("Zoho Recruit");
  }

  lemma HumanResourcesToolsHaveNoGpt()
    ensures !SomeToolIncludes(HumanResources.tools, "gpt")
  {
    HumanResourcesToolTextsHaveNoGpt();
    NoToolIncludes("HireLogic", "Paradox AI", "Manatal", "Eightfold", "Zoho Recruit", "gpt");
  }

  /** "gpt" occurs neither in the name, nor in the description, nor in
      any tool of this category. */
  lemma HumanResourcesHasNoGpt()
    ensures !Matches(HumanResources, "gpt")
  {
    HumanResourcesNameHasNoGpt();
    HumanResourcesDescriptionHasNoGpt();
    HumanResourcesToolsHaveNoGpt();
  }
}
