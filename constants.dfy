/** The static lookup tables and the factory for a fresh declaration. */
module Constants {
  import opened Wrappers
  import opened SeqOps
  import opened JsStrings
  import opened Types

  const USAGE_TYPES: seq<UsageOption> := [
    UsageOption("draft", "Generación de Borrador / Texto Base",
      "La IA escribió una primera versión completa o secciones sustanciales que sirvieron de base.",
      ["Generación de introducción para un paper", "Redacción de correos formales", "Primer borrador de capítulos teóricos"]),
    UsageOption("coauthor", "Co-creación Sustantiva",
      "Colaboración iterativa donde la IA y el humano construyen argumentos o narrativas conjuntamente.",
      ["Diálogo socrático para refinar argumentos", "Expansión de puntos clave definidos por el humano", "Desarrollo de escenarios hipotéticos"]),
    UsageOption("writing-support", "Asistencia Lingüística y de Estilo",
      "Mejora de la forma sin alterar el fondo o las ideas principales.",
      ["Parafraseo para mejorar fluidez (Tone adjustment)", "Corrección gramatical y ortográfica", "Adaptación de texto a formato académico estándar"]),
    UsageOption("ideation", "Ideación y Estructuración",
      "Apoyo en la fase previa a la escritura (brainstorming, esquemas).",
      ["Generación de preguntas de investigación", "Creación de esquemas (outlines) para tesis", "Sugerencia de títulos o palabras clave"]),
    UsageOption("analysis", "Procesamiento y Análisis de Datos",
      "Uso de capacidades computacionales para sintetizar o transformar información.",
      ["Resumen de papers o bibliografía", "Extracción de entidades en textos", "Análisis de sentimiento en corpus de datos"]),
    UsageOption("coding", "Generación de Código / Simulación",
      "Creación de scripts, algoritmos o modelos matemáticos.",
      ["Scripts de Python/R para análisis estadístico", "Consultas SQL complejas", "Debugging de código de investigación"]),
    UsageOption("translation", "Traducción Técnica",
      "Traducción de textos académicos o técnicos entre idiomas.",
      ["Traducción de abstract al inglés", "Comprensión de bibliografía en otro idioma"]),
    UsageOption("review", "Simulación de Revisión (Feedback)",
      "La IA actúa como \"abogado del diablo\" o revisor par simulado.",
      ["Detección de falacias lógicas", "Crítica a la metodología propuesta", "Búsqueda de lagunas en la argumentación"]),
    UsageOption("other", "Otro uso no listado",
      "Cualquier otro uso que no encaje en las categorías anteriores.",
      [])
  ]

  /** The content-integration modes; "Otro" is the sentinel asking for free text. */
  const CONTENT_USE_MODES: seq<string> := [
    "Incorporado tal cual (Verbatim)",
    "Editado parcialmente (ajustes menores)",
    "Reescrito sustancialmente (mismas ideas, nuevas palabras)",
    "Usado solo como inspiración/referencia",
    "Sintetizado con otras fuentes humanas/documentales",
    "Otro"
  ]

  /** The names the review labels carry after "Nivel N: ". */
  const REVIEW_LEVEL_NAMES: seq<string> := [
    "Sin Revisión", "Revisión Superficial", "Revisión Gramatical/Estilo", "Verificación Selectiva",
    "Contrastación Documental", "Validación Experta", "Revisión Crítica y Ética"
  ]

  /** A review label: "Nivel N: name". */
  function ReviewLabel(level: HumanReviewLevel, name: string): string {
    "Nivel " + [DigitChar(level)] + ": " + name
  }

  const HUMAN_REVIEW_LEVELS: seq<ReviewLevelOption> := [
    ReviewLevelOption(0, ReviewLabel(0, REVIEW_LEVEL_NAMES[0]), "El contenido generado se utilizó directamente sin verificación humana (No recomendado en contextos académicos)."),
    ReviewLevelOption(1, ReviewLabel(1, REVIEW_LEVEL_NAMES[1]), "Lectura rápida para verificar coherencia general, sin entrar en detalles de exactitud."),
    ReviewLevelOption(2, ReviewLabel(2, REVIEW_LEVEL_NAMES[2]), "Corrección de errores tipográficos, sintaxis y tono, asumiendo la veracidad del contenido."),
    ReviewLevelOption(3, ReviewLabel(3, REVIEW_LEVEL_NAMES[3]), "Comprobación aleatoria (spot-checking) de datos clave o afirmaciones dudosas."),
    ReviewLevelOption(4, ReviewLabel(4, REVIEW_LEVEL_NAMES[4]), "Verificación de citas, referencias y datos contra fuentes primarias fiables."),
    ReviewLevelOption(5, ReviewLabel(5, REVIEW_LEVEL_NAMES[5]), "Revisión profunda por un experto en la materia para asegurar integridad lógica y metodológica."),
    ReviewLevelOption(6, ReviewLabel(6, REVIEW_LEVEL_NAMES[6]), "Análisis exhaustivo de sesgos, originalidad, ética y precisión técnica (Estándar \"Gold\").")
  ]

  const HELP_CHECKLIST: seq<ChecklistItem> := [
    ChecklistItem("q1", "¿Generó texto nuevo (párrafos, capítulos) que usaste como base?", "draft", 100),
    ChecklistItem("q2", "¿Te ayudó a escribir código, scripts o fórmulas matemáticas?", "coding", 90),
    ChecklistItem("q3", "¿Resumió artículos, extrajo datos o analizó documentos PDF?", "analysis", 80),
    ChecklistItem("q4", "¿Tradujo textos técnicos o abstracts a otro idioma?", "translation", 70),
    ChecklistItem("q5", "¿Sugirió estructuras, preguntas de investigación o ideas?", "ideation", 60),
    ChecklistItem("q6", "¿Solo mejoró la redacción, el vocabulario o la ortografía?", "writing-support", 40),
    ChecklistItem("q7", "¿Evaluó tu trabajo buscando errores o debilidades?", "review", 20)
  ]

  /** The calendar month as `Date.getMonth()` reports it, 0 to 11. */
  type MonthIndex = m: int | 0 <= m < 12

  /** `getInitialDeclaration()`. The random id and the current month and year
      are inputs. */
  function InitialDeclaration(id: string, monthIndex: MonthIndex, year: int): (r: DeclarationState)
    ensures r.declarationId == id
    ensures r.prompts == [Prompt("1", "")]
    ensures r.selectedChecklistIds == [] && r.usageTypes == [] && r.contentUseModes == []
    ensures r.customUsageType == "" && r.specificPurpose == ""
    ensures r.customContentUseMode == "" && r.contentUseContext == ""
    ensures r.aiTool.name == "" && r.aiTool.version == "" && r.aiTool.provider == ""
    ensures 1 <= r.aiTool.date.month <= 12 && r.aiTool.date.year == year
    ensures r.humanReview.level == 0 && r.humanReview.reviewerRole == ""
    ensures r.humanReview.reviewerName.None? && r.license.None?
  {
    DeclarationState(
      id, [], [], "",
      AITool("", "", "", ConsultDate(monthIndex + 1, year)),
      "", [Prompt("1", "")], [], "", "",
      HumanReview(0, "", None),
      None)
  }

  /** The checklist ids are distinct. */
  lemma ChecklistIdsDistinct()
    ensures forall i, j :: 0 <= i < j < |HELP_CHECKLIST| ==> HELP_CHECKLIST[i].id != HELP_CHECKLIST[j].id
  {
  }

  /** Priorities strictly decrease in table order. */
  lemma ChecklistPrioritiesDecrease()
    ensures forall i, j :: 0 <= i < j < |HELP_CHECKLIST| ==> HELP_CHECKLIST[i].priority > HELP_CHECKLIST[j].priority
  {
  }

  /** Every suggestion is a category of the usage table other than "other". */
  lemma ChecklistSuggestsKnownCategories()
    ensures forall i :: 0 <= i < |HELP_CHECKLIST| ==>
      HELP_CHECKLIST[i].suggests != "other" &&
      exists k :: 0 <= k < |USAGE_TYPES| && USAGE_TYPES[k].value == HELP_CHECKLIST[i].suggests
  {
    var values := UsageValues();
    var suggestions := ChecklistSuggestions();
    forall i | 0 <= i < |HELP_CHECKLIST|
      ensures HELP_CHECKLIST[i].suggests != "other"
      ensures exists k :: 0 <= k < |USAGE_TYPES| && USAGE_TYPES[k].value == HELP_CHECKLIST[i].suggests
    {
      var k := [0, 5, 4, 6, 3, 2, 7][i];
      assert USAGE_TYPES[k].value == values[k] == suggestions[i] == HELP_CHECKLIST[i].suggests;
    }
  }

  /** The checklist's suggestions, item by item. */
  lemma ChecklistSuggestions() returns (suggestions: seq<string>)
    ensures |suggestions| == |HELP_CHECKLIST| && forall i :: 0 <= i < |suggestions| ==> suggestions[i] == HELP_CHECKLIST[i].suggests
    ensures suggestions == ["draft", "coding", "analysis", "translation", "ideation", "writing-support", "review"]
  {
    suggestions := ["draft", "coding", "analysis", "translation", "ideation", "writing-support", "review"];
  }

  /** The review table has seven entries and entry i describes level i. */
  lemma ReviewLevelsIndexed()
    ensures |HUMAN_REVIEW_LEVELS| == 7
    ensures forall i :: 0 <= i < 7 ==> HUMAN_REVIEW_LEVELS[i].level == i
  {
  }

  /** Each review label is "Nivel ", its level digit, ": " and its name. */
  lemma ReviewLabelShape(i: nat)
    requires i < |HUMAN_REVIEW_LEVELS|
    ensures HUMAN_REVIEW_LEVELS[i].labelText == "Nivel " + [DigitChar(i)] + ": " + REVIEW_LEVEL_NAMES[i]
  {
  }

  /** No level name has a colon or starts with white space. */
  lemma ReviewNamePlain(i: nat)
    requires i < |REVIEW_LEVEL_NAMES|
    ensures ':' !in REVIEW_LEVEL_NAMES[i]
    ensures |REVIEW_LEVEL_NAMES[i]| > 0 && !IsJsWhitespace(REVIEW_LEVEL_NAMES[i][0])
  {
  }

  /** `split(':')[1].trim()` of "Nivel d: name" is the name. */
  lemma LabelNameAfterColon(d: char, name: string)
    requires ':' !in name && d != ':'
    requires |name| > 0 && !IsJsWhitespace(name[0])
    ensures SecondField("Nivel " + [d] + ": " + name, ':') == Some(" " + name)
    ensures Trim(" " + name) == Trim(name) != ""
  {
    var front := "Nivel " + [d];
    assert "Nivel " + [d] + ": " + name == front + [':'] + (" " + name);
    assert ':' !in " " + name;
    SecondFieldOfOneSeparator(front, ':', " " + name);
    assert (" " + name)[1..] == name;
    TrimEmptyIffBlank(name);
  }

  /** Every review label reads "Nivel N: name" with a single colon, so the
      name part after the colon exists and is never blank. */
  lemma ReviewLabelsHaveName(i: nat)
    requires i < |HUMAN_REVIEW_LEVELS|
    ensures SecondField(HUMAN_REVIEW_LEVELS[i].labelText, ':') == Some(" " + REVIEW_LEVEL_NAMES[i])
    ensures Trim(" " + REVIEW_LEVEL_NAMES[i]) == Trim(REVIEW_LEVEL_NAMES[i]) != ""
  {
    ReviewLabelShape(i);
    ReviewNamePlain(i);
    LabelNameAfterColon(DigitChar(i), REVIEW_LEVEL_NAMES[i]);
  }

  /** The usage table lists each of the nine keys once, "other" last. */
  lemma UsageTypesCoverKeys()
    ensures |USAGE_TYPES| == |UsageKeyNames| == 9
    ensures forall i, j :: 0 <= i < j < |USAGE_TYPES| ==> USAGE_TYPES[i].value != USAGE_TYPES[j].value
    ensures forall n :: 0 <= n < |UsageKeyNames| ==>
      exists i :: 0 <= i < |USAGE_TYPES| && USAGE_TYPES[i].value == UsageKeyNames[n]
    ensures USAGE_TYPES[8].value == "other"
  {
    var values := UsageValues();
    UsageValuesDistinct(values);
    assert forall i, j :: 0 <= i < j < |USAGE_TYPES| ==> USAGE_TYPES[i].value != USAGE_TYPES[j].value;
    assert |USAGE_TYPES| == |UsageKeyNames| == 9;
    forall n | 0 <= n < |UsageKeyNames|
      ensures exists i :: 0 <= i < |USAGE_TYPES| && USAGE_TYPES[i].value == UsageKeyNames[n]
    {
      var i := UsageKeyRow(values, n);
    }
  }

  /** The row of the n-th key. */
  lemma UsageKeyRow(values: seq<string>, n: nat) returns (i: nat)
    requires |values| == |USAGE_TYPES| && forall i :: 0 <= i < |values| ==> values[i] == USAGE_TYPES[i].value
    requires values == ["draft", "coauthor", "writing-support", "ideation", "analysis", "coding", "translation", "review", "other"]
    requires n < |UsageKeyNames|
    ensures i < |USAGE_TYPES| && USAGE_TYPES[i].value == UsageKeyNames[n]
  {
    i := [0, 1, 2, 3, 4, 7, 6, 5, 8][n];
    assert USAGE_TYPES[i].value == values[i];
  }

  /** The usage table's values, row by row. */
  lemma UsageValues() returns (values: seq<string>)
    ensures |values| == |USAGE_TYPES| && forall i :: 0 <= i < |values| ==> values[i] == USAGE_TYPES[i].value
    ensures values == ["draft", "coauthor", "writing-support", "ideation", "analysis", "coding", "translation", "review", "other"]
  {
    values := ["draft", "coauthor", "writing-support", "ideation", "analysis", "coding", "translation", "review", "other"];
  }

  /** Nine keys that differ in their first letter or, for the two starting
      with 'c', in their length. */
  lemma UsageValuesDistinct(values: seq<string>)
    requires values == ["draft", "coauthor", "writing-support", "ideation", "analysis", "coding", "translation", "review", "other"]
    ensures forall i, j :: 0 <= i < j < |values| ==> values[i] != values[j]
  {
    forall i, j | 0 <= i < j < |values|
      ensures values[i] != values[j]
    {
      if values[i][0] == values[j][0] {
        assert |values[i]| != |values[j]|;
      }
    }
  }

  /** No usage label is empty (so `label || key` always yields the label). */
  lemma UsageLabelsNonEmpty()
    ensures forall i :: 0 <= i < |USAGE_TYPES| ==> USAGE_TYPES[i].labelText != ""
  {
  }

  /** The content-mode table ends with its "Otro" sentinel. */
  lemma ContentModesIncludeOther()
    ensures "Otro" in CONTENT_USE_MODES && CONTENT_USE_MODES[5] == "Otro"
  {
  }
}
