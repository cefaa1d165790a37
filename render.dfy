/** The two renderers of a declaration: the human-readable text, built
    section by section (`generateDeclarationText`), and the structured
    payload (`generateJSON`).

    Both read the lookup tables through a `Catalog`; the site renders with
    `SiteCatalog`, the tables of `Constants` plus the license table, which
    is an input here. */
module Render {
  import opened Wrappers
  import opened SeqOps
  import opened JsStrings
  import opened Types
  import opened Constants

  /** The lookup tables the renderers consult. */
  datatype Catalog = Catalog(
    usageTypes: seq<UsageOption>,
    reviewLevels: seq<ReviewLevelOption>,
    checklist: seq<ChecklistItem>,
    licenses: seq<LicenseOption>)

  function SiteCatalog(licenses: seq<LicenseOption>): (c: Catalog)
    ensures c.usageTypes == USAGE_TYPES && c.reviewLevels == HUMAN_REVIEW_LEVELS
    ensures c.checklist == HELP_CHECKLIST && c.licenses == licenses
  {
    Catalog(USAGE_TYPES, HUMAN_REVIEW_LEVELS, HELP_CHECKLIST, licenses)
  }

  // ---------------------------------------------------------------------------
  // Label resolution

  /** The usage-table row for a key, `usageTypes.find(u => u.value === key)`. */
  function FindUsageOption(table: seq<UsageOption>, key: string): Option<nat> {
    FindIndex(table, (u: UsageOption) => u.value == key)
  }

  /** A usage key as the text shows it: the custom text (or "Otro uso") for
      "other", the table label for a known key, the key itself otherwise. */
  function UsageLabel(table: seq<UsageOption>, d: DeclarationState, key: string): string {
    if key == "other" then Or(d.customUsageType, "Otro uso")
    else match FindUsageOption(table, key)
      case Some(k) => Or(table[k].labelText, key)
      case None => key
  }

  function UsageLabels(table: seq<UsageOption>, d: DeclarationState): seq<string> {
    seq(|d.usageTypes|, i requires 0 <= i < |d.usageTypes| => UsageLabel(table, d, d.usageTypes[i]))
  }

  /** Each site table value is found at its own row: the values are distinct. */
  lemma FindUsageAt(i: nat)
    requires i < |USAGE_TYPES|
    ensures FindUsageOption(USAGE_TYPES, USAGE_TYPES[i].value) == Some(i)
  {
    UsageTypesCoverKeys();
    FindDistinctAt(USAGE_TYPES, i);
  }

  /** In a table of distinct values, each value is found at its own row. */
  lemma FindDistinctAt(table: seq<UsageOption>, i: nat)
    requires i < |table|
    requires forall j, k :: 0 <= j < k < |table| ==> table[j].value != table[k].value
    ensures FindUsageOption(table, table[i].value) == Some(i)
  {
  }

  /** Label resolution on the site table, case by case. */
  lemma UsageLabelResolution(d: DeclarationState, key: string)
    ensures key == "other" && d.customUsageType != "" ==> UsageLabel(USAGE_TYPES, d, key) == d.customUsageType
    ensures key == "other" && d.customUsageType == "" ==> UsageLabel(USAGE_TYPES, d, key) == "Otro uso"
    ensures forall i :: 0 <= i < |USAGE_TYPES| && USAGE_TYPES[i].value == key && key != "other" ==>
      UsageLabel(USAGE_TYPES, d, key) == USAGE_TYPES[i].labelText
    ensures (forall i :: 0 <= i < |USAGE_TYPES| ==> USAGE_TYPES[i].value != key) ==> UsageLabel(USAGE_TYPES, d, key) == key
  {
    UsageTypesCoverKeys();
    UsageLabelsNonEmpty();
    UsageLabelIn(USAGE_TYPES, d, key);
  }

  /** The same resolution in any table of distinct values and non-empty labels. */
  lemma UsageLabelIn(table: seq<UsageOption>, d: DeclarationState, key: string)
    requires forall j, k :: 0 <= j < k < |table| ==> table[j].value != table[k].value
    requires forall i :: 0 <= i < |table| ==> table[i].labelText != ""
    ensures forall i :: 0 <= i < |table| && table[i].value == key && key != "other" ==>
      UsageLabel(table, d, key) == table[i].labelText
    ensures key != "other" && (forall i :: 0 <= i < |table| ==> table[i].value != key) ==> UsageLabel(table, d, key) == key
  {
    forall i | 0 <= i < |table| && table[i].value == key && key != "other"
      ensures UsageLabel(table, d, key) == table[i].labelText
    {
      FindDistinctAt(table, i);
    }
  }

  /** An integration mode as the text shows it; "Otro" takes the custom text. */
  function ContentModeLabel(custom: string, mode: string): string {
    if mode == "Otro" then Or(custom, "Otro") else mode
  }

  /** The integration modes as the text lists them, joined by ", ". */
  function ContentModesText(modes: seq<string>, custom: string): string {
    Join(seq(|modes|, i requires 0 <= i < |modes| => ContentModeLabel(custom, modes[i])), ", ")
  }

  /** `reviewLevels.find(r => r.level === level)`. */
  function FindReviewLevel(levels: seq<ReviewLevelOption>, level: int): Option<ReviewLevelOption> {
    match FindIndex(levels, (r: ReviewLevelOption) => r.level == level)
    case Some(k) => Some(levels[k])
    case None => None
  }

  /** Every level of the closed range is found in the site table, at its own index. */
  lemma FindReviewLevelIndexed(level: HumanReviewLevel)
    ensures FindReviewLevel(HUMAN_REVIEW_LEVELS, level) == Some(HUMAN_REVIEW_LEVELS[level])
  {
    ReviewLevelsIndexed();
  }

  /** `row?.label.split(':')[1]?.trim() || 'Desconocido'`. */
  function ReviewLevelName(row: Option<ReviewLevelOption>): string {
    match row
    case None => "Desconocido"
    case Some(o) =>
      match SecondField(o.labelText, ':')
      case None => "Desconocido"
      case Some(part) => Or(Trim(part), "Desconocido")
  }

  /** `${row?.description}`: "undefined" when no row matched. */
  function ReviewLevelDescription(row: Option<ReviewLevelOption>): string {
    match row
    case None => "undefined"
    case Some(o) => o.description
  }

  /** On the site table a level's name is the part of its label after "Nivel N: ". */
  lemma ReviewLevelNameIsTableName(level: HumanReviewLevel)
    ensures ReviewLevelName(FindReviewLevel(HUMAN_REVIEW_LEVELS, level)) == Trim(REVIEW_LEVEL_NAMES[level])
    ensures ReviewLevelDescription(FindReviewLevel(HUMAN_REVIEW_LEVELS, level)) == HUMAN_REVIEW_LEVELS[level].description
  {
    FindReviewLevelIndexed(level);
    ReviewLabelsHaveName(level);
  }

  /** The license is set, not empty and not the 'None' sentinel. */
  predicate LicenseShown(license: Option<string>) {
    license.Some? && license.value != "" && license.value != "None"
  }

  /** `licenses.find(l => l.value === license)?.label || license`. */
  function LicenseLabel(licenses: seq<LicenseOption>, license: string): string {
    match FindIndex(licenses, (l: LicenseOption) => l.value == license)
    case Some(k) => Or(licenses[k].labelText, license)
    case None => license
  }

  /** `String(n).padStart(2, '0')`. */
  function TwoDigits(n: int): string {
    PadStart(IntToString(n), 2, '0')
  }

  /** The consultation date as the text shows it, `MM/YYYY`. */
  function DateText(date: ConsultDate): string {
    TwoDigits(date.month) + "/" + IntToString(date.year)
  }

  /** The consultation date as the payload shows it, `YYYY-MM`. */
  function JsonDate(date: ConsultDate): string {
    IntToString(date.year) + "-" + TwoDigits(date.month)
  }

  /** A month of the calendar is written with exactly two decimal digits. */
  lemma TwoDigitMonth(month: int)
    requires 1 <= month <= 12
    ensures |TwoDigits(month)| == 2
    ensures forall i :: 0 <= i < 2 ==> IsDigit(TwoDigits(month)[i])
    ensures DecimalValue(TwoDigits(month)) == month
  {
    var s := NatToString(month);
    if month < 10 {
      assert s == [DigitChar(month)];
      assert TwoDigits(month) == ['0', DigitChar(month)];
      assert TwoDigits(month)[..1] == ['0'];
    } else {
      assert s == NatToString(month / 10) + [DigitChar(month % 10)];
      assert month / 10 == 1;
    }
  }

  /** Both renderings of a date carry the same two-digit month and the same year. */
  lemma DatesAgree(date: ConsultDate)
    requires 1 <= date.month <= 12 && date.year >= 0
    ensures DateText(date) == TwoDigits(date.month) + "/" + NatToString(date.year)
    ensures JsonDate(date) == NatToString(date.year) + "-" + TwoDigits(date.month)
    ensures DecimalValue(DateText(date)[..2]) == date.month
    ensures DateText(date)[3..] == NatToString(date.year)
  {
    TwoDigitMonth(date.month);
    assert DateText(date)[..2] == TwoDigits(date.month);
  }

  // ---------------------------------------------------------------------------
  // Diagnostic traceability

  const ManualSelectionMarker: string := "   (Selección manual directa)"

  /** The line an id contributes: `   [x] question` for the checklist item it
      names, nothing for an id that names no item. */
  function DiagnosticLine(checklist: seq<ChecklistItem>, id: string): seq<string> {
    match FindIndex(checklist, (i: ChecklistItem) => i.id == id)
    case Some(k) => ["   [x] " + checklist[k].q]
    case None => []
  }

  /** The lines for the stored ids, in the stored order. */
  function DiagnosticLines(checklist: seq<ChecklistItem>, ids: seq<string>): seq<string> {
    if |ids| == 0 then [] else DiagnosticLine(checklist, ids[0]) + DiagnosticLines(checklist, ids[1..])
  }

  function DiagnosticAnswers(checklist: seq<ChecklistItem>, ids: seq<string>): string {
    if |ids| > 0 then Join(DiagnosticLines(checklist, ids), "\n") else ManualSelectionMarker
  }

  /** On the site checklist, an id that names an item yields that item's
      question; any other id yields nothing. */
  lemma DiagnosticLineOfOne(id: string)
    ensures forall k :: 0 <= k < |HELP_CHECKLIST| && HELP_CHECKLIST[k].id == id ==>
      DiagnosticLines(HELP_CHECKLIST, [id]) == ["   [x] " + HELP_CHECKLIST[k].q]
    ensures (forall k :: 0 <= k < |HELP_CHECKLIST| ==> HELP_CHECKLIST[k].id != id) ==> DiagnosticLines(HELP_CHECKLIST, [id]) == []
  {
    assert [id][1..] == [];
    assert DiagnosticLines(HELP_CHECKLIST, [id]) == DiagnosticLine(HELP_CHECKLIST, id) + [];
    ChecklistIdsDistinct();
    forall k | 0 <= k < |HELP_CHECKLIST| && HELP_CHECKLIST[k].id == id
      ensures DiagnosticLine(HELP_CHECKLIST, id) == ["   [x] " + HELP_CHECKLIST[k].q]
    {
      DiagnosticLineAt(HELP_CHECKLIST, k);
    }
  }

  /** In a checklist of distinct ids, an item's id yields that item's question. */
  lemma DiagnosticLineAt(checklist: seq<ChecklistItem>, k: nat)
    requires k < |checklist|
    requires forall i, j :: 0 <= i < j < |checklist| ==> checklist[i].id != checklist[j].id
    ensures DiagnosticLine(checklist, checklist[k].id) == ["   [x] " + checklist[k].q]
  {
  }

  /** The lines follow the ids piece by piece, so their order is the stored order. */
  lemma {:induction false} DiagnosticLinesAppend(checklist: seq<ChecklistItem>, a: seq<string>, b: seq<string>)
    ensures DiagnosticLines(checklist, a + b) == DiagnosticLines(checklist, a) + DiagnosticLines(checklist, b)
  {
    if |a| == 0 {
      assert a + b == b;
    } else {
      assert (a + b)[0] == a[0] && (a + b)[1..] == a[1..] + b;
      DiagnosticLinesAppend(checklist, a[1..], b);
      var x, y, z := DiagnosticLine(checklist, a[0]), DiagnosticLines(checklist, a[1..]), DiagnosticLines(checklist, b);
      assert DiagnosticLines(checklist, a + b) == x + (y + z);
      assert x + (y + z) == (x + y) + z;
    }
  }

  /** Every traceability line is a ticked question. */
  lemma {:induction false} DiagnosticLinesTicked(checklist: seq<ChecklistItem>, ids: seq<string>)
    ensures forall k :: 0 <= k < |DiagnosticLines(checklist, ids)| ==> "   [x] " <= DiagnosticLines(checklist, ids)[k]
  {
    if |ids| > 0 {
      DiagnosticLinesTicked(checklist, ids[1..]);
    }
  }

  /** The manual-selection marker appears exactly when no checklist id is stored:
      a non-empty selection yields ticked lines, or nothing if no id is known. */
  lemma ManualMarkerIffNoIds(checklist: seq<ChecklistItem>, ids: seq<string>)
    ensures DiagnosticAnswers(checklist, ids) == ManualSelectionMarker <==> ids == []
  {
    if ids != [] {
      var lines := DiagnosticLines(checklist, ids);
      if |lines| > 0 {
        DiagnosticLinesTicked(checklist, ids);
        JoinStartsWithFirst(lines, "\n");
        var text := Join(lines, "\n");
        assert text[3] == lines[0][3] == '[';
        assert ManualSelectionMarker[3] == '(';
      }
    }
  }

  // ---------------------------------------------------------------------------
  // Prompts

  /** `p.description.trim()` is truthy. */
  predicate IsListedPrompt(p: Prompt) {
    Trim(p.description) != ""
  }

  /** `prompts.filter(p => p.description.trim())`. */
  function ValidPrompts(prompts: seq<Prompt>): seq<Prompt> {
    if |prompts| == 0 then []
    else (if IsListedPrompt(prompts[0]) then [prompts[0]] else []) + ValidPrompts(prompts[1..])
  }

  /** The filter works piece by piece, so it keeps the original order. */
  lemma {:induction false} ValidPromptsAppend(a: seq<Prompt>, b: seq<Prompt>)
    ensures ValidPrompts(a + b) == ValidPrompts(a) + ValidPrompts(b)
  {
    if |a| == 0 {
      assert a + b == b;
    } else {
      assert (a + b)[1..] == a[1..] + b;
      ValidPromptsAppend(a[1..], b);
    }
  }

  /** A single prompt is kept exactly when its description is not all white space. */
  lemma ValidPromptOfOne(p: Prompt)
    ensures ValidPrompts([p]) == if IsBlank(p.description) then [] else [p]
  {
    TrimEmptyIffBlank(p.description);
  }

  /** Every kept prompt has a non-blank description and comes from the input. */
  lemma {:induction false} ValidPromptsListed(prompts: seq<Prompt>)
    ensures forall k :: 0 <= k < |ValidPrompts(prompts)| ==>
      !IsBlank(ValidPrompts(prompts)[k].description) && ValidPrompts(prompts)[k] in prompts
  {
    if |prompts| > 0 {
      ValidPromptsListed(prompts[1..]);
      TrimEmptyIffBlank(prompts[0].description);
      var rest := ValidPrompts(prompts[1..]);
      assert forall k :: 0 <= k < |rest| ==> rest[k] in prompts by {
        forall k | 0 <= k < |rest| ensures rest[k] in prompts {
          var j :| 0 <= j < |prompts[1..]| && prompts[1..][j] == rest[k];
          assert prompts[j + 1] == rest[k];
        }
      }
    }
  }

  /** No prompt is kept exactly when every description is blank. */
  lemma {:induction false} ValidPromptsEmptyIffAllBlank(prompts: seq<Prompt>)
    ensures ValidPrompts(prompts) == [] <==> forall i :: 0 <= i < |prompts| ==> IsBlank(prompts[i].description)
  {
    if |prompts| > 0 {
      ValidPromptsEmptyIffAllBlank(prompts[1..]);
      TrimEmptyIffBlank(prompts[0].description);
      assert forall i :: 1 <= i < |prompts| ==> prompts[i] == prompts[1..][i - 1];
    }
  }

  /** A numbered prompt line: `   n. "description"`. */
  function PromptLine(n: nat, description: string): string {
    "   " + IntToString(n) + ". \"" + description + "\"\n"
  }

  /** The lines of the first `n` kept prompts, numbered from 1. */
  function PromptLines(listed: seq<Prompt>, n: nat): string
    requires n <= |listed|
  {
    if n == 0 then "" else PromptLines(listed, n - 1) + PromptLine(n, listed[n - 1].description)
  }

  /** The lines come in list order: the first `k` lines begin the first `n`,
      and they are followed by the line of the next prompt, numbered `k + 1`. */
  lemma PromptLinesInOrder(listed: seq<Prompt>, k: nat, n: nat)
    requires k < n <= |listed|
    ensures PromptLines(listed, k) + PromptLine(k + 1, listed[k].description) <= PromptLines(listed, n)
  {
    PromptLinesMonotone(listed, k + 1, n);
    assert PromptLines(listed, k + 1) == PromptLines(listed, k) + PromptLine(k + 1, listed[k].description);
  }

  /** The first `m` lines begin the first `n` lines whenever `m <= n`. */
  lemma PromptLinesMonotone(listed: seq<Prompt>, m: nat, n: nat)
    requires m <= n <= |listed|
    ensures PromptLines(listed, m) <= PromptLines(listed, n)
  {
    var chain := seq(n + 1, i requires 0 <= i <= n => PromptLines(listed, i));
    forall i | 0 < i < |chain|
      ensures chain[i - 1] <= chain[i]
    {
      PromptLinesGrow(listed, chain[i - 1], i);
    }
    PrefixChain(chain, m, n);
  }

  lemma PromptLinesGrow(listed: seq<Prompt>, front: string, n: nat)
    requires 0 < n <= |listed| && front <= PromptLines(listed, n - 1)
    ensures front <= PromptLines(listed, n)
  {
    var before, last := PromptLines(listed, n - 1), PromptLine(n, listed[n - 1].description);
    assert PromptLines(listed, n) == before + last;
    PrefixExtends(front, before, last, PromptLines(listed, n));
  }

  /** In a chain of strings each beginning the next, each begins every later one. */
  lemma {:induction false} PrefixChain(chain: seq<string>, m: nat, n: nat)
    requires m <= n < |chain|
    requires forall i :: 0 < i < |chain| ==> chain[i - 1] <= chain[i]
    ensures chain[m] <= chain[n]
  {
    if n > m {
      PrefixChain(chain, m, n - 1);
      var a, b, c := chain[m], chain[n - 1], chain[n];
      assert a <= b && b <= c;
      assert c[..|a|] == b[..|a|];
    }
  }

  lemma PrefixExtends(a: string, b: string, c: string, whole: string)
    requires a <= b && whole == b + c
    ensures a <= whole
  {
    assert whole[..|a|] == b[..|a|];
  }

  // ---------------------------------------------------------------------------
  // The sections of the text, in their fixed order

  const Title: string := "DECLARACIÓN DE TRANSPARENCIA ACADÉMICA: USO DE IA GENERATIVA\n"
  const HeaderRule: string := Repeat('═', 65)

  function HeaderText(): string {
    Title + (HeaderRule + "\n\n")
  }

  const TraceabilityHeading: string := "0. DIAGNÓSTICO DE ORIGEN (TRAZABILIDAD)\n"

  function TraceabilityText(c: Catalog, d: DeclarationState): string {
    TraceabilityHeading + (DiagnosticAnswers(c.checklist, d.selectedChecklistIds) + "\n\n")
  }

  const ClassificationHeading: string := "1. CLASIFICACIÓN DEL USO\n"

  /** The usage labels joined by "; ", upper-cased. */
  function ClassificationText(c: Catalog, d: DeclarationState): string {
    ClassificationHeading + ("   " + ToUpperAscii(Join(UsageLabels(c.usageTypes, d), "; ")) + "\n\n")
  }

  const ToolHeading: string := "2. HERRAMIENTA UTILIZADA\n"

  function ToolText(d: DeclarationState): string {
    ToolHeading
    + ("   • Nombre: " + Or(d.aiTool.name, "No especificado") + "\n")
    + ("   • Versión/Modelo: " + Or(d.aiTool.version, "—") + "\n")
    + ("   • Proveedor: " + Or(d.aiTool.provider, "—") + "\n")
    + ("   • Fecha de consulta: " + DateText(d.aiTool.date) + "\n\n")
  }

  const PurposeHeading: string := "3. PROPÓSITO ESPECÍFICO\n"

  function PurposeText(d: DeclarationState): string {
    PurposeHeading + ("   " + Or(d.specificPurpose, "No descrito") + "\n\n")
  }

  const PromptsHeading: string := "4. PROMPTS (Instrucciones) PRINCIPALES\n"

  /** Omitted when no prompt has a non-blank description. */
  function PromptsText(d: DeclarationState): string {
    var listed := ValidPrompts(d.prompts);
    if |listed| > 0 then PromptsHeading + PromptLines(listed, |listed|) + "\n" else ""
  }

  const IntegrationHeading: string := "5. INTEGRACIÓN EN EL PRODUCTO FINAL\n"

  function ContextLine(d: DeclarationState): string {
    if d.contentUseContext != "" then "   • Contexto adicional: " + d.contentUseContext + "\n" else ""
  }

  /** Omitted when no integration mode is selected. */
  function IntegrationText(d: DeclarationState): string {
    if |d.contentUseModes| > 0 then
      IntegrationHeading + ("   • Modo de uso: " + ContentModesText(d.contentUseModes, d.customContentUseMode) + "\n") + ContextLine(d) + "\n"
    else ""
  }

  /** Truthiness of an optional string. */
  predicate IsSetAndNonEmpty(s: Option<string>) {
    s.Some? && s.value != ""
  }

  /** The reviewer's name and role, each when filled in, and only above level 0. */
  function ReviewerLines(r: HumanReview): string {
    if r.level > 0 then
      (if IsSetAndNonEmpty(r.reviewerName) then "   • Revisado por: " + r.reviewerName.value + "\n" else "")
      + (if r.reviewerRole != "" then "   • Rol/Cargo: " + r.reviewerRole + "\n" else "")
    else ""
  }

  const ReviewHeading: string := "6. NIVEL DE REVISIÓN HUMANA Y ÉTICA\n"

  function ReviewLevelLine(level: int, row: Option<ReviewLevelOption>): string {
    "   • Nivel " + IntToString(level) + ": " + ReviewLevelName(row) + "\n"
  }

  function ReviewDescriptionLine(row: Option<ReviewLevelOption>): string {
    "   • Descripción: " + ReviewLevelDescription(row) + "\n"
  }

  function ReviewText(c: Catalog, d: DeclarationState): string {
    var row := FindReviewLevel(c.reviewLevels, d.humanReview.level);
    ReviewHeading + ReviewLevelLine(d.humanReview.level, row) + ReviewDescriptionLine(row) + ReviewerLines(d.humanReview)
  }

  const LicenseHeading: string := "\n7. LICENCIA DEL PRODUCTO FINAL\n"

  /** Present only for a license that is set and not 'None'. */
  function LicenseText(c: Catalog, d: DeclarationState): string {
    if LicenseShown(d.license) then LicenseHeading + ("   • " + LicenseLabel(c.licenses, d.license.value) + "\n")
    else ""
  }

  /** Everything but the trailer, in the fixed section order. */
  function RawText(c: Catalog, d: DeclarationState): string {
    HeaderText() + TraceabilityText(c, d) + ClassificationText(c, d) + ToolText(d) + PurposeText(d)
    + PromptsText(d) + IntegrationText(d) + ReviewText(c, d) + LicenseText(c, d)
  }

  const TrailerRule: string := Repeat('-', 65)

  /** The id and hash trailer, present only for a non-empty hash. */
  function TrailerText(d: DeclarationState, hash: string): string {
    if hash != "" then
      ("\n" + TrailerRule + "\n") + ("ID REGISTRO: " + d.declarationId + "\n") + ("HASH VALIDACIÓN: " + hash + "\n")
    else ""
  }

  /** `generateDeclarationText(d, hash)`; `hash` "" stands for an absent hash. */
  function DeclarationText(c: Catalog, d: DeclarationState, hash: string): string {
    RawText(c, d) + TrailerText(d, hash)
  }

  // ---------------------------------------------------------------------------
  // Properties of the text

  /** Without a hash the text is the bare declaration; with one, the bare
      declaration is followed by a trailer that ends with the hash line. */
  lemma TrailerOnlyWithHash(c: Catalog, d: DeclarationState, hash: string)
    ensures hash == "" ==> DeclarationText(c, d, hash) == RawText(c, d)
    ensures hash != "" ==> RawText(c, d) < DeclarationText(c, d, hash)
    ensures hash != "" ==> EndsWith(DeclarationText(c, d, hash), "HASH VALIDACIÓN: " + hash + "\n")
  {
    TrailerAfter(RawText(c, d), d, hash);
  }

  /** The trailer, appended to any text. */
  lemma TrailerAfter(raw: string, d: DeclarationState, hash: string)
    ensures hash == "" ==> raw + TrailerText(d, hash) == raw
    ensures hash != "" ==> raw < raw + TrailerText(d, hash)
    ensures hash != "" ==> EndsWith(raw + TrailerText(d, hash), "HASH VALIDACIÓN: " + hash + "\n")
  {
    if hash != "" {
      var t := raw + TrailerText(d, hash);
      var front := raw + ("\n" + TrailerRule + "\n") + ("ID REGISTRO: " + d.declarationId + "\n");
      var last := "HASH VALIDACIÓN: " + hash + "\n";
      assert t == front + last;
      assert t[|front|..] == last;
      assert t[..|raw|] == raw;
    }
  }

  /** The sections side by side. */
  lemma {:induction false} Regroup(a: string, b: string, c: string, d: string, e: string, f: string, g: string, h: string, i: string)
    ensures a + b + c + d + e + f + g + h + i == (a + b + c + d) + e + (f + g + h + i)
  {
  }

  /** The text around the purpose: everything before the purpose section,
      and everything after it. */
  function BeforePurpose(c: Catalog, d: DeclarationState): string {
    HeaderText() + TraceabilityText(c, d) + ClassificationText(c, d) + ToolText(d)
  }

  function AfterPurpose(c: Catalog, d: DeclarationState): string {
    PromptsText(d) + IntegrationText(d) + ReviewText(c, d) + LicenseText(c, d)
  }

  lemma RawTextAroundPurpose(c: Catalog, d: DeclarationState)
    ensures RawText(c, d) == BeforePurpose(c, d) + PurposeText(d) + AfterPurpose(c, d)
  {
    Regroup(HeaderText(), TraceabilityText(c, d), ClassificationText(c, d), ToolText(d), PurposeText(d),
      PromptsText(d), IntegrationText(d), ReviewText(c, d), LicenseText(c, d));
  }

  /** The sections other than the purpose do not read the purpose or the id. */
  lemma OtherSectionsAgree(c: Catalog, d: DeclarationState, e: DeclarationState)
    requires e == d.(specificPurpose := e.specificPurpose, declarationId := e.declarationId)
    ensures BeforePurpose(c, e) == BeforePurpose(c, d)
    ensures AfterPurpose(c, e) == AfterPurpose(c, d)
  {
    assert UsageLabels(c.usageTypes, e) == UsageLabels(c.usageTypes, d);
    assert TraceabilityText(c, e) == TraceabilityText(c, d);
    assert ClassificationText(c, e) == ClassificationText(c, d);
    assert ToolText(e) == ToolText(d);
    assert PromptsText(e) == PromptsText(d);
    assert IntegrationText(e) == IntegrationText(d);
    assert ReviewText(c, e) == ReviewText(c, d);
    assert LicenseText(c, e) == LicenseText(c, d);
  }

  /** The bare declaration does not mention the record id. */
  lemma RawTextIgnoresId(c: Catalog, d: DeclarationState, id: string)
    ensures RawText(c, d.(declarationId := id)) == RawText(c, d)
  {
    var e := d.(declarationId := id);
    RawTextAroundPurpose(c, d);
    RawTextAroundPurpose(c, e);
    OtherSectionsAgree(c, d, e);
  }

  /** Strings that differ in the middle differ, whatever surrounds them. */
  lemma MiddleDiffers(a: string, x: string, y: string, b: string)
    requires x != y
    ensures a + x + b != a + y + b
  {
    if |x| != |y| {
      assert |a + x + b| != |a + y + b|;
    } else {
      var k :| 0 <= k < |x| && x[k] != y[k];
      assert (a + x + b)[|a| + k] == x[k];
      assert (a + y + b)[|a| + k] == y[k];
    }
  }

  /** Different non-empty purposes give different purpose sections. */
  lemma PurposeSectionsDiffer(d: DeclarationState, e: DeclarationState)
    requires d.specificPurpose != "" && e.specificPurpose != "" && d.specificPurpose != e.specificPurpose
    ensures PurposeText(d) != PurposeText(e)
  {
    assert PurposeText(d) == PurposeHeading + "   " + d.specificPurpose + "\n\n";
    assert PurposeText(e) == PurposeHeading + "   " + e.specificPurpose + "\n\n";
    MiddleDiffers(PurposeHeading + "   ", d.specificPurpose, e.specificPurpose, "\n\n");
  }

  /** Two different purposes, neither empty, always give different texts, so
      the fingerprint of the text covers the purpose. */
  lemma PurposeChangesText(c: Catalog, d: DeclarationState, purpose: string)
    requires d.specificPurpose != "" && purpose != "" && purpose != d.specificPurpose
    ensures RawText(c, d.(specificPurpose := purpose)) != RawText(c, d)
  {
    var e := d.(specificPurpose := purpose);
    RawTextAroundPurpose(c, d);
    RawTextAroundPurpose(c, e);
    OtherSectionsAgree(c, d, e);
    PurposeSectionsDiffer(e, d);
    MiddleDiffers(BeforePurpose(c, d), PurposeText(e), PurposeText(d), AfterPurpose(c, d));
  }

  /** The limit of `PurposeChangesText`: an empty purpose reads as the
      placeholder, so it cannot be told from a purpose that is literally
      "No descrito". */
  lemma EmptyPurposeReadsAsPlaceholder(c: Catalog, d: DeclarationState)
    requires d.specificPurpose == ""
    ensures RawText(c, d.(specificPurpose := "No descrito")) == RawText(c, d)
  {
    var e := d.(specificPurpose := "No descrito");
    RawTextAroundPurpose(c, d);
    RawTextAroundPurpose(c, e);
    OtherSectionsAgree(c, d, e);
  }

  /** Blank prompt slots are skipped and the kept ones are numbered from 1:
      of an empty slot, a slot of spaces and "X", only "X" is listed, as 1. */
  lemma PromptsSkipBlankSlots(d: DeclarationState)
    requires d.prompts == [Prompt("1", ""), Prompt("2", "  "), Prompt("3", "X")]
    ensures PromptsText(d) == PromptsHeading + "   1. \"X\"\n" + "\n"
  {
    assert "X"[0] == 'X' && !IsJsWhitespace('X');
    assert IsBlank("") && IsBlank("  ") && !IsBlank("X");
    BlankSlotsDropped(d.prompts[0], d.prompts[1], d.prompts[2]);
    assert d.prompts == [d.prompts[0], d.prompts[1], d.prompts[2]];
    var listed := ValidPrompts(d.prompts);
    assert PromptLines(listed, 1) == PromptLines(listed, 0) + PromptLine(1, listed[0].description);
    FirstPromptLine("X");
  }

  /** Of two blank slots and a filled one, only the filled one is kept. */
  lemma BlankSlotsDropped(p: Prompt, q: Prompt, r: Prompt)
    requires IsBlank(p.description) && IsBlank(q.description) && !IsBlank(r.description)
    ensures ValidPrompts([p, q, r]) == [r]
  {
    ValidPromptOfOne(p);
    ValidPromptOfOne(q);
    ValidPromptOfOne(r);
    ValidPromptsAppend([p], [q, r]);
    ValidPromptsAppend([q], [r]);
    assert [p] + [q, r] == [p, q, r];
    assert [q] + [r] == [q, r];
  }

  /** The first prompt line is numbered "1". */
  lemma FirstPromptLine(description: string)
    ensures PromptLine(1, description) == "   1. \"" + description + "\"\n"
  {
    assert IntToString(1) == "1";
  }

  /** On the site table the review section names the level by the part of
      its label after the colon, and gives the level's description. */
  lemma ReviewSectionNamesLevel(c: Catalog, d: DeclarationState)
    requires c.reviewLevels == HUMAN_REVIEW_LEVELS
    ensures var level := d.humanReview.level;
      ReviewText(c, d) == ReviewHeading
        + ("   • Nivel " + [DigitChar(level)] + ": " + Trim(REVIEW_LEVEL_NAMES[level]) + "\n")
        + ("   • Descripción: " + HUMAN_REVIEW_LEVELS[level].description + "\n")
        + ReviewerLines(d.humanReview)
  {
    ReviewLevelNameIsTableName(d.humanReview.level);
  }

  // ---------------------------------------------------------------------------
  // `generateDeclarationText` as the program builds it: one `+=` per piece,
  // grouped here by section

  method AppendTraceability(c: Catalog, d: DeclarationState, text: string) returns (text': string)
    ensures text' == text + TraceabilityText(c, d)
  {
    var diagnosticAnswers := DiagnosticAnswers(c.checklist, d.selectedChecklistIds);
    text' := text + TraceabilityHeading;
    text' := text' + (diagnosticAnswers + "\n\n");
  }

  method AppendClassification(c: Catalog, d: DeclarationState, text: string) returns (text': string)
    ensures text' == text + ClassificationText(c, d)
  {
    var usageLabels := ToUpperAscii(Join(UsageLabels(c.usageTypes, d), "; "));
    var labelsLine := "   " + usageLabels + "\n\n";
    text' := text + ClassificationHeading;
    text' := text' + labelsLine;
    AppendTwo(text, ClassificationHeading, labelsLine);
  }

  method AppendTool(d: DeclarationState, text: string) returns (text': string)
    ensures text' == text + ToolText(d)
  {
    var dateStr := DateText(d.aiTool.date);
    var nameLine := "   • Nombre: " + Or(d.aiTool.name, "No especificado") + "\n";
    var versionLine := "   • Versión/Modelo: " + Or(d.aiTool.version, "—") + "\n";
    var providerLine := "   • Proveedor: " + Or(d.aiTool.provider, "—") + "\n";
    var dateLine := "   • Fecha de consulta: " + dateStr + "\n\n";
    text' := text + ToolHeading;
    text' := text' + nameLine;
    text' := text' + versionLine;
    text' := text' + providerLine;
    text' := text' + dateLine;
    AppendFive(text, ToolHeading, nameLine, versionLine, providerLine, dateLine);
  }

  // The three lemmas below only regroup a concatenation. Each append method
  // builds its section piece by piece, while the section function writes it
  // as one parenthesised string; with literal pieces in scope the verifier
  // does not find that regrouping cheaply by itself.

  /** Appending two pieces one by one appends their concatenation. */
  lemma AppendTwo(t: string, a: string, b: string)
    ensures t + a + b == t + (a + b)
  {
  }

  /** Appending three pieces one by one appends their concatenation. */
  lemma AppendThree(t: string, a: string, b: string, c: string)
    ensures t + a + b + c == t + (a + b + c)
  {
  }

  /** Appending five pieces one by one appends their concatenation. */
  lemma AppendFive(t: string, a: string, b: string, c: string, d: string, e: string)
    ensures t + a + b + c + d + e == t + (a + b + c + d + e)
  {
  }

  method AppendPurpose(d: DeclarationState, text: string) returns (text': string)
    ensures text' == text + PurposeText(d)
  {
    text' := text + PurposeHeading;
    text' := text' + ("   " + Or(d.specificPurpose, "No descrito") + "\n\n");
  }

  /** The heading, one numbered line per kept prompt, and a blank line;
      nothing when no prompt is kept. */
  method AppendPrompts(d: DeclarationState, text: string) returns (text': string)
    ensures text' == text + PromptsText(d)
  {
    text' := text;
    var validPrompts := ValidPrompts(d.prompts);
    if |validPrompts| > 0 {
      text' := text' + PromptsHeading;
      ghost var beforeLines := text';
      var i := 0;
      while i < |validPrompts|
        invariant 0 <= i <= |validPrompts|
        invariant text' == beforeLines + PromptLines(validPrompts, i)
      {
        text' := text' + PromptLine(i + 1, validPrompts[i].description);
        i := i + 1;
      }
      text' := text' + "\n";
      AppendThree(text, PromptsHeading, PromptLines(validPrompts, |validPrompts|), "\n");
    }
  }

  method AppendIntegration(d: DeclarationState, text: string) returns (text': string)
    ensures text' == text + IntegrationText(d)
  {
    var contentModes := ContentModesText(d.contentUseModes, d.customContentUseMode);
    text' := text;
    if |d.contentUseModes| > 0 {
      text' := text' + IntegrationHeading;
      text' := text' + ("   • Modo de uso: " + contentModes + "\n");
      if d.contentUseContext != "" {
        text' := text' + ("   • Contexto adicional: " + d.contentUseContext + "\n");
      }
      text' := text' + "\n";
    }
  }

  method AppendReview(c: Catalog, d: DeclarationState, text: string) returns (text': string)
    ensures text' == text + ReviewText(c, d)
  {
    var reviewLevel := FindReviewLevel(c.reviewLevels, d.humanReview.level);
    var levelName := ReviewLevelName(reviewLevel);
    var description := ReviewLevelDescription(reviewLevel);
    text' := text + ReviewHeading;
    text' := text' + ("   • Nivel " + IntToString(d.humanReview.level) + ": " + levelName + "\n");
    text' := text' + ("   • Descripción: " + description + "\n");
    text' := AppendReviewer(d.humanReview, text');
  }

  method AppendReviewer(r: HumanReview, text: string) returns (text': string)
    ensures text' == text + ReviewerLines(r)
  {
    text' := text;
    if r.level > 0 {
      if IsSetAndNonEmpty(r.reviewerName) {
        text' := text' + ("   • Revisado por: " + r.reviewerName.value + "\n");
      }
      if r.reviewerRole != "" {
        text' := text' + ("   • Rol/Cargo: " + r.reviewerRole + "\n");
      }
    }
  }

  method AppendLicense(c: Catalog, d: DeclarationState, text: string) returns (text': string)
    ensures text' == text + LicenseText(c, d)
  {
    text' := text;
    if LicenseShown(d.license) {
      var licenseLabel := LicenseLabel(c.licenses, d.license.value);
      text' := text' + LicenseHeading;
      text' := text' + ("   • " + licenseLabel + "\n");
    }
  }

  method AppendTrailer(d: DeclarationState, hash: string, text: string) returns (text': string)
    ensures text' == text + TrailerText(d, hash)
  {
    text' := text;
    if hash != "" {
      text' := text' + ("\n" + TrailerRule + "\n");
      text' := text' + ("ID REGISTRO: " + d.declarationId + "\n");
      text' := text' + ("HASH VALIDACIÓN: " + hash + "\n");
    }
  }

  /** `generateDeclarationText`: the title and rule, then each section in turn. */
  method GenerateDeclarationText(c: Catalog, d: DeclarationState, hash: string) returns (text: string)
    ensures text == DeclarationText(c, d, hash)
  {
    text := Title;
    text := text + (HeaderRule + "\n\n");
    text := AppendTraceability(c, d, text);
    text := AppendClassification(c, d, text);
    text := AppendTool(d, text);
    text := AppendPurpose(d, text);
    text := AppendPrompts(d, text);
    text := AppendIntegration(d, text);
    text := AppendReview(c, d, text);
    text := AppendLicense(c, d, text);
    text := AppendTrailer(d, hash, text);
  }
}
