/** Step 3, the details: each control hands `onChange` a copy of the
    declaration with one part replaced. */
module DetailsStep {
  import opened Wrappers
  import opened SeqOps
  import opened JsStrings
  import opened Types
  import opened Render
  import opened Payload

  // ---------------------------------------------------------------------------
  // The tool and its consultation date

  /** The text fields of the tool `updateTool` is called with. */
  datatype ToolField = Name | Version | Provider

  function ToolFieldOf(tool: AITool, field: ToolField): string {
    match field
    case Name => tool.name
    case Version => tool.version
    case Provider => tool.provider
  }

  /** `updateTool(field, value)`: one text field of the tool replaced. */
  function UpdateTool(d: DeclarationState, field: ToolField, value: string): (r: DeclarationState)
    ensures r == d.(aiTool := r.aiTool) && r.aiTool.date == d.aiTool.date
    ensures ToolFieldOf(r.aiTool, field) == value
    ensures forall f :: f != field ==> ToolFieldOf(r.aiTool, f) == ToolFieldOf(d.aiTool, f)
  {
    match field
    case Name => d.(aiTool := d.aiTool.(name := value))
    case Version => d.(aiTool := d.aiTool.(version := value))
    case Provider => d.(aiTool := d.aiTool.(provider := value))
  }

  datatype DateField = Month | Year

  /** `updateDate(field, value)`; `value` is the number `parseInt` reads
      from the chosen option. */
  function UpdateDate(d: DeclarationState, field: DateField, value: int): (r: DeclarationState)
    ensures r == d.(aiTool := d.aiTool.(date := r.aiTool.date))
    ensures field == Month ==> r.aiTool.date == ConsultDate(value, d.aiTool.date.year)
    ensures field == Year ==> r.aiTool.date == ConsultDate(d.aiTool.date.month, value)
  {
    match field
    case Month => d.(aiTool := d.aiTool.(date := d.aiTool.date.(month := value)))
    case Year => d.(aiTool := d.aiTool.(date := d.aiTool.date.(year := value)))
  }

  /** The month options, 1 to 12, and the year options. */
  const OfferedMonths: seq<int> := [1, 2, 3, 4, 5, 6, 7, 8, 9, 10, 11, 12]
  const OfferedYears: seq<int> := [2023, 2024, 2025, 2026]

  /** A month picked from the options is written with two digits that read
      back as the month, in both renderings. */
  lemma OfferedMonthRendersTwoDigits(d: DeclarationState, month: int)
    requires month in OfferedMonths
    ensures var r := UpdateDate(d, Month, month);
      DateText(r.aiTool.date) == TwoDigits(month) + "/" + IntToString(d.aiTool.date.year) &&
      JsonDate(r.aiTool.date) == IntToString(d.aiTool.date.year) + "-" + TwoDigits(month)
    ensures |TwoDigits(month)| == 2 && (forall i :: 0 <= i < 2 ==> IsDigit(TwoDigits(month)[i])) &&
      DecimalValue(TwoDigits(month)) == month
  {
    TwoDigitMonth(month);
  }

  /** A year picked from the options is written as four digits. */
  lemma OfferedYearRendersFourDigits(d: DeclarationState, year: int)
    requires year in OfferedYears
    ensures |IntToString(UpdateDate(d, Year, year).aiTool.date.year)| == 4
  {
    assert 1000 <= year < 10000;
    NumeralDropsDigit(year);
    NumeralDropsDigit(year / 10);
    NumeralDropsDigit(year / 100);
  }

  /** A numeral of ten or more is one digit longer than that of its tenth. */
  lemma NumeralDropsDigit(n: nat)
    requires n >= 10
    ensures |NatToString(n)| == |NatToString(n / 10)| + 1
  {
  }

  // ---------------------------------------------------------------------------
  // Prompts

  /** `addPrompt()`: a blank slot with a fresh id appended. */
  function AddPrompt(d: DeclarationState, id: string): (r: DeclarationState)
    ensures r == d.(prompts := r.prompts)
    ensures |r.prompts| == |d.prompts| + 1 && r.prompts[..|d.prompts|] == d.prompts
    ensures r.prompts[|d.prompts|] == Prompt(id, "")
  {
    d.(prompts := d.prompts + [Prompt(id, "")])
  }

  /** A new slot is blank, so neither rendering lists it. */
  lemma AddPromptListsNothingNew(d: DeclarationState, id: string)
    ensures ValidPrompts(AddPrompt(d, id).prompts) == ValidPrompts(d.prompts)
  {
    ValidPromptsAppend(d.prompts, [Prompt(id, "")]);
    ValidPromptOfOne(Prompt(id, ""));
  }

  /** `updatePrompt(id, desc)`: the description of every prompt with that id. */
  function UpdatePrompt(d: DeclarationState, id: string, desc: string): (r: DeclarationState)
    ensures r == d.(prompts := r.prompts) && |r.prompts| == |d.prompts|
    ensures forall i :: 0 <= i < |d.prompts| ==>
      r.prompts[i].id == d.prompts[i].id &&
      r.prompts[i].description == if d.prompts[i].id == id then desc else d.prompts[i].description
  {
    d.(prompts := seq(|d.prompts|, i requires 0 <= i < |d.prompts| =>
      if d.prompts[i].id == id then d.prompts[i].(description := desc) else d.prompts[i]))
  }

  /** `prompts.filter(p => p.id !== id)`. */
  function WithoutId(prompts: seq<Prompt>, id: string): (r: seq<Prompt>)
    ensures |r| <= |prompts|
    ensures forall p :: p in r <==> p in prompts && p.id != id
  {
    if |prompts| == 0 then []
    else
      assert prompts == [prompts[0]] + prompts[1..];
      (if prompts[0].id == id then [] else [prompts[0]]) + WithoutId(prompts[1..], id)
  }

  /** Removal works piecewise, so the other prompts keep their order. */
  lemma {:induction false} WithoutIdAppend(a: seq<Prompt>, b: seq<Prompt>, id: string)
    ensures WithoutId(a + b, id) == WithoutId(a, id) + WithoutId(b, id)
  {
    if |a| == 0 {
      assert a + b == b;
    } else {
      assert (a + b)[1..] == a[1..] + b;
      WithoutIdAppend(a[1..], b, id);
    }
  }

  /** No two prompts share an id. */
  predicate UniqueIds(prompts: seq<Prompt>) {
    forall i, j :: 0 <= i < j < |prompts| ==> prompts[i].id != prompts[j].id
  }

  /** Removing the prompt at `k` of a list with unique ids drops it alone. */
  lemma {:induction false} WithoutIdAt(prompts: seq<Prompt>, k: nat)
    requires UniqueIds(prompts) && k < |prompts|
    ensures WithoutId(prompts, prompts[k].id) == prompts[..k] + prompts[k + 1..]
  {
    var id := prompts[k].id;
    var front, back := prompts[..k], prompts[k + 1..];
    assert prompts == (front + [prompts[k]]) + back;
    forall i | 0 <= i < |front| ensures front[i].id != id {
      assert front[i] == prompts[i];
    }
    forall i | 0 <= i < |back| ensures back[i].id != id {
      assert back[i] == prompts[k + 1 + i];
    }
    WithoutIdAbsent(front, id);
    WithoutIdAbsent(back, id);
    WithoutIdAppend(front + [prompts[k]], back, id);
    WithoutIdAppend(front, [prompts[k]], id);
    WithoutIdOfOne(prompts[k]);
    assert WithoutId(front + [prompts[k]], id) == front + [];
    assert front + [] == front;
  }

  lemma WithoutIdOfOne(p: Prompt)
    ensures WithoutId([p], p.id) == []
  {
    assert [p][1..] == [];
  }

  /** Removal leaves a list without the id as it was. */
  lemma {:induction false} WithoutIdAbsent(prompts: seq<Prompt>, id: string)
    requires forall i :: 0 <= i < |prompts| ==> prompts[i].id != id
    ensures WithoutId(prompts, id) == prompts
  {
    if |prompts| > 0 {
      WithoutIdAbsent(prompts[1..], id);
    }
  }

  /** `removePrompt(id)`. */
  function RemovePrompt(d: DeclarationState, id: string): (r: DeclarationState)
    ensures r == d.(prompts := r.prompts)
    ensures forall p :: p in r.prompts <==> p in d.prompts && p.id != id
    ensures |r.prompts| <= |d.prompts|
  {
    d.(prompts := WithoutId(d.prompts, id))
  }

  /** The remove button is offered only with more than one prompt, on one of
      them: with unique ids exactly that prompt goes, so one at least remains. */
  lemma OfferedRemovalKeepsAPrompt(d: DeclarationState, k: nat)
    requires 1 < |d.prompts| && k < |d.prompts| && UniqueIds(d.prompts)
    ensures var r := RemovePrompt(d, d.prompts[k].id);
      r.prompts == d.prompts[..k] + d.prompts[k + 1..] && |r.prompts| == |d.prompts| - 1 >= 1
  {
    WithoutIdAt(d.prompts, k);
  }

  // ---------------------------------------------------------------------------
  // Purpose, integration and review

  /** The purpose box takes at most this many characters. */
  const PurposeMaxLength: nat := 600

  /** Typing or pasting into the purpose box: the input keeps at most
      `PurposeMaxLength` characters of what is entered. */
  function SetPurpose(d: DeclarationState, entered: string): (r: DeclarationState)
    ensures r == d.(specificPurpose := r.specificPurpose)
    ensures |r.specificPurpose| <= PurposeMaxLength && r.specificPurpose <= entered
    ensures |entered| <= PurposeMaxLength ==> r.specificPurpose == entered
  {
    d.(specificPurpose := if |entered| <= PurposeMaxLength then entered else entered[..PurposeMaxLength])
  }

  /** `toggleMode(mode)`: the same filter-or-append toggle as the usage keys. */
  function ToggleMode(d: DeclarationState, mode: string): (r: DeclarationState)
    ensures r == d.(contentUseModes := r.contentUseModes)
    ensures mode in r.contentUseModes <==> mode !in d.contentUseModes
    ensures mode !in d.contentUseModes ==> r.contentUseModes == d.contentUseModes + [mode]
    ensures mode in d.contentUseModes ==> r.contentUseModes == RemoveAll(d.contentUseModes, mode)
  {
    d.(contentUseModes := Toggle(d.contentUseModes, mode))
  }

  /** The integration section appears exactly when some mode is selected,
      so toggling the only mode removes it. */
  lemma ToggleModeAndIntegration(d: DeclarationState, mode: string)
    ensures d.contentUseModes == [] ==> IntegrationText(ToggleMode(d, mode)) != ""
    ensures d.contentUseModes == [mode] ==> IntegrationText(ToggleMode(d, mode)) == ""
  {
    if d.contentUseModes == [] {
      assert |IntegrationText(ToggleMode(d, mode))| >= |IntegrationHeading|;
    }
    if d.contentUseModes == [mode] {
      assert RemoveAll([mode], mode) == [];
    }
  }

  /** The custom mode box, shown only while "Otro" is selected. */
  function SetCustomContentUseMode(d: DeclarationState, text: string): (r: DeclarationState)
    requires "Otro" in d.contentUseModes
    ensures r == d.(customContentUseMode := r.customContentUseMode) && r.customContentUseMode == text
  {
    d.(customContentUseMode := text)
  }

  /** A custom mode entered for "Otro" names it in the text; left blank,
      the text keeps the word "Otro". */
  lemma CustomModeNamesOther(d: DeclarationState, text: string)
    requires d.contentUseModes == ["Otro"]
    ensures var r := SetCustomContentUseMode(d, text);
      ContentModesText(r.contentUseModes, r.customContentUseMode) == if text == "" then "Otro" else text
  {
  }

  /** The context box. */
  function SetContentUseContext(d: DeclarationState, text: string): (r: DeclarationState)
    ensures r == d.(contentUseContext := r.contentUseContext) && r.contentUseContext == text
  {
    d.(contentUseContext := text)
  }

  /** The context is written only inside the integration section, so with no
      mode selected nothing entered there reaches the text. */
  lemma ContextNeedsAMode(d: DeclarationState, text: string)
    requires d.contentUseModes == []
    ensures IntegrationText(SetContentUseContext(d, text)) == ""
  {
  }

  /** Whatever modes are selected, the payload carries the context entered,
      and `null` while the box is empty. */
  lemma ContextReachesPayload(c: Catalog, d: DeclarationState, text: string, generatedAt: string, hash: string)
    ensures GenerateJson(c, SetContentUseContext(d, text), generatedAt, hash).integration.context ==
      if text == "" then None else Some(text)
  {
  }

  /** `setReviewLevel(level)`: the level replaced, the reviewer kept. */
  function SetReviewLevel(d: DeclarationState, level: HumanReviewLevel): (r: DeclarationState)
    ensures r == d.(humanReview := r.humanReview)
    ensures r.humanReview.level == level
    ensures r.humanReview.reviewerRole == d.humanReview.reviewerRole
    ensures r.humanReview.reviewerName == d.humanReview.reviewerName
  {
    d.(humanReview := d.humanReview.(level := level))
  }

  /** The role box, shown only above level 0. */
  function SetReviewerRole(d: DeclarationState, role: string): (r: DeclarationState)
    requires d.humanReview.level > 0
    ensures r == d.(humanReview := r.humanReview)
    ensures r.humanReview.reviewerRole == role
    ensures r.humanReview.level == d.humanReview.level && r.humanReview.reviewerName == d.humanReview.reviewerName
  {
    d.(humanReview := d.humanReview.(reviewerRole := role))
  }

  /** A role entered above level 0 closes the reviewer lines of the text. */
  lemma ReviewerRoleShown(d: DeclarationState, role: string)
    requires d.humanReview.level > 0 && role != ""
    ensures EndsWith(ReviewerLines(SetReviewerRole(d, role).humanReview), "   • Rol/Cargo: " + role + "\n")
  {
    var r := SetReviewerRole(d, role).humanReview;
    var name := if IsSetAndNonEmpty(r.reviewerName) then "   • Revisado por: " + r.reviewerName.value + "\n" else "";
    assert ReviewerLines(r) == name + ("   • Rol/Cargo: " + role + "\n");
  }

  /** Going back to level 0 hides a role already entered from the text, but
      the record and the payload keep it. */
  lemma LevelZeroHidesRole(c: Catalog, d: DeclarationState, generatedAt: string, hash: string)
    ensures var r := SetReviewLevel(d, 0);
      ReviewerLines(r.humanReview) == "" &&
      GenerateJson(c, r, generatedAt, hash).humanReview.reviewerRole == OrNull(d.humanReview.reviewerRole)
  {
  }
}
