/** The four-step wizard around the declaration: which step is shown, when
    the forward button is enabled, and how a new declaration or a template
    replaces the record. */
module Wizard {
  import opened Wrappers
  import opened Types
  import opened Constants
  import opened Identification
  import opened DetailsStep

  /** Steps are numbered 0 (diagnosis) to 3 (result). */
  const LastStep: int := 3

  /** `canProceed()` at the given step. */
  predicate CanProceedAt(step: int, d: DeclarationState) {
    if step == 0 then |d.usageTypes| > 0
    else if step == 1 then |d.usageTypes| > 0 && !("other" in d.usageTypes && |d.customUsageType| < 3)
    else if step == 2 then |d.aiTool.name| > 1 && |d.specificPurpose| > 5
    else true
  }

  /** A fresh declaration cannot leave any of the first three steps. */
  lemma FreshDeclarationBlocked(id: string, monthIndex: MonthIndex, year: int)
    ensures var d := InitialDeclaration(id, monthIndex, year);
      !CanProceedAt(0, d) && !CanProceedAt(1, d) && !CanProceedAt(2, d) && CanProceedAt(LastStep, d)
  {
  }

  /** After a checklist click the diagnosis step can be left exactly when
      some ticked question was recorded. */
  lemma ClassificationUnlocksDiagnosis(d: DeclarationState, keys: seq<string>, flags: map<string, bool>)
    ensures var r := Classify(HELP_CHECKLIST, d, keys, flags);
      CanProceedAt(0, r) <==> r.selectedChecklistIds != []
  {
  }

  /** The site checklist never suggests "other", so a classification it
      makes also passes the category step without a custom text. */
  lemma ClassificationPassesCategories(d: DeclarationState, keys: seq<string>, flags: map<string, bool>)
    requires Classify(HELP_CHECKLIST, d, keys, flags).usageTypes != []
    ensures CanProceedAt(1, Classify(HELP_CHECKLIST, d, keys, flags))
  {
    var r := Classify(HELP_CHECKLIST, d, keys, flags);
    SiteDominantIsFirstTicked(d, keys, flags);
    ChecklistSuggestsKnownCategories();
    var k :| 0 <= k < |HELP_CHECKLIST| && r.usageTypes == [HELP_CHECKLIST[k].suggests];
    assert "other" !in r.usageTypes;
  }

  /** A purpose of more than five characters typed into its box meets the
      purpose half of the details guard, whatever the box cuts off. */
  lemma TypedPurposeMeetsGuard(d: DeclarationState, entered: string)
    requires |d.aiTool.name| > 1 && |entered| > 5
    ensures CanProceedAt(2, SetPurpose(d, entered))
  {
    var r := SetPurpose(d, entered);
    if |entered| > PurposeMaxLength {
      assert |r.specificPurpose| == PurposeMaxLength;
    }
  }

  /** `{ ...base, ...p }`: every field the template gives replaces the base's. */
  function MergePreset(base: DeclarationState, p: PartialDeclaration): (r: DeclarationState)
    ensures p.declarationId.Some? ==> r.declarationId == p.declarationId.value
    ensures p.declarationId.None? ==> r.declarationId == base.declarationId
    ensures p.selectedChecklistIds.Some? ==> r.selectedChecklistIds == p.selectedChecklistIds.value
    ensures p.selectedChecklistIds.None? ==> r.selectedChecklistIds == base.selectedChecklistIds
    ensures p.usageTypes.Some? ==> r.usageTypes == p.usageTypes.value
    ensures p.usageTypes.None? ==> r.usageTypes == base.usageTypes
    ensures p.customUsageType.Some? ==> r.customUsageType == p.customUsageType.value
    ensures p.customUsageType.None? ==> r.customUsageType == base.customUsageType
    ensures p.aiTool.Some? ==> r.aiTool == p.aiTool.value
    ensures p.aiTool.None? ==> r.aiTool == base.aiTool
    ensures p.specificPurpose.Some? ==> r.specificPurpose == p.specificPurpose.value
    ensures p.specificPurpose.None? ==> r.specificPurpose == base.specificPurpose
    ensures p.prompts.Some? ==> r.prompts == p.prompts.value
    ensures p.prompts.None? ==> r.prompts == base.prompts
    ensures p.contentUseModes.Some? ==> r.contentUseModes == p.contentUseModes.value
    ensures p.contentUseModes.None? ==> r.contentUseModes == base.contentUseModes
    ensures p.customContentUseMode.Some? ==> r.customContentUseMode == p.customContentUseMode.value
    ensures p.customContentUseMode.None? ==> r.customContentUseMode == base.customContentUseMode
    ensures p.contentUseContext.Some? ==> r.contentUseContext == p.contentUseContext.value
    ensures p.contentUseContext.None? ==> r.contentUseContext == base.contentUseContext
    ensures p.humanReview.Some? ==> r.humanReview == p.humanReview.value
    ensures p.humanReview.None? ==> r.humanReview == base.humanReview
    ensures r.license == if p.license.Some? then p.license else base.license
  {
    DeclarationState(
      p.declarationId.GetOr(base.declarationId),
      p.selectedChecklistIds.GetOr(base.selectedChecklistIds),
      p.usageTypes.GetOr(base.usageTypes),
      p.customUsageType.GetOr(base.customUsageType),
      p.aiTool.GetOr(base.aiTool),
      p.specificPurpose.GetOr(base.specificPurpose),
      p.prompts.GetOr(base.prompts),
      p.contentUseModes.GetOr(base.contentUseModes),
      p.customContentUseMode.GetOr(base.customContentUseMode),
      p.contentUseContext.GetOr(base.contentUseContext),
      p.humanReview.GetOr(base.humanReview),
      if p.license.Some? then p.license else base.license)
  }

  /** The template that gives no field. */
  const EmptyPartial: PartialDeclaration :=
    PartialDeclaration(None, None, None, None, None, None, None, None, None, None, None, None)

  /** The template that gives every field of `d`; a template has no way to
      say that the license is unset. */
  function FullPartial(d: DeclarationState): PartialDeclaration {
    PartialDeclaration(
      Some(d.declarationId), Some(d.selectedChecklistIds), Some(d.usageTypes), Some(d.customUsageType),
      Some(d.aiTool), Some(d.specificPurpose), Some(d.prompts), Some(d.contentUseModes),
      Some(d.customContentUseMode), Some(d.contentUseContext), Some(d.humanReview), d.license)
  }

  /** Merging nothing keeps the base, merging everything gives the template,
      and merging the same template twice changes nothing more. */
  lemma MergePresetLaws(base: DeclarationState, d: DeclarationState, p: PartialDeclaration)
    ensures MergePreset(base, EmptyPartial) == base
    ensures d.license.Some? || base.license.None? ==> MergePreset(base, FullPartial(d)) == d
    ensures MergePreset(MergePreset(base, p), p) == MergePreset(base, p)
  {
  }

  /** The wizard's state in `App`. */
  class Wizard {
    var currentStep: int
    var data: DeclarationState
    var formKey: int

    ghost predicate Valid()
      reads this
    {
      0 <= currentStep <= LastStep && formKey >= 0
    }

    /** The first render: step 0 with a fresh declaration. */
    constructor (id: string, monthIndex: MonthIndex, year: int)
      ensures Valid()
      ensures currentStep == 0 && data == InitialDeclaration(id, monthIndex, year) && formKey == 0
    {
      currentStep := 0;
      data := InitialDeclaration(id, monthIndex, year);
      formKey := 0;
    }

    /** `canProceed()`. */
    predicate CanProceed()
      reads this
    {
      CanProceedAt(currentStep, data)
    }

    /** The forward button exists before the last step and is enabled
        exactly when the step's guard holds. */
    predicate ForwardEnabled()
      reads this
    {
      currentStep < LastStep && CanProceed()
    }

    /** The back button is shown after the first step. */
    predicate BackShown()
      reads this
    {
      currentStep > 0
    }

    /** `nextStep()`: one step on, never past the last. */
    method NextStep()
      requires Valid()
      modifies this
      ensures Valid()
      ensures currentStep == if old(currentStep) + 1 < LastStep then old(currentStep) + 1 else LastStep
      ensures data == old(data) && formKey == old(formKey)
    {
      currentStep := if currentStep + 1 < LastStep then currentStep + 1 else LastStep;
    }

    /** `prevStep()`: one step back, never before the first. */
    method PrevStep()
      requires Valid()
      modifies this
      ensures Valid()
      ensures currentStep == if old(currentStep) - 1 > 0 then old(currentStep) - 1 else 0
      ensures data == old(data) && formKey == old(formKey)
    {
      currentStep := if currentStep - 1 > 0 then currentStep - 1 else 0;
    }

    /** A click on the forward button, which does nothing while disabled. */
    method PressForward()
      requires Valid()
      modifies this
      ensures Valid()
      ensures old(ForwardEnabled()) ==> currentStep == old(currentStep) + 1
      ensures !old(ForwardEnabled()) ==> currentStep == old(currentStep)
      ensures data == old(data) && formKey == old(formKey)
    {
      if ForwardEnabled() {
        NextStep();
      }
    }

    /** `setData`, the `onChange` every step is given. */
    method SetData(d: DeclarationState)
      requires Valid()
      modifies this
      ensures Valid()
      ensures data == d && currentStep == old(currentStep) && formKey == old(formKey)
    {
      data := d;
    }

    /** `handleNewDeclaration()`. Before the last step the user is asked
        first and `confirmed` is the answer; on the last step nobody is asked. */
    method HandleNewDeclaration(confirmed: bool, id: string, monthIndex: MonthIndex, year: int)
      requires Valid()
      modifies this
      ensures Valid()
      ensures old(currentStep) < LastStep && !confirmed ==>
        currentStep == old(currentStep) && data == old(data) && formKey == old(formKey)
      ensures old(currentStep) == LastStep || confirmed ==>
        currentStep == 0 && data == InitialDeclaration(id, monthIndex, year) && formKey == old(formKey) + 1
    {
      if currentStep < LastStep && !confirmed {
        return;
      }
      data := InitialDeclaration(id, monthIndex, year);
      currentStep := 0;
      formKey := formKey + 1;
    }

    /** `loadPreset(preset)`. After the first step the user is asked first.
        The template is merged over one fresh declaration, and the id of a
        second fresh declaration, `newId`, replaces whatever id that gives. */
    method LoadPreset(preset: Preset, confirmed: bool, baseId: string, newId: string, monthIndex: MonthIndex, year: int)
      requires Valid()
      modifies this
      ensures Valid()
      ensures old(currentStep) > 0 && !confirmed ==>
        currentStep == old(currentStep) && data == old(data) && formKey == old(formKey)
      ensures old(currentStep) == 0 || confirmed ==>
        currentStep == 2 && formKey == old(formKey) + 1 &&
        data == MergePreset(InitialDeclaration(baseId, monthIndex, year), preset.data).(declarationId := newId)
    {
      if currentStep > 0 && !confirmed {
        return;
      }
      var newData := MergePreset(InitialDeclaration(baseId, monthIndex, year), preset.data);
      newData := newData.(declarationId := newId);
      data := newData;
      currentStep := 2;
      formKey := formKey + 1;
    }
  }

  /** A loaded template keeps its fields but never its id, and the details
      step it lands on is left only once that step's guard holds. */
  lemma LoadedPresetFields(preset: Preset, baseId: string, newId: string, monthIndex: MonthIndex, year: int)
    ensures var r := MergePreset(InitialDeclaration(baseId, monthIndex, year), preset.data).(declarationId := newId);
      r.declarationId == newId &&
      (preset.data.usageTypes.Some? ==> r.usageTypes == preset.data.usageTypes.value) &&
      (preset.data.specificPurpose.None? ==> !CanProceedAt(2, r))
  {
  }
}
