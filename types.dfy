/** The declaration record and the shapes of the lookup tables. */
module Types {
  import opened Wrappers

  /** The nine usage-category keys, in the order of the union type. */
  const UsageKeyNames: seq<string> :=
    ["draft", "coauthor", "writing-support", "ideation", "analysis", "review", "translation", "coding", "other"]

  /** A usage-category key: one of exactly nine strings. */
  type UsageTypeKey = k: string | k in UsageKeyNames witness "other"

  /** The seven ordinal levels of human review, 0 (none) to 6 (full audit). */
  type HumanReviewLevel = l: int | 0 <= l <= 6

  /** One prompt slot; slots may hold an empty description. */
  datatype Prompt = Prompt(id: string, description: string)

  /** The review depth and who performed it. `reviewerName` is declared
      required but the fresh record leaves it unset, hence an Option. */
  datatype HumanReview = HumanReview(level: HumanReviewLevel, reviewerRole: string, reviewerName: Option<string>)

  /** The month and year the tool was consulted (plain numbers, as typed). */
  datatype ConsultDate = ConsultDate(month: int, year: int)

  datatype AITool = AITool(name: string, version: string, provider: string, date: ConsultDate)

  /** The in-progress declaration. `license` is declared required but the
      fresh record leaves it unset, hence an Option. */
  datatype DeclarationState = DeclarationState(
    declarationId: string,
    selectedChecklistIds: seq<string>,
    usageTypes: seq<UsageTypeKey>,
    customUsageType: string,
    aiTool: AITool,
    specificPurpose: string,
    prompts: seq<Prompt>,
    contentUseModes: seq<string>,
    customContentUseMode: string,
    contentUseContext: string,
    humanReview: HumanReview,
    license: Option<string>)

  /** A diagnostic question, the usage key it suggests and its priority. */
  datatype ChecklistItem = ChecklistItem(id: string, q: string, suggests: UsageTypeKey, priority: int)

  datatype UsageOption = UsageOption(value: UsageTypeKey, labelText: string, hint: string, examples: seq<string>)

  datatype ReviewLevelOption = ReviewLevelOption(level: HumanReviewLevel, labelText: string, description: string)

  /** An entry of the license table, looked up by `value` for its `label`. */
  datatype LicenseOption = LicenseOption(value: string, labelText: string)

  /** `Partial<DeclarationState>`: every field may be absent. */
  datatype PartialDeclaration = PartialDeclaration(
    declarationId: Option<string>,
    selectedChecklistIds: Option<seq<string>>,
    usageTypes: Option<seq<UsageTypeKey>>,
    customUsageType: Option<string>,
    aiTool: Option<AITool>,
    specificPurpose: Option<string>,
    prompts: Option<seq<Prompt>>,
    contentUseModes: Option<seq<string>>,
    customContentUseMode: Option<string>,
    contentUseContext: Option<string>,
    humanReview: Option<HumanReview>,
    license: Option<string>)

  /** A template: a partial declaration merged over a fresh one. */
  datatype Preset = Preset(id: string, name: string, description: string, data: PartialDeclaration)
}
