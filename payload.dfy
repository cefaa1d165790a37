/** `generateJSON`: the structured payload of a declaration, modelled as a
    record. Its serialization by `JSON.stringify` is not modelled; where a
    member may be absent (`undefined`) or `null` the record says which. */
module Payload {
  import opened Wrappers
  import opened SeqOps
  import opened JsStrings
  import opened Types
  import opened Constants
  import opened Render

  /** The `license` member: dropped when the declaration has none (an
      `undefined` member is not serialized), `null` for the 'None'
      sentinel, the id otherwise. */
  datatype LicenseField = Omitted | Null | LicenseId(id: string)

  /** `usage`: the keys, one label per key (`null` for a key the table
      lacks) and the custom description (`null` unless "other" is chosen). */
  datatype UsagePayload = UsagePayload(types: seq<UsageTypeKey>, labels: seq<Option<string>>, customDescription: Option<string>)

  datatype ToolPayload = ToolPayload(name: string, version: string, provider: string, date: string)

  /** `integration`: the modes and the context, `null` when empty. */
  datatype IntegrationPayload = IntegrationPayload(modes: seq<string>, context: Option<string>)

  /** `humanReview`: `label` and `description` are dropped when no table row
      matches; the reviewer fields are `null` when empty. */
  datatype ReviewPayload = ReviewPayload(
    level: HumanReviewLevel,
    labelText: Option<string>,
    description: Option<string>,
    reviewerName: Option<string>,
    reviewerRole: Option<string>)

  datatype DeclarationPayload = DeclarationPayload(
    declarationType: string,
    version: string,
    generatedAt: string,
    id: string,
    validationHash: string,
    license: LicenseField,
    diagnosticIds: seq<string>,
    usage: UsagePayload,
    tool: ToolPayload,
    purpose: string,
    prompts: seq<string>,
    integration: IntegrationPayload,
    humanReview: ReviewPayload)

  const DeclarationType: string := "academic-ai-transparency"
  const FormatVersion: string := "4.0.0"

  /** The stand-in for a hash that has not been computed yet. */
  const PendingHash: string := "pending"

  /** `s || null`. */
  function OrNull(s: string): (r: Option<string>)
    ensures r == None <==> s == ""
    ensures r.Some? ==> r.value == s
  {
    if s == "" then None else Some(s)
  }

  /** `d.license !== 'None' ? d.license : null`, as serialized. */
  function JsonLicense(license: Option<string>): (f: LicenseField)
    ensures f == Omitted <==> license == None
    ensures f == Null <==> license == Some("None")
    ensures f.LicenseId? <==> license.Some? && license.value != "None"
    ensures f.LicenseId? ==> license == Some(f.id)
  {
    match license
    case None => Omitted
    case Some(v) => if v != "None" then LicenseId(v) else Null
  }

  /** A usage key as the payload labels it: the custom text, even empty,
      for "other"; the table label for a known key; `null` otherwise. */
  function JsonUsageLabel(table: seq<UsageOption>, d: DeclarationState, key: string): Option<string> {
    if key == "other" then Some(d.customUsageType)
    else match FindUsageOption(table, key)
      case Some(k) => Some(table[k].labelText)
      case None => None
  }

  function JsonUsageLabels(table: seq<UsageOption>, d: DeclarationState): seq<Option<string>> {
    seq(|d.usageTypes|, i requires 0 <= i < |d.usageTypes| => JsonUsageLabel(table, d, d.usageTypes[i]))
  }

  /** An integration mode in the payload: "Otro" takes the custom text, even empty. */
  function JsonContentMode(d: DeclarationState, mode: string): string {
    if mode == "Otro" then d.customContentUseMode else mode
  }

  function JsonContentModes(d: DeclarationState): seq<string> {
    seq(|d.contentUseModes|, i requires 0 <= i < |d.contentUseModes| => JsonContentMode(d, d.contentUseModes[i]))
  }

  /** The descriptions of some prompts, in order. */
  function Descriptions(prompts: seq<Prompt>): seq<string> {
    seq(|prompts|, i requires 0 <= i < |prompts| => prompts[i].description)
  }

  function JsonReview(c: Catalog, r: HumanReview): ReviewPayload {
    var row := FindReviewLevel(c.reviewLevels, r.level);
    ReviewPayload(
      r.level,
      if row.Some? then Some(row.value.labelText) else None,
      if row.Some? then Some(row.value.description) else None,
      if IsSetAndNonEmpty(r.reviewerName) then r.reviewerName else None,
      OrNull(r.reviewerRole))
  }

  /** `generateJSON(d, hash)` before serialization; the clock reading is
      `generatedAt`, and `hash` "" stands for an absent hash. */
  function GenerateJson(c: Catalog, d: DeclarationState, generatedAt: string, hash: string): DeclarationPayload {
    DeclarationPayload(
      DeclarationType,
      FormatVersion,
      generatedAt,
      d.declarationId,
      Or(hash, PendingHash),
      JsonLicense(d.license),
      d.selectedChecklistIds,
      UsagePayload(d.usageTypes, JsonUsageLabels(c.usageTypes, d), if "other" in d.usageTypes then Some(d.customUsageType) else None),
      ToolPayload(d.aiTool.name, d.aiTool.version, d.aiTool.provider, JsonDate(d.aiTool.date)),
      d.specificPurpose,
      Descriptions(ValidPrompts(d.prompts)),
      IntegrationPayload(JsonContentModes(d), OrNull(d.contentUseContext)),
      JsonReview(c, d.humanReview))
  }

  // ---------------------------------------------------------------------------
  // What the payload says, and how it agrees with the text

  /** The payload carries the hash it was given, and "pending" only when it
      was given none. */
  lemma ValidationHashField(c: Catalog, d: DeclarationState, generatedAt: string, hash: string)
    ensures hash != "" ==> GenerateJson(c, d, generatedAt, hash).validationHash == hash
    ensures hash == "" ==> GenerateJson(c, d, generatedAt, hash).validationHash == PendingHash
  {
  }

  /** The custom usage description is present exactly when "other" is among
      the chosen keys. */
  lemma CustomDescriptionIffOther(c: Catalog, d: DeclarationState, generatedAt: string, hash: string)
    ensures var u := GenerateJson(c, d, generatedAt, hash).usage;
      (u.customDescription.Some? <==> "other" in d.usageTypes)
      && (u.customDescription.Some? ==> u.customDescription.value == d.customUsageType)
  {
  }

  /** On the site table every chosen key gets a label (none is `null`), and
      it is the label the text shows, except for "other" with an empty
      custom text, which the text shows as "Otro uso". */
  lemma {:induction false} UsageLabelsAgree(c: Catalog, d: DeclarationState, generatedAt: string, hash: string)
    requires c.usageTypes == USAGE_TYPES
    ensures var u := GenerateJson(c, d, generatedAt, hash).usage;
      |u.labels| == |d.usageTypes| &&
      forall i :: 0 <= i < |d.usageTypes| ==>
        u.labels[i].Some? &&
        (d.usageTypes[i] != "other" || d.customUsageType != "" ==>
          u.labels[i].value == UsageLabel(USAGE_TYPES, d, d.usageTypes[i]))
  {
    var labels := JsonUsageLabels(USAGE_TYPES, d);
    forall i | 0 <= i < |d.usageTypes|
      ensures labels[i].Some?
      ensures d.usageTypes[i] != "other" || d.customUsageType != "" ==>
        labels[i].value == UsageLabel(USAGE_TYPES, d, d.usageTypes[i])
    {
      var key := d.usageTypes[i];
      if key != "other" {
        var k := KeyRow(key);
        FindUsageAt(k);
        UsageLabelsNonEmpty();
        assert labels[i] == Some(USAGE_TYPES[k].labelText);
      }
    }
  }

  /** Every usage key has a row of the site table. */
  lemma KeyRow(key: UsageTypeKey) returns (k: nat)
    ensures k < |USAGE_TYPES| && USAGE_TYPES[k].value == key
  {
    UsageTypesCoverKeys();
    var n :| 0 <= n < |UsageKeyNames| && UsageKeyNames[n] == key;
    k :| 0 <= k < |USAGE_TYPES| && USAGE_TYPES[k].value == UsageKeyNames[n];
  }

  /** The payload lists the same integration modes as the text, except that
      "Otro" with an empty custom text is "" there and "Otro" in the text. */
  lemma ContentModesAgree(c: Catalog, d: DeclarationState, generatedAt: string, hash: string)
    ensures var modes := GenerateJson(c, d, generatedAt, hash).integration.modes;
      |modes| == |d.contentUseModes| &&
      forall i :: 0 <= i < |d.contentUseModes| ==>
        (d.contentUseModes[i] != "Otro" || d.customContentUseMode != "" ==>
          modes[i] == ContentModeLabel(d.customContentUseMode, d.contentUseModes[i])) &&
        (d.contentUseModes[i] == "Otro" && d.customContentUseMode == "" ==> modes[i] == "")
  {
  }

  /** The payload's prompts are the prompts the text numbers: entry `k` is
      the description of the `k`-th kept prompt (line `k + 1` of the text),
      each is a non-blank description of an input prompt, and there are none
      exactly when the text omits its prompts section. */
  lemma PromptsAreListedPrompts(c: Catalog, d: DeclarationState, generatedAt: string, hash: string)
    ensures var prompts := GenerateJson(c, d, generatedAt, hash).prompts;
      |prompts| == |ValidPrompts(d.prompts)| &&
      (forall k :: 0 <= k < |prompts| ==> prompts[k] == ValidPrompts(d.prompts)[k].description) &&
      (forall k :: 0 <= k < |prompts| ==>
        !IsBlank(prompts[k]) && exists j :: 0 <= j < |d.prompts| && d.prompts[j].description == prompts[k]) &&
      (prompts == [] <==> PromptsText(d) == "")
  {
    var listed := ValidPrompts(d.prompts);
    ValidPromptsListed(d.prompts);
    forall k | 0 <= k < |listed|
      ensures exists j :: 0 <= j < |d.prompts| && d.prompts[j].description == listed[k].description
    {
      var j :| 0 <= j < |d.prompts| && d.prompts[j] == listed[k];
    }
    if listed != [] {
      JoinFreePromptsText(d);
    }
  }

  /** A non-empty prompts section is not empty text. */
  lemma JoinFreePromptsText(d: DeclarationState)
    requires ValidPrompts(d.prompts) != []
    ensures PromptsText(d) != ""
  {
    var listed := ValidPrompts(d.prompts);
    assert |PromptsText(d)| >= |PromptsHeading|;
  }

  /** The context is `null` exactly when the text has no context line. */
  lemma ContextNullIffNoLine(c: Catalog, d: DeclarationState, generatedAt: string, hash: string)
    ensures var context := GenerateJson(c, d, generatedAt, hash).integration.context;
      (context == None <==> ContextLine(d) == "") &&
      (context.Some? ==> context.value == d.contentUseContext)
  {
  }

  /** On the site table the review label and description are never dropped:
      they are those of the table row for the level. */
  lemma SiteReviewFields(c: Catalog, d: DeclarationState, generatedAt: string, hash: string)
    requires c.reviewLevels == HUMAN_REVIEW_LEVELS
    ensures var r := GenerateJson(c, d, generatedAt, hash).humanReview;
      r.level == d.humanReview.level &&
      r.labelText == Some(HUMAN_REVIEW_LEVELS[d.humanReview.level].labelText) &&
      r.description == Some(HUMAN_REVIEW_LEVELS[d.humanReview.level].description)
  {
    FindReviewLevelIndexed(d.humanReview.level);
  }

  /** Above level 0 the text names a reviewer or a role exactly when the
      payload has one; at level 0 the payload keeps them and the text does not. */
  lemma ReviewerViewsAgree(c: Catalog, d: DeclarationState, generatedAt: string, hash: string)
    ensures var r := GenerateJson(c, d, generatedAt, hash).humanReview;
      (r.reviewerName.Some? <==> IsSetAndNonEmpty(d.humanReview.reviewerName)) &&
      (r.reviewerRole.Some? <==> d.humanReview.reviewerRole != "") &&
      (d.humanReview.level > 0 ==>
        (ReviewerLines(d.humanReview) == "" <==> r.reviewerName == None && r.reviewerRole == None)) &&
      (d.humanReview.level == 0 ==> ReviewerLines(d.humanReview) == "")
  {
  }

  /** The text has a license section exactly when the payload carries a
      non-empty license id. */
  lemma LicenseViewsAgree(c: Catalog, d: DeclarationState, generatedAt: string, hash: string)
    ensures var f := GenerateJson(c, d, generatedAt, hash).license;
      LicenseText(c, d) != "" <==> f.LicenseId? && f.id != ""
  {
    if LicenseShown(d.license) {
      assert |LicenseText(c, d)| >= |LicenseHeading|;
    }
  }
}
