# AI-transparency declaration form, modelled in Dafny

This project models how the academic AI-use declaration wizard turns a
declaration record into its documents, and proves properties of that model.
The wizard has four steps:

- **Diagnosis:** a checklist of yes/no questions is reduced to the single
  usage category of the highest-priority ticked question.
- **Categories:** the usage categories are toggled on and off.
- **Details:** the tool, its consultation date, the purpose, the prompts,
  the integration modes and the human-review level are filled in.
- **Result:** the declaration is rendered as a sectioned text and as a JSON
  payload, and both are stamped with a 16-digit fingerprint. The
  fingerprint is computed over the text without its trailer.

Modules, one per file:

| file | module | models |
|---|---|---|
| `wrappers.dfy` | `Wrappers` | `Option` |
| `seqops.dfy` | `SeqOps` | `find`, `filter(x => x !== v)` and the filter-or-append toggle |
| `jsstrings.dfy` | `JsStrings` | `repeat`, `padStart`, `join`, `String(n)`, `trim`, `split(':')[1]`, `toUpperCase` |
| `types.dfy` | `Types` | the record types |
| `constants.dfy` | `Constants` | the usage, content-mode, review-level and checklist tables, and the fresh declaration |
| `fingerprint.dfy` | `Fingerprint` | the hex, truncate and uppercase part of `computeHash` |
| `render.dfy` | `Render` | `generateDeclarationText`, as a specification function and as the step-by-step method |
| `payload.dfy` | `Payload` | `generateJSON`, with the payload as a record |
| `identification.dfy` | `Identification` | the diagnosis step, with its `activeChecks` state |
| `usagetypestep.dfy` | `UsageTypeStep` | the category step |
| `detailsstep.dfy` | `DetailsStep` | the details step's updaters |
| `wizard.dfy` | `Wizard` | the wizard state and its guards |
| `outputstep.dfy` | `OutputStep` | the result step: preview, downloads and fingerprint |

Main results:

- The text generator, written as a method that appends section after
  section, produces exactly `DeclarationText` (`Render.GenerateDeclarationText`).
- The hashed text is a prefix of the stamped download, and the download ends with its fingerprint.
  Anyone can cut the trailer off and recompute the fingerprint
  (`OutputStep.StampOver`, `OutputStep.StampedDownloadVerifies`).
- The declaration id is printed only in the trailer, so the fingerprint does
  not cover it (`Render.RawTextIgnoresId`, `OutputStep.FingerprintIgnoresId`).
- The diagnosis picks the first ticked question in table order, because the
  table's priorities strictly decrease (`Identification.SiteDominantIsFirstTicked`).

Conventions:

- An absent optional (`undefined` or `null`) is `None`.
- `hash?: string` is a `string`, with `""` standing for an absent hash. Both generators treat the two alike.
- The tables the generators read are bundled in a `Render.Catalog` parameter. `Render.SiteCatalog` supplies the site's own tables.

## Model

| member | source | states |
|---|---|---|
| SeqOps.FindIndex | utils.ts:17 | the result is the first index satisfying the predicate, or none when no element satisfies it |
| SeqOps.RemoveAll | components/Step2_UsageType.tsx:18 | the value is gone, every other element is kept, nothing new appears |
| SeqOps.RemoveAllAbsent | components/Step2_UsageType.tsx:18 | removing an absent value leaves the sequence unchanged |
| SeqOps.RemoveAllAppend | components/Step2_UsageType.tsx:18 | removal works piecewise over a concatenation, so the remaining elements keep their order |
| SeqOps.RemoveAllCounts | components/Step2_UsageType.tsx:18 | the result is the input multiset with the value's count set to zero |
| SeqOps.RemoveAllNoDuplicates | components/Step2_UsageType.tsx:18 | removal keeps a duplicate-free sequence duplicate-free |
| SeqOps.RemoveAllPresentLength | components/Step2_UsageType.tsx:18 | in a duplicate-free sequence, removing a present value shortens it by exactly one |
| SeqOps.Toggle | components/Step2_UsageType.tsx:17-21 | the value is present afterwards iff it was absent before; every other element keeps its membership |
| SeqOps.ToggleTwiceAbsent | components/Step2_UsageType.tsx:17-21 | toggling an absent value twice restores the sequence |
| SeqOps.ToggleTwicePresent | components/Step2_UsageType.tsx:17-21 | toggling a present value twice removes every copy and appends one at the end |
| SeqOps.ToggleNoDuplicates | components/Step2_UsageType.tsx:17-21 | a toggle keeps a duplicate-free sequence duplicate-free |
| JsStrings.Repeat | utils.ts:39 | `repeat(n)` is n copies of the character |
| JsStrings.PadStart | utils.ts:28 | a short string is padded on the left to the width and keeps itself at the end; a long one is unchanged |
| JsStrings.JoinStartsWithFirst | utils.ts:18 | a join begins with its first part |
| JsStrings.NatToString | utils.ts:28 | `String(n)` is a non-empty digit string with no leading zero whose decimal value is n |
| JsStrings.IntToString | utils.ts:28 | `String(n)` of a negative number is a minus sign and the numeral of its magnitude |
| JsStrings.NatToStringInjective | utils.ts:60 | distinct numbers have distinct numerals, so prompt numbers differ |
| JsStrings.TrimStartSpec | utils.ts:56 | the leading trim removes exactly a whitespace prefix and stops at a non-whitespace character |
| JsStrings.TrimEndSpec | utils.ts:56 | the trailing trim removes exactly a whitespace suffix and stops at a non-whitespace character |
| JsStrings.TrimEmptyIffBlank | utils.ts:56 | `trim()` is empty iff the string is all whitespace |
| JsStrings.IndexOf | utils.ts:73 | the first occurrence of the character, or none when it does not occur |
| JsStrings.SecondFieldOfOneSeparator | utils.ts:73 | `split(sep)[1]` of `a + sep + b` with no other separator is `b` |
| JsStrings.ToUpperAscii | utils.ts:45 | uppercasing keeps the length and maps each character on its own |
| Constants.InitialDeclaration | constants.ts:90-110 | a fresh record has the given id, one blank prompt "1", empty sequences and strings, level 0, no reviewer name, no license and a month in 1..12 |
| Constants.ChecklistIdsDistinct | constants.ts:80-88 | the checklist ids are distinct |
| Constants.ChecklistPrioritiesDecrease | constants.ts:80-88 | checklist priorities strictly decrease in table order |
| Constants.ChecklistSuggestsKnownCategories | constants.ts:80-88 | every suggestion is a value of the usage table and none is "other" |
| Constants.ReviewLevelsIndexed | constants.ts:70-78 | the review table has seven entries and entry i is level i |
| Constants.ReviewLabelShape | constants.ts:71-77 | each review label is "Nivel ", its digit, ": " and its name |
| Constants.ReviewNamePlain | constants.ts:71-77 | no level name has a colon or starts with whitespace |
| Constants.LabelNameAfterColon | utils.ts:73 | the part after the colon of "Nivel d: name" trims to the name, never blank |
| Constants.ReviewLabelsHaveName | utils.ts:73 | for every table label, `split(':')[1]` exists and trims to a non-blank name |
| Constants.UsageTypesCoverKeys | constants.ts:4-59 | the usage table has nine distinct values covering every usage key, ending with "other" |
| Constants.UsageLabelsNonEmpty | constants.ts:4-59 | no usage label is empty, so the `\|\| type` fallback never fires for a listed key |
| Constants.ContentModesIncludeOther | constants.ts:61-68 | the content-mode table ends with the "Otro" sentinel |
| Fingerprint.ByteToHex | utils.ts:10 | a byte becomes its two lower-case hex digits, high nibble first |
| Fingerprint.HexJoin | utils.ts:10 | the hex string has two digits per byte |
| Fingerprint.HexJoinPrefix | utils.ts:11 | the first 2n hex digits are the hex of the first n bytes |
| Fingerprint.UpperByteHex | utils.ts:11 | uppercasing a byte's hex gives its upper-case hex digits |
| Fingerprint.UpperHexJoin | utils.ts:10-11 | the upper-case hex of n bytes is 2n upper-case hex digits |
| Fingerprint.UpperOfHexJoin | utils.ts:11 | uppercasing the lower-case hex equals the upper-case hex |
| Fingerprint.UpperHexDigitValue | utils.ts:10 | each upper-case digit reads back as its value |
| Fingerprint.DecodeUpperHexJoin | utils.ts:10 | the upper-case hex decodes back to the bytes |
| Fingerprint.FingerprintSpellsFirstEightBytes | utils.ts:6-12 | the fingerprint is 16 upper-case hex digits spelling, and decoding to, the first eight digest bytes |
| Render.SiteCatalog | utils.ts:3 | the site catalog holds the usage, review and checklist tables and the given license table |
| Render.FindUsageAt | utils.ts:17 | looking up a table value finds its own row |
| Render.UsageLabelResolution | utils.ts:15-18 | "other" reads as the custom text or "Otro uso"; a listed key as its label; an unknown key as itself |
| Render.UsageLabelIn | utils.ts:15-18 | in any table of distinct keys with non-empty labels, a listed key other than "other" reads as its own row's label and an unlisted key as itself |
| Render.FindReviewLevelIndexed | utils.ts:20 | looking up a level finds the table row with that index |
| Render.ReviewLevelNameIsTableName | utils.ts:73-74 | the review line names the trimmed level name and the description line carries the table description |
| Render.TwoDigitMonth | utils.ts:28 | a calendar month is written as exactly two digits that read back as the month |
| Render.DatesAgree | utils.ts:28 | the text's MM/YYYY and the payload's YYYY-MM carry the same month and year |
| Render.DiagnosticLineOfOne | utils.ts:32-35 | a known id gives its "[x] question" line; an unknown id gives nothing |
| Render.DiagnosticLinesAppend | utils.ts:32-35 | diagnostic lines follow the stored id order, piecewise |
| Render.DiagnosticLinesTicked | utils.ts:34 | every diagnostic line starts with the tick marker |
| Render.ManualMarkerIffNoIds | utils.ts:31-36 | the manual-selection marker appears iff no checklist id is stored |
| Render.ValidPromptsAppend | utils.ts:56 | the non-blank filter works piecewise, keeping order |
| Render.ValidPromptOfOne | utils.ts:56 | a single prompt is kept iff its description is not blank |
| Render.ValidPromptsListed | utils.ts:56 | every kept prompt is a non-blank prompt of the record |
| Render.ValidPromptsEmptyIffAllBlank | utils.ts:56-57 | nothing is kept iff every description is blank |
| Render.PromptLinesInOrder | utils.ts:59-61 | the prompt lines come in list order, the k-th kept prompt numbered k |
| Render.PromptLinesMonotone | utils.ts:59-61 | the lines of the first m kept prompts begin the lines of the first n whenever m <= n |
| Render.TrailerOnlyWithHash | utils.ts:85-91 | without a hash the text is the bare text; with one, the bare text is a proper prefix and the text ends with the hash line |
| Render.TrailerAfter | utils.ts:85-89 | the trailer, appended to any text, keeps that text as prefix and ends with the hash line |
| Render.RawTextAroundPurpose | utils.ts:38-83 | the bare text is the sections before the purpose, the purpose section, and the sections after it |
| Render.OtherSectionsAgree | utils.ts:14-84 | records differing only in purpose and id render every other section alike |
| Render.RawTextIgnoresId | utils.ts:14-84 | the bare text does not depend on the declaration id |
| Render.PurposeSectionsDiffer | utils.ts:53-54 | two different non-empty purposes give different purpose sections |
| Render.PurposeChangesText | utils.ts:53-54 | changing a non-empty purpose to another non-empty one changes the bare text |
| Render.EmptyPurposeReadsAsPlaceholder | utils.ts:54 | an empty purpose renders exactly like the purpose "No descrito" |
| Render.PromptsSkipBlankSlots | utils.ts:56-63 | slots "", "  ", "X" give the heading, one line `1. "X"` and a blank line |
| Render.ReviewSectionNamesLevel | utils.ts:72-78 | on the site table the review section names the level, its trimmed name, its description and the reviewer lines |
| Render.AppendTraceability | utils.ts:41-42 | appends exactly the traceability section |
| Render.AppendClassification | utils.ts:44-45 | appends exactly the classification section |
| Render.AppendTool | utils.ts:47-51 | appends exactly the tool section |
| Render.AppendPurpose | utils.ts:53-54 | appends exactly the purpose section |
| Render.AppendPrompts | utils.ts:56-63 | the loop over kept prompts appends exactly the prompts section |
| Render.AppendIntegration | utils.ts:65-70 | appends exactly the integration section |
| Render.AppendReview | utils.ts:72-78 | appends exactly the review section |
| Render.AppendReviewer | utils.ts:75-78 | appends exactly the reviewer lines |
| Render.AppendLicense | utils.ts:80-83 | appends exactly the license section |
| Render.AppendTrailer | utils.ts:85-89 | appends exactly the trailer |
| Render.GenerateDeclarationText | utils.ts:14-92 | the step-by-step text equals the section-by-section specification |
| Payload.OrNull | utils.ts:132 | `s \|\| null` is null iff s is empty, else s |
| Payload.JsonLicense | utils.ts:113 | the license key is omitted when unset, null for "None", the license otherwise |
| Payload.ValidationHashField | utils.ts:112 | the payload carries the hash, or "pending" without one |
| Payload.CustomDescriptionIffOther | utils.ts:120 | the custom description is present iff "other" is selected, and is then the custom text |
| Payload.UsageLabelsAgree | utils.ts:95-98 | on the site table every payload label is present and equals the text's label, except that a blank "other" stays blank |
| Payload.ContentModesAgree | utils.ts:102-105 | payload modes are the text's mode labels, except that a blank "Otro" stays blank |
| Payload.PromptsAreListedPrompts | utils.ts:129 | payload entry k is the description of the k-th kept prompt, which the text numbers k+1; each is non-blank, and there are none iff the text has no prompts section |
| Payload.JoinFreePromptsText | utils.ts:57-63 | with a kept prompt the prompts section is present |
| Payload.ContextNullIffNoLine | utils.ts:132 | the payload context is null iff the text has no context line |
| Payload.SiteReviewFields | utils.ts:134-137 | on the site table the payload carries the level, its label and its description |
| Payload.ReviewerViewsAgree | utils.ts:138-139 | reviewer fields are null iff empty; above level 0 the text shows reviewer lines iff a field is set, at level 0 never |
| Payload.LicenseViewsAgree | utils.ts:113 | the text has a license section iff the payload carries a non-empty license id |
| Identification.Dedup | components/Step1_Identification.tsx:13-19 | the seeded keys are duplicate-free and hold exactly the stored ids |
| Identification.SeedChecks | components/Step1_Identification.tsx:13-19 | the filling loop flags true exactly the stored ids, keyed in first-seen order |
| Identification.CheckedIdsAreTicked | components/Step1_Identification.tsx:26 | an id is selected iff it is a key whose flag is true |
| Identification.CheckedItemsAreTicked | components/Step1_Identification.tsx:27 | the candidates are exactly the table items whose id is selected |
| Identification.CheckedItemsHead | components/Step1_Identification.tsx:27 | the first candidate is the first selected question in table order |
| Identification.CheckedItemsDecrease | components/Step1_Identification.tsx:27 | filtering keeps priorities decreasing |
| Identification.DominantIndex | components/Step1_Identification.tsx:35-36 | the head of the stable sort: a maximal priority, with ties going to the earliest |
| Identification.DominantOfDecreasing | components/Step1_Identification.tsx:35-36 | with decreasing priorities the head is the first candidate |
| Identification.Classify | components/Step1_Identification.tsx:29-42 | only ids and usage keys change; there is at most one key, and none iff no id is kept |
| Identification.SelectionIsTickedKeys | components/Step1_Identification.tsx:29-40 | no candidate clears both; otherwise the ids are exactly the ticked keys |
| Identification.DominantHasTopPriority | components/Step1_Identification.tsx:35-41 | the chosen key is the suggestion of a ticked question of top priority |
| Identification.SiteDominantIsFirstTicked | components/Step1_Identification.tsx:27-41 | on the site table the chosen key is the suggestion of the first ticked question |
| Identification.ToggleFlag | components/Step1_Identification.tsx:22 | the clicked flag flips and every other flag stays |
| Identification.ChecklistStep.constructor | components/Step1_Identification.tsx:13-19 | on mount the flags are true exactly for the stored ids |
| Identification.ChecklistStep.HandleChecklist | components/Step1_Identification.tsx:21-43 | a click flips its flag, keeps key order and hands on the classification of the new flags |
| UsageTypeStep.ToggleUsageType | components/Step2_UsageType.tsx:13-23 | only the usage keys change: an absent key is appended, a present one removed everywhere |
| UsageTypeStep.SetCustomUsageType | components/Step2_UsageType.tsx:76-86 | the box shown while "other" is selected replaces the custom text and nothing else |
| UsageTypeStep.CustomTextDescribesOther | utils.ts:120 | after typing, "other" reads as the typed text (or "Otro uso" if empty) in the text and the payload's custom description is the typed text |
| UsageTypeStep.ToggleUsageTypeKeepsOthers | components/Step2_UsageType.tsx:17-21 | no other key's count changes |
| UsageTypeStep.ToggleUsageTypeTwice | components/Step2_UsageType.tsx:17-21 | selecting and deselecting a key restores the record |
| UsageTypeStep.ToggleUsageTypeNoDuplicates | components/Step2_UsageType.tsx:17-21 | a duplicate-free selection stays duplicate-free |
| UsageTypeStep.DeselectingOtherKeepsCustomText | components/Step2_UsageType.tsx:22 | deselecting "other" keeps its text in the record but drops it from the payload |
| DetailsStep.UpdateTool | components/Step3_Details.tsx:13 | exactly one text field of the tool changes |
| DetailsStep.UpdateDate | components/Step3_Details.tsx:14 | exactly the month or the year of the date changes |
| DetailsStep.OfferedMonthRendersTwoDigits | components/Step3_Details.tsx:75-76 | an offered month renders with two digits reading back as the month, in both documents |
| DetailsStep.OfferedYearRendersFourDigits | components/Step3_Details.tsx:84 | an offered year renders with four digits |
| DetailsStep.AddPrompt | components/Step3_Details.tsx:18 | one blank prompt is appended and the earlier ones are unchanged |
| DetailsStep.AddPromptListsNothingNew | components/Step3_Details.tsx:18 | adding a slot changes neither document's prompt list |
| DetailsStep.UpdatePrompt | components/Step3_Details.tsx:19 | length, order and ids are kept; exactly the matching descriptions change |
| DetailsStep.WithoutId | components/Step3_Details.tsx:20 | the result holds exactly the prompts with another id |
| DetailsStep.WithoutIdAppend | components/Step3_Details.tsx:20 | removal works piecewise, keeping order |
| DetailsStep.WithoutIdAbsent | components/Step3_Details.tsx:20 | removing an absent id changes nothing |
| DetailsStep.WithoutIdAt | components/Step3_Details.tsx:20 | with unique ids, removing the k-th prompt's id drops exactly that prompt |
| DetailsStep.RemovePrompt | components/Step3_Details.tsx:20 | only the prompts change; the prompts kept are exactly the old ones with a different id, never more of them |
| DetailsStep.OfferedRemovalKeepsAPrompt | components/Step3_Details.tsx:131 | a removal offered with more than one prompt drops one prompt and leaves at least one |
| DetailsStep.SetPurpose | components/Step3_Details.tsx:99-101 | the purpose keeps at most 600 characters of what is entered, all of it when short enough |
| DetailsStep.ToggleMode | components/Step3_Details.tsx:22-27 | only the modes change, by the same filter-or-append toggle |
| DetailsStep.ToggleModeAndIntegration | components/Step3_Details.tsx:22-27 | the first mode brings in the integration section; toggling the only mode removes it |
| DetailsStep.CustomModeNamesOther | components/Step3_Details.tsx:174-180 | the custom mode text replaces "Otro" in the text, which keeps "Otro" when it is blank |
| DetailsStep.SetCustomContentUseMode | components/Step3_Details.tsx:174-180 | the box shown while "Otro" is selected replaces the custom mode text and nothing else |
| DetailsStep.ContextNeedsAMode | utils.ts:65-70 | with no mode selected the context never reaches the text |
| DetailsStep.SetContentUseContext | components/Step3_Details.tsx:187-193 | the context box replaces the context and nothing else |
| DetailsStep.ContextReachesPayload | utils.ts:132 | the payload carries the context entered, null while it is empty, whatever modes are selected |
| DetailsStep.SetReviewLevel | components/Step3_Details.tsx:29-31 | only the level changes; role and name are kept |
| DetailsStep.ReviewerRoleShown | components/Step3_Details.tsx:240-247 | a non-empty role entered above level 0 ends the reviewer lines |
| DetailsStep.SetReviewerRole | components/Step3_Details.tsx:240-248 | the role box, shown above level 0, replaces the role and keeps the level and the reviewer name |
| DetailsStep.LevelZeroHidesRole | utils.ts:75-78 | back at level 0 the text hides the role but the payload keeps it |
| Wizard.FreshDeclarationBlocked | App.tsx:25-37 | a fresh record cannot leave steps 0, 1 or 2 |
| Wizard.ClassificationUnlocksDiagnosis | App.tsx:27-28 | after a checklist click step 0 can be left iff some id was kept |
| Wizard.ClassificationPassesCategories | App.tsx:29-32 | a key the site checklist chose passes the category guard without custom text |
| Wizard.TypedPurposeMeetsGuard | App.tsx:33-34 | a typed purpose over five characters meets the purpose guard, even when cut to 600 |
| Wizard.MergePreset | App.tsx:64 | each of the twelve fields is the template's when the template gives it and the fresh record's otherwise |
| Wizard.MergePresetLaws | App.tsx:64 | an empty template keeps the base, a full one replaces it, and merging twice changes nothing more |
| Wizard.Wizard.constructor | App.tsx:13-17 | the wizard starts at step 0 with a fresh record and form key 0 |
| Wizard.Wizard.NextStep | App.tsx:40-43 | the step goes up by one, never past 3 |
| Wizard.Wizard.PrevStep | App.tsx:45-48 | the step goes down by one, never below 0 |
| Wizard.Wizard.PressForward | App.tsx:205-208 | the forward button advances exactly when it is shown and the guard holds |
| Wizard.Wizard.SetData | App.tsx:181-184 | a step's change replaces the record and nothing else |
| Wizard.Wizard.HandleNewDeclaration | App.tsx:50-58 | a refusal before the last step changes nothing; otherwise step 0, a fresh record and a new form key |
| Wizard.Wizard.LoadPreset | App.tsx:60-73 | a refusal after step 0 changes nothing; otherwise the merged record with a new id, step 2 and a new form key |
| Wizard.LoadedPresetFields | App.tsx:64-69 | a loaded record has the new id and the template's keys, and cannot leave step 2 without a purpose |
| OutputStep.StampOver | utils.ts:85-89 | a fingerprint stamped after any text is 16 hex digits, and cutting the trailer off recovers a text with that fingerprint |
| OutputStep.StampedDownloadVerifies | components/Step4_Output.tsx:130 | the stamped download is the hashed text followed by the trailer of its own fingerprint |
| OutputStep.RawFingerprintOfRawText | components/Step4_Output.tsx:17-19 | the fingerprint is taken over the bare text |
| OutputStep.FingerprintPresent | utils.ts:11 | a fingerprint is 16 characters, never empty |
| OutputStep.StampedTextDownload | components/Step4_Output.tsx:130 | with a hash the text download is the bare text and the trailer |
| OutputStep.FingerprintIgnoresId | components/Step4_Output.tsx:17-19 | the fingerprint does not depend on the declaration id |
| OutputStep.PendingText | components/Step4_Output.tsx:22-24 | while pending the preview ends with the "..." hash line and the text download has no trailer |
| OutputStep.PendingPayload | components/Step4_Output.tsx:137 | while pending the payload preview shows "..." and the payload download "pending" |
| OutputStep.ResolvedViewsAgree | components/Step4_Output.tsx:22-24 | once hashed, preview and downloads agree and the payload carries the fingerprint |
| OutputStep.LicenseBadgeIffSection | components/Step4_Output.tsx:60 | the license badge shows iff the text has a license section |
| OutputStep.OutputStep.constructor | components/Step4_Output.tsx:12-15 | the step opens on the text tab without a hash |
| OutputStep.OutputStep.ResolveHash | components/Step4_Output.tsx:17-20 | the hash becomes the bare text's fingerprint and the integrity card shows |
| OutputStep.OutputStep.SelectTab | components/Step4_Output.tsx:77 | a tab click selects the tab and keeps the hash |

## Left out

- SHA-256 and `crypto.subtle.digest` are a parameter `Sha256 = string -> Digest`. Only the hex, truncate and uppercase step is modelled. The UTF-8 encoding is folded into that parameter.
- The asynchronous hash effect and its race are not modelled. A resolved hash is one call of `ResolveHash`, and the result step is modelled from its mounting.
- Clock and randomness are parameters:
  - the id and the month and year of `getInitialDeclaration`;
  - the prompt id of `addPrompt`;
  - `generatedAt` of the payload.
- `window.confirm` is a boolean parameter.
- `window.scrollTo`, `downloadAsFile`, the clipboard, the `copied` flag with its timer, and all markup, icons and modals are browser I/O and are left out.
- `JSON.stringify` formatting is left out. The payload is a record, and an omitted license key is `LicenseField.Omitted`.
- The contents of `CC_LICENSES`, `PRESETS` and `GLOSSARY_TERMS` are not part of this model:
  - the license table is a parameter of the catalog;
  - a template is a parameter of `LoadPreset`.
- `Render.Catalog`: the generators read the site tables through a catalog parameter. Some lemmas require the site tables explicitly.
- `JsStrings.ToUpperAscii`: uppercases only ASCII letters. Unicode case mapping is left out, and accented labels keep their lower-case accented letters.
- String lengths count Dafny characters, not UTF-16 code units. This matters only in the guards on `customUsageType`, `aiTool.name` and `specificPurpose`, and in the 600-character limit, for text outside the Basic Multilingual Plane.
- `DetailsStep.UpdateDate`: takes the number `parseInt` reads. The options offer only integers, so `NaN` is left out.
- `Identification.SeedChecks`, `Identification.ChecklistStep.HandleChecklist`: the `activeChecks` dictionary is a key sequence in insertion order plus a map. The JavaScript rule that integer-like keys are listed first is left out; the checklist ids are not integer-like.
- `Identification.DominantIndex`: models the stable descending sort by its first element only, the first item of maximal priority; the rest of the sorted order is never read.
- `JsStrings.IntToString`: exponent notation of very large numbers is left out.
- `Render.GenerateDeclarationText`: computes each lookup inside the section that prints it. The source computes the lookups once, up front. The text is the same.
- The reviewer-name box is not part of the shown files. Only the role box is modelled, by `DetailsStep.SetReviewerRole`.
