/** Step 2, the usage categories: each card toggles its key in the
    declaration's `usageTypes`, and the "other" card offers a free text. */
module UsageTypeStep {
  import opened Wrappers
  import opened SeqOps
  import opened Types
  import opened Render
  import opened Payload

  /** `toggleUsageType(key)`: the record handed to `onChange`. */
  function ToggleUsageType(d: DeclarationState, key: UsageTypeKey): (r: DeclarationState)
    ensures r == d.(usageTypes := r.usageTypes)
    ensures key in r.usageTypes <==> key !in d.usageTypes
    ensures key !in d.usageTypes ==> r.usageTypes == d.usageTypes + [key]
    ensures key in d.usageTypes ==> r.usageTypes == RemoveAll(d.usageTypes, key)
  {
    d.(usageTypes := Toggle(d.usageTypes, key))
  }

  /** The custom text box, shown only while "other" is selected. */
  function SetCustomUsageType(d: DeclarationState, text: string): (r: DeclarationState)
    requires "other" in d.usageTypes
    ensures r == d.(customUsageType := r.customUsageType) && r.customUsageType == text
  {
    d.(customUsageType := text)
  }

  /** The custom text names "other" in both documents: the text shows it
      (or "Otro uso" while it is empty) and the payload carries it as the
      custom description. */
  lemma CustomTextDescribesOther(c: Catalog, d: DeclarationState, text: string, generatedAt: string, hash: string)
    requires "other" in d.usageTypes
    ensures var r := SetCustomUsageType(d, text);
      UsageLabel(c.usageTypes, r, "other") == (if text == "" then "Otro uso" else text) &&
      GenerateJson(c, r, generatedAt, hash).usage.customDescription == Some(text)
  {
    CustomDescriptionIffOther(c, SetCustomUsageType(d, text), generatedAt, hash);
  }

  /** A toggle changes the count of no key but the toggled one, which
      ends up absent or appended once. */
  lemma ToggleUsageTypeKeepsOthers(d: DeclarationState, key: UsageTypeKey)
    ensures var r := ToggleUsageType(d, key);
      multiset(r.usageTypes) == if key in d.usageTypes then multiset(d.usageTypes)[key := 0]
                                else multiset(d.usageTypes) + multiset{key}
  {
    if key in d.usageTypes {
      RemoveAllCounts(d.usageTypes, key);
    }
  }

  /** Selecting a card and deselecting it again restores the record. */
  lemma ToggleUsageTypeTwice(d: DeclarationState, key: UsageTypeKey)
    requires key !in d.usageTypes
    ensures ToggleUsageType(ToggleUsageType(d, key), key) == d
  {
    ToggleTwiceAbsent(d.usageTypes, key);
  }

  /** A duplicate-free selection stays duplicate-free. */
  lemma ToggleUsageTypeNoDuplicates(d: DeclarationState, key: UsageTypeKey)
    requires NoDuplicates(d.usageTypes)
    ensures NoDuplicates(ToggleUsageType(d, key).usageTypes)
  {
    ToggleNoDuplicates(d.usageTypes, key);
  }

  /** Deselecting "other" keeps the custom text in the record, but the
      payload no longer carries it. */
  lemma DeselectingOtherKeepsCustomText(c: Catalog, d: DeclarationState, generatedAt: string, hash: string)
    requires "other" in d.usageTypes
    ensures var r := ToggleUsageType(d, "other");
      r.customUsageType == d.customUsageType && "other" !in r.usageTypes &&
      GenerateJson(c, r, generatedAt, hash).usage.customDescription == None
  {
    CustomDescriptionIffOther(c, ToggleUsageType(d, "other"), generatedAt, hash);
  }
}
