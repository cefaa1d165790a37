/** Step 1, the diagnostic checklist. The ticked questions are an ordered
    boolean dictionary (`Record<string, boolean>`: its keys keep insertion
    order); each click flips one flag and derives the chosen ids and a
    single dominant usage key for the declaration. */
module Identification {
  import opened Wrappers
  import opened SeqOps
  import opened Types
  import opened Constants

  /** A dictionary entry read as a condition: a missing key reads as
      `undefined`, which is falsy. */
  function FlagOf(flags: map<string, bool>, id: string): bool {
    id in flags && flags[id]
  }

  /** The distinct ids in order of first occurrence: the key order of a
      dictionary filled from `ids`. */
  function Dedup(ids: seq<string>): (r: seq<string>)
    ensures NoDuplicates(r)
    ensures forall x :: x in r <==> x in ids
  {
    if |ids| == 0 then []
    else
      var front := ids[..|ids| - 1];
      assert ids == front + [ids[|ids| - 1]];
      var r := Dedup(front);
      if ids[|ids| - 1] in r then r else r + [ids[|ids| - 1]]
  }

  /** The initializer of `activeChecks`: every id already chosen is ticked,
      in the order the dictionary receives them. */
  method SeedChecks(ids: seq<string>) returns (keys: seq<string>, flags: map<string, bool>)
    ensures keys == Dedup(ids)
    ensures forall id :: id in flags <==> id in keys
    ensures forall id :: FlagOf(flags, id) <==> id in ids
  {
    keys, flags := [], map[];
    if |ids| > 0 {
      var i := 0;
      while i < |ids|
        invariant 0 <= i <= |ids|
        invariant keys == Dedup(ids[..i])
        invariant forall id :: id in flags <==> id in keys
        invariant forall id :: id in flags ==> flags[id]
      {
        assert ids[..i + 1][..i] == ids[..i];
        if ids[i] !in flags {
          keys := keys + [ids[i]];
        }
        flags := flags[ids[i] := true];
        i := i + 1;
      }
    }
    assert ids[..|ids|] == ids;
  }

  /** `Object.keys(checks).filter(id => checks[id])`. */
  function CheckedIds(keys: seq<string>, flags: map<string, bool>): seq<string> {
    if |keys| == 0 then []
    else (if FlagOf(flags, keys[0]) then [keys[0]] else []) + CheckedIds(keys[1..], flags)
  }

  /** The checked ids are exactly the keys whose flag is true. */
  lemma {:induction false} CheckedIdsAreTicked(keys: seq<string>, flags: map<string, bool>)
    ensures forall x :: x in CheckedIds(keys, flags) <==> x in keys && FlagOf(flags, x)
  {
    if |keys| > 0 {
      CheckedIdsAreTicked(keys[1..], flags);
      assert keys == [keys[0]] + keys[1..];
    }
  }

  /** `checklist.filter(i => ids.includes(i.id))`: the ticked items, in table order. */
  function CheckedItems(checklist: seq<ChecklistItem>, ids: seq<string>): seq<ChecklistItem> {
    if |checklist| == 0 then []
    else (if checklist[0].id in ids then [checklist[0]] else []) + CheckedItems(checklist[1..], ids)
  }

  /** The ticked items are the table items whose id is ticked. */
  lemma {:induction false} CheckedItemsAreTicked(checklist: seq<ChecklistItem>, ids: seq<string>)
    ensures forall x :: x in CheckedItems(checklist, ids) <==> x in checklist && x.id in ids
  {
    if |checklist| > 0 {
      CheckedItemsAreTicked(checklist[1..], ids);
      assert checklist == [checklist[0]] + checklist[1..];
    }
  }

  /** The first ticked item is the first table item whose id is ticked. */
  lemma {:induction false} CheckedItemsHead(checklist: seq<ChecklistItem>, ids: seq<string>)
    requires CheckedItems(checklist, ids) != []
    ensures exists k :: (0 <= k < |checklist| && checklist[k].id in ids &&
      CheckedItems(checklist, ids)[0] == checklist[k] && forall j :: 0 <= j < k ==> checklist[j].id !in ids)
  {
    if checklist[0].id !in ids {
      CheckedItemsHead(checklist[1..], ids);
      var k :| 0 <= k < |checklist[1..]| && checklist[1..][k].id in ids &&
        CheckedItems(checklist[1..], ids)[0] == checklist[1..][k] &&
        forall j :: 0 <= j < k ==> checklist[1..][j].id !in ids;
      assert forall j :: 0 <= j < k + 1 ==> checklist[j].id !in ids by {
        forall j | 0 <= j < k + 1 ensures checklist[j].id !in ids {
          if j > 0 { assert checklist[j] == checklist[1..][j - 1]; }
        }
      }
      assert checklist[k + 1] == checklist[1..][k];
    }
  }

  /** Priorities that strictly decrease along a sequence. */
  predicate PrioritiesDecrease(items: seq<ChecklistItem>) {
    forall i, j :: 0 <= i < j < |items| ==> items[i].priority > items[j].priority
  }

  /** Filtering keeps strictly decreasing priorities decreasing. */
  lemma {:induction false} CheckedItemsDecrease(checklist: seq<ChecklistItem>, ids: seq<string>)
    requires PrioritiesDecrease(checklist)
    ensures PrioritiesDecrease(CheckedItems(checklist, ids))
  {
    if |checklist| > 0 {
      var rest := CheckedItems(checklist[1..], ids);
      CheckedItemsDecrease(checklist[1..], ids);
      CheckedItemsAreTicked(checklist[1..], ids);
      assert forall x :: x in rest ==> x.priority < checklist[0].priority by {
        forall x | x in rest ensures x.priority < checklist[0].priority {
          var j :| 0 <= j < |checklist[1..]| && checklist[1..][j] == x;
          assert checklist[j + 1] == x;
        }
      }
      assert forall i :: 0 <= i < |rest| ==> rest[i] in rest;
    }
  }

  /** The item `sortedItems[0]` names: the first item of highest priority,
      which is what a stable sort on descending priority puts first. */
  function DominantIndex(items: seq<ChecklistItem>): (k: nat)
    requires |items| > 0
    ensures k < |items|
    ensures forall j :: 0 <= j < |items| ==> items[j].priority <= items[k].priority
    ensures forall j :: 0 <= j < k ==> items[j].priority < items[k].priority
  {
    if |items| == 1 then 0
    else
      var k := DominantIndex(items[..|items| - 1]);
      if items[|items| - 1].priority > items[k].priority then |items| - 1 else k
  }

  /** With strictly decreasing priorities the dominant item is the first. */
  lemma DominantOfDecreasing(items: seq<ChecklistItem>)
    requires |items| > 0 && PrioritiesDecrease(items)
    ensures DominantIndex(items) == 0
  {
    var k := DominantIndex(items);
    assert items[0].priority <= items[k].priority;
  }

  /** `handleChecklist` once the flags are updated: the record handed to
      `onChange`. No ticked table item clears both the ids and the usage
      keys; otherwise the usage keys become the dominant item's suggestion. */
  function Classify(checklist: seq<ChecklistItem>, d: DeclarationState, keys: seq<string>, flags: map<string, bool>): (r: DeclarationState)
    ensures r == d.(selectedChecklistIds := r.selectedChecklistIds, usageTypes := r.usageTypes)
    ensures |r.usageTypes| <= 1
    ensures r.usageTypes == [] <==> r.selectedChecklistIds == []
  {
    var checkedIds := CheckedIds(keys, flags);
    var checkedItems := CheckedItems(checklist, checkedIds);
    if |checkedItems| == 0 then d.(selectedChecklistIds := [], usageTypes := [])
    else
      CheckedItemsAreTicked(checklist, checkedIds);
      assert checkedItems[0] in checkedItems;
      d.(selectedChecklistIds := checkedIds, usageTypes := [checkedItems[DominantIndex(checkedItems)].suggests])
  }

  /** The chosen ids are exactly the ticked keys, unless no ticked key names
      a table item, in which case both the ids and the usage keys are cleared. */
  lemma SelectionIsTickedKeys(checklist: seq<ChecklistItem>, d: DeclarationState, keys: seq<string>, flags: map<string, bool>)
    ensures var r := Classify(checklist, d, keys, flags);
      CheckedItems(checklist, CheckedIds(keys, flags)) == [] ==> r.selectedChecklistIds == [] && r.usageTypes == []
    ensures var r := Classify(checklist, d, keys, flags);
      CheckedItems(checklist, CheckedIds(keys, flags)) != [] ==>
        forall x :: x in r.selectedChecklistIds <==> x in keys && FlagOf(flags, x)
  {
    CheckedIdsAreTicked(keys, flags);
  }

  /** The usage key chosen is the suggestion of a ticked item and no ticked
      item has a higher priority. */
  lemma DominantHasTopPriority(checklist: seq<ChecklistItem>, d: DeclarationState, keys: seq<string>, flags: map<string, bool>)
    requires Classify(checklist, d, keys, flags).usageTypes != []
    ensures exists k :: (0 <= k < |checklist| && FlagOf(flags, checklist[k].id) && checklist[k].id in keys &&
      Classify(checklist, d, keys, flags).usageTypes == [checklist[k].suggests] &&
      forall j :: 0 <= j < |checklist| && FlagOf(flags, checklist[j].id) && checklist[j].id in keys ==>
        checklist[j].priority <= checklist[k].priority)
  {
    var ids := CheckedIds(keys, flags);
    var items := CheckedItems(checklist, ids);
    CheckedIdsAreTicked(keys, flags);
    CheckedItemsAreTicked(checklist, ids);
    var top := items[DominantIndex(items)];
    assert top in items;
    var k :| 0 <= k < |checklist| && checklist[k] == top;
    forall j | 0 <= j < |checklist| && FlagOf(flags, checklist[j].id) && checklist[j].id in keys
      ensures checklist[j].priority <= checklist[k].priority
    {
      assert checklist[j] in items;
    }
  }

  /** On the site checklist, whose priorities decrease, the usage key chosen
      is the suggestion of the first ticked question in table order. */
  lemma SiteDominantIsFirstTicked(d: DeclarationState, keys: seq<string>, flags: map<string, bool>)
    requires Classify(HELP_CHECKLIST, d, keys, flags).usageTypes != []
    ensures exists k :: (0 <= k < |HELP_CHECKLIST| && FlagOf(flags, HELP_CHECKLIST[k].id) && HELP_CHECKLIST[k].id in keys &&
      Classify(HELP_CHECKLIST, d, keys, flags).usageTypes == [HELP_CHECKLIST[k].suggests] &&
      forall j :: 0 <= j < k ==> !(FlagOf(flags, HELP_CHECKLIST[j].id) && HELP_CHECKLIST[j].id in keys))
  {
    var ids := CheckedIds(keys, flags);
    var items := CheckedItems(HELP_CHECKLIST, ids);
    CheckedIdsAreTicked(keys, flags);
    ChecklistPrioritiesDecrease();
    CheckedItemsDecrease(HELP_CHECKLIST, ids);
    DominantOfDecreasing(items);
    CheckedItemsHead(HELP_CHECKLIST, ids);
  }

  /** The flag of the clicked question flips; every other flag stays. */
  function ToggleFlag(flags: map<string, bool>, id: string): (r: map<string, bool>)
    ensures FlagOf(r, id) == !FlagOf(flags, id)
    ensures forall other :: other != id ==> FlagOf(r, other) == FlagOf(flags, other)
    ensures r.Keys == flags.Keys + {id}
  {
    flags[id := !FlagOf(flags, id)]
  }

  /** The state of the checklist step: the `activeChecks` dictionary. */
  class ChecklistStep {
    /** The dictionary's keys, in insertion order. */
    var keys: seq<string>
    var flags: map<string, bool>

    ghost predicate Valid()
      reads this
    {
      NoDuplicates(keys) && forall id :: id in flags <==> id in keys
    }

    /** Mounting the step over the current declaration. */
    constructor (data: DeclarationState)
      ensures Valid()
      ensures keys == Dedup(data.selectedChecklistIds)
      ensures forall id :: FlagOf(flags, id) <==> id in data.selectedChecklistIds
    {
      var initialKeys, initial := SeedChecks(data.selectedChecklistIds);
      keys, flags := initialKeys, initial;
    }

    /** `handleChecklist(item)`: flip the item's flag, keep the new
        dictionary, and return the record passed to `onChange`. A key seen
        for the first time goes last. */
    method HandleChecklist(data: DeclarationState, item: ChecklistItem) returns (next: DeclarationState)
      requires Valid()
      modifies this
      ensures Valid()
      ensures keys == if item.id in old(flags) then old(keys) else old(keys) + [item.id]
      ensures flags == ToggleFlag(old(flags), item.id)
      ensures next == Classify(HELP_CHECKLIST, data, keys, flags)
    {
      var newChecks := ToggleFlag(flags, item.id);
      if item.id !in flags {
        keys := keys + [item.id];
      }
      flags := newChecks;
      next := Classify(HELP_CHECKLIST, data, keys, flags);
    }
  }
}
