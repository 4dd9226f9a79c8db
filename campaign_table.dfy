/** The plain campaign table (src/components/Dashboard/CampaignTable.tsx):
    no local-services rows and no stepper buttons; a successful edit calls
    `onUpdateTarget()` after a pause instead of reloading the page. */
module CampaignTable {
  import opened Wrappers
  import opened Numeric
  import opened Types
  import opened Sorting
  import opened SortPreferences
  import opened CampaignTableCommon
  import LsaCampaignTable

  /** The numeric sort key (`sortedCampaigns` is `SortCampaigns` with it):
      the target CPA, else the record's property
      of that name. */
  function Key(c: Campaign, field: string): real {
    if field == "targetCpa" then OrZero(c.targetCpa) else Property(c, field)
  }

  /** A stored field that is not "name" and names no numeric property
      (the other table's "calls" or "messages", say: both tables read the
      preference under one storage key) gives every record the key 0, and
      the records keep the order they came in. */
  lemma {:induction false} UnknownFieldKeepsOrder(cs: seq<Campaign>, pref: SortPreference)
    requires pref.field != "name" && pref.field !in PropertyNames
    ensures SortCampaigns(cs, Key, pref) == cs
  {
    forall i, j | 0 <= i < |cs| && 0 <= j < |cs| ensures Order(Key, pref)(cs[i], cs[j]) {
      assert Key(cs[i], pref.field) == 0.0 && Key(cs[j], pref.field) == 0.0;
    }
    SortAllEquivalent(cs, Order(Key, pref));
  }

  /** On every column but the two count columns the two tables order
      campaigns identically. */
  lemma {:induction false} AgreesWithLsaTable(cs: seq<Campaign>, pref: SortPreference)
    requires pref.field != "calls" && pref.field != "messages"
    ensures SortCampaigns(cs, Key, pref) == SortCampaigns(cs, LsaCampaignTable.Key, pref)
  {
    forall a, b | a in cs && b in cs
      ensures Order(Key, pref)(a, b) == Order(LsaCampaignTable.Key, pref)(a, b)
    {
      assert Key(a, pref.field) == LsaCampaignTable.Key(a, pref.field);
      assert Key(b, pref.field) == LsaCampaignTable.Key(b, pref.field);
    }
    SortAgreeing(cs, Order(Key, pref), Order(LsaCampaignTable.Key, pref));
  }

  /** The row being edited and the number its text parses to. */
  datatype EditingTarget = EditingTarget(id: string, value: Option<real>)

  /** The target cell: the input box of the row being edited, or a caption. */
  datatype Cell = Input(value: Option<real>) | Label(caption: Caption)

  /** The table's state: the editing row, the requests posted and the
      number of `onUpdateTarget()` calls. */
  class Table {
    var editingTarget: Option<EditingTarget>
    var posted: seq<(string, Payload)>
    var updateCalls: nat
    const hasOnUpdateTarget: bool

    constructor(hasOnUpdateTarget: bool)
      ensures this.hasOnUpdateTarget == hasOnUpdateTarget
      ensures editingTarget.None? && posted == [] && updateCalls == 0
    {
      this.hasOnUpdateTarget := hasOnUpdateTarget;
      editingTarget := None;
      posted := [];
      updateCalls := 0;
    }

    /** `renderTargetValue`. */
    function Render(c: Campaign): (cell: Cell)
      reads this
      ensures cell.Input? <==> editingTarget.Some? && editingTarget.value.id == c.id
      ensures cell.Input? ==> cell.value == editingTarget.value.value
      ensures cell.Label? ==> cell.caption == CaptionOf(Target(c))
    {
      if editingTarget.Some? && editingTarget.value.id == c.id then Input(editingTarget.value.value)
      else Label(CaptionOf(Target(c)))
    }

    /** A click on the caption opens the editor, unless the campaign is a
      maximize one without a target. */
    method StartEditing(c: Campaign)
      modifies this
      ensures Target(c).isMaximize ==> editingTarget == old(editingTarget)
      ensures !Target(c).isMaximize ==> editingTarget == Some(EditingTarget(c.id, Target(c).targetValue))
      ensures posted == old(posted) && updateCalls == old(updateCalls)
    {
      var t := Target(c);
      if !t.isMaximize {
        editingTarget := Some(EditingTarget(c.id, t.targetValue));
      }
    }

    /** Typing in the box. */
    method ChangeInput(c: Campaign, value: Option<real>)
      modifies this
      ensures editingTarget == Some(EditingTarget(c.id, value))
      ensures posted == old(posted) && updateCalls == old(updateCalls)
    {
      editingTarget := Some(EditingTarget(c.id, value));
    }

    /** `handleTargetEdit`: `None` (`NaN`) changes nothing and keeps the
      editor open.  A number is posted when the strategy names an
      endpoint; after a readable success (`responseOk`) and the two-second
      pause `onUpdateTarget()` is called; failures are swallowed.  Either
      way the editor closes. */
    method HandleTargetEdit(c: Campaign, newValue: Option<real>, responseOk: bool)
      modifies this
      ensures newValue.None? ==>
                editingTarget == old(editingTarget) && posted == old(posted) && updateCalls == old(updateCalls)
      ensures newValue.Some? ==> editingTarget.None?
      ensures newValue.Some? ==>
                posted == old(posted) + (if Request(c, newValue.value).Some? then [Request(c, newValue.value).value] else [])
      ensures newValue.Some? ==>
                updateCalls == old(updateCalls)
                               + (if Request(c, newValue.value).Some? && responseOk && hasOnUpdateTarget then 1 else 0)
    {
      if newValue.None? {
        return;
      }
      var numericValue := newValue.value;
      var endpoint, payload := BuildRequest(c, numericValue);
      if endpoint != "" {
        posted := posted + [(endpoint, payload)];
        if responseOk && hasOnUpdateTarget {
          updateCalls := updateCalls + 1;
        }
      }
      editingTarget := None;
    }
  }
}
