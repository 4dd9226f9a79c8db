/** The campaign table with local-services rows
    (src/components/dashboard/CampaignTable.tsx): its sort order, the
    stepper buttons, and the inline target editor whose edits are posted
    and then reload the page. */
module LsaCampaignTable {
  import opened Wrappers
  import opened Numeric
  import opened Types
  import opened Sorting
  import opened SortPreferences
  import opened CampaignTableCommon

  /** The numeric sort key of each column (`sortedCampaigns` is
      `SortCampaigns` with it): call and message counts,
      the target CPA, and otherwise the record's own property. */
  function Key(c: Campaign, field: string): real {
    if field == "calls" then OrZero(c.callCount)
    else if field == "messages" then OrZero(c.messageCount)
    else if field == "targetCpa" then OrZero(c.targetCpa)
    else Property(c, field)
  }

  /** Sorting the calls column descending puts a campaign with the most
      calls first. */
  lemma {:induction false} MostCallsFirst(cs: seq<Campaign>)
    requires cs != []
    ensures var r := SortCampaigns(cs, Key, SortPreference("calls", Desc));
            forall c :: c in cs ==> OrZero(c.callCount) <= OrZero(r[0].callCount)
  {
    var r := SortCampaigns(cs, Key, SortPreference("calls", Desc));
    forall c | c in cs ensures OrZero(c.callCount) <= OrZero(r[0].callCount) {
      assert c in multiset(r);
      var k :| 0 <= k < |r| && r[k] == c;
      if k > 0 {
        assert Key(r[0], "calls") >= Key(r[k], "calls");
      }
    }
  }

  /** The stepper's increment: 0.5 for a CPA, 0.25 for a ROAS. */
  function StepOf(t: TargetType): (s: real)
    ensures s > 0.0
  {
    if t == Roas then 0.25 else 0.5
  }

  /** `handleIncrement`: nothing without a truthy target; a ROAS is stepped
      in hundredths, which on exact numbers is the plain sum. */
  function Increment(t: TargetInfo): (v: Option<real>)
    ensures v.Some? <==> Truthy(t.targetValue)
    ensures v.Some? ==> v.value == t.targetValue.value + StepOf(t.targetType)
  {
    if !Truthy(t.targetValue) then None
    else if t.targetType == Roas then
      Some((t.targetValue.value * 100.0 + StepOf(t.targetType) * 100.0) / 100.0)
    else Some(t.targetValue.value + StepOf(t.targetType))
  }

  /** `handleDecrement`: one step down, but never below one step. */
  function Decrement(t: TargetInfo): (v: Option<real>)
    ensures v.Some? <==> Truthy(t.targetValue)
    ensures v.Some? ==> v.value >= StepOf(t.targetType)
    ensures v.Some? ==> v.value >= t.targetValue.value - StepOf(t.targetType)
    ensures v.Some? ==> v.value == t.targetValue.value - StepOf(t.targetType) || v.value == StepOf(t.targetType)
  {
    if !Truthy(t.targetValue) then None
    else
      var step := StepOf(t.targetType);
      var lowered := if t.targetType == Roas then (t.targetValue.value * 100.0 - step * 100.0) / 100.0
                     else t.targetValue.value - step;
      Some(if lowered >= step then lowered else step)
  }

  /** A decrement undoes an increment of any target of at least one step. */
  lemma DecrementUndoesIncrement(t: TargetInfo)
    requires Truthy(t.targetValue) && t.targetValue.value >= StepOf(t.targetType)
    ensures Decrement(t.(targetValue := Increment(t))) == t.targetValue
  {
  }

  /** The row being edited and the text in its box, held as the number it
      parses to (`None` for text that is no number). */
  datatype EditingTarget = EditingTarget(id: string, value: Option<real>)

  /** The target cell: a local-services row shows its cost, the row being
      edited an input box, any other a caption with or without the stepper
      buttons. */
  datatype Cell = LsaCost(amount: real) | Input(value: Option<real>) | Label(caption: Caption, buttons: bool)

  /** The table's state: the editing row, and what it has done outside
      itself — requests posted, `onUpdateTarget` calls, page reloads. */
  class Table {
    var editingTarget: Option<EditingTarget>
    var posted: seq<(string, Payload)>
    var targetUpdates: seq<(string, real)>
    var reloads: nat
    const hasOnUpdateTarget: bool

    constructor(hasOnUpdateTarget: bool)
      ensures this.hasOnUpdateTarget == hasOnUpdateTarget
      ensures editingTarget.None? && posted == [] && targetUpdates == [] && reloads == 0
    {
      this.hasOnUpdateTarget := hasOnUpdateTarget;
      editingTarget := None;
      posted := [];
      targetUpdates := [];
      reloads := 0;
    }

    /** `renderTargetValue`. */
    function Render(c: Campaign): (cell: Cell)
      reads this
      ensures cell.LsaCost? <==> c.isLsa
      ensures cell.LsaCost? ==> cell.amount == OrZero(c.cost)
      ensures cell.Input? <==> !c.isLsa && editingTarget.Some? && editingTarget.value.id == c.id
      ensures cell.Input? ==> cell.value == editingTarget.value.value
      ensures cell.Label? ==> cell.caption == CaptionOf(Target(c))
      ensures cell.Label? ==> (cell.buttons <==> Truthy(Target(c).targetValue))
    {
      if c.isLsa then LsaCost(OrZero(c.cost))
      else if editingTarget.Some? && editingTarget.value.id == c.id then Input(editingTarget.value.value)
      else
        var t := Target(c);
        Label(CaptionOf(t), !t.isMaximize && Truthy(t.targetValue))
    }

    /** A click on the caption opens the editor with the current target,
      unless the campaign is a maximize one without a target. */
    method StartEditing(c: Campaign)
      modifies this
      ensures c.isLsa || Target(c).isMaximize ==> editingTarget == old(editingTarget)
      ensures !c.isLsa && !Target(c).isMaximize ==> editingTarget == Some(EditingTarget(c.id, Target(c).targetValue))
      ensures posted == old(posted) && targetUpdates == old(targetUpdates) && reloads == old(reloads)
    {
      if c.isLsa {
        return;
      }
      var t := Target(c);
      if !t.isMaximize {
        editingTarget := Some(EditingTarget(c.id, t.targetValue));
      }
    }

    /** Typing in the box. */
    method ChangeInput(c: Campaign, value: Option<real>)
      modifies this
      ensures editingTarget == Some(EditingTarget(c.id, value))
      ensures posted == old(posted) && targetUpdates == old(targetUpdates) && reloads == old(reloads)
    {
      editingTarget := Some(EditingTarget(c.id, value));
    }

    /** `handleTargetEdit`: `newValue` is the parsed input (`None` for
      `NaN`, which changes nothing and keeps the editor open).  A number is
      posted when the strategy names an endpoint; `responseOk` is whether
      the reply was a readable success.  On success `onUpdateTarget` is
      told the typed value and the page reloads; any failure is swallowed.
      Either way the editor closes. */
    method HandleTargetEdit(c: Campaign, newValue: Option<real>, responseOk: bool)
      modifies this
      ensures newValue.None? ==>
                editingTarget == old(editingTarget) && posted == old(posted)
                && targetUpdates == old(targetUpdates) && reloads == old(reloads)
      ensures newValue.Some? ==> editingTarget.None?
      ensures newValue.Some? ==>
                posted == old(posted) + (if Request(c, newValue.value).Some? then [Request(c, newValue.value).value] else [])
      ensures newValue.Some? ==>
                targetUpdates == old(targetUpdates)
                                 + (if Request(c, newValue.value).Some? && responseOk && hasOnUpdateTarget
                                    then [(c.id, newValue.value)] else [])
      ensures newValue.Some? ==>
                reloads == old(reloads) + (if Request(c, newValue.value).Some? && responseOk then 1 else 0)
    {
      if newValue.None? {
        return;
      }
      var numericValue := newValue.value;
      var endpoint, payload := BuildRequest(c, numericValue);
      if endpoint != "" {
        posted := posted + [(endpoint, payload)];
        if responseOk {
          if hasOnUpdateTarget {
            targetUpdates := targetUpdates + [(c.id, numericValue)];
          }
          reloads := reloads + 1;
        }
      }
      editingTarget := None;
    }

    /** The "+" button, shown only on a row with a truthy target. */
    method PressIncrement(c: Campaign, responseOk: bool)
      modifies this
      ensures c.isLsa || !Truthy(Target(c).targetValue) ==>
                editingTarget == old(editingTarget) && posted == old(posted)
                && targetUpdates == old(targetUpdates) && reloads == old(reloads)
      ensures !c.isLsa && Truthy(Target(c).targetValue) ==>
                var v := Target(c).targetValue.value + StepOf(Target(c).targetType);
                && editingTarget.None?
                && posted == old(posted) + (if Request(c, v).Some? then [Request(c, v).value] else [])
                && targetUpdates == old(targetUpdates)
                                    + (if Request(c, v).Some? && responseOk && hasOnUpdateTarget then [(c.id, v)] else [])
                && reloads == old(reloads) + (if Request(c, v).Some? && responseOk then 1 else 0)
    {
      if c.isLsa {
        return;
      }
      var t := Target(c);
      if !Truthy(t.targetValue) {
        return;
      }
      HandleTargetEdit(c, Increment(t), responseOk);
    }

    /** The "-" button. */
    method PressDecrement(c: Campaign, responseOk: bool)
      modifies this
      ensures c.isLsa || !Truthy(Target(c).targetValue) ==>
                editingTarget == old(editingTarget) && posted == old(posted)
                && targetUpdates == old(targetUpdates) && reloads == old(reloads)
      ensures !c.isLsa && Truthy(Target(c).targetValue) ==>
                var v := Decrement(Target(c)).value;
                && v >= StepOf(Target(c).targetType)
                && editingTarget.None?
                && posted == old(posted) + (if Request(c, v).Some? then [Request(c, v).value] else [])
                && targetUpdates == old(targetUpdates)
                                    + (if Request(c, v).Some? && responseOk && hasOnUpdateTarget then [(c.id, v)] else [])
                && reloads == old(reloads) + (if Request(c, v).Some? && responseOk then 1 else 0)
    {
      if c.isLsa {
        return;
      }
      var t := Target(c);
      if !Truthy(t.targetValue) {
        return;
      }
      HandleTargetEdit(c, Decrement(t), responseOk);
    }
  }
}
