/** Which conversion types the lead table shows, and its sort
    (src/hooks/useLeadTypePreferences.ts). */
module LeadTypePreferences {
  import opened Sorting
  import ListToggle

  datatype Preferences = Preferences(visibleTypes: seq<string>, sortField: string, sortDirection: string)

  const DefaultTypes: seq<string> :=
    ["Purchases", "Submit Lead Forms", "Converted Leads", "Phone Calls", "Qualified Leads", "Request Quotes"]

  /** The preferences stored before the user changes anything. */
  function Default(): (p: Preferences)
    ensures |p.visibleTypes| == 6 && NoDups(p.visibleTypes)
    ensures p.visibleTypes[0] == "Purchases" && p.visibleTypes[5] == "Request Quotes"
    ensures p.sortField == "count" && p.sortDirection == "desc"
  {
    Preferences(DefaultTypes, "count", "desc")
  }

  /** `toggleLeadType(type)`: the sort settings are carried over unchanged. */
  function ToggleLeadType(prev: Preferences, leadType: string): (r: Preferences)
    ensures r.sortField == prev.sortField && r.sortDirection == prev.sortDirection
    ensures leadType in r.visibleTypes <==> leadType !in prev.visibleTypes
    ensures forall t :: t != leadType ==> (t in r.visibleTypes <==> t in prev.visibleTypes)
    ensures leadType !in prev.visibleTypes ==> r.visibleTypes == prev.visibleTypes + [leadType]
    ensures leadType in prev.visibleTypes ==> r.visibleTypes == ListToggle.Without(prev.visibleTypes, leadType)
  {
    prev.(visibleTypes := ListToggle.Toggle(prev.visibleTypes, leadType))
  }

  /** Showing a hidden type and hiding it again gives back the same
      preferences. */
  lemma {:induction false} ToggleLeadTypeTwice(p: Preferences, leadType: string)
    requires leadType !in p.visibleTypes
    ensures ToggleLeadType(ToggleLeadType(p, leadType), leadType) == p
  {
    ListToggle.ToggleAbsentTwice(p.visibleTypes, leadType);
  }
}
