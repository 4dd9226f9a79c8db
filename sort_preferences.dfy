/** The table sort preference kept in local storage
    (src/hooks/useSortPreferences.ts). */
module SortPreferences {

  datatype SortDirection = Asc | Desc

  /** `SortPreference<T>`; the field is the column key the table passes. */
  datatype SortPreference = SortPreference(field: string, direction: SortDirection)

  /** The stored preference before the user clicks any column. */
  function Default(): (p: SortPreference)
    ensures p.field == "cost" && p.direction == Desc
  {
    SortPreference("cost", Desc)
  }

  /** `toggleSort(field)`: clicking a column sorts by it, descending first,
      and clicking the same column again flips the direction. */
  function ToggleSort(prev: SortPreference, field: string): (r: SortPreference)
    ensures r.field == field
    ensures prev.field != field ==> r.direction == Desc
    ensures prev.field == field ==> r.direction != prev.direction
  {
    SortPreference(field, if prev.field == field && prev.direction == Desc then Asc else Desc)
  }

  /** Two clicks on the sorted column give back the preference it had. */
  lemma ToggleSortTwice(p: SortPreference)
    ensures ToggleSort(ToggleSort(p, p.field), p.field) == p
  {
  }

  /** Two clicks on another column always leave it sorted ascending, whatever
      the preference was. */
  lemma ToggleOtherTwice(p: SortPreference, field: string)
    requires p.field != field
    ensures ToggleSort(ToggleSort(p, field), field) == SortPreference(field, Asc)
  {
  }
}
