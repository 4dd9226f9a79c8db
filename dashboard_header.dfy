/** The dashboard header's account picker and refresh button
    (src/components/Dashboard/DashboardHeader.tsx). */
module DashboardHeader {
  import ListToggle

  /** `handleAccountToggle(accountId)`: the list handed to `onAccountsChange`. */
  function HandleAccountToggle(selectedAccounts: seq<string>, accountId: string): (r: seq<string>)
    ensures accountId in r <==> accountId !in selectedAccounts
    ensures forall id :: id != accountId ==> (id in r <==> id in selectedAccounts)
    ensures accountId !in selectedAccounts ==> r == selectedAccounts + [accountId]
    ensures accountId in selectedAccounts ==> r == ListToggle.Without(selectedAccounts, accountId)
    ensures accountId in selectedAccounts ==> multiset(r) == multiset(selectedAccounts)[accountId := 0]
  {
    ListToggle.WithoutCounts(selectedAccounts, accountId);
    ListToggle.Toggle(selectedAccounts, accountId)
  }

  /** Selecting an account and deselecting it again restores the selection. */
  lemma {:induction false} AccountToggleTwice(selectedAccounts: seq<string>, accountId: string)
    requires accountId !in selectedAccounts
    ensures HandleAccountToggle(HandleAccountToggle(selectedAccounts, accountId), accountId) == selectedAccounts
  {
    ListToggle.ToggleAbsentTwice(selectedAccounts, accountId);
  }

  /** The callbacks `handleRefresh` invokes, in order. */
  datatype Effect = OnRefresh | RefreshSalesforceData(dateRange: string)

  function HandleRefresh(dateRange: string): (effects: seq<Effect>)
    ensures |effects| == 2
    ensures effects[0] == OnRefresh
    ensures effects[1] == RefreshSalesforceData(dateRange)
  {
    [OnRefresh, RefreshSalesforceData(dateRange)]
  }
}
