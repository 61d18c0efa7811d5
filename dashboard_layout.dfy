/** The dashboard frame: the sidebar menu chosen by role (the balance in
    the header is `Records.CoinBalance`). */
module DashboardLayout {
  import opened Wrappers
  import opened Records

  /** A sidebar link: its target path and its caption. */
  datatype NavItem = NavItem(to: string, caption: string)

  const ProfilePath: string := "/dashboard/profile"
  const PaymentHistoryPath: string := "/dashboard/payment-history"

  const WorkerNav: seq<NavItem> := [
    NavItem("/dashboard/worker-home", "Home"),
    NavItem("/dashboard/task-list", "Task List"),
    NavItem("/dashboard/my-submissions", "My Submissions"),
    NavItem("/dashboard/withdrawals", "Withdrawals"),
    NavItem(PaymentHistoryPath, "Payment History"),
    NavItem(ProfilePath, "Profile")]

  const BuyerNav: seq<NavItem> := [
    NavItem("/dashboard/buyer-home", "Home"),
    NavItem("/dashboard/add-task", "Add New Task"),
    NavItem("/dashboard/my-tasks", "My Tasks"),
    NavItem("/dashboard/tasks-to-review", "Review Tasks"),
    NavItem("/dashboard/purchase-coin", "Purchase Coin"),
    NavItem(PaymentHistoryPath, "Payment History"),
    NavItem(ProfilePath, "Profile")]

  const AdminNav: seq<NavItem> := [
    NavItem("/dashboard/admin-home", "Home"),
    NavItem("/dashboard/manage-users", "Manage Users"),
    NavItem("/dashboard/manage-tasks", "Manage Tasks"),
    NavItem("/dashboard/withdraw-requests", "Withdraw Requests"),
    NavItem("/dashboard/reports", "Reports"),
    NavItem(ProfilePath, "Profile")]

  /** The menu for the signed-in user's role (`None` when nobody is signed
      in): worker and buyer get their own menus, anything else the admin's. */
  function NavFor(role: Option<string>): (nav: seq<NavItem>)
    ensures role == Some(Worker) ==> nav == WorkerNav
    ensures role == Some(Buyer) ==> nav == BuyerNav
    ensures role != Some(Worker) && role != Some(Buyer) ==> nav == AdminNav
  {
    if role == Some(Worker) then WorkerNav
    else if role == Some(Buyer) then BuyerNav
    else AdminNav
  }

  /** Whether a menu links to a path. */
  predicate Links(nav: seq<NavItem>, path: string) {
    exists i :: 0 <= i < |nav| && nav[i].to == path
  }

  /** Every menu, whatever the role, ends with the profile page. */
  lemma EveryMenuEndsWithProfile(role: Option<string>)
    ensures |NavFor(role)| > 0 && NavFor(role)[|NavFor(role)| - 1].to == ProfilePath
  {
  }

  /** Payment history is in the worker and buyer menus and not in the menu
      of any other role. */
  lemma PaymentHistoryOnlyForWorkersAndBuyers(role: Option<string>)
    ensures Links(NavFor(role), PaymentHistoryPath) <==> role == Some(Worker) || role == Some(Buyer)
  {
    if role == Some(Worker) {
      assert WorkerNav[4].to == PaymentHistoryPath;
    } else if role == Some(Buyer) {
      assert BuyerNav[5].to == PaymentHistoryPath;
    } else {
      forall i | 0 <= i < |AdminNav| ensures AdminNav[i].to != PaymentHistoryPath {
        assert |AdminNav[i].to| != |PaymentHistoryPath|;
      }
    }
  }
}
