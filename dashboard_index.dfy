/** The dashboard's index page: sends each role to its home page. */
module DashboardIndex {
  import opened Wrappers
  import opened Records

  datatype Outcome =
    | Nothing                                // no user: render nothing
    | Redirect(to: string, replace: bool)    // `<Navigate to=... replace />`
    | RoleMissingPanel                       // "Account Role Missing"

  const WorkerHomePath: string := "/dashboard/worker-home"
  const BuyerHomePath: string := "/dashboard/buyer-home"
  const AdminHomePath: string := "/dashboard/admin-home"

  /** The decision for the signed-in user's role (`None` when nobody is
      signed in). */
  function Home(role: Option<string>): (o: Outcome)
    ensures role.None? <==> o == Nothing
    ensures role == Some(Worker) <==> o == Redirect(WorkerHomePath, true)
    ensures role == Some(Buyer) <==> o == Redirect(BuyerHomePath, true)
    ensures role == Some(Admin) <==> o == Redirect(AdminHomePath, true)
    ensures o == RoleMissingPanel <==> role.Some? && role.value !in {Worker, Buyer, Admin}
  {
    if role.None? then Nothing
    else if role.value == Worker then Redirect(WorkerHomePath, true)
    else if role.value == Buyer then Redirect(BuyerHomePath, true)
    else if role.value == Admin then Redirect(AdminHomePath, true)
    else RoleMissingPanel
  }

  /** Every redirect replaces the history entry. */
  lemma RedirectsReplace(role: Option<string>)
    ensures Home(role).Redirect? ==> Home(role).replace
  {
  }

  /** Distinct roles are sent to distinct home pages. */
  lemma HomesDistinct(r1: string, r2: string)
    requires Home(Some(r1)).Redirect? && Home(Some(r2)).Redirect?
    ensures Home(Some(r1)) == Home(Some(r2)) <==> r1 == r2
  {
  }
}
