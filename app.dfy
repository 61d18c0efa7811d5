/** The route table of the client: which screen each path shows and which
    roles its guard lists, with the catch-all that sends unknown paths home. */
module App {
  import opened Wrappers
  import opened Records
  import DashboardLayout
  import DashboardIndex
  import ManageUsers

  datatype Screen =
    | HomeScreen | LoginScreen | RegisterScreen | DashboardIndexScreen
    | WorkerHome | TaskList | TaskDetails | MySubmissions | Withdrawals
    | BuyerHome | AddTask | MyTasks | TasksToReview | PurchaseCoin | PaymentHistory
    | AdminHome | ManageUsers | ManageTasks | WithdrawRequests | Reports | Profile

  /** A route's guard: whether it sits under the dashboard's sign-in guard,
      and the `allowedRoles` list of its own guard, if it has one. */
  datatype Access = Access(signedIn: bool, roles: Option<seq<string>>)

  const Public: Access := Access(false, None)
  const Dashboard: Access := Access(true, None)

  function Only(roles: seq<string>): Access {
    Access(true, Some(roles))
  }

  /** A path pattern: a fixed path, or a fixed prefix followed by one
      non-empty segment (`:id`). */
  datatype Pattern = Exact(path: string) | WithId(prefix: string)

  datatype Route = Route(pattern: Pattern, screen: Screen, access: Access)

  const Routes: seq<Route> := [
    Route(Exact("/"), HomeScreen, Public),
    Route(Exact("/login"), LoginScreen, Public),
    Route(Exact("/register"), RegisterScreen, Public),
    Route(Exact("/dashboard"), DashboardIndexScreen, Dashboard),
    Route(Exact("/dashboard/worker-home"), WorkerHome, Only([Worker])),
    Route(Exact("/dashboard/task-list"), TaskList, Only([Worker])),
    Route(WithId("/dashboard/task-details/"), TaskDetails, Only([Worker])),
    Route(Exact("/dashboard/my-submissions"), MySubmissions, Only([Worker])),
    Route(Exact("/dashboard/withdrawals"), Withdrawals, Only([Worker])),
    Route(Exact("/dashboard/buyer-home"), BuyerHome, Only([Buyer])),
    Route(Exact("/dashboard/add-task"), AddTask, Only([Buyer])),
    Route(Exact("/dashboard/my-tasks"), MyTasks, Only([Buyer])),
    Route(Exact("/dashboard/tasks-to-review"), TasksToReview, Only([Buyer])),
    Route(Exact("/dashboard/purchase-coin"), PurchaseCoin, Only([Buyer])),
    Route(Exact("/dashboard/payment-history"), PaymentHistory, Only([Buyer, Worker])),
    Route(Exact("/dashboard/admin-home"), AdminHome, Only([Admin])),
    Route(Exact("/dashboard/manage-users"), ManageUsers, Only([Admin])),
    Route(Exact("/dashboard/manage-tasks"), ManageTasks, Only([Admin])),
    Route(Exact("/dashboard/withdraw-requests"), WithdrawRequests, Only([Admin])),
    Route(Exact("/dashboard/reports"), Reports, Only([Admin])),
    Route(Exact("/dashboard/profile"), Profile, Dashboard)]

  predicate Matches(p: Pattern, url: string) {
    match p
    case Exact(path) => url == path
    case WithId(prefix) =>
      |url| > |prefix| && url[..|prefix|] == prefix && '/' !in url[|prefix|..]
  }

  /** The position of the first route whose pattern matches. */
  function Find(routes: seq<Route>, url: string): (r: Option<nat>)
    ensures r.None? <==> forall i :: 0 <= i < |routes| ==> !Matches(routes[i].pattern, url)
    ensures r.Some? ==> r.value < |routes| && Matches(routes[r.value].pattern, url)
    ensures r.Some? ==> forall j :: 0 <= j < r.value ==> !Matches(routes[j].pattern, url)
  {
    if routes == [] then None
    else if Matches(routes[0].pattern, url) then Some(0)
    else
      match Find(routes[1..], url)
      case None => None
      case Some(k) => Some(k + 1)
  }

  datatype Resolution = Show(screen: Screen, access: Access) | RedirectHome

  /** The screen and guard for a path; a path no route matches is
      redirected to `/` (`<Navigate to="/" replace />`). */
  function Resolve(url: string): (r: Resolution)
    ensures r == RedirectHome <==> forall i :: 0 <= i < |Routes| ==> !Matches(Routes[i].pattern, url)
  {
    match Find(Routes, url)
    case None => RedirectHome
    case Some(i) => Show(Routes[i].screen, Routes[i].access)
  }

  /** Whether a guard lets a user with role `role` through, reading the
      table alone: a listed role, or no list at all. */
  predicate Admits(a: Access, role: string) {
    a.roles.None? || role in a.roles.value
  }

  /** The first matching route is the one at `k` when it matches and no
      earlier one does. */
  lemma FindAt(routes: seq<Route>, url: string, k: nat)
    requires k < |routes| && Matches(routes[k].pattern, url)
    requires forall j :: 0 <= j < k ==> !Matches(routes[j].pattern, url)
    ensures Find(routes, url) == Some(k)
  {
  }

  /** No fixed path of the table is also a task-details path. */
  lemma FixedPathsHaveNoId(k: nat)
    requires k < |Routes| && Routes[k].pattern.Exact?
    ensures !Matches(Routes[6].pattern, Routes[k].pattern.path)
  {
    var url := Routes[k].pattern.path;
    if |url| > 24 {
      assert url[11] != 't' || url[15] != '-';
    }
  }

  /** A fixed path of the table resolves to its own route. */
  lemma ResolveExact(k: nat)
    requires k < |Routes| && Routes[k].pattern.Exact?
    ensures Resolve(Routes[k].pattern.path) == Show(Routes[k].screen, Routes[k].access)
  {
    var url := Routes[k].pattern.path;
    ExactPathsDistinct();
    forall j | 0 <= j < k ensures !Matches(Routes[j].pattern, url) {
      if j == 6 {
        FixedPathsHaveNoId(k);
      }
    }
    FindAt(Routes, url, k);
  }

  /** No two fixed paths of the table are equal. */
  lemma ExactPathsDistinct()
    ensures forall i, j :: 0 <= i < j < |Routes| && Routes[i].pattern.Exact? && Routes[j].pattern.Exact? ==>
      Routes[i].pattern.path != Routes[j].pattern.path
  {
  }

  /** worker-home, task-list, task-details/:id, my-submissions and
      withdrawals are exactly the routes that admit workers only. */
  lemma WorkerOnlyRoutes()
    ensures forall i :: 0 <= i < |Routes| ==>
      (Routes[i].access == Only([Worker]) <==>
       Routes[i].screen in {WorkerHome, TaskList, TaskDetails, MySubmissions, Withdrawals})
  {
  }

  /** buyer-home, add-task, my-tasks, tasks-to-review and purchase-coin are
      exactly the routes that admit buyers only. */
  lemma BuyerOnlyRoutes()
    ensures forall i :: 0 <= i < |Routes| ==>
      (Routes[i].access == Only([Buyer]) <==>
       Routes[i].screen in {BuyerHome, AddTask, MyTasks, TasksToReview, PurchaseCoin})
  {
  }

  /** admin-home, manage-users, manage-tasks, withdraw-requests and reports
      are exactly the routes that admit admins only. */
  lemma AdminOnlyRoutes()
    ensures forall i :: 0 <= i < |Routes| ==>
      (Routes[i].access == Only([Admin]) <==>
       Routes[i].screen in {AdminHome, ManageUsers, ManageTasks, WithdrawRequests, Reports})
  {
  }

  /** Payment history admits buyers and workers and nobody else; the profile
      and the dashboard index carry only the dashboard's sign-in guard; the
      home, login and register pages sit outside it. */
  lemma SharedAndOpenRoutes()
    ensures forall i :: 0 <= i < |Routes| && Routes[i].screen == PaymentHistory ==>
      Routes[i].access == Only([Buyer, Worker]) &&
      forall r :: Admits(Routes[i].access, r) <==> r == Buyer || r == Worker
    ensures forall i :: 0 <= i < |Routes| ==>
      (Routes[i].access == Dashboard <==> Routes[i].screen in {Profile, DashboardIndexScreen})
    ensures forall i :: 0 <= i < |Routes| ==>
      (!Routes[i].access.signedIn <==> Routes[i].screen in {HomeScreen, LoginScreen, RegisterScreen})
  {
  }

  /** Every task-details link, whatever the id, reaches the task-details
      screen, for workers only. */
  lemma ResolveTaskDetails(id: string)
    requires id != [] && '/' !in id
    ensures Resolve("/dashboard/task-details/" + id) == Show(TaskDetails, Only([Worker]))
  {
    var url := "/dashboard/task-details/" + id;
    assert url[..24] == "/dashboard/task-details/" && url[24..] == id;
    forall j | 0 <= j < 6 ensures !Matches(Routes[j].pattern, url) {
      assert |url| > 24;
    }
    FindAt(Routes, url, 6);
  }

  predicate Rooted(p: Pattern) {
    match p
    case Exact(path) => |path| > 0 && path[0] == '/'
    case WithId(prefix) => |prefix| > 0 && prefix[0] == '/'
  }

  lemma RoutesRooted()
    ensures forall i :: 0 <= i < |Routes| ==> Rooted(Routes[i].pattern)
  {
  }

  /** A path that does not start with `/` matches no route and is sent home. */
  lemma RelativePathRedirects(url: string)
    requires url == [] || url[0] != '/'
    ensures Resolve(url) == RedirectHome
  {
    RoutesRooted();
    forall i | 0 <= i < |Routes| ensures !Matches(Routes[i].pattern, url) {
    }
  }

  /** A menu whose every entry is the fixed path of a signed-in route
      admitting `r` (at the positions `at`) only links to such routes. */
  lemma MenuResolves(nav: seq<DashboardLayout.NavItem>, at: seq<nat>, r: string)
    requires |at| == |nav|
    requires forall i :: 0 <= i < |nav| ==>
      at[i] < |Routes| && Routes[at[i]].pattern == Exact(nav[i].to) &&
      Routes[at[i]].access.signedIn && Admits(Routes[at[i]].access, r)
    ensures forall i :: 0 <= i < |nav| ==>
      var res := Resolve(nav[i].to);
      res.Show? && res.access.signedIn && Admits(res.access, r)
  {
    forall i | 0 <= i < |nav|
      ensures var res := Resolve(nav[i].to); res.Show? && res.access.signedIn && Admits(res.access, r)
    {
      ResolveExact(at[i]);
    }
  }

  /** For each of the three roles, every entry of its sidebar menu is a
      route whose guard admits that role. */
  lemma MenuEntriesAdmitRole(r: string)
    requires r == Worker || r == Buyer || r == Admin
    ensures forall i :: 0 <= i < |DashboardLayout.NavFor(Some(r))| ==>
      var res := Resolve(DashboardLayout.NavFor(Some(r))[i].to);
      res.Show? && res.access.signedIn && Admits(res.access, r)
  {
    if r == Worker {
      WorkerMenuPositions();
    } else if r == Buyer {
      BuyerMenuPositions();
    } else {
      AdminMenuPositions();
    }
  }

  lemma WorkerMenuPositions()
    ensures forall i :: 0 <= i < |DashboardLayout.WorkerNav| ==>
      var res := Resolve(DashboardLayout.WorkerNav[i].to);
      res.Show? && res.access.signedIn && Admits(res.access, Worker)
  {
    MenuResolves(DashboardLayout.WorkerNav, [4, 5, 7, 8, 14, 20], Worker);
  }

  lemma BuyerMenuPositions()
    ensures forall i :: 0 <= i < |DashboardLayout.BuyerNav| ==>
      var res := Resolve(DashboardLayout.BuyerNav[i].to);
      res.Show? && res.access.signedIn && Admits(res.access, Buyer)
  {
    MenuResolves(DashboardLayout.BuyerNav, [9, 10, 11, 12, 13, 14, 20], Buyer);
  }

  lemma AdminMenuPositions()
    ensures forall i :: 0 <= i < |DashboardLayout.AdminNav| ==>
      var res := Resolve(DashboardLayout.AdminNav[i].to);
      res.Show? && res.access.signedIn && Admits(res.access, Admin)
  {
    MenuResolves(DashboardLayout.AdminNav, [15, 16, 17, 18, 19, 20], Admin);
  }

  /** The home page each role is redirected to is a route admitting it. */
  lemma HomeRedirectAdmitsRole(r: string)
    requires r == Worker || r == Buyer || r == Admin
    ensures DashboardIndex.Home(Some(r)).Redirect?
    ensures var res := Resolve(DashboardIndex.Home(Some(r)).to);
      res.Show? && Admits(res.access, r)
  {
    var k := if r == Worker then 4 else if r == Buyer then 9 else 15;
    assert Routes[k].pattern == Exact(DashboardIndex.Home(Some(r)).to);
    ResolveExact(k);
  }

  /** Every role an admin can assign has a home page to be sent to. */
  lemma AssignableRolesHaveHomes()
    ensures forall r :: r in ManageUsers.SelectableRoles ==> DashboardIndex.Home(Some(r)).Redirect?
  {
  }
}
