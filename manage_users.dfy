/** The admin's user table: changing a user's role and removing a user,
    both keyed on the email address. */
module ManageUsers {
  import opened Wrappers
  import opened Records
  import opened Lists

  /** The listed users and the email whose role selector is open. */
  datatype State = State(users: seq<User>, roleEdit: Option<string>)

  /** The options of the role selector, in the order shown. */
  const SelectableRoles: seq<string> := [Admin, Buyer, Worker]

  /** The selector offers each of the three roles exactly once. */
  lemma SelectableRolesAreTheThreeRoles()
    ensures forall r :: r in SelectableRoles <==> r == Admin || r == Buyer || r == Worker
    ensures |SelectableRoles| == 3 && Admin != Buyer && Buyer != Worker && Admin != Worker
  {
  }

  function WithRole(role: string): User -> User {
    (u: User) => u.(role := role)
  }

  /** `PATCH /users/<email>/role` with the new role. */
  datatype RoleRequest = RoleRequest(email: string, role: string)

  datatype RoleStep = RoleStep(state: State, sent: RoleRequest)

  /** `handleRoleChange`: the request is always sent; a success sets the role
      on the users with that email and closes the selector. */
  function ChangeRole(s: State, email: string, role: string, ok: bool): (r: RoleStep)
    ensures r.sent == RoleRequest(email, role)
    ensures ok ==> r.state == State(UpdateKey(s.users, UserEmail, email, WithRole(role)), None)
    ensures !ok ==> r.state == s
  {
    var request := RoleRequest(email, role);
    if ok then RoleStep(State(UpdateKey(s.users, UserEmail, email, WithRole(role)), None), request)
    else RoleStep(s, request)
  }

  /** A successful role change gives the users with that email the new role
      and changes no other field and no other user. */
  lemma RoleChangeTouchesOnlyThatUser(s: State, email: string, role: string, i: nat)
    requires i < |s.users|
    ensures var u := ChangeRole(s, email, role, true).state.users;
      |u| == |s.users| &&
      (s.users[i].email == email ==> u[i].role == role && u[i].(role := s.users[i].role) == s.users[i]) &&
      (s.users[i].email != email ==> u[i] == s.users[i])
  {
  }

  /** A role change never adds, drops or reorders users: the emails stay as
      they were, position by position. */
  lemma RoleChangeKeepsEmails(s: State, email: string, role: string, ok: bool, i: nat)
    requires i < |s.users|
    ensures var u := ChangeRole(s, email, role, ok).state.users;
      |u| == |s.users| && u[i].email == s.users[i].email
  {
  }

  datatype RemoveStep = RemoveStep(state: State, sent: Option<string>)

  /** `handleRemove`: nothing unless the admin confirms; then the email is
      sent, and a success drops the users with that email. */
  function Remove(s: State, email: string, confirmed: bool, ok: bool): (r: RemoveStep)
    ensures r.sent.Some? <==> confirmed
    ensures confirmed ==> r.sent == Some(email)
    ensures confirmed && ok ==> r.state == s.(users := RemoveKey(s.users, UserEmail, email))
    ensures !(confirmed && ok) ==> r.state == s
  {
    if !confirmed then RemoveStep(s, None)
    else if ok then RemoveStep(s.(users := RemoveKey(s.users, UserEmail, email)), Some(email))
    else RemoveStep(s, Some(email))
  }

  /** A confirmed, successful removal keeps exactly the users with other
      emails. */
  lemma RemoveMembers(s: State, email: string, x: User)
    ensures x in Remove(s, email, true, true).state.users <==> x in s.users && x.email != email
  {
    RemoveKeyMembers(s.users, UserEmail, email, x);
  }

  /** With distinct emails, removing the i-th user drops that entry only
      and keeps the others in their order. */
  lemma RemoveDropsOne(s: State, i: nat)
    requires UniqueKeys(s.users, UserEmail) && i < |s.users|
    ensures Remove(s, s.users[i].email, true, true).state.users == s.users[..i] + s.users[i + 1..]
  {
    RemoveKeyAt(s.users, UserEmail, i);
  }
}
