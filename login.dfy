/** Login: the checks made before signing in, where the user lands
    afterwards, and the profile stored when the server has none. */
module Login {
  import opened Wrappers
  import opened Text
  import opened Records
  import opened EmailFormat
  import Register

  /** The messages of the login form, in the order they are checked. */
  datatype LoginError =
    | FirebaseNotConfigured  // "Firebase is not configured. ..."
    | EmailMissing           // "Please enter your email."
    | EmailInvalid           // "Please enter a valid email address."
    | PasswordMissing        // "Please enter your password."

  /** The checks of `handleSubmit`, in order. The address is tested for
      blankness after trimming but matched against the pattern as typed; the
      password only has to be non-empty. */
  function ValidateLogin(authConfigured: bool, email: string, password: string): (r: Outcome<LoginError>)
    ensures r == Pass <==>
      authConfigured && !IsBlank(email) && MatchesEmailPattern(email) && password != []
    ensures r == Fail(FirebaseNotConfigured) <==> !authConfigured
    ensures r == Fail(EmailMissing) <==> authConfigured && IsBlank(email)
    ensures r == Fail(EmailInvalid) <==> authConfigured && !IsBlank(email) && !MatchesEmailPattern(email)
    ensures r == Fail(PasswordMissing) <==>
      authConfigured && !IsBlank(email) && MatchesEmailPattern(email) && password == []
  {
    if !authConfigured then Fail(FirebaseNotConfigured)
    else if IsBlank(email) then Fail(EmailMissing)
    else if !MatchesEmailPattern(email) then Fail(EmailInvalid)
    else if password == [] then Fail(PasswordMissing)
    else Pass
  }

  /** A password of spaces passes the password check: it is not trimmed. */
  lemma {:induction false} SpacesPasswordPasses(email: string, n: nat)
    requires !IsBlank(email) && MatchesEmailPattern(email) && n > 0
    ensures ValidateLogin(true, email, seq(n, _ => ' ')) == Pass
  {
    assert seq(n, _ => ' ')[0] == ' ';
  }

  /** `location.state?.from?.pathname || '/dashboard'`: the page the user was
      sent away from, or the dashboard when there is none or it is empty. */
  function AfterLoginTarget(from: Option<string>): (target: string)
    ensures from.Some? && from.value != [] ==> target == from.value
    ensures from.None? || from.value == [] ==> target == "/dashboard"
  {
    if from.Some? && from.value != [] then from.value else "/dashboard"
  }

  /** The user stored when the profile fetch after an e-mail sign-in fails:
      the provider's identity, role worker and 0 coins. */
  function FallbackUser(email: string, displayName: string, photoURL: string): (u: User)
    ensures u.role == Worker && u.coin == Some(0)
    ensures u.email == email && u.name == displayName && u.photoURL == photoURL
  {
    User(email, displayName, photoURL, Worker, Some(0))
  }

  /** The registration a first-time Google user is given: the display name
      (or "User" when it is missing or empty) and the worker role. */
  datatype GoogleRegistration = GoogleRegistration(email: string, name: string, photoURL: string, role: string)

  function FirstGoogleRegistration(email: string, displayName: Option<string>, photoURL: Option<string>)
    : (g: GoogleRegistration)
    ensures g.email == email && g.role == Worker
    ensures g.name == if displayName.Some? && displayName.value != [] then displayName.value else "User"
    ensures g.photoURL == photoURL.GetOr("")
  {
    var name := if displayName.Some? && displayName.value != [] then displayName.value else "User";
    GoogleRegistration(email, name, photoURL.GetOr(""), Worker)
  }

  /** The user stored after that registration: the provider's raw display
      name and photo (without the "User" and "" defaults the registration
      applied), role worker, and the server's coin or else 10. */
  function FirstGoogleUser(email: string, displayName: string, photoURL: string, serverCoin: Option<int>)
    : (u: User)
    ensures u.email == email && u.name == displayName && u.photoURL == photoURL
    ensures u.role == Worker
    ensures serverCoin.None? ==> u.coin == Some(10)
    ensures serverCoin.Some? ==> u.coin == serverCoin
  {
    User(email, displayName, photoURL, Worker, Some(serverCoin.GetOr(10)))
  }

  /** A Google account with an empty display name is registered on the
      server as "User" but stored in the browser with the empty name. */
  lemma StoredNameSkipsDefault(email: string, photoURL: string, serverCoin: Option<int>)
    ensures FirstGoogleRegistration(email, Some(""), Some(photoURL)).name == "User"
    ensures FirstGoogleUser(email, "", photoURL, serverCoin).name == ""
  {
  }

  /** The Google button's guard: both the auth client and the provider must
      be configured. */
  function ValidateGoogle(authConfigured: bool, providerConfigured: bool): (r: Outcome<LoginError>)
    ensures r == Pass <==> authConfigured && providerConfigured
    ensures r != Pass ==> r == Fail(FirebaseNotConfigured)
  {
    if !authConfigured || !providerConfigured then Fail(FirebaseNotConfigured) else Pass
  }

  /** Login and registration apply the same address rule: for a configured
      client and a non-blank name, one rejects an address as invalid exactly
      when the other does. */
  lemma SameEmailRuleAsRegistration(name: string, email: string, loginPassword: string,
                                    registerPassword: string)
    requires !IsBlank(name)
    ensures ValidateLogin(true, email, loginPassword) == Fail(EmailInvalid)
        <==> Register.ValidateRegistration(true, name, email, registerPassword) == Fail(Register.EmailInvalid)
  {
  }
}
