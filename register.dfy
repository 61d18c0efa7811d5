/** Registration: the password-strength score, the order of the checks made
    before an account is created, and the profile stored afterwards. */
module Register {
  import opened Wrappers
  import opened Text
  import opened Records
  import Lists
  import opened EmailFormat

  /** The messages of the registration form, in the order they are checked. */
  datatype RegisterError =
    | FirebaseNotConfigured  // "Firebase is not configured. ..."
    | NameMissing            // "Please enter your name."
    | EmailMissing           // "Please enter your email."
    | EmailInvalid           // "Please enter a valid email address."
    | PasswordTooWeak        // "Password must be at least 8 characters and include uppercase, lowercase, and a number."

  predicate HasUpper(p: string) { exists i :: 0 <= i < |p| && 'A' <= p[i] <= 'Z' }
  predicate HasLower(p: string) { exists i :: 0 <= i < |p| && 'a' <= p[i] <= 'z' }
  predicate HasDigit(p: string) { exists i :: 0 <= i < |p| && '0' <= p[i] <= '9' }

  predicate IsAsciiAlphanumeric(c: char) {
    'A' <= c <= 'Z' || 'a' <= c <= 'z' || '0' <= c <= '9'
  }

  /** The regular expression `/[^A-Za-z0-9]/` finds a match. */
  predicate HasSymbol(p: string) { exists i :: 0 <= i < |p| && !IsAsciiAlphanumeric(p[i]) }

  /** The five criteria the strength meter rewards. */
  datatype Criterion = MinLength | Uppercase | Lowercase | Digit | Symbol

  const AllCriteria: seq<Criterion> := [MinLength, Uppercase, Lowercase, Digit, Symbol]

  predicate Meets(p: string, c: Criterion) {
    match c
    case MinLength => |p| >= 8
    case Uppercase => HasUpper(p)
    case Lowercase => HasLower(p)
    case Digit => HasDigit(p)
    case Symbol => HasSymbol(p)
  }

  function MetBy(p: string): Criterion -> bool {
    c => Meets(p, c)
  }

  /** The criteria that `p` meets. */
  function MetCriteria(p: string): seq<Criterion> {
    Lists.Filter(AllCriteria, MetBy(p))
  }

  /** The score: one point per criterion met. */
  function Strength(p: string): (n: nat)
    ensures n <= 5
  {
    |MetCriteria(p)|
  }

  function Point(b: bool): nat { if b then 1 else 0 }

  /** Each criterion contributes exactly one point, independently of the others. */
  lemma {:induction false} StrengthIsSumOfPoints(p: string)
    ensures Strength(p) == Point(|p| >= 8) + Point(HasUpper(p)) + Point(HasLower(p))
                         + Point(HasDigit(p)) + Point(HasSymbol(p))
  {
    var keep := MetBy(p);
    var xs := AllCriteria;
    assert xs[1..] == [Uppercase, Lowercase, Digit, Symbol];
    assert xs[1..][1..] == [Lowercase, Digit, Symbol];
    assert xs[1..][1..][1..] == [Digit, Symbol];
    assert xs[1..][1..][1..][1..] == [Symbol];
    assert xs[1..][1..][1..][1..][1..] == [];
    assert |Lists.Filter([Symbol], keep)| == Point(HasSymbol(p));
    assert |Lists.Filter([Digit, Symbol], keep)| == Point(HasDigit(p)) + Point(HasSymbol(p));
    assert |Lists.Filter([Lowercase, Digit, Symbol], keep)|
      == Point(HasLower(p)) + Point(HasDigit(p)) + Point(HasSymbol(p));
    assert |Lists.Filter([Uppercase, Lowercase, Digit, Symbol], keep)|
      == Point(HasUpper(p)) + Point(HasLower(p)) + Point(HasDigit(p)) + Point(HasSymbol(p));
  }

  /** `passwordStrength`: the score is incremented once per criterion met. */
  method PasswordStrength(p: string) returns (score: nat)
    ensures score == Strength(p)
    ensures score <= 5
  {
    score := 0;
    if |p| >= 8 { score := score + 1; }
    if HasUpper(p) { score := score + 1; }
    if HasLower(p) { score := score + 1; }
    if HasDigit(p) { score := score + 1; }
    if HasSymbol(p) { score := score + 1; }
    StrengthIsSumOfPoints(p);
  }

  /** The empty password scores 0, and every other password scores at least
      1, since its first character is an upper-case letter, a lower-case
      letter, a digit or some other character. */
  lemma StrengthZeroIffEmpty(p: string)
    ensures Strength(p) == 0 <==> p == []
  {
    StrengthIsSumOfPoints(p);
    if p != [] {
      var c := p[0];
      if 'A' <= c <= 'Z' { assert HasUpper(p); }
      else if 'a' <= c <= 'z' { assert HasLower(p); }
      else if '0' <= c <= '9' { assert HasDigit(p); }
      else { assert HasSymbol(p); }
    }
  }

  /** Typing more characters never lowers the score. */
  lemma StrengthGrowsWithText(p: string, q: string)
    ensures Strength(p) <= Strength(p + q)
  {
    StrengthIsSumOfPoints(p);
    StrengthIsSumOfPoints(p + q);
    if HasUpper(p) { var i :| 0 <= i < |p| && 'A' <= p[i] <= 'Z'; assert (p + q)[i] == p[i]; }
    if HasLower(p) { var i :| 0 <= i < |p| && 'a' <= p[i] <= 'z'; assert (p + q)[i] == p[i]; }
    if HasDigit(p) { var i :| 0 <= i < |p| && '0' <= p[i] <= '9'; assert (p + q)[i] == p[i]; }
    if HasSymbol(p) { var i :| 0 <= i < |p| && !IsAsciiAlphanumeric(p[i]); assert (p + q)[i] == p[i]; }
  }

  /** The password check of the form: a score of at least 3. */
  predicate StrongEnough(p: string) {
    Strength(p) >= 3
  }

  /** The checks of `handleSubmit`, in order; the first failure is reported
      and nothing is created. */
  function ValidateRegistration(authConfigured: bool, name: string, email: string, password: string)
    : (r: Outcome<RegisterError>)
    ensures r == Pass <==>
      authConfigured && !IsBlank(name) && !IsBlank(email) && MatchesEmailPattern(email)
      && StrongEnough(password)
    ensures r == Fail(FirebaseNotConfigured) <==> !authConfigured
    ensures r == Fail(NameMissing) <==> authConfigured && IsBlank(name)
    ensures r == Fail(EmailMissing) <==> authConfigured && !IsBlank(name) && IsBlank(email)
    ensures r == Fail(EmailInvalid) <==>
      authConfigured && !IsBlank(name) && !IsBlank(email) && !MatchesEmailPattern(email)
    ensures r == Fail(PasswordTooWeak) <==>
      authConfigured && !IsBlank(name) && !IsBlank(email) && MatchesEmailPattern(email)
      && Strength(password) < 3
  {
    if !authConfigured then Fail(FirebaseNotConfigured)
    else if IsBlank(name) then Fail(NameMissing)
    else if IsBlank(email) then Fail(EmailMissing)
    else if !MatchesEmailPattern(email) then Fail(EmailInvalid)
    else if !StrongEnough(password) then Fail(PasswordTooWeak)
    else Pass
  }

  /** An accepted registration carries an address of the plain shape: no
      whitespace, exactly one '@' and a '.' inside the domain. */
  lemma AcceptedEmailHasShape(authConfigured: bool, name: string, email: string, password: string)
    requires ValidateRegistration(authConfigured, name, email, password) == Pass
    ensures EmailShape(email)
  {
    PatternGivesShape(email);
  }

  lemma {:induction false} SampleStrength()
    ensures Strength("aB1") == 3
  {
    StrengthIsSumOfPoints("aB1");
    assert "aB1"[1] == 'B' && "aB1"[0] == 'a' && "aB1"[2] == '1';
    assert !HasSymbol("aB1");
  }

  /** The check accepts three-character passwords such as "aB1", although the
      message asks for at least 8 characters. */
  lemma {:induction false} ShortPasswordAccepted(name: string, email: string)
    requires !IsBlank(name) && !IsBlank(email) && MatchesEmailPattern(email)
    ensures ValidateRegistration(true, name, email, "aB1") == Pass
  {
    SampleStrength();
  }

  /** The balance stored after sign-up: the server's `coin`, or else 10 for
      a worker and 50 for any other role (`data.coin ?? (...)`). */
  function StartingCoin(serverCoin: Option<int>, role: string): (c: int)
    ensures serverCoin.Some? ==> c == serverCoin.value
    ensures serverCoin.None? && role == Worker ==> c == 10
    ensures serverCoin.None? && role != Worker ==> c == 50
  {
    serverCoin.GetOr(if role == Worker then 10 else 50)
  }

  /** The photo stored: the trimmed typed URL, else the provider's, else "". */
  function StoredPhoto(typed: string, providerPhoto: Option<string>): (p: string)
    ensures !IsBlank(typed) ==> p == Trim(typed)
    ensures IsBlank(typed) ==> p == providerPhoto.GetOr("")
  {
    if Trim(typed) != [] then Trim(typed) else providerPhoto.GetOr("")
  }

  /** The user record written after the server registered the account. */
  function StoredUser(email: string, name: string, typedPhoto: string, providerPhoto: Option<string>,
                      role: string, serverCoin: Option<int>): (u: User)
    ensures u.email == email && u.name == Trim(name) && u.role == role
    ensures u.photoURL == StoredPhoto(typedPhoto, providerPhoto)
    ensures u.coin == Some(StartingCoin(serverCoin, role))
  {
    User(email, Trim(name), StoredPhoto(typedPhoto, providerPhoto), role, Some(StartingCoin(serverCoin, role)))
  }
}
