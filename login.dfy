/**
  The login page: a fixed table of three demo accounts, a submit handler
  that checks both fields are filled and then (after a simulated delay) looks
  the credentials up, records the session in browser storage and redirects to
  the account's dashboard, and demo buttons that fill in an account's
  credentials. The clock is a parameter; storage is a map the page owns.
 */
module Login {
  import opened Collections
  import opened Text

  datatype Account = Account(email: string, password: string, role: string, name: string, dashboard: string)

  function Accounts(): seq<Account> {
    [ Account("admin@company.com", "admin123", "admin", "Admin User", "/admin/dashboard"),
      Account("finance@company.com", "finance123", "finance", "Finance User", "/finance-department/dashboard"),
      Account("user@company.com", "user123", "user", "Request User", "/user/request") ]
  }

  function Credentials(email: string, password: string): Account -> bool {
    (a: Account) => a.email == email && a.password == password
  }

  function RoleIs(role: string): Account -> bool {
    (a: Account) => a.role == role
  }

  /** The lookup of the delayed part of `handleSubmit`: the first account with both fields equal. */
  function Authenticate(email: string, password: string): (r: Option<Account>)
    ensures r.None? <==> forall k :: 0 <= k < |Accounts()| ==> !(Accounts()[k].email == email && Accounts()[k].password == password)
    ensures r.Some? ==> r.value in Accounts() && r.value.email == email && r.value.password == password
    ensures r.Some? ==> exists k :: (0 <= k < |Accounts()| && Accounts()[k] == r.value
      && forall j :: 0 <= j < k ==> !(Accounts()[j].email == email && Accounts()[j].password == password))
  {
    Find(Accounts(), Credentials(email, password))
  }

  /** No two demo accounts share an email address. */
  lemma AccountEmailsDistinct()
    ensures forall j, k :: 0 <= j < k < |Accounts()| ==> Accounts()[j].email != Accounts()[k].email
  {
    var a := Accounts();
    assert a[0].email[0] != a[1].email[0] && a[0].email[0] != a[2].email[0] && a[1].email[0] != a[2].email[0];
  }

  /** Each account's own credentials log in as that account, and no other. */
  lemma OwnCredentialsAuthenticate(k: nat)
    requires k < |Accounts()|
    ensures Authenticate(Accounts()[k].email, Accounts()[k].password) == Some(Accounts()[k])
  {
    AccountEmailsDistinct();
    var r := Authenticate(Accounts()[k].email, Accounts()[k].password);
    assert r.Some?;
  }

  /** `handleDemoLogin`'s lookup: the first account with that role. */
  function DemoAccount(role: string): (r: Option<Account>)
    ensures r.Some? ==> r.value in Accounts() && r.value.role == role
    ensures r.None? <==> !KnownRole(role)
  {
    var a := Accounts();
    assert a[0].role == "admin" && a[1].role == "finance" && a[2].role == "user";
    Find(a, RoleIs(role))
  }

  /** The demo buttons fill in credentials that log in with the requested role and its dashboard. */
  lemma DemoCredentialsLogIn(role: string)
    requires DemoAccount(role).Some?
    ensures var d := DemoAccount(role).value;
      Authenticate(d.email, d.password) == Some(d) && d.role == role
  {
    var d := DemoAccount(role).value;
    var k :| 0 <= k < |Accounts()| && Accounts()[k] == d;
    OwnCredentialsAuthenticate(k);
  }

  /** What the browser holds: plain strings, or the session record serialised by the page. */
  datatype Stored = Text(text: string) | SessionRecord(email: string, role: string, name: string, loginTime: string)

  /** The storage keys the page writes; `KeyName` gives the key string used in the browser. */
  datatype StorageKey = Token(role: string) | Session(role: string) | UserRole | RememberUser

  function KeyName(k: StorageKey): string {
    match k
    case Token(role) => role + "Token"
    case Session(role) => role + "Session"
    case UserRole => "userRole"
    case RememberUser => "rememberUser"
  }

  /** Only the three known roles get a token and a session of their own. */
  predicate KnownRole(role: string) {
    role == "admin" || role == "finance" || role == "user"
  }

  /**
    The storage writes of a successful login: the role's token and session
    (for a known role), the role itself, and the typed email when the
    "remember me" box is ticked.
   */
  function SessionWrites(a: Account, rememberMe: bool, typedEmail: string, now: nat, loginTime: string): (w: map<StorageKey, Stored>)
    ensures UserRole in w && w[UserRole] == Text(a.role)
    ensures RememberUser in w <==> rememberMe
    ensures rememberMe ==> w[RememberUser] == Text(typedEmail)
    ensures Token(a.role) in w <==> KnownRole(a.role)
    ensures KnownRole(a.role) ==>
      && w[Token(a.role)] == Text(a.role + "-token-" + NatToString(now))
      && Session(a.role) in w && w[Session(a.role)] == SessionRecord(a.email, a.role, a.name, loginTime)
    ensures forall r :: r != a.role ==> Token(r) !in w && Session(r) !in w
  {
    var roleWrites: map<StorageKey, Stored> :=
      if KnownRole(a.role) then
        map[Token(a.role) := Text(a.role + "-token-" + NatToString(now)),
            Session(a.role) := SessionRecord(a.email, a.role, a.name, loginTime)]
      else map[];
    var general := roleWrites[UserRole := Text(a.role)];
    if rememberMe then general[RememberUser := Text(typedEmail)] else general
  }

  /** The key strings of a known role's token and session differ from each other and from the general keys. */
  lemma KnownRoleKeysDistinct(role: string)
    requires KnownRole(role)
    ensures KeyName(Token(role)) != KeyName(Session(role))
    ensures KeyName(Token(role)) !in {KeyName(UserRole), KeyName(RememberUser)}
    ensures KeyName(Session(role)) !in {KeyName(UserRole), KeyName(RememberUser)}
  {
    var t, s := KeyName(Token(role)), KeyName(Session(role));
    assert t[|role|] == 'T' && s[|role|] == 'S';
    assert |t| == |role| + 5 && |s| == |role| + 7;
  }

  /** The three demo accounts all have a known role, so each login writes a token for its own role. */
  lemma DemoAccountsHaveSessions(k: nat)
    requires k < |Accounts()|
    ensures KnownRole(Accounts()[k].role)
  {
  }

  /** The values an accepted submission hands to its delayed lookup. */
  datatype Submission = Submission(email: string, password: string, rememberMe: bool)

  /** The result of a submission once the delay is over. */
  datatype LoginOutcome = MissingInformation | LoginFailed | LoggedIn(account: Account)

  class LoginPage {
    var email: string
    var password: string
    var rememberMe: bool
    var showPassword: bool
    var isLoading: bool
    var storage: map<StorageKey, Stored>
    var location: string
    /** The submission whose delayed lookup is still to run, if any. */
    var pending: Option<Submission>

    constructor (storage0: map<StorageKey, Stored>)
      ensures email == "" && password == "" && !rememberMe && !showPassword && !isLoading
      ensures storage == storage0 && location == "/login" && pending == None
    {
      email, password := "", "";
      rememberMe, showPassword, isLoading := false, false, false;
      storage := storage0;
      location := "/login";
      pending := None;
    }

    method SetCredentials(e: string, p: string, remember: bool)
      modifies this`email, this`password, this`rememberMe
      ensures email == e && password == p && rememberMe == remember
    {
      email, password, rememberMe := e, p, remember;
    }

    /**
      The synchronous part of `handleSubmit`: an empty field is refused and
      schedules nothing; otherwise loading starts and the lookup is scheduled
      with the values typed at this moment.
     */
    method HandleSubmit() returns (outcome: Option<LoginOutcome>)
      modifies this`isLoading, this`pending
      ensures email == "" || password == "" ==>
        outcome == Some(MissingInformation) && isLoading == old(isLoading) && pending == old(pending)
      ensures email != "" && password != "" ==>
        outcome == None && isLoading && pending == Some(Submission(email, password, rememberMe))
    {
      if email == "" || password == "" {
        return Some(MissingInformation);
      }
      isLoading := true;
      pending := Some(Submission(email, password, rememberMe));
      outcome := None;
    }

    /**
      The delayed part of `handleSubmit`: it exists only once a submission was
      accepted, and runs with the email, password and "remember me" value that
      submission captured. A match writes the session and moves to the
      dashboard; either way loading ends.
     */
    method FinishLogin(now: nat, loginTime: string) returns (outcome: LoginOutcome)
      requires pending.Some?
      modifies this`storage, this`location, this`isLoading, this`pending
      ensures var sub := old(pending).value;
        Authenticate(sub.email, sub.password).None? ==>
          outcome == LoginFailed && storage == old(storage) && location == old(location)
      ensures var sub := old(pending).value;
        Authenticate(sub.email, sub.password).Some? ==>
          var a := Authenticate(sub.email, sub.password).value;
          outcome == LoggedIn(a) && storage == old(storage) + SessionWrites(a, sub.rememberMe, sub.email, now, loginTime)
          && location == a.dashboard
      ensures !isLoading && pending == None
    {
      var sub := pending.value;
      var found := Authenticate(sub.email, sub.password);
      if found.Some? {
        storage := storage + SessionWrites(found.value, sub.rememberMe, sub.email, now, loginTime);
        location := found.value.dashboard;
        outcome := LoggedIn(found.value);
      } else {
        outcome := LoginFailed;
      }
      isLoading := false;
      pending := None;
    }

    /** `handleDemoLogin`: a known role fills both fields; an unknown one changes nothing. */
    method HandleDemoLogin(role: string)
      modifies this`email, this`password
      ensures DemoAccount(role).None? ==> email == old(email) && password == old(password)
      ensures DemoAccount(role).Some? ==>
        email == DemoAccount(role).value.email && password == DemoAccount(role).value.password
    {
      match DemoAccount(role)
      case Some(a) =>
        email, password := a.email, a.password;
      case None =>
    }

    method ToggleShowPassword()
      modifies this`showPassword
      ensures showPassword == !old(showPassword)
    {
      showPassword := !showPassword;
    }
  }
}
