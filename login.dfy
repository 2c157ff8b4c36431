/** The login page of login.js: what loading the page clears, the credential
    check, what a successful login writes to sessionStorage and where it
    sends the user. */
module Login {
  import opened Common
  import opened Seqs
  import opened Text
  import opened Accounts
  import Signup

  /** The form fields as `FormData.get` returns them. */
  datatype LoginForm = LoginForm(role: Option<string>, email: Option<string>, password: Option<string>)

  datatype LoginError = Incomplete | UnknownAccount | WrongPassword

  /** Email and password are trimmed; the role is taken as selected. */
  predicate Complete(f: LoginForm) {
    Given(TrimField(f.email)) && Given(TrimField(f.password)) && Given(f.role)
  }

  function CredentialsAre(email: string, role: string): Account -> bool {
    (acc: Account) => acc.email == email && acc.role == role
  }

  /** `i` is the first stored account with the entered (lower-cased) email
      and the selected role: the one `accounts.find` returns. */
  ghost predicate FirstMatch(accounts: seq<Account>, f: LoginForm, i: int)
    requires Complete(f)
  {
    && 0 <= i < |accounts|
    && accounts[i].email == ToLower(Trim(f.email.value)) && accounts[i].role == f.role.value
    && forall j :: 0 <= j < i ==>
         !(accounts[j].email == ToLower(Trim(f.email.value)) && accounts[j].role == f.role.value)
  }

  /** The account lookup needs both the lower-cased email and the role to
      match; a missing account and a wrong password are told apart. */
  function LoginOutcome(accounts: seq<Account>, f: LoginForm): (r: Result<Account, LoginError>)
    ensures r == Failure(Incomplete) <==> !Complete(f)
    ensures r == Failure(UnknownAccount) <==>
      (Complete(f) && forall i :: 0 <= i < |accounts| ==>
        !(accounts[i].email == ToLower(Trim(f.email.value)) && accounts[i].role == f.role.value))
    ensures r.Success? ==>
      && Complete(f)
      && r.value in accounts
      && r.value.email == ToLower(Trim(f.email.value)) && r.value.role == f.role.value
      && r.value.password == Trim(f.password.value)
    ensures r == Failure(WrongPassword) <==>
      Complete(f) && exists i :: FirstMatch(accounts, f, i) && accounts[i].password != Trim(f.password.value)
    ensures r.Success? <==>
      Complete(f) && exists i :: FirstMatch(accounts, f, i) && accounts[i].password == Trim(f.password.value)
    ensures r.Success? ==> exists i :: FirstMatch(accounts, f, i) && r.value == accounts[i]
  {
    if !Complete(f) then Failure(Incomplete)
    else
      var normalizedEmail := ToLower(Trim(f.email.value));
      match IndexWhere(accounts, CredentialsAre(normalizedEmail, f.role.value))
      case None => Failure(UnknownAccount)
      case Some(i) =>
        if accounts[i].password != Trim(f.password.value) then Failure(WrongPassword)
        else Success(accounts[i])
  }

  /** Login compares the trimmed password while signup stores the password
      as typed, so an account whose password begins or ends with white space
      can never sign in. */
  lemma PaddedPasswordNeverLogsIn(accounts: seq<Account>, f: LoginForm)
    ensures var r := LoginOutcome(accounts, f);
      r.Success? ==> Trim(r.value.password) == r.value.password
  {
    if Complete(f) {
      TrimIdempotent(f.password.value);
    }
  }

  /** Signing up and then logging in with the same email, password and role
      signs in to the new account, provided the password has no surrounding
      white space. */
  lemma SignupThenLogin(accounts: seq<Account>, sf: Signup.SignupForm)
    requires Signup.SignupOutcome(accounts, sf).Success?
    requires Trim(sf.password.value) == sf.password.value
    ensures var acc := Signup.SignupOutcome(accounts, sf).value;
      LoginOutcome(accounts + [acc], LoginForm(sf.role, sf.email, sf.password)) == Success(acc)
  {
    var acc := Signup.SignupOutcome(accounts, sf).value;
    var all := accounts + [acc];
    var f := LoginForm(sf.role, sf.email, sf.password);
    assert Complete(f);
    var creds := CredentialsAre(ToLower(Trim(sf.email.value)), sf.role.value);
    assert forall i :: 0 <= i < |accounts| ==> all[i] == accounts[i] && !creds(all[i]);
    assert creds(all[|accounts|]);
    assert IndexWhere(all, creds) == Some(|accounts|);
  }

  /** The session a successful login writes. */
  function SignedIn(items: map<string, string>, role: string, email: string, acc: Account): map<string, string> {
    items["portalRole" := role]["portalEmail" := email]["portalName" := OrText(acc.name, "Student")]
         ["portalPhoto" := acc.photo]["portalDepartment" := acc.department]["portalYear" := acc.year]
         ["portalPhone" := acc.phone]
  }

  /** After a login every portal key is set, the role and email are those
      entered (the email normalised) and the name is never empty. */
  lemma SignedInKeys(items: map<string, string>, role: string, email: string, acc: Account)
    ensures var m := SignedIn(items, role, email, acc);
      && PortalKeys <= m.Keys
      && m["portalRole"] == role && m["portalEmail"] == email && m["portalName"] != ""
      && forall k :: k in items && k !in PortalKeys ==> k in m && m[k] == items[k]
  {
  }

  /** The submit handler: on success the seven session keys are written and
      the user is sent to their home page. */
  method Submit(store: AccountStore, session: Session, f: LoginForm) returns (r: Result<string, LoginError>)
    modifies session
    ensures var outcome := LoginOutcome(store.accounts, f);
      && (outcome.Failure? ==> r == Failure(outcome.error) && session.items == old(session.items))
      && (outcome.Success? ==>
            && r == Success(HomePage(f.role.value))
            && session.items == SignedIn(old(session.items), f.role.value, ToLower(Trim(f.email.value)), outcome.value))
    ensures session.pendingSignup == old(session.pendingSignup)
  {
    var outcome := LoginOutcome(store.accounts, f);
    if outcome.Failure? {
      return Failure(outcome.error);
    }
    var acc := outcome.value;
    var role := f.role.value;
    session.SetItem("portalRole", role);
    session.SetItem("portalEmail", ToLower(Trim(f.email.value)));
    session.SetItem("portalName", OrText(acc.name, "Student"));
    session.SetItem("portalPhoto", acc.photo);
    session.SetItem("portalDepartment", acc.department);
    session.SetItem("portalYear", acc.year);
    session.SetItem("portalPhone", acc.phone);
    r := Success(HomePage(role));
  }

  /** Loading the login page hands back the signup note once, removing it,
      and clears the seven portal keys. */
  method LoadPage(session: Session) returns (prefill: Option<PendingSignup>)
    modifies session
    ensures prefill == old(session.pendingSignup)
    ensures session.pendingSignup == None
    ensures session.items == old(session.items) - PortalKeys
  {
    prefill := session.pendingSignup;
    if prefill.Some? {
      session.pendingSignup := None;
    }
    session.ClearPortalKeys();
  }
}
