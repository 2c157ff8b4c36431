/** The signup form of signup.js: a chain of early-return checks, then one
    account appended to the store and the `pendingSignup` note left for the
    login page. */
module Signup {
  import opened Common
  import opened Seqs
  import opened Text
  import opened Accounts

  /** The form fields as `FormData.get` returns them (`None` for null). */
  datatype SignupForm = SignupForm(
    name: Option<string>,
    email: Option<string>,
    password: Option<string>,
    confirm: Option<string>,
    role: Option<string>)

  datatype SignupError = Incomplete | PasswordTooShort | PasswordMismatch | EmailTaken

  /** Name and email are trimmed; the password, its confirmation and the role
      are taken as typed. */
  predicate Complete(f: SignupForm) {
    Given(f.role) && Given(TrimField(f.name)) && Given(TrimField(f.email))
    && Given(f.password) && Given(f.confirm)
  }

  /** The account the form creates, the email trimmed and lower-cased. */
  function NewAccount(f: SignupForm): Account
    requires Complete(f)
  {
    Account(
      name := Trim(f.name.value),
      email := ToLower(Trim(f.email.value)),
      password := f.password.value,
      role := f.role.value,
      phone := "", department := "", year := "", bio := "", photo := "",
      socialLinks := Some([]))
  }

  /** The checks in order: every field filled, a password of at least six
      characters, a matching confirmation, and an email no stored account
      (of any role) has. */
  function SignupOutcome(accounts: seq<Account>, f: SignupForm): (r: Result<Account, SignupError>)
    ensures r == Failure(Incomplete) <==> !Complete(f)
    ensures r == Failure(PasswordTooShort) <==> Complete(f) && |f.password.value| < 6
    ensures r == Failure(PasswordMismatch) <==>
      Complete(f) && |f.password.value| >= 6 && f.password.value != f.confirm.value
    ensures r.Success? ==>
      && Complete(f) && r.value == NewAccount(f)
      && |r.value.password| >= 6 && r.value.password == f.confirm.value
      && forall i :: 0 <= i < |accounts| ==> accounts[i].email != r.value.email
    ensures r == Failure(EmailTaken) <==>
      && Complete(f) && |f.password.value| >= 6 && f.password.value == f.confirm.value
      && exists i :: 0 <= i < |accounts| && accounts[i].email == ToLower(Trim(f.email.value))
    ensures
      && Complete(f) && |f.password.value| >= 6 && f.password.value == f.confirm.value
      && (forall i :: 0 <= i < |accounts| ==> accounts[i].email != ToLower(Trim(f.email.value)))
      ==> r == Success(NewAccount(f))
  {
    if !Complete(f) then Failure(Incomplete)
    else if |f.password.value| < 6 then Failure(PasswordTooShort)
    else if f.password.value != f.confirm.value then Failure(PasswordMismatch)
    else
      var normalizedEmail := ToLower(Trim(f.email.value));
      if IndexWhere(accounts, EmailIs(normalizedEmail)).Some? then Failure(EmailTaken)
      else Success(NewAccount(f))
  }

  /** A successful signup keeps the emails of the store distinct. */
  lemma SignupKeepsEmailsUnique(accounts: seq<Account>, f: SignupForm)
    requires EmailsUnique(accounts)
    ensures var r := SignupOutcome(accounts, f);
      EmailsUnique(if r.Success? then accounts + [r.value] else accounts)
  {
    var r := SignupOutcome(accounts, f);
    if r.Success? {
      var after := accounts + [r.value];
      forall i, j | 0 <= i < j < |after|
        ensures after[i].email != after[j].email
      {
        if j == |accounts| {
          assert after[i] == accounts[i];
        } else {
          assert after[i] == accounts[i] && after[j] == accounts[j];
        }
      }
    }
  }

  /** An email that differs only in letter case or surrounding white space
      from a stored one is taken. */
  lemma EmailTakenIgnoringCase(accounts: seq<Account>, f: SignupForm, i: nat)
    requires Complete(f) && |f.password.value| >= 6 && f.password.value == f.confirm.value
    requires i < |accounts| && accounts[i].email == ToLower(Trim(f.email.value))
    ensures SignupOutcome(accounts, f) == Failure(EmailTaken)
  {
    var found := IndexWhere(accounts, EmailIs(ToLower(Trim(f.email.value))));
    assert EmailIs(ToLower(Trim(f.email.value)))(accounts[i]);
  }

  /** The submit handler: the store grows by the new account and the login
      page is left the trimmed name and email (not lower-cased) and the
      role. */
  method Submit(store: AccountStore, session: Session, f: SignupForm) returns (r: Result<Account, SignupError>)
    modifies store, session
    ensures r == SignupOutcome(old(store.accounts), f)
    ensures store.accounts == if r.Success? then old(store.accounts) + [r.value] else old(store.accounts)
    ensures session.items == old(session.items)
    ensures session.pendingSignup ==
      if r.Success? then Some(PendingSignup(Trim(f.name.value), Trim(f.email.value), f.role.value))
      else old(session.pendingSignup)
  {
    r := SignupOutcome(store.accounts, f);
    if r.Success? {
      store.accounts := store.accounts + [r.value];
      session.pendingSignup := Some(PendingSignup(Trim(f.name.value), Trim(f.email.value), f.role.value));
    }
  }
}
