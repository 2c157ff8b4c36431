/** The browser-side account store shared by signup.js, login.js and
    profile.js (the `portalAccounts` array in localStorage) and the
    sessionStorage keys that carry the signed-in user between pages. */
module Accounts {
  import opened Common
  import opened Seqs
  import opened Text

  /** A stored account; text fields missing from the stored object are "",
      and `socialLinks` is `None` when it is not an array. */
  datatype Account = Account(
    name: string,
    email: string,
    password: string,
    role: string,
    phone: string,
    department: string,
    year: string,
    bio: string,
    photo: string,
    socialLinks: Option<seq<string>>)

  const MaxSocialLinks: nat := 3

  /** The profile form's accepted fields, as `buildProfilePayload` returns
      them. */
  datatype ProfilePayload = ProfilePayload(
    name: string,
    phone: string,
    department: string,
    year: string,
    photo: string,
    bio: string,
    socialLinks: seq<string>)

  /** The `updates` object `persistAccount` spreads over an account. */
  datatype AccountUpdate = ProfileUpdate(payload: ProfilePayload) | PasswordUpdate(password: string)

  /** The role a page stands for: `(dataset.role || 'user').includes('admin')
      ? 'admin' : 'user'`. */
  function PageRole(dataRole: Option<string>): (r: string)
    ensures r == "admin" || r == "user"
  {
    if Contains(Or(dataRole, "user"), "admin") then "admin" else "user"
  }

  /** `Array.isArray(links) ? links.filter(Boolean).slice(0, 3) : []`. */
  function KeptLinks(links: Option<seq<string>>): (r: seq<string>)
    ensures |r| <= MaxSocialLinks
    ensures forall i :: 0 <= i < |r| ==> r[i] != ""
    ensures links.None? ==> r == []
    ensures links.Some? ==> var kept := Filter(links.value, NonEmpty);
      && |r| == (if |kept| < MaxSocialLinks then |kept| else MaxSocialLinks)
      && r == kept[..|r|]
  {
    if links.Some? then Take(Filter(links.value, NonEmpty), MaxSocialLinks) else []
  }

  /** The object `normalizeAccount` builds from a present account. */
  function Normalized(acc: Account, pageRole: string): (r: Account)
    ensures r.name != "" && r.email == acc.email && r.password == acc.password
    ensures acc.name != "" ==> r.name == acc.name
    ensures r.role == OrText(acc.role, pageRole)
    ensures r.socialLinks == Some(KeptLinks(acc.socialLinks))
    ensures r.phone == acc.phone && r.department == acc.department && r.year == acc.year
    ensures r.bio == acc.bio && r.photo == acc.photo
  {
    Account(
      name := OrText(acc.name, "User"),
      email := acc.email,
      password := acc.password,
      role := OrText(acc.role, pageRole),
      phone := acc.phone,
      department := acc.department,
      year := acc.year,
      bio := acc.bio,
      photo := acc.photo,
      socialLinks := Some(KeptLinks(acc.socialLinks)))
  }

  /** `normalizeAccount`: no account stays no account. */
  function NormalizeAccount(acc: Option<Account>, pageRole: string): (r: Option<Account>)
    ensures r.None? <==> acc.None?
    ensures r.Some? ==> r.value == Normalized(acc.value, pageRole)
  {
    match acc
    case None => None
    case Some(a) => Some(Normalized(a, pageRole))
  }

  /** Every default `normalizeAccount` writes is left alone by a second pass,
      so normalising twice is normalising once. */
  lemma NormalizeIdempotent(acc: Account, pageRole: string)
    ensures Normalized(Normalized(acc, pageRole), pageRole) == Normalized(acc, pageRole)
  {
    var links := KeptLinks(acc.socialLinks);
    FilterKeepsAll(links, NonEmpty);
  }

  /** `{ ...account, ...updates }`. */
  function Merge(acc: Account, u: AccountUpdate): Account {
    match u
    case ProfileUpdate(p) =>
      acc.(name := p.name, phone := p.phone, department := p.department, year := p.year,
           photo := p.photo, bio := p.bio, socialLinks := Some(p.socialLinks))
    case PasswordUpdate(pw) => acc.(password := pw)
  }

  function EmailIs(email: string): Account -> bool {
    (acc: Account) => acc.email == email
  }

  /** `accounts.find(acc => acc.email === email)`. */
  function FindAccount(accounts: seq<Account>, email: string): (r: Option<Account>)
    ensures r.Some? ==> r.value in accounts && r.value.email == email
    ensures r.None? <==> forall i :: 0 <= i < |accounts| ==> accounts[i].email != email
    ensures r.Some? ==>
      exists i :: 0 <= i < |accounts| && accounts[i] == r.value && forall j :: 0 <= j < i ==> accounts[j].email != email
  {
    match IndexWhere(accounts, EmailIs(email))
    case None => None
    case Some(i) => Some(accounts[i])
  }

  predicate EmailsUnique(accounts: seq<Account>) {
    forall i, j :: 0 <= i < j < |accounts| ==> accounts[i].email != accounts[j].email
  }

  /** The `portalAccounts` array in localStorage. */
  class AccountStore {
    var accounts: seq<Account>

    constructor (accounts: seq<Account>)
      ensures this.accounts == accounts
    {
      this.accounts := accounts;
    }

    /** `persistAccount`: an unknown email saves nothing; otherwise only the
        first account with that email is replaced, by the normalised merge
        of it and the updates. */
    method PersistAccount(email: string, u: AccountUpdate, pageRole: string) returns (r: Option<Account>)
      modifies this
      ensures match IndexWhere(old(accounts), EmailIs(email))
        case None => r == None && accounts == old(accounts)
        case Some(i) =>
          && r == Some(Normalized(Merge(old(accounts)[i], u), pageRole))
          && accounts == old(accounts)[i := r.value]
    {
      var index := IndexWhere(accounts, EmailIs(email));
      if index.None? {
        return None;
      }
      var updated := Normalized(Merge(accounts[index.value], u), pageRole);
      accounts := accounts[index.value := updated];
      r := Some(updated);
    }
  }

  /** A persisted update keeps every email where it was, so it keeps emails
      unique. */
  lemma PersistKeepsEmailsUnique(accounts: seq<Account>, i: nat, u: AccountUpdate, pageRole: string)
    requires EmailsUnique(accounts) && i < |accounts|
    ensures EmailsUnique(accounts[i := Normalized(Merge(accounts[i], u), pageRole)])
  {
    var after := accounts[i := Normalized(Merge(accounts[i], u), pageRole)];
    assert forall k :: 0 <= k < |accounts| ==> after[k].email == accounts[k].email;
  }

  /** What signup.js leaves in sessionStorage for the login page. */
  datatype PendingSignup = PendingSignup(name: string, email: string, role: string)

  /** The seven keys a signed-in session keeps. */
  const PortalKeys: set<string> := {"portalRole", "portalEmail", "portalName", "portalPhoto",
                                    "portalDepartment", "portalYear", "portalPhone"}

  /** The page a role lands on. */
  function HomePage(role: string): (page: string)
    ensures page == "admin.html" <==> role == "admin"
    ensures page == "admin.html" || page == "index.html"
  {
    if role == "admin" then "admin.html" else "index.html"
  }

  /** `sessionStorage.getItem(key)`, with `None` for null. */
  function Lookup(items: map<string, string>, key: string): Option<string> {
    if key in items then Some(items[key]) else None
  }

  /** sessionStorage: the string items, and the `pendingSignup` item kept as
      the record it encodes. */
  class Session {
    var items: map<string, string>
    var pendingSignup: Option<PendingSignup>

    constructor (items: map<string, string>, pendingSignup: Option<PendingSignup>)
      ensures this.items == items && this.pendingSignup == pendingSignup
    {
      this.items := items;
      this.pendingSignup := pendingSignup;
    }

    method SetItem(key: string, value: string)
      modifies this
      ensures items == old(items)[key := value] && pendingSignup == old(pendingSignup)
    {
      items := items[key := value];
    }

    method RemoveItem(key: string)
      modifies this
      ensures items == old(items) - {key} && pendingSignup == old(pendingSignup)
    {
      items := items - {key};
    }

    /** The seven `removeItem` calls of the login page and of logout. */
    method ClearPortalKeys()
      modifies this
      ensures items == old(items) - PortalKeys && pendingSignup == old(pendingSignup)
    {
      ghost var before := items;
      RemoveItem("portalRole");
      RemoveItem("portalEmail");
      RemoveItem("portalName");
      RemoveItem("portalPhoto");
      RemoveItem("portalDepartment");
      RemoveItem("portalYear");
      RemoveItem("portalPhone");
      assert forall k :: k in items <==> k in before && k !in PortalKeys;
    }
  }
}
