/** The role gate of guard.js that every protected page runs on load, and
    its logout buttons. */
module Guard {
  import opened Common
  import opened Seqs
  import opened Text
  import opened Accounts
  import Login

  /** The roles a page's `data-role` attribute lists: comma-separated,
      trimmed, empty entries dropped. */
  function RequiredRoles(dataRole: Option<string>): (r: seq<string>)
    ensures !Given(dataRole) ==> r == []
    ensures forall i :: 0 <= i < |r| ==> r[i] != "" && ',' !in r[i] && Trim(r[i]) == r[i]
  {
    SplitListElements(dataRole);
    SplitList(dataRole)
  }

  /** `enforceRoleGate`: the page to be sent to, or `None` to stay. An open
      page never redirects; a protected page sends a visitor with no role to
      the login page and one whose role is not listed to that role's home
      page. */
  function GateRedirect(required: seq<string>, activeRole: Option<string>): (r: Option<string>)
    ensures required == [] ==> r == None
    ensures required != [] && !Given(activeRole) ==> r == Some("login.html")
    ensures Given(activeRole) && activeRole.value in required ==> r == None
    ensures required != [] && Given(activeRole) && activeRole.value !in required ==>
      r == Some(HomePage(activeRole.value))
    ensures r.Some? ==> r.value in {"login.html", "admin.html", "index.html"}
  {
    if required != [] && !Given(activeRole) then Some("login.html")
    else if required != [] && Given(activeRole) && activeRole.value !in required then
      Some(HomePage(activeRole.value))
    else None
  }

  /** A page whose `data-role` is a single plain role requires exactly that
      role. */
  lemma SingleRole(role: string)
    requires role != "" && ',' !in role && Trim(role) == role
    ensures RequiredRoles(Some(role)) == [role]
  {
    SplitNoSep(role, ',');
    assert TrimEach([role]) == [role];
    assert Filter([role], NonEmpty) == [role] by {
      assert [role][1..] == [];
    }
  }

  /** Right after logging in with a role, a page requiring that role lets the
      user stay. */
  lemma LoginPassesGate(items: map<string, string>, role: string, email: string, acc: Account)
    requires role != "" && ',' !in role && Trim(role) == role
    ensures GateRedirect(RequiredRoles(Some(role)), Lookup(Login.SignedIn(items, role, email, acc), "portalRole")) == None
  {
    SingleRole(role);
    Login.SignedInKeys(items, role, email, acc);
  }

  /** After logout every protected page sends the visitor to the login
      page. */
  lemma LogoutLocksProtectedPages(items: map<string, string>, required: seq<string>)
    requires required != []
    ensures GateRedirect(required, Lookup(items - PortalKeys, "portalRole")) == Some("login.html")
  {
    assert "portalRole" in PortalKeys;
  }

  /** A logout button: the seven portal keys are removed and the user is
      sent to the login page. */
  method Logout(session: Session) returns (target: string)
    modifies session
    ensures session.items == old(session.items) - PortalKeys
    ensures session.pendingSignup == old(session.pendingSignup)
    ensures target == "login.html"
  {
    session.ClearPortalKeys();
    target := "login.html";
  }
}
