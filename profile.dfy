/** The profile page of profile.js: the account it shows, the profile form's
    validation, the password change checks and the avatar initial. */
module Profile {
  import opened Common
  import opened Seqs
  import opened Text
  import opened Accounts

  /** The form fields as `FormData.get` returns them. */
  datatype ProfileForm = ProfileForm(
    name: Option<string>,
    phone: Option<string>,
    department: Option<string>,
    year: Option<string>,
    photo: Option<string>,
    bio: Option<string>,
    link1: Option<string>,
    link2: Option<string>,
    link3: Option<string>)

  datatype ProfileError = NameRequired | DepartmentYearRequired | BadPhone | BadLink

  /** `(formData.get(field) || '').trim()`. */
  function FieldText(f: Option<string>): (r: string)
    ensures Trim(r) == r
  {
    TrimIdempotent(Or(f, ""));
    Trim(Or(f, ""))
  }

  /** The three link fields, trimmed, the empty ones dropped. */
  function FormLinks(form: ProfileForm): (r: seq<string>)
    ensures |r| <= MaxSocialLinks
    ensures forall i :: 0 <= i < |r| ==> r[i] != "" && Trim(r[i]) == r[i]
  {
    var links := [FieldText(form.link1), FieldText(form.link2), FieldText(form.link3)];
    var r := Filter(links, NonEmpty);
    FilterFrom(links, NonEmpty);
    assert forall i :: 0 <= i < |r| ==> r[i] in links;
    r
  }

  /** The filled-in link fields, in the order of the form. */
  lemma FormLinksInOrder(form: ProfileForm)
    ensures var t1, t2, t3 := FieldText(form.link1), FieldText(form.link2), FieldText(form.link3);
      FormLinks(form) == (if t1 != "" then [t1] else []) + (if t2 != "" then [t2] else []) + (if t3 != "" then [t3] else [])
  {
    NonEmptyOfThree(FieldText(form.link1), FieldText(form.link2), FieldText(form.link3));
  }

  /** Filtering three texts for the non-empty ones, written out. */
  lemma NonEmptyOfThree(a: string, b: string, c: string)
    ensures Filter([a, b, c], NonEmpty) == (if a != "" then [a] else []) + (if b != "" then [b] else []) + (if c != "" then [c] else [])
  {
    assert [c][1..] == [];
    assert Filter([c], NonEmpty) == (if c != "" then [c] else []);
    assert [b, c][1..] == [c];
    assert Filter([b, c], NonEmpty) == (if b != "" then [b] else []) + Filter([c], NonEmpty);
    assert [a, b, c][1..] == [b, c];
    assert Filter([a, b, c], NonEmpty) == (if a != "" then [a] else []) + Filter([b, c], NonEmpty);
  }

  /** `/^\d{10}$/`. */
  predicate TenDigits(phone: string) {
    |phone| == 10 && AllDigits(phone)
  }

  const HttpScheme := "http://"
  const HttpsScheme := "https://"

  /** `/^https?:\/\//i`. */
  predicate WebLink(link: string) {
    StartsWith(ToLower(link), HttpScheme) || StartsWith(ToLower(link), HttpsScheme)
  }

  function IsBadLink(): string -> bool {
    link => !WebLink(link)
  }

  /** `buildProfilePayload`: a name is required, students also need a
      department and a year, a phone must be empty or ten digits, and every
      link must be a web address; the first failing check is reported. */
  function BuildProfilePayload(form: ProfileForm, pageRole: string): (r: Result<ProfilePayload, ProfileError>)
    ensures r.Success? ==> r.value.name != "" && Trim(r.value.name) == r.value.name
    ensures r.Success? && pageRole == "user" ==> r.value.department != "" && r.value.year != ""
    ensures r.Success? ==> r.value.phone == "" || TenDigits(r.value.phone)
    ensures r.Success? ==> r.value.socialLinks == FormLinks(form)
    ensures r.Success? ==> forall i :: 0 <= i < |r.value.socialLinks| ==> WebLink(r.value.socialLinks[i])
  {
    var name := FieldText(form.name);
    var phone := FieldText(form.phone);
    var department := FieldText(form.department);
    var year := FieldText(form.year);
    var links := FormLinks(form);
    if name == "" then Failure(NameRequired)
    else if pageRole == "user" && (department == "" || year == "") then Failure(DepartmentYearRequired)
    else if phone != "" && !TenDigits(phone) then Failure(BadPhone)
    else if IndexWhere(links, IsBadLink()).Some? then Failure(BadLink)
    else Success(ProfilePayload(name, phone, department, year, FieldText(form.photo), FieldText(form.bio), links))
  }

  /** The name is checked first: an empty name is reported whatever else is
      wrong. */
  lemma NameCheckedFirst(form: ProfileForm, pageRole: string)
    ensures FieldText(form.name) == "" <==> BuildProfilePayload(form, pageRole) == Failure(NameRequired)
  {
  }

  /** A student without department or year is reported before the phone and
      the links are looked at. */
  lemma StudentFieldsCheckedSecond(form: ProfileForm, pageRole: string)
    ensures BuildProfilePayload(form, pageRole) == Failure(DepartmentYearRequired) <==>
      FieldText(form.name) != "" && pageRole == "user" &&
      (FieldText(form.department) == "" || FieldText(form.year) == "")
  {
  }

  /** Name, and for a student department and year, are filled in. */
  predicate RequiredFieldsGiven(form: ProfileForm, pageRole: string) {
    FieldText(form.name) != "" &&
    !(pageRole == "user" && (FieldText(form.department) == "" || FieldText(form.year) == ""))
  }

  predicate PhoneAccepted(form: ProfileForm) {
    FieldText(form.phone) == "" || TenDigits(FieldText(form.phone))
  }

  /** The phone is checked third: with name and student fields in order, a
      phone that is neither empty nor ten digits is reported. */
  lemma PhoneCheckedThird(form: ProfileForm, pageRole: string)
    ensures BuildProfilePayload(form, pageRole) == Failure(BadPhone) <==>
      RequiredFieldsGiven(form, pageRole) && !PhoneAccepted(form)
  {
  }

  /** The links are checked last: once everything else is in order, any
      filled-in link that is not a web address is reported. */
  lemma LinksCheckedLast(form: ProfileForm, pageRole: string)
    ensures BuildProfilePayload(form, pageRole) == Failure(BadLink) <==>
      && RequiredFieldsGiven(form, pageRole) && PhoneAccepted(form)
      && exists i :: 0 <= i < |FormLinks(form)| && !WebLink(FormLinks(form)[i])
  {
    var links := FormLinks(form);
    if RequiredFieldsGiven(form, pageRole) && PhoneAccepted(form) {
      var bad := IndexWhere(links, IsBadLink());
      if bad.Some? {
        assert !WebLink(links[bad.value]);
      } else {
        assert forall i :: 0 <= i < |links| ==> !IsBadLink()(links[i]);
      }
    }
  }

  /** A form that passes every check gives the payload of its trimmed fields
      and its filled-in links. */
  lemma ValidFormAccepted(form: ProfileForm, pageRole: string)
    requires RequiredFieldsGiven(form, pageRole) && PhoneAccepted(form)
    requires forall i :: 0 <= i < |FormLinks(form)| ==> WebLink(FormLinks(form)[i])
    ensures BuildProfilePayload(form, pageRole) == Success(ProfilePayload(
      FieldText(form.name), FieldText(form.phone), FieldText(form.department), FieldText(form.year),
      FieldText(form.photo), FieldText(form.bio), FormLinks(form)))
  {
    var links := FormLinks(form);
    assert forall i :: 0 <= i < |links| ==> !IsBadLink()(links[i]);
  }

  datatype PasswordError = FieldsMissing | CurrentIncorrect | TooShort | SameAsCurrent | ConfirmMismatch

  /** The password form's checks, in order, on the trimmed fields; the result
      is the new password. */
  function PasswordChange(stored: string, current: Option<string>, next: Option<string>, confirm: Option<string>): (r: Result<string, PasswordError>)
    ensures r == Failure(FieldsMissing) <==> FieldText(current) == "" || FieldText(next) == "" || FieldText(confirm) == ""
    ensures r.Success? ==>
      && FieldText(current) == stored
      && r.value == FieldText(next) == FieldText(confirm)
      && |r.value| >= 6 && r.value != stored && Trim(r.value) == r.value
  {
    var c, n, k := FieldText(current), FieldText(next), FieldText(confirm);
    if c == "" || n == "" || k == "" then Failure(FieldsMissing)
    else if c != stored then Failure(CurrentIncorrect)
    else if |n| < 6 then Failure(TooShort)
    else if n == c then Failure(SameAsCurrent)
    else if n != k then Failure(ConfirmMismatch)
    else Success(n)
  }

  /** The checks after the missing-field check, each reported exactly when
      every earlier one passed and it fails, and a form that passes them all
      gives the trimmed new password. */
  lemma PasswordChecksInOrder(stored: string, current: Option<string>, next: Option<string>, confirm: Option<string>)
    ensures var r := PasswordChange(stored, current, next, confirm);
      var c, n, k := FieldText(current), FieldText(next), FieldText(confirm);
      var given := c != "" && n != "" && k != "";
      && (r == Failure(CurrentIncorrect) <==> given && c != stored)
      && (r == Failure(TooShort) <==> given && c == stored && |n| < 6)
      && (r == Failure(SameAsCurrent) <==> given && c == stored && |n| >= 6 && n == c)
      && (r == Failure(ConfirmMismatch) <==> given && c == stored && |n| >= 6 && n != c && n != k)
      && (given && c == stored && |n| >= 6 && n != c && n == k ==> r == Success(n))
  {
  }

  /** The text of the avatar badge: nothing when there is a photo, otherwise
      the upper-cased first character of the trimmed name, and "U" for no
      name at all. */
  function AvatarText(photo: string, name: string): (r: string)
    ensures photo != "" ==> r == ""
    ensures |r| <= 1
    ensures photo == "" && name == "" ==> r == "U"
    ensures photo == "" && Trim(name) != "" ==> r == [UpperChar(Trim(name)[0])]
  {
    if photo != "" then ""
    else
      var t := Trim(OrText(name, "U"));
      if t == "" then "" else [UpperChar(t[0])]
  }

  /** A name made only of white space is truthy, so it does not fall back to
      "U", and trims to nothing: the badge is left empty. */
  lemma BlankNameShowsNoInitial(name: string)
    requires name != "" && forall k :: 0 <= k < |name| ==> IsSpace(name[k])
    ensures AvatarText("", name) == ""
  {
    TrimAllSpace(name);
  }

  /** `updateSessionFromAccount`: the session copies of the account's name,
      photo, department, year and phone. */
  function SessionFromAccount(items: map<string, string>, acc: Account): map<string, string> {
    items["portalName" := OrText(acc.name, "User")]["portalPhoto" := acc.photo]
         ["portalDepartment" := acc.department]["portalYear" := acc.year]["portalPhone" := acc.phone]
  }

  method UpdateSessionFromAccount(session: Session, acc: Account)
    modifies session
    ensures session.items == SessionFromAccount(old(session.items), acc)
    ensures session.pendingSignup == old(session.pendingSignup)
  {
    session.SetItem("portalName", OrText(acc.name, "User"));
    session.SetItem("portalPhoto", acc.photo);
    session.SetItem("portalDepartment", acc.department);
    session.SetItem("portalYear", acc.year);
    session.SetItem("portalPhone", acc.phone);
  }

  /** A password update changes the stored password and nothing else that
      identifies the account. */
  lemma PasswordUpdateSetsPassword(acc: Account, pw: string, pageRole: string)
    ensures Normalized(Merge(acc, PasswordUpdate(pw)), pageRole).password == pw
    ensures Normalized(Merge(acc, PasswordUpdate(pw)), pageRole).email == acc.email
  {
  }

  /** The page state: the signed-in email, the role the page stands for and
      the account being edited. */
  class Page {
    const activeEmail: string
    const pageRole: string
    var account: Option<Account>

    /** `initProfilePage` once a session email is present: the stored account
        with that email, normalised, or none. */
    constructor (accounts: seq<Account>, activeEmail: string, pageRole: string)
      ensures this.activeEmail == activeEmail && this.pageRole == pageRole
      ensures account == NormalizeAccount(FindAccount(accounts, activeEmail), pageRole)
    {
      this.activeEmail := activeEmail;
      this.pageRole := pageRole;
      account := NormalizeAccount(FindAccount(accounts, activeEmail), pageRole);
    }

    /** `persistAccount` for the page's email; a saved account becomes the
        page's account. */
    method Save(store: AccountStore, u: AccountUpdate) returns (saved: bool)
      modifies this, store
      ensures saved <==> IndexWhere(old(store.accounts), EmailIs(activeEmail)).Some?
      ensures !saved ==> account == old(account) && store.accounts == old(store.accounts)
      ensures saved ==>
        var i := IndexWhere(old(store.accounts), EmailIs(activeEmail)).value;
        && account == Some(Normalized(Merge(old(store.accounts)[i], u), pageRole))
        && store.accounts == old(store.accounts)[i := account.value]
    {
      var updated := store.PersistAccount(activeEmail, u, pageRole);
      if updated.None? {
        return false;
      }
      account := updated;
      saved := true;
    }

    /** Saving a valid profile payload: the stored account with the page's
        email is merged with it and becomes the page's account, and the
        session takes the new name, photo, department, year and phone. */
    method SaveProfile(store: AccountStore, session: Session, payload: ProfilePayload) returns (saved: bool)
      modifies this, store, session
      ensures saved <==> IndexWhere(old(store.accounts), EmailIs(activeEmail)).Some?
      ensures !saved ==>
        account == old(account) && store.accounts == old(store.accounts) && session.items == old(session.items)
      ensures saved ==>
        var i := IndexWhere(old(store.accounts), EmailIs(activeEmail)).value;
        && account == Some(Normalized(Merge(old(store.accounts)[i], ProfileUpdate(payload)), pageRole))
        && store.accounts == old(store.accounts)[i := account.value]
        && session.items == SessionFromAccount(old(session.items), account.value)
      ensures session.pendingSignup == old(session.pendingSignup)
    {
      saved := Save(store, ProfileUpdate(payload));
      if saved {
        UpdateSessionFromAccount(session, account.value);
      }
    }

    /** The profile form's submit handler: nothing happens without an
        account or with an invalid form; otherwise the payload is saved. */
    method SubmitProfile(store: AccountStore, session: Session, form: ProfileForm) returns (saved: bool)
      modifies this, store, session
      ensures !saved ==>
        account == old(account) && store.accounts == old(store.accounts) && session.items == old(session.items)
      ensures saved <==>
        && old(account).Some?
        && BuildProfilePayload(form, pageRole).Success?
        && IndexWhere(old(store.accounts), EmailIs(activeEmail)).Some?
      ensures saved ==>
        var i := IndexWhere(old(store.accounts), EmailIs(activeEmail)).value;
        && account == Some(Normalized(Merge(old(store.accounts)[i], ProfileUpdate(BuildProfilePayload(form, pageRole).value)), pageRole))
        && store.accounts == old(store.accounts)[i := account.value]
        && session.items == SessionFromAccount(old(session.items), account.value)
      ensures session.pendingSignup == old(session.pendingSignup)
    {
      if account.None? {
        return false;
      }
      var payload := BuildProfilePayload(form, pageRole);
      if payload.Failure? {
        return false;
      }
      saved := SaveProfile(store, session, payload.value);
    }

    /** The password form's submit handler: nothing happens without an
        account (`None`); otherwise the checks decide, and a new password is
        written to the stored account with the page's email. */
    method SubmitPassword(store: AccountStore, current: Option<string>, next: Option<string>, confirm: Option<string>)
      returns (r: Option<Result<string, PasswordError>>, saved: bool)
      modifies this, store
      ensures r.None? <==> old(account).None?
      ensures r.Some? ==> r.value == PasswordChange(old(account).value.password, current, next, confirm)
      ensures saved <==> r.Some? && r.value.Success? && IndexWhere(old(store.accounts), EmailIs(activeEmail)).Some?
      ensures !saved ==> account == old(account) && store.accounts == old(store.accounts)
      ensures saved ==>
        var i := IndexWhere(old(store.accounts), EmailIs(activeEmail)).value;
        && account == Some(Normalized(Merge(old(store.accounts)[i], PasswordUpdate(r.value.value)), pageRole))
        && store.accounts == old(store.accounts)[i := account.value]
        && account.value.password == r.value.value
    {
      if account.None? {
        return None, false;
      }
      var outcome := PasswordChange(account.value.password, current, next, confirm);
      r := Some(outcome);
      if outcome.Failure? {
        return r, false;
      }
      saved := Save(store, PasswordUpdate(outcome.value));
      if saved {
        PasswordUpdateSetsPassword(old(store.accounts)[IndexWhere(old(store.accounts), EmailIs(activeEmail)).value], outcome.value, pageRole);
      }
    }
  }
}
