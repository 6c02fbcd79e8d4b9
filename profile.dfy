/** The profile page: the tab chosen by the query string, the profile
    loaded from the session, editing it, the password form, the order
    history and signing out. */
module Profile {
  import opened Common
  import opened Records
  import opened Accounts
  import opened Sequences

  datatype Tab = ProfileTab | PasswordTab | OrdersTab | LoyaltyTab

  function TabName(t: Tab): string
  {
    match t
    case ProfileTab => "profile"
    case PasswordTab => "password"
    case OrdersTab => "orders"
    case LoyaltyTab => "loyalty"
  }

  /** The `tab` query parameter, honoured only when it names a tab. */
  function ParseTab(param: Option<string>): (t: Option<Tab>)
    ensures t.Some? <==> param.Some? && param.value in {"profile", "password", "orders", "loyalty"}
    ensures t.Some? ==> TabName(t.value) == param.value
  {
    match param
    case None => None
    case Some(name) =>
      if name == "profile" then Some(ProfileTab)
      else if name == "password" then Some(PasswordTab)
      else if name == "orders" then Some(OrdersTab)
      else if name == "loyalty" then Some(LoyaltyTab)
      else None
  }

  lemma TabNameRoundTrip(t: Tab)
    ensures ParseTab(Some(TabName(t))) == Some(t)
  {
  }

  /** What the page shows about the signed-in user. */
  datatype ProfileData = ProfileData(
    name: string,
    email: string,
    phone: string,
    address: string,
    city: string,
    state: string,
    zipCode: string,
    joinDate: string,
    loyaltyPoints: int)

  /** The editable part of the profile. */
  datatype ProfileForm = ProfileForm(name: string, email: string, phone: string, address: string)

  datatype PasswordForm = PasswordForm(currentPassword: string, newPassword: string, confirmNewPassword: string)

  const BlankProfile := ProfileData("", "", "", "", "", "", "", "", 0)
  const BlankForm := ProfileForm("", "", "", "")
  const BlankPasswords := PasswordForm("", "", "")

  datatype ProfileErrors = ProfileErrors(
    name: Issue,
    email: Issue,
    phone: Issue,
    address: Issue,
    currentPassword: Issue,
    newPassword: Issue,
    confirmNewPassword: Issue)

  const NoErrors := ProfileErrors(NoIssue, NoIssue, NoIssue, NoIssue, NoIssue, NoIssue, NoIssue)

  /** The profile read from a session; a missing join date reads as today. */
  function ProfileOf(s: Session, today: string): (p: ProfileData)
    ensures p.name == s.name && p.email == s.email && p.phone == s.phone && p.address == s.address
    ensures p.city == s.city && p.state == s.state && p.zipCode == s.zipCode
    ensures p.loyaltyPoints == s.loyaltyPoints
    ensures p.joinDate == if s.joinDate == "" then today else s.joinDate
  {
    ProfileData(s.name, s.email, s.phone, s.address, s.city, s.state, s.zipCode,
                if s.joinDate == "" then today else s.joinDate, s.loyaltyPoints)
  }

  function FormOf(p: ProfileData): ProfileForm
  {
    ProfileForm(p.name, p.email, p.phone, p.address)
  }

  /** The profile after saving the form: its four fields replaced, the
      others kept. */
  function Edited(p: ProfileData, form: ProfileForm): (r: ProfileData)
    ensures FormOf(r) == form
    ensures r.city == p.city && r.state == p.state && r.zipCode == p.zipCode
    ensures r.joinDate == p.joinDate && r.loyaltyPoints == p.loyaltyPoints
  {
    p.(name := form.name, email := form.email, phone := form.phone, address := form.address)
  }

  /** The session record a save writes: the page's profile, which carries
      no id. */
  function SessionOfProfile(p: ProfileData): (s: Session)
    ensures s.id == "" && s.joinDate == p.joinDate
    ensures ProfileOf(s, p.joinDate) == p
  {
    Session("", p.name, p.email, p.phone, p.address, p.city, p.state, p.zipCode,
            p.joinDate, p.loyaltyPoints)
  }

  /** The stored account after a save: the four form fields replaced. */
  function EditedAccount(u: Account, form: ProfileForm): (r: Account)
    ensures r.name == form.name && r.email == form.email && r.phone == form.phone && r.address == form.address
    ensures r.(name := u.name, email := u.email, phone := u.phone, address := u.address) == u
  {
    u.(name := form.name, email := form.email, phone := form.phone, address := form.address)
  }

  /** Saving never checks the new e-mail against other accounts: two
      accounts can end up sharing one. */
  lemma SaveCanShareEmail(a: Account, b: Account)
    requires a.email != b.email
    ensures UniqueEmails([a, b])
    ensures !UniqueEmails([EditedAccount(a, ProfileForm(a.name, b.email, a.phone, a.address)), b])
  {
    var edited := EditedAccount(a, ProfileForm(a.name, b.email, a.phone, a.address));
    assert [edited, b][0].email == [edited, b][1].email;
  }

  ghost function ProfileErrorsFor(form: ProfileForm): ProfileErrors
  {
    NoErrors.(name := PresenceIssue(form.name), email := EmailIssue(form.email),
              phone := PresenceIssue(form.phone), address := PresenceIssue(form.address))
  }

  ghost predicate ProfileFormValid(form: ProfileForm)
  {
    form.name != "" && EmailPattern(form.email) && form.phone != "" && form.address != ""
  }

  ghost function PasswordErrorsFor(form: PasswordForm): ProfileErrors
  {
    NoErrors.(currentPassword := PresenceIssue(form.currentPassword),
              newPassword := NewPasswordIssue(form.newPassword),
              confirmNewPassword := ConfirmIssue(form.newPassword, form.confirmNewPassword))
  }

  ghost predicate PasswordFormValid(form: PasswordForm)
  {
    form.currentPassword != "" && Utf16Length(form.newPassword) >= 6 && form.confirmNewPassword == form.newPassword
  }

  /** The validation pass of the save handler. */
  method ValidateProfile(form: ProfileForm) returns (errors: ProfileErrors, valid: bool)
    ensures errors == ProfileErrorsFor(form)
    ensures valid <==> ProfileFormValid(form)
    ensures valid <==> errors == NoErrors
  {
    valid := true;
    errors := NoErrors;
    if form.name == "" {
      errors := errors.(name := Required);
      valid := false;
    }
    var emailIssue := CheckEmail(form.email);
    if emailIssue != NoIssue {
      errors := errors.(email := emailIssue);
      valid := false;
    }
    if form.phone == "" {
      errors := errors.(phone := Required);
      valid := false;
    }
    if form.address == "" {
      errors := errors.(address := Required);
      valid := false;
    }
  }

  /** The validation pass of the password handler. */
  method ValidatePasswords(form: PasswordForm) returns (errors: ProfileErrors, valid: bool)
    ensures errors == PasswordErrorsFor(form)
    ensures valid <==> PasswordFormValid(form)
    ensures valid <==> errors == NoErrors
  {
    valid := true;
    errors := NoErrors;
    if form.currentPassword == "" {
      errors := errors.(currentPassword := Required);
      valid := false;
    }
    if form.newPassword == "" {
      errors := errors.(newPassword := Required);
      valid := false;
    } else if Utf16Length(form.newPassword) < 6 {
      errors := errors.(newPassword := TooShort);
      valid := false;
    }
    if form.confirmNewPassword == "" {
      errors := errors.(confirmNewPassword := Required);
      valid := false;
    } else if form.newPassword != form.confirmNewPassword {
      errors := errors.(confirmNewPassword := Mismatch);
      valid := false;
    }
  }

  /** The orders placed under `email`, newest first: every such order,
      as often as it is stored, in the reverse of the stored order. */
  function OrderHistory(orders: seq<Order>, email: string): (r: seq<Order>)
    ensures forall o :: o in r <==> o in orders && o.userEmail == email
    ensures forall o :: multiset(r)[o] == if o.userEmail == email then multiset(orders)[o] else 0
    ensures IsSubsequence(Reverse(r), orders)
  {
    var mine := PlacedBy(orders, email);
    ReverseReverse(mine);
    Reverse(mine)
  }

  /** The orders placed under `email`, oldest first. */
  function PlacedBy(orders: seq<Order>, email: string): (r: seq<Order>)
    ensures forall o :: o in r <==> o in orders && o.userEmail == email
    ensures forall o :: multiset(r)[o] == if o.userEmail == email then multiset(orders)[o] else 0
    ensures IsSubsequence(r, orders)
  {
    FilterCounts(orders, (o: Order) => o.userEmail == email);
    Filter(orders, (o: Order) => o.userEmail == email)
  }

  class ProfilePage {
    var activeTab: Tab
    var isEditing: bool
    var userData: ProfileData
    var form: ProfileForm
    var passwords: PasswordForm
    var errors: ProfileErrors
    const store: LocalStorage

    constructor(store: LocalStorage)
      ensures this.store == store
      ensures activeTab == ProfileTab && !isEditing && userData == BlankProfile
      ensures form == BlankForm && passwords == BlankPasswords && errors == NoErrors
    {
      this.store := store;
      activeTab := ProfileTab;
      isEditing := false;
      userData := BlankProfile;
      form := BlankForm;
      passwords := BlankPasswords;
      errors := NoErrors;
    }

    /** The two mount effects: the tab from the query string, then the
        profile from the session; without a readable session, off to sign
        in. `today` stands for the date shown for a missing join date. */
    method Mount(tabParam: Option<string>, today: string) returns (route: Option<string>)
      modifies this`activeTab, this`userData, this`form
      ensures activeTab == ParseTab(tabParam).GetOr(old(activeTab))
      ensures store.session.Holds? ==>
        route.None? && userData == ProfileOf(store.session.value, today) &&
        form == FormOf(ProfileOf(store.session.value, today))
      ensures !store.session.Holds? ==>
        route == Some(LoginRoute) && userData == old(userData) && form == old(form)
    {
      var tab := ParseTab(tabParam);
      if tab.Some? {
        activeTab := tab.value;
      }
      if store.session.Holds? {
        userData := ProfileOf(store.session.value, today);
        form := FormOf(userData);
        route := None;
      } else {
        route := Some(LoginRoute);
      }
    }

    /** Typing in the profile form. */
    method EditForm(edited: ProfileForm)
      modifies this`form
      ensures form == edited
    {
      form := edited;
    }

    /** "Save Changes". A form that fails validation writes nothing. A
        valid one is written to the session first; then the account found
        by the e-mail the profile had before the edit gets the four fields.
        When the account list does not parse, the session is written but
        the page keeps its old profile and stays in edit mode. */
    method SaveProfile()
      modifies this`userData, this`isEditing, this`errors, store`session, store`users
      ensures !ProfileFormValid(form) ==>
        errors == ProfileErrorsFor(form) && userData == old(userData) && isEditing == old(isEditing) &&
        store.session == old(store.session) && store.users == old(store.users)
      ensures ProfileFormValid(form) ==>
        errors == old(errors) &&
        store.session == Holds(SessionOfProfile(Edited(old(userData), form)))
      ensures (ProfileFormValid(form) && old(store.users).Garbled?) ==>
        store.users == old(store.users) && userData == old(userData) && isEditing == old(isEditing)
      ensures (ProfileFormValid(form) && !old(store.users).Garbled?) ==>
        userData == Edited(old(userData), form) && !isEditing &&
        match IndexOfEmail(OrEmpty(old(store.users)), old(userData).email)
        case None => store.users == old(store.users)
        case Some(i) =>
          store.users == Holds(OrEmpty(old(store.users))[i := EditedAccount(OrEmpty(old(store.users))[i], form)])
    {
      var checked, valid := ValidateProfile(form);
      if !valid {
        errors := checked;
        return;
      }
      var updated := Edited(userData, form);
      store.session := Holds(SessionOfProfile(updated));
      if store.users.Garbled? {
        return;
      }
      var users := OrEmpty(store.users);
      var index := IndexOfEmail(users, userData.email);
      if index.Some? {
        users := users[index.value := EditedAccount(users[index.value], form)];
        store.users := Holds(users);
      }
      userData := updated;
      isEditing := false;
    }

    /** Typing in the password form. */
    method EditPasswords(edited: PasswordForm)
      modifies this`passwords
      ensures passwords == edited
    {
      passwords := edited;
    }

    /** "Update Password": validation only; on success the form is
        cleared. Nothing is stored. */
    method ChangePassword()
      modifies this`passwords, this`errors
      ensures !PasswordFormValid(old(passwords)) ==>
        errors == PasswordErrorsFor(old(passwords)) && passwords == old(passwords)
      ensures PasswordFormValid(old(passwords)) ==>
        errors == old(errors) && passwords == BlankPasswords
    {
      var checked, valid := ValidatePasswords(passwords);
      if !valid {
        errors := checked;
        return;
      }
      passwords := BlankPasswords;
    }

    /** The order history tab for the profile's e-mail. An order list that
        does not parse is not handled by the page. */
    function History(): (r: seq<Order>)
      requires !store.orders.Garbled?
      reads this`userData, store`orders
      ensures forall o :: o in r <==> o in OrEmpty(store.orders) && o.userEmail == userData.email
      ensures forall o :: (multiset(r)[o] ==
        if o.userEmail == userData.email then multiset(OrEmpty(store.orders))[o] else 0)
      ensures IsSubsequence(Reverse(r), OrEmpty(store.orders))
    {
      OrderHistory(OrEmpty(store.orders), userData.email)
    }

    /** "Logout": the session is removed and the page goes home. */
    method Logout() returns (route: string)
      modifies store`session
      ensures store.session.Absent? && route == HomeRoute
    {
      store.session := Absent;
      route := HomeRoute;
    }
  }
}
