/** The sign-up page: field-by-field validation, the duplicate e-mail
    check, the new account and the session it starts. */
module Signup {
  import opened Common
  import opened Records
  import opened Accounts

  datatype SignupForm = SignupForm(
    name: string,
    email: string,
    password: string,
    confirmPassword: string,
    address: string,
    city: string,
    state: string,
    zipCode: string)

  /** One entry per form field, and a general one. */
  datatype SignupErrors = SignupErrors(
    name: Issue,
    email: Issue,
    password: Issue,
    confirmPassword: Issue,
    address: Issue,
    city: Issue,
    state: Issue,
    zipCode: Issue,
    general: Issue)

  const NoErrors := SignupErrors(NoIssue, NoIssue, NoIssue, NoIssue, NoIssue, NoIssue, NoIssue, NoIssue, NoIssue)

  /** Required, then five digits with an optional four-digit extension. */
  function ZipIssue(zipCode: string): Issue
  {
    if zipCode == "" then Required else if !ValidZip(zipCode) then Malformed else NoIssue
  }

  /** What validation reports: each field judged on its own, so every
      failing field gets its error. */
  ghost function SignupErrorsFor(form: SignupForm): SignupErrors
  {
    SignupErrors(
      PresenceIssue(form.name),
      EmailIssue(form.email),
      NewPasswordIssue(form.password),
      ConfirmIssue(form.password, form.confirmPassword),
      PresenceIssue(form.address),
      PresenceIssue(form.city),
      PresenceIssue(form.state),
      ZipIssue(form.zipCode),
      NoIssue)
  }

  /** A form that passes: all fields present, the e-mail and ZIP well
      formed, the password long enough and confirmed. */
  ghost predicate SignupFormValid(form: SignupForm)
  {
    form.name != "" && EmailPattern(form.email) &&
    Utf16Length(form.password) >= 6 && form.confirmPassword == form.password &&
    form.address != "" && form.city != "" && form.state != "" && ValidZip(form.zipCode)
  }

  /** The report is free of errors exactly when the form passes. */
  lemma SignupErrorsOnlyWhenInvalid(form: SignupForm)
    ensures SignupErrorsFor(form) == NoErrors <==> SignupFormValid(form)
  {
  }

  /** The validation pass of the submit handler: one check per field, a
      failing check clears the `valid` flag and the others still run. */
  method ValidateSignup(form: SignupForm) returns (errors: SignupErrors, valid: bool)
    ensures errors == SignupErrorsFor(form)
    ensures valid <==> SignupFormValid(form)
    ensures valid <==> errors == NoErrors
  {
    SignupErrorsOnlyWhenInvalid(form);
    valid := true;
    errors := NoErrors;
    if form.name == "" {
      errors := errors.(name := Required);
      valid := false;
    }
    var emailIssue := CheckEmail(form.email);
    if emailIssue != NoIssue {
      errors := errors.(email := emailIssue);
      valid := false;
    }
    if form.password == "" {
      errors := errors.(password := Required);
      valid := false;
    } else if Utf16Length(form.password) < 6 {
      errors := errors.(password := TooShort);
      valid := false;
    }
    if form.confirmPassword == "" {
      errors := errors.(confirmPassword := Required);
      valid := false;
    } else if form.password != form.confirmPassword {
      errors := errors.(confirmPassword := Mismatch);
      valid := false;
    }
    if form.address == "" {
      errors := errors.(address := Required);
      valid := false;
    }
    if form.city == "" {
      errors := errors.(city := Required);
      valid := false;
    }
    if form.state == "" {
      errors := errors.(state := Required);
      valid := false;
    }
    if form.zipCode == "" {
      errors := errors.(zipCode := Required);
      valid := false;
    } else if !ValidZip(form.zipCode) {
      errors := errors.(zipCode := Malformed);
      valid := false;
    }
  }

  /** Whether some account already uses exactly this e-mail. */
  predicate EmailTaken(users: seq<Account>, email: string): (b: bool)
    ensures b <==> IndexOfEmail(users, email).Some?
  {
    exists i :: 0 <= i < |users| && users[i].email == email
  }

  /** The account a successful sign-up creates: no phone yet, no points,
      joined today. */
  function NewAccount(form: SignupForm, id: string, today: string): (u: Account)
    ensures u.id == id && u.name == form.name
    ensures u.email == form.email && u.password == form.password
    ensures u.address == form.address && u.city == form.city
    ensures u.state == form.state && u.zipCode == form.zipCode
    ensures u.phone == "" && u.loyaltyPoints == 0 && u.joinDate == today
  {
    Account(id, form.name, form.email, form.password, "", form.address,
            form.city, form.state, form.zipCode, today, 0)
  }

  class SignupPage {
    var errors: SignupErrors
    const store: LocalStorage

    constructor(store: LocalStorage)
      ensures this.store == store && errors == NoErrors
    {
      this.store := store;
      errors := NoErrors;
    }

    /** The submit handler. `newId` and `today` stand for the clock-derived
        id and join date. The result is where the page navigates, if it
        does. */
    method Submit(form: SignupForm, newId: string, today: string) returns (route: Option<string>)
      modifies this`errors, store`users, store`session
      ensures !SignupFormValid(form) ==>
        errors == SignupErrorsFor(form) && route.None? &&
        store.users == old(store.users) && store.session == old(store.session)
      ensures SignupFormValid(form) && old(store.users).Garbled? ==>
        errors == NoErrors.(general := Failed) && route.None? &&
        store.users == old(store.users) && store.session == old(store.session)
      ensures (SignupFormValid(form) && !old(store.users).Garbled? &&
        EmailTaken(OrEmpty(old(store.users)), form.email)) ==>
        errors == NoErrors.(email := Taken) && route.None? &&
        store.users == old(store.users) && store.session == old(store.session)
      ensures (SignupFormValid(form) && !old(store.users).Garbled? &&
        !EmailTaken(OrEmpty(old(store.users)), form.email)) ==>
        errors == old(errors) && route == Some(ProfileRoute) &&
        store.users == Holds(OrEmpty(old(store.users)) + [NewAccount(form, newId, today)]) &&
        store.session == Holds(SessionOf(NewAccount(form, newId, today)))
      ensures !old(store.users).Garbled? && UniqueEmails(OrEmpty(old(store.users))) ==>
        !store.users.Garbled? && UniqueEmails(OrEmpty(store.users))
    {
      route := None;
      var checked, valid := ValidateSignup(form);
      if !valid {
        errors := checked;
        return;
      }
      if store.users.Garbled? {
        errors := checked.(general := Failed);
        return;
      }
      var users := OrEmpty(store.users);
      if EmailTaken(users, form.email) {
        errors := checked.(email := Taken);
        return;
      }
      var account := NewAccount(form, newId, today);
      if UniqueEmails(users) {
        AppendKeepsUniqueEmails(users, account);
      }
      users := users + [account];
      store.users := Holds(users);
      store.session := Holds(SessionOf(account));
      route := Some(ProfileRoute);
    }
  }
}
