/** The sign-in page: validation, the exact credential match, the session
    it writes and where it goes next. */
module Login {
  import opened Common
  import opened Records
  import opened Accounts
  import Signup

  datatype LoginErrors = LoginErrors(email: Issue, password: Issue, general: Issue)

  const NoErrors := LoginErrors(NoIssue, NoIssue, NoIssue)

  ghost function LoginErrorsFor(email: string, password: string): LoginErrors
  {
    LoginErrors(EmailIssue(email), PresenceIssue(password), NoIssue)
  }

  /** Where a successful sign-in goes: the `returnUrl` parameter when it
      is present and not empty, the home page otherwise. */
  function ReturnTarget(returnUrl: Option<string>): (route: string)
    ensures route != ""
    ensures returnUrl.Some? && returnUrl.value != "" ==> route == returnUrl.value
    ensures returnUrl.None? || returnUrl.value == "" ==> route == HomeRoute
  {
    match returnUrl
    case Some(url) => if url != "" then url else HomeRoute
    case None => HomeRoute
  }

  /** The validation pass: both fields checked, the account list is not
      consulted. */
  method ValidateLogin(email: string, password: string) returns (errors: LoginErrors, valid: bool)
    ensures errors == LoginErrorsFor(email, password)
    ensures valid <==> EmailPattern(email) && password != ""
    ensures valid <==> errors == NoErrors
  {
    valid := true;
    errors := NoErrors;
    var emailIssue := CheckEmail(email);
    if emailIssue != NoIssue {
      errors := errors.(email := emailIssue);
      valid := false;
    }
    if password == "" {
      errors := errors.(password := Required);
      valid := false;
    }
  }

  /** Credentials of an account created by sign-up, when no earlier
      account had its e-mail, find exactly that account. */
  lemma {:induction false} SignedUpCanSignIn(users: seq<Account>, u: Account)
    requires !Signup.EmailTaken(users, u.email)
    ensures FindCredential(users + [u], u.email, u.password) == Some(u)
  {
    if users == [] {
      assert users + [u] == [u];
    } else {
      assert (users + [u])[1..] == users[1..] + [u];
      assert users[0].email != u.email;
      assert !Signup.EmailTaken(users[1..], u.email) by {
        forall i | 0 <= i < |users[1..]| ensures users[1..][i].email != u.email {
          assert users[1..][i] == users[i + 1];
        }
      }
      SignedUpCanSignIn(users[1..], u);
    }
  }

  class LoginPage {
    var errors: LoginErrors
    const store: LocalStorage

    constructor(store: LocalStorage)
      ensures this.store == store && errors == NoErrors
    {
      this.store := store;
      errors := NoErrors;
    }

    /** The submit handler. `returnUrl` is the query parameter and `today`
        the date used for an account without a join date. */
    method Submit(email: string, password: string, returnUrl: Option<string>, today: string)
      returns (route: Option<string>)
      modifies this`errors, store`session
      ensures !(EmailPattern(email) && password != "") ==>
        errors == LoginErrorsFor(email, password) && route.None? && store.session == old(store.session)
      ensures (EmailPattern(email) && password != "" && store.users.Garbled?) ==>
        errors == NoErrors.(general := Failed) && route.None? && store.session == old(store.session)
      ensures (EmailPattern(email) && password != "" && !store.users.Garbled?) ==>
        match FindCredential(OrEmpty(store.users), email, password)
        case Some(u) =>
          store.session == Holds(SignInSession(u, today)) &&
          route == Some(ReturnTarget(returnUrl)) && errors == old(errors)
        case None =>
          errors == NoErrors.(general := Rejected) && route.None? && store.session == old(store.session)
    {
      route := None;
      var checked, valid := ValidateLogin(email, password);
      if !valid {
        errors := checked;
        return;
      }
      if store.users.Garbled? {
        errors := NoErrors.(general := Failed);
        return;
      }
      var found := FindCredential(OrEmpty(store.users), email, password);
      if found.Some? {
        store.session := Holds(SignInSession(found.value, today));
        route := Some(ReturnTarget(returnUrl));
      } else {
        errors := NoErrors.(general := Rejected);
      }
    }
  }
}
