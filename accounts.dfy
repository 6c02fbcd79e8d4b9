/** What the sign-up, sign-in, profile and checkout pages share about
    accounts: the e-mail and ZIP formats, the lookups in the account list,
    and the session records built from an account. */
module Accounts {
  import opened Common
  import opened Records

  // ---- character classes of the e-mail format ----

  predicate IsLetter(c: char)
  {
    ('a' <= c <= 'z') || ('A' <= c <= 'Z')
  }

  predicate IsDigit(c: char)
  {
    '0' <= c <= '9'
  }

  /** Allowed before the '@'. */
  predicate IsLocalChar(c: char)
  {
    IsLetter(c) || IsDigit(c) || c == '.' || c == '_' || c == '%' || c == '+' || c == '-'
  }

  /** Allowed in the domain part. */
  predicate IsDomainChar(c: char)
  {
    IsLetter(c) || IsDigit(c) || c == '.' || c == '-'
  }

  predicate AllLocal(s: string) { forall k :: 0 <= k < |s| ==> IsLocalChar(s[k]) }
  predicate AllDomain(s: string) { forall k :: 0 <= k < |s| ==> IsDomainChar(s[k]) }
  predicate AllLetters(s: string) { forall k :: 0 <= k < |s| ==> IsLetter(s[k]) }
  predicate AllDigits(s: string) { forall k :: 0 <= k < |s| ==> IsDigit(s[k]) }

  /** The pattern the pages test e-mails against, read as a set of strings:
      one or more local characters, '@', one or more domain characters, '.',
      and two or more letters, covering the whole string. */
  ghost predicate EmailPattern(s: string)
  {
    exists at, dot :: 1 <= at && at + 2 <= dot && dot + 3 <= |s| &&
      s[at] == '@' && s[dot] == '.' &&
      AllLocal(s[..at]) && AllDomain(s[at + 1..dot]) && AllLetters(s[dot + 1..])
  }

  /** Position of the first `c` in `s`, or -1. */
  function IndexOf(s: string, c: char): (i: int)
    ensures -1 <= i < |s|
    ensures i == -1 <==> c !in s
    ensures i >= 0 ==> s[i] == c && c !in s[..i]
  {
    if s == [] then -1
    else if s[0] == c then 0
    else
      var j := IndexOf(s[1..], c);
      if j == -1 then -1
      else
        assert s[..j + 1] == [s[0]] + s[1..][..j];
        j + 1
  }

  /** Position of the last `c` in `s`, or -1. */
  function LastIndexOf(s: string, c: char): (i: int)
    ensures -1 <= i < |s|
    ensures i == -1 <==> c !in s
    ensures i >= 0 ==> s[i] == c && c !in s[i + 1..]
  {
    if s == [] then -1
    else if s[|s| - 1] == c then |s| - 1
    else
      var j := LastIndexOf(s[..|s| - 1], c);
      assert s == s[..|s| - 1] + [s[|s| - 1]];
      if j == -1 then -1
      else
        assert s[j + 1..] == s[..|s| - 1][j + 1..] + [s[|s| - 1]];
        j
  }

  /** The three parts of `s` around an '@' at `at` and a '.' at `dot` are
      well formed. */
  predicate PartsValid(s: string, at: int, dot: int)
  {
    1 <= at && at + 2 <= dot && dot + 3 <= |s| &&
      AllLocal(s[..at]) && AllDomain(s[at + 1..dot]) && AllLetters(s[dot + 1..])
  }

  /** A decision procedure for the pages' e-mail regular expression: split
      at the first '@' and the last '.' and check the three parts.
      `SplitMatchesPattern` shows it accepts exactly the strings of
      `EmailPattern`. */
  predicate ValidEmail(s: string): (b: bool)
    ensures b <==> EmailPattern(s)
  {
    SplitMatchesPattern(s);
    PartsValid(s, IndexOf(s, '@'), LastIndexOf(s, '.'))
  }

  /** An '@' preceded only by local characters is the first '@'. */
  lemma FirstAt(s: string, a: int)
    requires 0 <= a < |s| && s[a] == '@' && AllLocal(s[..a])
    ensures IndexOf(s, '@') == a
  {
  }

  /** A '.' followed only by letters is the last '.'. */
  lemma LastDot(s: string, d: int)
    requires 0 <= d < |s| && s[d] == '.' && AllLetters(s[d + 1..])
    ensures LastIndexOf(s, '.') == d
  {
  }

  lemma SplitInPattern(s: string)
    requires PartsValid(s, IndexOf(s, '@'), LastIndexOf(s, '.'))
    ensures EmailPattern(s)
  {
    var at := IndexOf(s, '@');
    var dot := LastIndexOf(s, '.');
    assert 1 <= at && at + 2 <= dot && dot + 3 <= |s| && s[at] == '@' && s[dot] == '.' &&
      AllLocal(s[..at]) && AllDomain(s[at + 1..dot]) && AllLetters(s[dot + 1..]);
  }

  lemma PatternSplits(s: string)
    requires EmailPattern(s)
    ensures PartsValid(s, IndexOf(s, '@'), LastIndexOf(s, '.'))
  {
    var a, d :| 1 <= a && a + 2 <= d && d + 3 <= |s| &&
      s[a] == '@' && s[d] == '.' &&
      AllLocal(s[..a]) && AllDomain(s[a + 1..d]) && AllLetters(s[d + 1..]);
    FirstAt(s, a);
    LastDot(s, d);
  }

  /** Splitting at the first '@' and the last '.' accepts exactly the
      strings of the pattern. */
  lemma SplitMatchesPattern(s: string)
    ensures PartsValid(s, IndexOf(s, '@'), LastIndexOf(s, '.')) <==> EmailPattern(s)
  {
    if PartsValid(s, IndexOf(s, '@'), LastIndexOf(s, '.')) {
      SplitInPattern(s);
    }
    if EmailPattern(s) {
      PatternSplits(s);
    }
  }

  /** An accepted e-mail has exactly one '@' and ends in '.' and at least
      two letters. */
  lemma ValidEmailShape(s: string)
    requires ValidEmail(s)
    ensures '@' in s
    ensures forall i, j :: 0 <= i < j < |s| && s[i] == '@' ==> s[j] != '@'
    ensures exists d :: 0 <= d <= |s| - 3 && s[d] == '.' && AllLetters(s[d + 1..])
    ensures s != ""
  {
    PartsShape(s, IndexOf(s, '@'), LastIndexOf(s, '.'));
  }

  lemma PartsShape(s: string, at: int, dot: int)
    requires PartsValid(s, at, dot) && s[at] == '@' && '@' !in s[..at] && s[dot] == '.'
    ensures '@' in s
    ensures forall i, j :: 0 <= i < j < |s| && s[i] == '@' ==> s[j] != '@'
    ensures exists d :: 0 <= d <= |s| - 3 && s[d] == '.' && AllLetters(s[d + 1..])
  {
    forall i, j | 0 <= i < j < |s| && s[i] == '@'
      ensures s[j] != '@'
    {
      if at < j < dot {
        assert IsDomainChar(s[at + 1..dot][j - at - 1]);
      } else if j > dot {
        assert IsLetter(s[dot + 1..][j - dot - 1]);
      }
    }
    assert s[dot] == '.' && AllLetters(s[dot + 1..]);
  }

  /** Five digits, optionally followed by '-' and four digits: read
      position by position, a digit everywhere except a '-' at index 5 of
      a ten-character code. */
  predicate ValidZip(z: string): (b: bool)
    ensures b <==> ((|z| == 5 || |z| == 10) && (|z| == 10 ==> z[5] == '-') &&
      forall k :: 0 <= k < |z| && k != 5 ==> IsDigit(z[k]))
  {
    assert |z| == 10 ==> forall k :: 0 <= k < 5 ==> z[..5][k] == z[k];
    assert |z| == 10 ==> forall k :: 6 <= k < 10 ==> z[6..][k - 6] == z[k];
    (|z| == 5 && AllDigits(z)) ||
    (|z| == 10 && AllDigits(z[..5]) && z[5] == '-' && AllDigits(z[6..]))
  }

  // ---- form checks ----

  /** What a form reports for one field. */
  datatype Issue = NoIssue | Required | Malformed | TooShort | Mismatch | Taken | Failed | Rejected

  /** A field that must not be empty. */
  function PresenceIssue(field: string): Issue
  {
    if field == "" then Required else NoIssue
  }

  /** An e-mail field: required, then matched against the pattern. */
  ghost function EmailIssue(email: string): Issue
  {
    if email == "" then Required else if !EmailPattern(email) then Malformed else NoIssue
  }

  /** A new password: required, then at least six UTF-16 code units. */
  function NewPasswordIssue(password: string): Issue
  {
    if password == "" then Required else if Utf16Length(password) < 6 then TooShort else NoIssue
  }

  /** Three emoji pass the length rule: the page counts six code units. */
  lemma EmojiPasswordLongEnough()
    ensures NewPasswordIssue("\U{1F600}\U{1F600}\U{1F600}") == NoIssue
  {
    ThreeEmojiAreSixUnits();
  }

  /** A confirmation field: required, then equal to the password. */
  function ConfirmIssue(password: string, confirm: string): Issue
  {
    if confirm == "" then Required else if password != confirm then Mismatch else NoIssue
  }

  /** The e-mail check every form performs, computed with `ValidEmail`. */
  method CheckEmail(email: string) returns (issue: Issue)
    ensures issue == EmailIssue(email)
    ensures issue == NoIssue <==> EmailPattern(email)
  {
    if email == "" {
      issue := Required;
    } else if !ValidEmail(email) {
      issue := Malformed;
    } else {
      issue := NoIssue;
    }
  }

  // ---- lookups in the account list ----

  /** The first account with exactly this e-mail and password, as the
      sign-in page's `find` returns it. */
  function FindCredential(users: seq<Account>, email: string, password: string): (r: Option<Account>)
    ensures r.Some? <==> exists i :: 0 <= i < |users| && users[i].email == email && users[i].password == password
    ensures r.Some? ==> r.value.email == email && r.value.password == password
    ensures r.Some? ==> exists i :: (0 <= i < |users| && users[i] == r.value &&
      forall j :: 0 <= j < i ==> !(users[j].email == email && users[j].password == password))
  {
    if users == [] then None
    else if users[0].email == email && users[0].password == password then Some(users[0])
    else
      var r := FindCredential(users[1..], email, password);
      assert forall i :: 1 <= i < |users| ==> users[i] == users[1..][i - 1];
      r
  }

  /** Index of the first account with exactly this e-mail (`findIndex`). */
  function IndexOfEmail(users: seq<Account>, email: string): (r: Option<nat>)
    ensures r.None? <==> forall i :: 0 <= i < |users| ==> users[i].email != email
    ensures r.Some? ==> r.value < |users| && users[r.value].email == email
    ensures r.Some? ==> forall j :: 0 <= j < r.value ==> users[j].email != email
  {
    if users == [] then None
    else if users[0].email == email then Some(0)
    else
      var r := IndexOfEmail(users[1..], email);
      assert forall i :: 1 <= i < |users| ==> users[i] == users[1..][i - 1];
      if r.None? then None else Some(r.value + 1)
  }

  /** No two accounts share an e-mail. */
  predicate UniqueEmails(users: seq<Account>)
  {
    forall i, j :: 0 <= i < j < |users| ==> users[i].email != users[j].email
  }

  lemma AppendKeepsUniqueEmails(users: seq<Account>, u: Account)
    requires UniqueEmails(users)
    requires forall i :: 0 <= i < |users| ==> users[i].email != u.email
    ensures UniqueEmails(users + [u])
  {
  }

  // ---- session records ----

  /** The session record of an account: every field but the password. */
  function SessionOf(u: Account): (s: Session)
    ensures s.id == u.id && s.name == u.name && s.email == u.email
    ensures s.phone == u.phone && s.address == u.address && s.city == u.city
    ensures s.state == u.state && s.zipCode == u.zipCode
    ensures s.joinDate == u.joinDate && s.loyaltyPoints == u.loyaltyPoints
  {
    Session(u.id, u.name, u.email, u.phone, u.address, u.city, u.state, u.zipCode,
            u.joinDate, u.loyaltyPoints)
  }

  /** The session a sign-in writes: the account's session record, with
      today's date when the account has no join date. */
  function SignInSession(u: Account, today: string): (s: Session)
    ensures s.joinDate == if u.joinDate == "" then today else u.joinDate
    ensures s.(joinDate := u.joinDate) == SessionOf(u)
  {
    SessionOf(if u.joinDate == "" then u.(joinDate := today) else u)
  }
}
