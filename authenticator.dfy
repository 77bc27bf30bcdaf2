/**
 * Accounts of logic/authenticator.py: the two format checks, the ordered
 * registration checks, the user table with its insert, and the password
 * comparison of `check_login`. The MySQL table is the `users` field of
 * `UserTable`; Fernet is a pair of functions given as a parameter.
 */
module Authenticator {
  import opened Wrappers
  import opened Text
  import opened SessionState

  /** A row of the `ExpenseTrackerAuth` table; `password` holds the encrypted password. */
  datatype User = User(email: string, username: string, password: string, dateJoined: string)

  /** `[user['email'] for user in users]` */
  function Emails(users: seq<User>): (r: seq<string>)
    ensures |r| == |users| && forall i :: 0 <= i < |users| ==> r[i] == users[i].email
  {
    seq(|users|, i requires 0 <= i < |users| => users[i].email)
  }

  /** `[user['username'] for user in users]` */
  function Usernames(users: seq<User>): (r: seq<string>)
    ensures |r| == |users| && forall i :: 0 <= i < |users| ==> r[i] == users[i].username
  {
    seq(|users|, i requires 0 <= i < |users| => users[i].username)
  }

  /** Adding a user adds its email and username at the end of the two lists. */
  lemma {:induction false} ProjectionsOfInsert(users: seq<User>, u: User)
    ensures Emails(users + [u]) == Emails(users) + [u.email]
    ensures Usernames(users + [u]) == Usernames(users) + [u.username]
  {
  }

  // Character classes of the two patterns (ASCII ranges, as in a `str` pattern without flags).

  predicate IsLetter(c: char) {
    'a' <= c <= 'z' || 'A' <= c <= 'Z'
  }

  predicate IsAlnum(c: char) {
    IsLetter(c) || IsDigit(c)
  }

  predicate IsLower(c: char) {
    'a' <= c <= 'z'
  }

  /** `[a-zA-Z0-9-_]`: letters, digits, '-' and '_'. */
  predicate IsLocalChar(c: char) {
    IsAlnum(c) || c == '-' || c == '_'
  }

  predicate AllAlnum(s: string) {
    forall i :: 0 <= i < |s| ==> IsAlnum(s[i])
  }

  /**
   * `$` matches at the very end or before one final "\n"; none of the
   * patterns matches a newline, so a match is a match of what is left once
   * that newline is dropped.
   */
  function StripFinalNewline(s: string): (t: string)
    ensures |s| > 0 && s[|s| - 1] == '\n' ==> s == t + "\n"
    ensures !(|s| > 0 && s[|s| - 1] == '\n') ==> t == s
  {
    if |s| > 0 && s[|s| - 1] == '\n' then s[..|s| - 1] else s
  }

  /**
   * `validate_username`: `^[a-zA-Z0-9]*$` — letters and digits only, the
   * empty string included, with one final "\n" tolerated.
   */
  function ValidateUsername(username: string): (ok: bool)
    ensures ok <==> AllAlnum(username) ||
                    (|username| > 0 && username[|username| - 1] == '\n' && AllAlnum(username[..|username| - 1]))
  {
    var t := StripFinalNewline(username);
    assert |username| > 0 && username[|username| - 1] == '\n' ==> !AllAlnum(username);
    forall i | 0 <= i < |t| :: IsAlnum(t[i])
  }

  /** The three parts of `^[a-zA-Z0-9-_]+@[a-zA-Z0-9]+\.[a-z]{1,3}$`. */
  predicate LocalPart(s: string) {
    |s| >= 1 && forall i :: 0 <= i < |s| ==> IsLocalChar(s[i])
  }

  predicate DomainPart(s: string) {
    |s| >= 1 && AllAlnum(s)
  }

  predicate TopLevelPart(s: string) {
    1 <= |s| <= 3 && forall i :: 0 <= i < |s| ==> IsLower(s[i])
  }

  /** `t` is `local@domain.tld` with each part of its class. */
  predicate EmailSplit(t: string, local: string, domain: string, tld: string) {
    t == local + "@" + domain + "." + tld && LocalPart(local) && DomainPart(domain) && TopLevelPart(tld)
  }

  /** The email pattern without its anchors: some split into three well-formed parts exists. */
  ghost predicate EmailShape(t: string) {
    exists local, domain, tld :: EmailSplit(t, local, domain, tld)
  }

  /** What `re.match` with the anchored pattern accepts. */
  ghost predicate EmailPatternMatches(email: string) {
    EmailShape(email) || (|email| > 0 && email[|email| - 1] == '\n' && EmailShape(email[..|email| - 1]))
  }

  /** Splitting at the first '@' and then at the first '.', the way the pattern has to. */
  function EmailParts(t: string): (r: Option<(string, string, string)>)
    ensures r.Some? ==> t == r.value.0 + "@" + r.value.1 + "." + r.value.2
  {
    var at := IndexOfChar(t, '@');
    if at == |t| then None
    else
      var rest := t[at + 1..];
      var dot := IndexOfChar(rest, '.');
      if dot == |rest| then None
      else
        Rejoin(rest, dot);
        Rejoin(t, at);
        JoinTwice(t, t[..at], rest, rest[..dot], rest[dot + 1..], '@', '.');
        Some((t[..at], rest[..dot], rest[dot + 1..]))
  }

  /** `validate_email`: the parts found at the first '@' and '.' must each be of their class. */
  function ValidateEmail(email: string): (ok: bool)
    ensures ok <==> EmailPatternMatches(email)
  {
    var t := StripFinalNewline(email);
    var parts := EmailParts(t);
    var ok := parts.Some? && LocalPart(parts.value.0) && DomainPart(parts.value.1) && TopLevelPart(parts.value.2);
    ValidateEmailMeansPattern(email, t, ok);
    ok
  }

  lemma {:induction false} ValidateEmailMeansPattern(email: string, t: string, ok: bool)
    requires t == StripFinalNewline(email)
    requires var parts := EmailParts(t);
             ok == (parts.Some? && LocalPart(parts.value.0) && DomainPart(parts.value.1) && TopLevelPart(parts.value.2))
    ensures ok <==> EmailPatternMatches(email)
  {
    EmailPartsComplete(t);
    if |email| > 0 && email[|email| - 1] == '\n' {
      NoShapeEndsInNewline(email);
    }
  }

  /** Any well-formed split is the one found at the first '@' and '.'. */
  lemma {:induction false} EmailPartsComplete(t: string)
    ensures var parts := EmailParts(t);
            EmailShape(t) <==> parts.Some? && EmailSplit(t, parts.value.0, parts.value.1, parts.value.2)
  {
    if EmailShape(t) {
      var local, domain, tld :| EmailSplit(t, local, domain, tld);
      EmailSplitIsUnique(t, local, domain, tld);
    }
  }

  lemma {:induction false} EmailSplitIsUnique(t: string, local: string, domain: string, tld: string)
    requires EmailSplit(t, local, domain, tld)
    ensures EmailParts(t) == Some((local, domain, tld))
  {
    assert '@' !in local && '.' !in domain;
    var rest := domain + ['.'] + tld;
    assert t == local + ['@'] + rest;
    CutAtFirst(t, local, '@', rest);
    CutAtFirst(rest, domain, '.', tld);
  }

  lemma {:induction false} NoShapeEndsInNewline(email: string)
    requires |email| > 0 && email[|email| - 1] == '\n'
    ensures !EmailShape(email)
  {
  }

  /** An accepted email holds exactly one '@' and exactly one '.'. */
  lemma {:induction false} AcceptedEmailHasOneAtAndOneDot(email: string)
    requires ValidateEmail(email)
    ensures multiset(email)['@'] == 1 && multiset(email)['.'] == 1
  {
    var t := StripFinalNewline(email);
    var local, domain, tld :| EmailSplit(t, local, domain, tld);
    SplitCounts(t, local, domain, tld);
    if t != email {
      assert email == t + "\n";
      assert multiset(email) == multiset(t) + multiset{'\n'};
    }
  }

  lemma {:induction false} SplitCounts(t: string, local: string, domain: string, tld: string)
    requires EmailSplit(t, local, domain, tld)
    ensures multiset(t)['@'] == 1 && multiset(t)['.'] == 1
  {
    assert '@' !in local && '.' !in local;
    assert '@' !in domain && '.' !in domain;
    assert '@' !in tld && '.' !in tld;
    assert multiset(t) == multiset(local) + multiset{'@'} + multiset(domain) + multiset{'.'} + multiset(tld);
  }

  /** The warnings of `register`, in the order its checks run. */
  datatype RegisterError =
    | InvalidEmail
    | EmailExists
    | InvalidUsername
    | UsernameExists
    | UsernameTooShort
    | PasswordTooShort
    | PasswordMismatch

  /** The four fields of the registration form. */
  datatype RegisterForm = RegisterForm(email: string, username: string, password: string, confirm: string)

  /** The condition each check demands. */
  function Passes(e: RegisterError, users: seq<User>, f: RegisterForm): (p: bool)
    ensures e == EmailExists ==> (p <==> forall u :: u in users ==> u.email != f.email)
    ensures e == UsernameExists ==> (p <==> forall u :: u in users ==> u.username != f.username)
  {
    TakenMeansSomeUser(users, f.email, f.username);
    match e
    case InvalidEmail => f.email != "" && ValidateEmail(f.email)
    case EmailExists => f.email !in Emails(users)
    case InvalidUsername => ValidateUsername(f.username)
    case UsernameExists => f.username !in Usernames(users)
    case UsernameTooShort => |f.username| >= 2
    case PasswordTooShort => |f.password| >= 6
    case PasswordMismatch => f.password == f.confirm
  }

  /** An email or username is among the projections exactly when some user has it. */
  lemma {:induction false} TakenMeansSomeUser(users: seq<User>, email: string, username: string)
    ensures email in Emails(users) <==> exists u :: u in users && u.email == email
    ensures username in Usernames(users) <==> exists u :: u in users && u.username == username
  {
    if email in Emails(users) {
      var i :| 0 <= i < |users| && Emails(users)[i] == email;
      assert users[i] in users;
    }
    if username in Usernames(users) {
      var i :| 0 <= i < |users| && Usernames(users)[i] == username;
      assert users[i] in users;
    }
    forall u | u in users ensures u.email in Emails(users) && u.username in Usernames(users) {
      var i :| 0 <= i < |users| && users[i] == u;
      assert Emails(users)[i] == u.email && Usernames(users)[i] == u.username;
    }
  }

  /**
   * The seven checks of `register`: the warning of the first one that fails,
   * in source order, or None when all pass.
   */
  function RegistrationCheck(users: seq<User>, f: RegisterForm): (r: Option<RegisterError>)
    ensures r == Some(InvalidEmail) <==> !Passes(InvalidEmail, users, f)
    ensures r == Some(EmailExists) <==> Passes(InvalidEmail, users, f) && !Passes(EmailExists, users, f)
    ensures r == Some(InvalidUsername) <==>
              Passes(InvalidEmail, users, f) && Passes(EmailExists, users, f) && !Passes(InvalidUsername, users, f)
    ensures r == Some(UsernameExists) <==>
              Passes(InvalidEmail, users, f) && Passes(EmailExists, users, f) && Passes(InvalidUsername, users, f) &&
              !Passes(UsernameExists, users, f)
    ensures r == Some(UsernameTooShort) <==>
              Passes(InvalidEmail, users, f) && Passes(EmailExists, users, f) && Passes(InvalidUsername, users, f) &&
              Passes(UsernameExists, users, f) && !Passes(UsernameTooShort, users, f)
    ensures r == Some(PasswordTooShort) <==>
              Passes(InvalidEmail, users, f) && Passes(EmailExists, users, f) && Passes(InvalidUsername, users, f) &&
              Passes(UsernameExists, users, f) && Passes(UsernameTooShort, users, f) && !Passes(PasswordTooShort, users, f)
    ensures r == Some(PasswordMismatch) <==>
              Passes(InvalidEmail, users, f) && Passes(EmailExists, users, f) && Passes(InvalidUsername, users, f) &&
              Passes(UsernameExists, users, f) && Passes(UsernameTooShort, users, f) && Passes(PasswordTooShort, users, f) &&
              !Passes(PasswordMismatch, users, f)
    ensures r.None? <==> forall e :: Passes(e, users, f)
  {
    if !Passes(InvalidEmail, users, f) then Some(InvalidEmail)
    else if !Passes(EmailExists, users, f) then Some(EmailExists)
    else if !Passes(InvalidUsername, users, f) then Some(InvalidUsername)
    else if !Passes(UsernameExists, users, f) then Some(UsernameExists)
    else if !Passes(UsernameTooShort, users, f) then Some(UsernameTooShort)
    else if !Passes(PasswordTooShort, users, f) then Some(PasswordTooShort)
    else if !Passes(PasswordMismatch, users, f) then Some(PasswordMismatch)
    else
      AllChecksPass(users, f);
      None
  }

  lemma {:induction false} AllChecksPass(users: seq<User>, f: RegisterForm)
    requires Passes(InvalidEmail, users, f) && Passes(EmailExists, users, f) && Passes(InvalidUsername, users, f)
    requires Passes(UsernameExists, users, f) && Passes(UsernameTooShort, users, f)
    requires Passes(PasswordTooShort, users, f) && Passes(PasswordMismatch, users, f)
    ensures forall e :: Passes(e, users, f)
  {
    forall e ensures Passes(e, users, f) {
      match e
      case InvalidEmail =>
      case EmailExists =>
      case InvalidUsername =>
      case UsernameExists =>
      case UsernameTooShort =>
      case PasswordTooShort =>
      case PasswordMismatch =>
    }
  }

  /** Fernet under a fixed key, as the two functions `encrypt_password` and `decrypt_password`. */
  datatype Cipher = Cipher(encrypt: string -> string, decrypt: string -> string)

  /** Decrypting what was encrypted gives the plaintext back. */
  ghost predicate RoundTrips(cipher: Cipher) {
    forall x :: cipher.decrypt(cipher.encrypt(x)) == x
  }

  /** A username other than the first user's is listed exactly when the later users list it. */
  lemma {:induction false} UsernamesOfTail(users: seq<User>, username: string)
    requires users != [] && users[0].username != username
    ensures username in Usernames(users) <==> username in Usernames(users[1..])
  {
    var all, rest := Usernames(users), Usernames(users[1..]);
    if username in all {
      var i :| 0 <= i < |all| && all[i] == username;
      assert rest[i - 1] == username;
    }
    if username in rest {
      var i :| 0 <= i < |rest| && rest[i] == username;
      assert all[i + 1] == username;
    }
  }

  /** The first user with this username (`next(...)`), if any. */
  function FirstUser(users: seq<User>, username: string): (r: Option<nat>)
    ensures r.None? <==> username !in Usernames(users)
    ensures r.Some? ==> r.value < |users| && users[r.value].username == username &&
                        forall j :: 0 <= j < r.value ==> users[j].username != username
    decreases |users|
  {
    if users == [] then None
    else if users[0].username == username then Some(0)
    else
      UsernamesOfTail(users, username);
      match FirstUser(users[1..], username)
      case None => None
      case Some(i) => Some(i + 1)
  }

  /**
   * `check_login`: False for an unknown username; otherwise whether the
   * entered password equals the decryption of the first such user's stored
   * password.
   */
  function CheckLogin(users: seq<User>, cipher: Cipher, username: string, enteredPassword: string): (ok: bool)
    ensures username !in Usernames(users) ==> !ok
    ensures ok <==> exists i :: FirstWith(users, username, i) && cipher.decrypt(users[i].password) == enteredPassword
  {
    match FirstUser(users, username)
    case None =>
      NoFirstOfUnknown(users, username);
      false
    case Some(i) =>
      FirstIsUnique(users, username, i);
      enteredPassword == cipher.decrypt(users[i].password)
  }

  /** Row `i` is the first user named `username`. */
  predicate FirstWith(users: seq<User>, username: string, i: int) {
    0 <= i < |users| && users[i].username == username &&
    forall j :: 0 <= j < i ==> users[j].username != username
  }

  /** Only one row can be the first with a given username. */
  lemma {:induction false} FirstIsUnique(users: seq<User>, username: string, i: int)
    requires FirstWith(users, username, i)
    ensures forall k :: FirstWith(users, username, k) ==> k == i
  {
  }

  /** An unknown username has no first row. */
  lemma {:induction false} NoFirstOfUnknown(users: seq<User>, username: string)
    requires username !in Usernames(users)
    ensures forall k :: !FirstWith(users, username, k)
  {
  }

  /** The user `register` inserts. */
  function NewUser(cipher: Cipher, f: RegisterForm, dateJoined: string): (u: User)
    ensures u.email == f.email && u.username == f.username && u.dateJoined == dateJoined
    ensures RoundTrips(cipher) ==> cipher.decrypt(u.password) == f.password
  {
    User(f.email, f.username, cipher.encrypt(f.password), dateJoined)
  }

  /** After a registration passes its checks, logging in with its username and password succeeds. */
  lemma {:induction false} RegisterThenLogin(users: seq<User>, cipher: Cipher, f: RegisterForm, dateJoined: string)
    requires RoundTrips(cipher)
    requires RegistrationCheck(users, f).None?
    ensures CheckLogin(users + [NewUser(cipher, f, dateJoined)], cipher, f.username, f.password)
  {
    var u := NewUser(cipher, f, dateJoined);
    var after := users + [u];
    assert Passes(UsernameExists, users, f);
    forall j | 0 <= j < |users| ensures after[j].username != f.username {
      assert users[j] in users;
    }
    assert FirstWith(after, f.username, |users|);
    assert cipher.decrypt(after[|users|].password) == f.password;
  }

  /** No email and no username belongs to two users. */
  predicate UniqueAccounts(users: seq<User>) {
    forall i, j :: 0 <= i < j < |users| ==> users[i].email != users[j].email && users[i].username != users[j].username
  }

  /** A registration that passes its checks keeps emails and usernames unique. */
  lemma {:induction false} RegisterKeepsUnique(users: seq<User>, cipher: Cipher, f: RegisterForm, dateJoined: string)
    requires UniqueAccounts(users)
    requires RegistrationCheck(users, f).None?
    ensures UniqueAccounts(users + [NewUser(cipher, f, dateJoined)])
  {
    assert Passes(EmailExists, users, f);
    assert Passes(UsernameExists, users, f);
    var after := users + [NewUser(cipher, f, dateJoined)];
    forall i, j | 0 <= i < j < |after| ensures after[i].email != after[j].email && after[i].username != after[j].username {
      if j == |users| {
        assert Emails(users)[i] == after[i].email;
        assert Usernames(users)[i] == after[i].username;
      }
    }
  }

  /** What one run of the registration form does. */
  datatype RegisterAction =
    | Submit(form: RegisterForm)
    | LoginClicked
    | NoAction

  datatype RegisterOutcome = Rejected(error: RegisterError) | Registered | BackToLogin | Unchanged

  /** The `ExpenseTrackerAuth` table. */
  class UserTable {
    var users: seq<User>

    constructor (initial: seq<User>)
      ensures users == initial
    {
      users := initial;
    }

    /** `insert_user`: one row at the end, stamped with the join date. */
    method InsertUser(email: string, username: string, hashedPassword: string, dateJoined: string)
      modifies this
      ensures users == old(users) + [User(email, username, hashedPassword, dateJoined)]
    {
      users := users + [User(email, username, hashedPassword, dateJoined)];
    }

    /**
     * `register`: a submitted form runs the seven checks in order and stops
     * at the first warning; when all pass, the encrypted password is
     * inserted and the mode returns to login. The form's Login button
     * returns to login without inserting.
     */
    method Register(session: Session, cipher: Cipher, action: RegisterAction, dateJoined: string)
      returns (outcome: RegisterOutcome)
      modifies this, session
      ensures session.username == old(session.username)
      ensures action.NoAction? ==> outcome == Unchanged && users == old(users) && session.mode == old(session.mode)
      ensures action.LoginClicked? ==> outcome == BackToLogin && users == old(users) && session.mode == Some(Login)
      ensures action.Submit? ==>
                match RegistrationCheck(old(users), action.form)
                case Some(e) => outcome == Rejected(e) && users == old(users) && session.mode == old(session.mode)
                case None => outcome == Registered && session.mode == Some(Login) &&
                             users == old(users) + [NewUser(cipher, action.form, dateJoined)]
      ensures old(UniqueAccounts(users)) ==> UniqueAccounts(users)
    {
      match action
      case Submit(f) =>
        var check := RegistrationCheck(users, f);
        if check.Some? {
          outcome := Rejected(check.value);
          return;
        }
        if UniqueAccounts(users) {
          RegisterKeepsUnique(users, cipher, f, dateJoined);
        }
        var encryptedPassword := cipher.encrypt(f.password);
        InsertUser(f.email, f.username, encryptedPassword, dateJoined);
        session.mode := Some(Login);
        outcome := Registered;
      case LoginClicked =>
        session.mode := Some(Login);
        outcome := BackToLogin;
      case NoAction =>
        outcome := Unchanged;
    }
  }
}
