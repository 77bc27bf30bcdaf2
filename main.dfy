/**
 * One run of main.py: the session mode picks the login form, the
 * registration form or the application. Every change of mode is followed by
 * a rerun, so a run handles one form at most.
 */
module MainScript {
  import opened Wrappers
  import opened SessionState
  import opened Authenticator
  import opened Database
  import opened DataPlug
  import Tracker
  import App

  /** The message a submitted login form ends with. */
  datatype LoginOutcome = InvalidFormat | UnknownUser | WrongPassword | Success

  /** The nested checks of a login submit: format, then existence, then password. */
  function LoginDecision(users: seq<User>, cipher: Cipher, username: string, password: string): (r: LoginOutcome)
    ensures r == InvalidFormat <==> !ValidateUsername(username)
    ensures r == UnknownUser <==> ValidateUsername(username) && username !in Usernames(users)
    ensures r == WrongPassword <==>
              ValidateUsername(username) && username in Usernames(users) && !CheckLogin(users, cipher, username, password)
    ensures r == Success <==>
              ValidateUsername(username) && username in Usernames(users) && CheckLogin(users, cipher, username, password)
  {
    if !ValidateUsername(username) then InvalidFormat
    else if username !in Usernames(users) then UnknownUser
    else if !CheckLogin(users, cipher, username, password) then WrongPassword
    else Success
  }

  /** A registered user whose password was stored by `register` gets in with that password. */
  lemma {:induction false} RegisteredUserLogsIn(users: seq<User>, cipher: Cipher, f: RegisterForm, dateJoined: string)
    requires RoundTrips(cipher)
    requires RegistrationCheck(users, f).None?
    ensures LoginDecision(users + [NewUser(cipher, f, dateJoined)], cipher, f.username, f.password) == Success
  {
    RegisterThenLogin(users, cipher, f, dateJoined);
    assert Passes(InvalidUsername, users, f);
    ProjectionsOfInsert(users, NewUser(cipher, f, dateJoined));
  }

  /** What the login form hands back in one run. */
  datatype LoginAction = LoginSubmit(username: string, password: string) | RegisterClicked | Idle

  /** The mode a run starts in: 'login' when the session has none. */
  function CurrentMode(mode: Option<Mode>): (m: Mode)
    ensures mode.Some? ==> m == mode.value
    ensures mode.None? ==> m == Login
  {
    match mode
    case None => Login
    case Some(m) => m
  }

  /**
   * `main`: default the mode to login, then show the form of the current
   * mode. A login submit moves to the application and records the username
   * only on Success; the Register button moves to the registration form;
   * the registration form and the application behave as modelled in their
   * modules.
   */
  method RunMain(session: Session, table: UserTable, cipher: Cipher, login: LoginAction,
                 register: RegisterAction, dateJoined: string,
                 store: PeriodStore, file: Tracker.InstalmentsFile, page: App.PageInput)
    returns (message: Option<LoginOutcome>)
    requires page.DataVisualization? ==> page.clearClicked || |store.rows| == 0 || page.pick < |store.rows|
    modifies session, table, store, file
    ensures CurrentMode(old(session.mode)) != Register ==> table.users == old(table.users)
    ensures CurrentMode(old(session.mode)) != App ==> store.rows == old(store.rows) && file.state == old(file.state)
    ensures CurrentMode(old(session.mode)) != Login ==> message.None?
    ensures CurrentMode(old(session.mode)) == Login ==>
              match login
              case LoginSubmit(username, password) =>
                var outcome := LoginDecision(old(table.users), cipher, username, password);
                && message == Some(outcome)
                && (outcome == Success ==> session.mode == Some(App) && session.username == Some(username))
                && (outcome != Success ==> session.mode == Some(Login) && session.username == old(session.username))
              case RegisterClicked =>
                message.None? && session.mode == Some(Register) && session.username == old(session.username)
              case Idle =>
                message.None? && session.mode == Some(Login) && session.username == old(session.username)
    ensures CurrentMode(old(session.mode)) == Register ==>
              && session.username == old(session.username)
              && (register.NoAction? ==> session.mode == old(session.mode) && table.users == old(table.users))
              && (register.LoginClicked? ==> session.mode == Some(Login) && table.users == old(table.users))
              && (register.Submit? ==>
                    match RegistrationCheck(old(table.users), register.form)
                    case Some(_) => session.mode == old(session.mode) && table.users == old(table.users)
                    case None => session.mode == Some(Login) &&
                                 table.users == old(table.users) + [NewUser(cipher, register.form, dateJoined)])
    ensures CurrentMode(old(session.mode)) == App ==>
              && session.mode == old(session.mode) && session.username == old(session.username)
              && store.rows == App.PageRows(old(store.rows), page)
              && file.state == App.PageFile(old(file.state), old(session.username), page)
  {
    message := None;
    if session.mode.None? {
      session.mode := Some(Login);
    }
    if session.mode == Some(Login) {
      match login
      case LoginSubmit(username, password) =>
        var outcome := LoginDecision(table.users, cipher, username, password);
        message := Some(outcome);
        if outcome == Success {
          session.username := Some(username);
          session.mode := Some(App);
        }
      case RegisterClicked =>
        session.mode := Some(Register);
      case Idle =>
    } else if session.mode == Some(Register) {
      var outcome := table.Register(session, cipher, register, dateJoined);
    } else {
      var view := App.OgApp(store, file, session.username, page);
    }
  }
}
