/** The login page (`LoginPage` in src/app/login/page.tsx): the directory
    lookup by e-mail, the placeholder credential check (the password must
    equal the user's `username`), the session write and the two error
    messages. */
module Login {
  import opened Common
  import opened Records

  const InvalidCredentialsMessage: string := "Invalid email or password."
  const RequestFailedMessage: string := "An error occurred. Please try again."

  /** `users.find((u) => u.email === email)` */
  function FindByEmail(users: seq<User>, email: string): Option<User> {
    if users == [] then None
    else if users[0].email == email then Some(users[0])
    else FindByEmail(users[1..], email)
  }

  /** `i` is the index of the first user whose e-mail is exactly `email`. */
  predicate FirstWithEmail(users: seq<User>, email: string, i: int) {
    && 0 <= i < |users| && users[i].email == email
    && forall j :: 0 <= j < i ==> users[j].email != email
  }

  datatype LoginResult = SignedIn(user: User) | InvalidCredentials | RequestFailed

  /** The credential check of `handleLogin`: the candidate must exist and its username must
      equal the password. */
  function Authenticate(users: seq<User>, email: string, password: string): LoginResult {
    match FindByEmail(users, email)
    case None => InvalidCredentials
    case Some(u) => if u.username != password then InvalidCredentials else SignedIn(u)
  }

  /** What one submit decides, from the response of the user-list request. */
  function LoginOutcome(response: Fetch<User>, email: string, password: string): LoginResult {
    if response.Fail? then RequestFailed else Authenticate(response.data, email, password)
  }

  // ---- properties ---------------------------------------------------------

  /** `find` returns the first user with exactly that e-mail (the comparison
      is case-sensitive), and nothing when no user has it. */
  lemma {:induction false} FindByEmailFirst(users: seq<User>, email: string)
    ensures FindByEmail(users, email).Some? ==>
      exists i :: FirstWithEmail(users, email, i) && FindByEmail(users, email) == Some(users[i])
    ensures FindByEmail(users, email).None? <==> forall i :: 0 <= i < |users| ==> users[i].email != email
  {
    if users != [] {
      FindByEmailFirst(users[1..], email);
      if users[0].email == email {
        assert FirstWithEmail(users, email, 0);
      } else {
        if FindByEmail(users[1..], email).Some? {
          var i :| FirstWithEmail(users[1..], email, i) && FindByEmail(users[1..], email) == Some(users[1..][i]);
          assert FirstWithEmail(users, email, i + 1);
        }
        assert forall i :: 0 < i < |users| ==> users[i] == users[1..][i - 1];
      }
    }
  }

  /** Login succeeds exactly when the first user with that e-mail has the
      password as username, and it signs in that user. */
  lemma SignInIff(users: seq<User>, email: string, password: string)
    ensures Authenticate(users, email, password).SignedIn? <==>
      exists i :: FirstWithEmail(users, email, i) && users[i].username == password
    ensures Authenticate(users, email, password).SignedIn? ==>
      exists i :: FirstWithEmail(users, email, i) && Authenticate(users, email, password).user == users[i]
  {
    FindByEmailFirst(users, email);
    if exists i :: FirstWithEmail(users, email, i) && users[i].username == password {
      var i :| FirstWithEmail(users, email, i) && users[i].username == password;
      FirstIsUnique(users, email, i);
    }
  }

  /** Only the first user with that e-mail is checked: a later one whose
      username matches is not accepted. */
  lemma OnlyFirstMatchChecked(users: seq<User>, email: string, password: string, i: int)
    requires FirstWithEmail(users, email, i) && users[i].username != password
    ensures Authenticate(users, email, password) == InvalidCredentials
  {
    FindByEmailFirst(users, email);
    FirstIsUnique(users, email, i);
  }

  lemma FirstIsUnique(users: seq<User>, email: string, i: int)
    requires FirstWithEmail(users, email, i)
    ensures forall j :: FirstWithEmail(users, email, j) ==> j == i
  {
  }

  // ---- the component ------------------------------------------------------

  class LoginPage {
    var email: string
    var password: string
    var error: Option<string>

    constructor ()
      ensures email == "" && password == "" && error == None
    {
      email, password, error := "", "", None;
    }

    method SetEmail(value: string)
      modifies this`email
      ensures email == value
    {
      email := value;
    }

    method SetPassword(value: string)
      modifies this`password
      ensures password == value
    {
      password := value;
    }

    /** `handleLogin`: on success the matched user is stored and the page goes
        to the user route; on a credential mismatch or a failed request only
        the error message is set. */
    method HandleLogin(response: Fetch<User>, browser: Browser)
      modifies this`error, browser
      ensures match LoginOutcome(response, email, password)
        case SignedIn(u) =>
          && browser.storedUser == Some(u) && browser.route == Some(UserRoute)
          && error == old(error)
        case InvalidCredentials =>
          && error == Some(InvalidCredentialsMessage)
          && browser.storedUser == old(browser.storedUser) && browser.route == old(browser.route)
        case RequestFailed =>
          && error == Some(RequestFailedMessage)
          && browser.storedUser == old(browser.storedUser) && browser.route == old(browser.route)
    {
      if response.Fail? {
        error := Some(RequestFailedMessage);
        return;
      }
      var users := response.data;
      var user := FindByEmail(users, email);
      if user.None? || user.value.username != password {
        error := Some(InvalidCredentialsMessage);
        return;
      }
      browser.storedUser := user;
      browser.route := Some(UserRoute);
    }
  }
}
