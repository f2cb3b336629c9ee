/**
 The mock sign-in screen (components/Auth.tsx): three modes, `login`,
 `signup` and `otp`, a one-time code fixed at "123456", and passwords kept
 in `localStorage` under `user-<email>`. `localStorage` is the map `store`;
 each call of the `onLogin` callback is recorded in `loggedIn`.
 */
module MockAuth {
  import opened JsRuntime

  datatype Mode = Login | Signup | Otp

  datatype User = User(email: string, isGuest: bool)

  const GuestEmail: string := "guest@example.com"
  const MockOtp: string := "123456"
  const InvalidOtp: string := "Invalid OTP. Please try again."
  const InvalidCredentials: string := "Invalid credentials."

  /** The storage key of an account: `user-${email}`. */
  function Key(email: string): string {
    "user-" + email
  }

  /** Different e-mails are stored under different keys. */
  lemma KeyInjective(a: string, b: string)
    requires Key(a) == Key(b)
    ensures a == b
  {
    assert a == Key(a)[5..];
    assert b == Key(b)[5..];
  }

  /** The check of `handleLogin` (Auth.tsx:44-45): a password is stored for
      the e-mail, it is not the empty (falsy) string, and it equals the
      password typed. */
  function LoginAccepted(store: map<string, string>, email: string, password: string): (ok: bool)
    ensures ok ==> password != ""
  {
    var key := Key(email);
    key in store && store[key] != "" && store[key] == password
  }

  /** Mode changes the screen offers: the links between `login` and
      `signup`, and submitting `signup` to reach `otp`. Nothing leaves `otp`. */
  predicate Step(from: Mode, to: Mode) {
    from == to || (from == Login && to == Signup) || (from == Signup && to == Login) || (from == Signup && to == Otp)
  }

  /** Once in `otp`, every sequence of allowed steps stays in `otp`. */
  lemma {:induction false} OtpIsFinal(path: seq<Mode>)
    requires |path| >= 1 && path[0] == Otp
    requires forall k :: 0 <= k < |path| - 1 ==> Step(path[k], path[k + 1])
    ensures forall k :: 0 <= k < |path| ==> path[k] == Otp
  {
    if |path| > 1 {
      OtpIsFinal(path[1..]);
      forall k | 0 <= k < |path| ensures path[k] == Otp {
        if k > 0 {
          assert path[k] == path[1..][k - 1];
        }
      }
    }
  }

  /** Storing one account does not change whether any other e-mail can
      log in, whatever password is tried. */
  lemma OtherAccountsUnaffected(store: map<string, string>, email: string, password: string, other: string, attempt: string)
    requires other != email
    ensures LoginAccepted(store[Key(email) := password], other, attempt) == LoginAccepted(store, other, attempt)
  {
    if Key(other) == Key(email) {
      KeyInjective(other, email);
    }
  }

  /** After an account is stored, exactly its password logs in, unless it
      is empty: an account stored with an empty password never logs in. */
  lemma StoredAccountLogsIn(store: map<string, string>, email: string, password: string, attempt: string)
    ensures LoginAccepted(store[Key(email) := password], email, attempt) <==> password != "" && attempt == password
  {
  }

  /** The component's state. */
  class AuthForm {
    var mode: Mode
    var email: string
    var password: string
    var otp: string
    var error: string
    var store: map<string, string>
    var loggedIn: Option<User>

    /** The first render (Auth.tsx:10-14), over the current `localStorage`. */
    constructor (store: map<string, string>)
      ensures mode == Login && email == "" && password == "" && otp == "" && error == ""
      ensures this.store == store && loggedIn == None
    {
      mode, email, password, otp, error := Login, "", "", "", "";
      this.store := store;
      loggedIn := None;
    }

    /** Typing in the e-mail field. */
    method EditEmail(value: string)
      modifies this`email
      ensures email == value
    {
      email := value;
    }

    /** Typing in the password field. */
    method EditPassword(value: string)
      modifies this`password
      ensures password == value
    {
      password := value;
    }

    /** Typing in the code field (shown in `otp` mode). */
    method EditOtp(value: string)
      requires mode == Otp
      modifies this`otp
      ensures otp == value
    {
      otp := value;
    }

    /** `handleGuestLogin` (Auth.tsx:16-18). */
    method GuestLogin()
      modifies this`loggedIn
      ensures loggedIn == Some(User(GuestEmail, true))
    {
      loggedIn := Some(User(GuestEmail, true));
    }

    /** The "Sign Up" link of the login form (Auth.tsx:93). */
    method ShowSignup()
      requires mode == Login
      modifies this`mode
      ensures mode == Signup && Step(old(mode), mode)
    {
      mode := Signup;
    }

    /** The "Log In" link of the signup form (Auth.tsx:77). */
    method ShowLogin()
      requires mode == Signup
      modifies this`mode
      ensures mode == Login && Step(old(mode), mode)
    {
      mode := Login;
    }

    /** `handleSignup` (Auth.tsx:20-26): nothing is stored yet. */
    method SubmitSignup()
      requires mode == Signup
      modifies this`mode, this`error
      ensures mode == Otp && error == "" && Step(old(mode), mode)
    {
      error := "";
      mode := Otp;
    }

    /** `handleOtp` (Auth.tsx:28-39). */
    method SubmitOtp()
      requires mode == Otp
      modifies this`store, this`loggedIn, this`error
      ensures mode == Otp
      ensures otp == MockOtp ==>
        store == old(store)[Key(email) := password] && loggedIn == Some(User(email, false)) && error == old(error)
      ensures otp != MockOtp ==>
        store == old(store) && loggedIn == old(loggedIn) && error == InvalidOtp
    {
      if otp == "123456" {
        store := store["user-" + email := password];
        loggedIn := Some(User(email, false));
      } else {
        error := "Invalid OTP. Please try again.";
      }
    }

    /** `handleLogin` (Auth.tsx:41-50). */
    method SubmitLogin()
      requires mode == Login
      modifies this`loggedIn, this`error
      ensures LoginAccepted(store, email, password) ==> loggedIn == Some(User(email, false)) && error == old(error)
      ensures !LoginAccepted(store, email, password) ==> loggedIn == old(loggedIn) && error == InvalidCredentials
    {
      var key := "user-" + email;
      var storedPassword := if key in store then store[key] else "";
      if storedPassword != "" && storedPassword == password {
        loggedIn := Some(User(email, false));
      } else {
        error := "Invalid credentials.";
      }
    }
  }

  /** A whole sign-up followed, on a fresh screen, by a log-in with the same
      e-mail and password: the log-in succeeds exactly when the password is
      not empty. */
  method SignupThenLogin(store: map<string, string>, email: string, password: string) returns (user: Option<User>)
    ensures password != "" ==> user == Some(User(email, false))
    ensures password == "" ==> user == None
  {
    var signup := new AuthForm(store);
    signup.ShowSignup();
    signup.EditEmail(email);
    signup.EditPassword(password);
    signup.SubmitSignup();
    signup.EditOtp(MockOtp);
    signup.SubmitOtp();
    StoredAccountLogsIn(store, email, password, password);

    var login := new AuthForm(signup.store);
    login.EditEmail(email);
    login.EditPassword(password);
    login.SubmitLogin();
    user := login.loggedIn;
  }
}
