/**
 * `LoginViewModel.login`: rejects a blank email or password, otherwise signs in with
 * Firebase Authentication and posts one `LoginResult`. Unlike registration, the inputs are
 * neither trimmed nor re-checked: they go to sign-in exactly as typed. How sign-in ends is
 * decided outside the app, so it is a parameter.
 */
module Login {
  import opened Model
  import opened Firestore
  import opened Text

  datatype LoginResult = LoginResult(success: bool, message: string)

  /** How `signInWithEmailAndPassword` completes: signed in as `uid`, or an exception and
      its (possibly null) message. */
  datatype SignInOutcome = SignInSuccess(uid: string) | SignInFailure(message: Option<string>)

  /** One run of `login`: the credentials sent to sign-in (`None` when validation stops
      the call), the store afterwards, and the posted result. */
  datatype Attempt = Attempt(signIn: Option<Credentials>, db: Db, result: LoginResult)

  /** `login(email, password)` given how sign-in ends. */
  function LoginStep(db: Db, email: string, password: string, outcome: SignInOutcome): (r: Attempt)
    ensures r.signIn.None? <==> IsBlank(email) || IsBlank(password)
    ensures r.signIn.None? ==> r.db == db && r.result == LoginResult(false, "Email or password cannot be empty")
    ensures r.signIn.Some? ==> r.signIn.value == Credentials(email, password)
    ensures r.signIn.Some? && outcome.SignInSuccess? ==>
      r.db == db.(currentUser := Some(outcome.uid)) && r.result == LoginResult(true, "Login successful")
    ensures r.signIn.Some? && outcome.SignInFailure? ==>
      r.db == db && r.result == LoginResult(false, outcome.message.GetOr("Login failed"))
  {
    if IsBlank(email) || IsBlank(password) then
      Attempt(None, db, LoginResult(false, "Email or password cannot be empty"))
    else
      match outcome
      case SignInSuccess(uid) =>
        Attempt(Some(Credentials(email, password)), db.(currentUser := Some(uid)), LoginResult(true, "Login successful"))
      case SignInFailure(message) =>
        Attempt(Some(Credentials(email, password)), db, LoginResult(false, message.GetOr("Login failed")))
  }

  /** A login reports success exactly when the inputs are not blank and sign-in succeeds,
      and then the account is the signed-in user; a failed or rejected login changes
      nothing in the store. */
  lemma LoginSucceedsIffSignedIn(db: Db, email: string, password: string, outcome: SignInOutcome)
    ensures var r := LoginStep(db, email, password, outcome);
            r.result.success <==> !IsBlank(email) && !IsBlank(password) && outcome.SignInSuccess?
    ensures var r := LoginStep(db, email, password, outcome);
            r.result.success ==> r.db.currentUser == Some(outcome.uid)
    ensures var r := LoginStep(db, email, password, outcome);
            !r.result.success ==> r.db == db
  {
    var r := LoginStep(db, email, password, outcome);
    if !IsBlank(email) && !IsBlank(password) && outcome.SignInFailure? {
      assert !r.result.success;
    }
  }

  class LoginViewModel {
    var loginResult: Option<LoginResult>   // the LiveData's value; None before any post

    constructor ()
      ensures loginResult == None
    {
      loginResult := None;
    }

    /** `login`: returns what was sent to sign-in and the store afterwards; the posted
        result becomes the LiveData's value. */
    method Login(db: Db, email: string, password: string, outcome: SignInOutcome)
      returns (signIn: Option<Credentials>, db': Db)
      modifies this`loginResult
      ensures var r := LoginStep(db, email, password, outcome);
              signIn == r.signIn && db' == r.db && loginResult == Some(r.result)
    {
      if IsBlank(email) || IsBlank(password) {
        loginResult := Some(LoginResult(false, "Email or password cannot be empty"));
        return None, db;
      }
      signIn := Some(Credentials(email, password));
      if outcome.SignInSuccess? {
        db' := db.(currentUser := Some(outcome.uid));
        loginResult := Some(LoginResult(true, "Login successful"));
      } else {
        db' := db;
        loginResult := Some(LoginResult(false, outcome.message.GetOr("Login failed")));
      }
    }
  }
}
