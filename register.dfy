/**
 * `RegisterViewModel.registerUser`: validates the trimmed inputs, creates the account
 * with Firebase Authentication, stores the user's profile under the new uid, and posts one
 * `RegistrationResult`. The outcome of the sign-up and of the profile write are decided
 * outside the app, so they are parameters.
 */
module Register {
  import opened Model
  import opened Firestore
  import opened Text
  import NewChat

  /** The value posted to `registrationResult`. */
  datatype RegistrationResult = RegistrationResult(success: bool, message: string)

  /** How `createUserWithEmailAndPassword` completes. On success Firebase signs the new
      account in; `currentUser` is `firebaseAuth.currentUser?.uid` when the listener runs. */
  datatype AuthOutcome =
    | AuthSuccess(currentUser: Option<string>)
    | WeakPassword
    | InvalidCredentials
    | UserCollision
    | OtherAuthFailure(message: Option<string>)   // any other exception, and its message

  /** How `users/{uid}.set(...)` completes. */
  datatype WriteOutcome = WriteOk | WriteFailed(message: Option<string>)

  /** One run of `registerUser`: the credentials sent to sign-up (`None` when validation
      stops the call first), the store afterwards, and what is posted (`None` when the
      listener returns without posting). */
  datatype Registration = Registration(signUp: Option<Credentials>, db: Db, result: Option<RegistrationResult>)

  /** The fixed texts `registerUser` posts. */
  const EmptyFieldsMessage: string := "Email, password, or username cannot be empty"
  const SuccessMessage: string := "Registration successful"
  const SaveFailurePrefix: string := "Failed to save user data: "

  /** Kotlin's `"$x"` of a nullable string: the string itself, or "null". */
  function Interpolated(s: Option<string>): (r: string)
    ensures s.Some? ==> r == s.value
    ensures s.None? ==> r == "null"
  {
    s.GetOr("null")
  }

  /** The profile document `registerUser` stores: exactly `email`, `userId` and `username`. */
  function ProfileDoc(uid: string, email: string, username: string): UserDoc {
    UserDoc(Some(uid), Some(username), Some(email), None, None)
  }

  /** The message for a failed sign-up, by the exception's type. */
  function AuthErrorMessage(failure: AuthOutcome): (m: string)
    requires !failure.AuthSuccess?
    ensures failure == WeakPassword ==> m == "Password is too weak. Must be at least 6 characters."
    ensures failure == InvalidCredentials ==> m == "Invalid email format."
    ensures failure == UserCollision ==> m == "This email is already registered."
    ensures failure.OtherAuthFailure? ==> m == failure.message.GetOr("Registration failed")
  {
    match failure
    case WeakPassword => "Password is too weak. Must be at least 6 characters."
    case InvalidCredentials => "Invalid email format."
    case UserCollision => "This email is already registered."
    case OtherAuthFailure(message) => message.GetOr("Registration failed")
  }

  predicate HasBlankField(email: string, password: string, username: string) {
    IsBlank(Trim(email)) || IsBlank(Trim(password)) || IsBlank(Trim(username))
  }

  /** `registerUser(email, password, username)` given how sign-up and the profile write end. */
  function RegisterStep(db: Db, email: string, password: string, username: string,
                        auth: AuthOutcome, save: WriteOutcome): (r: Registration)
    requires Valid(db)
    ensures Valid(r.db)
    // validation: a field that is blank after trimming stops everything
    ensures r.signUp.None? <==> HasBlankField(email, password, username)
    ensures r.signUp.None? ==>
      r.db == db && r.result == Some(RegistrationResult(false, EmptyFieldsMessage))
    ensures r.signUp.Some? ==> r.signUp.value == Credentials(Trim(email), Trim(password))
    // sign-up failures name their cause and write nothing
    ensures r.signUp.Some? && !auth.AuthSuccess? ==>
      r.db == db && r.result == Some(RegistrationResult(false, AuthErrorMessage(auth)))
    // sign-up success: the new account is signed in
    ensures r.signUp.Some? && auth.AuthSuccess? ==>
      r.db.currentUser == auth.currentUser && r.db.chats == db.chats && r.db.chatIds == db.chatIds
      && r.db.messages == db.messages && r.db.clock == db.clock
    ensures r.signUp.Some? && auth.AuthSuccess? && auth.currentUser.Some? ==>
      var uid := auth.currentUser.value;
      r.db.userIds == (if save == WriteOk && uid !in db.users then InsertId(db.userIds, uid) else db.userIds)
    ensures r.signUp.Some? && auth.AuthSuccess? && auth.currentUser.None? ==>
      r.result == None && r.db.users == db.users
    ensures r.signUp.Some? && auth.AuthSuccess? && auth.currentUser.Some? ==>
      var uid := auth.currentUser.value;
      && r.db.users == (if save == WriteOk then db.users[uid := ProfileDoc(uid, Trim(email), Trim(username))] else db.users)
      && r.result == Some(if save == WriteOk then RegistrationResult(true, SuccessMessage)
                          else RegistrationResult(false, SaveFailurePrefix + Interpolated(save.message)))
  {
    var trimmedEmail := Trim(email);
    var trimmedPassword := Trim(password);
    var trimmedUsername := Trim(username);
    if IsBlank(trimmedEmail) || IsBlank(trimmedPassword) || IsBlank(trimmedUsername) then
      Registration(None, db, Some(RegistrationResult(false, EmptyFieldsMessage)))
    else
      var signUp := Some(Credentials(trimmedEmail, trimmedPassword));
      if !auth.AuthSuccess? then Registration(signUp, db, Some(RegistrationResult(false, AuthErrorMessage(auth))))
      else
        var signedIn := db.(currentUser := auth.currentUser);
        if auth.currentUser.None? then Registration(signUp, signedIn, None)
        else
          var uid := auth.currentUser.value;
          match save
          case WriteOk =>
            Registration(signUp, SetUser(signedIn, uid, ProfileDoc(uid, trimmedEmail, trimmedUsername)),
                         Some(RegistrationResult(true, SuccessMessage)))
          case WriteFailed(message) =>
            Registration(signUp, signedIn,
                         Some(RegistrationResult(false, SaveFailurePrefix + Interpolated(message))))
  }

  /** A registration reports success exactly when the inputs are valid, the account is
      created and signed in, and the profile is stored; then the stored profile reads back
      with the trimmed name and email and empty picture and token. */
  lemma RegistrationSucceedsIffStored(db: Db, email: string, password: string, username: string,
                                      auth: AuthOutcome, save: WriteOutcome)
    requires Valid(db)
    ensures var r := RegisterStep(db, email, password, username, auth, save);
            (r.result.Some? && r.result.value.success) <==>
              !HasBlankField(email, password, username) && auth.AuthSuccess? && auth.currentUser.Some? && save == WriteOk
    ensures var r := RegisterStep(db, email, password, username, auth, save);
            r.result.Some? && r.result.value.success ==>
              var uid := auth.currentUser.value;
              && r.db.currentUser == Some(uid)
              && uid in r.db.users
              && UserFromDoc(r.db.users[uid]) == User(uid, Trim(username), Trim(email), "", "")
  {
    var r := RegisterStep(db, email, password, username, auth, save);
    if auth.AuthSuccess? && auth.currentUser.Some? && save.WriteFailed? {
      // the failure message starts with "Failed", so it cannot be the success result
      assert r.result.Some? ==> !r.result.value.success;
    }
  }

  /** Any user document stored under `uid` is among the users `loadUsers` fetches. */
  lemma StoredUserIsFetched(db: Db, uid: string)
    requires Valid(db) && uid in db.users
    ensures UserFromDoc(db.users[uid]) in NewChat.FetchedUsers(db)
  {
    var i :| 0 <= i < |db.userIds| && db.userIds[i] == uid;
    assert NewChat.FetchedUsers(db)[i] == UserFromDoc(db.users[uid]);
  }

  /** A successfully registered user appears in the user list that `loadUsers` builds for
      anyone else who is signed in, with the trimmed name and email. */
  lemma RegisteredUserIsListed(db: Db, email: string, password: string, username: string,
                               uid: string, viewer: string)
    requires Valid(db) && !HasBlankField(email, password, username) && viewer != uid
    ensures var r := RegisterStep(db, email, password, username, AuthSuccess(Some(uid)), WriteOk);
            User(uid, Trim(username), Trim(email), "", "") in NewChat.ExceptSelf(NewChat.FetchedUsers(r.db), viewer)
  {
    var r := RegisterStep(db, email, password, username, AuthSuccess(Some(uid)), WriteOk);
    var doc := ProfileDoc(uid, Trim(email), Trim(username));
    assert r.db.users[uid] == doc;
    StoredUserIsFetched(r.db, uid);
    assert UserFromDoc(doc) == User(uid, Trim(username), Trim(email), "", "");
  }

  class RegisterViewModel {
    var registrationResult: Option<RegistrationResult>   // the LiveData's value; None before any post

    constructor ()
      ensures registrationResult == None
    {
      registrationResult := None;
    }

    /** `registerUser`: returns what was sent to sign-up and the store afterwards; the posted
        result, if any, becomes the LiveData's value. */
    method RegisterUser(db: Db, email: string, password: string, username: string,
                        auth: AuthOutcome, save: WriteOutcome) returns (signUp: Option<Credentials>, db': Db)
      requires Valid(db)
      modifies this`registrationResult
      ensures var r := RegisterStep(db, email, password, username, auth, save);
              && signUp == r.signUp && db' == r.db
              && registrationResult == (if r.result.Some? then r.result else old(registrationResult))
    {
      var trimmedEmail := Trim(email);
      var trimmedPassword := Trim(password);
      var trimmedUsername := Trim(username);
      if IsBlank(trimmedEmail) || IsBlank(trimmedPassword) || IsBlank(trimmedUsername) {
        registrationResult := Some(RegistrationResult(false, EmptyFieldsMessage));
        return None, db;
      }
      signUp := Some(Credentials(trimmedEmail, trimmedPassword));
      if !auth.AuthSuccess? {
        registrationResult := Some(RegistrationResult(false, AuthErrorMessage(auth)));
        return signUp, db;
      }
      db' := db.(currentUser := auth.currentUser);
      if auth.currentUser.None? { return; }
      var userId := auth.currentUser.value;
      if save == WriteOk {
        db' := SetUser(db', userId, ProfileDoc(userId, trimmedEmail, trimmedUsername));
        registrationResult := Some(RegistrationResult(true, SuccessMessage));
      } else {
        registrationResult := Some(RegistrationResult(false, SaveFailurePrefix + Interpolated(save.message)));
      }
    }
  }
}
