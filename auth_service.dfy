/** Logging in and out (src/app/modules/auth/auth.service.ts). */
module AuthService {
  import opened Common
  import opened Tables
  import opened Database

  const UnknownEmail: Error := ApiError(BadRequest, "User not found")
  const NotVerified: Error := ApiError(TemporaryRedirect, "User is not verified, Please verify your email first")
  const InvalidCredentials: Error := ApiError(BadRequest, "Invalid credentials")
  const UnknownId: Error := ApiError(BadRequest, "User not found")
  const AlreadyLoggedOut: Error := ApiError(BadRequest, "User is already logged out")

  /** The claims signed into the access token; signing itself is left to the token library. */
  datatype TokenPayload = TokenPayload(id: Id, email: string, role: string, isOnline: bool)

  /** What a successful login answers: the token's claims, the user's profile ids, and the user as read. */
  datatype LoginResult = LoginResult(
    token: TokenPayload, id: Id, athleteId: Option<Id>, coachId: Option<Id>, gymId: Option<Id>,
    name: Value, role: string, fcmToken: Option<string>)

  /** The user row after a successful login: online, with the supplied device token if there is one. */
  function LoggedIn(u: User, fcmToken: Option<string>): (v: User)
    ensures v.isOnline
    ensures Present(fcmToken) ==> v.fcmToken == fcmToken
    ensures !Present(fcmToken) ==> v.fcmToken == u.fcmToken
    ensures v == u.(isOnline := v.isOnline, fcmToken := v.fcmToken)
  {
    u.(isOnline := true, fcmToken := if Present(fcmToken) then fcmToken else u.fcmToken)
  }

  /**
   * `loginUserFromDB`. `compare(plain, hash)` stands for bcrypt's comparison;
   * `otp` and `otpExpiry` come from the OTP generator.
   */
  method Login(db: Db, email: string, password: string, fcmToken: Option<string>,
               compare: (string, string) -> bool, otp: int, otpExpiry: int) returns (r: Result<LoginResult>)
    requires db.Valid()
    modifies db`users, db`otps, db`nextId
    ensures db.Valid()
    // an unknown email changes nothing
    ensures UserByEmail(old(db.users), email).None? ==>
              r == Fail(UnknownEmail) && db.users == old(db.users) && db.otps == old(db.otps)
    ensures UserByEmail(old(db.users), email).Some? ==>
              var j := UserByEmail(old(db.users), email).value;
              var u := old(db.users)[j];
              // an unverified user gets a new OTP row and is redirected; the password is not looked at
              && (!u.isVerified ==>
                    && r == Fail(NotVerified)
                    && db.users == old(db.users)
                    && db.otps == old(db.otps) + [Otp(old(db.nextId), email, otp, otpExpiry)])
              // a wrong password changes nothing
              && (u.isVerified && !compare(password, u.password) ==>
                    r == Fail(InvalidCredentials) && db.users == old(db.users) && db.otps == old(db.otps))
              && (u.isVerified && compare(password, u.password) ==>
                    && db.users == old(db.users)[j := LoggedIn(u, fcmToken)]
                    && db.otps == old(db.otps)
                    // the token carries the online flag as it was read, before the update
                    && r == Ok(LoginResult(TokenPayload(u.id, u.email, u.role, u.isOnline), u.id,
                                           ProfileIdOf(db.athletes, u.id), ProfileIdOf(db.coaches, u.id),
                                           ProfileIdOf(db.gyms, u.id), u.name, u.role, u.fcmToken)))
  {
    var found := UserByEmail(db.users, email);
    if found.None? {
      return Fail(UnknownEmail);
    }
    var j := found.value;
    var userData := db.users[j];
    if !userData.isVerified {
      var otpId := db.FreshId();
      db.InsertOtp(Otp(otpId, email, otp, otpExpiry));
      return Fail(NotVerified);
    }
    if !compare(password, userData.password) {
      return Fail(InvalidCredentials);
    }
    if userData.isOnline == false {
      db.UpdateUser(j, db.users[j].(isOnline := true));
    }
    if Present(fcmToken) {
      db.UpdateUser(j, db.users[j].(fcmToken := fcmToken));
    }
    var token := TokenPayload(userData.id, userData.email, userData.role, userData.isOnline);
    return Ok(LoginResult(token, userData.id,
                          ProfileIdOf(db.athletes, userData.id), ProfileIdOf(db.coaches, userData.id),
                          ProfileIdOf(db.gyms, userData.id), userData.name, userData.role, userData.fcmToken));
  }

  /** The user row after logout: offline, with no device token. */
  function LoggedOut(u: User): (v: User)
    ensures !v.isOnline && v.fcmToken.None?
    ensures v == u.(isOnline := false, fcmToken := None)
  {
    u.(isOnline := false, fcmToken := None)
  }

  /** `logoutUser`. */
  method Logout(db: Db, id: Id) returns (r: Result<()>)
    requires db.Valid()
    modifies db`users
    ensures db.Valid()
    ensures r.Fail? ==> db.users == old(db.users)
    ensures UserById(old(db.users), id).None? ==> r == Fail(UnknownId)
    ensures UserById(old(db.users), id).Some? ==>
              var j := UserById(old(db.users), id).value;
              && (!old(db.users)[j].isOnline ==> r == Fail(AlreadyLoggedOut))
              && (old(db.users)[j].isOnline ==> r == Ok(()) && db.users == old(db.users)[j := LoggedOut(old(db.users)[j])])
  {
    var found := UserById(db.users, id);
    if found.None? {
      return Fail(UnknownId);
    }
    var j := found.value;
    if db.users[j].isOnline == false {
      return Fail(AlreadyLoggedOut);
    }
    db.UpdateUser(j, LoggedOut(db.users[j]));
    return Ok(());
  }

  /** Two logouts in a row: the second one always fails, and after a successful first it is "already logged out". */
  method LogoutTwice(db: Db, id: Id) returns (first: Result<()>, second: Result<()>)
    requires db.Valid()
    modifies db`users
    ensures db.Valid()
    ensures second.Fail?
    ensures first.Ok? ==> second == Fail(AlreadyLoggedOut)
  {
    first := Logout(db, id);
    if first.Ok? {
      LogoutLeavesOffline(old(db.users), db.users, id);
    }
    second := Logout(db, id);
  }

  /** After a logout, the user the id names is offline. */
  lemma LogoutLeavesOffline(before: seq<User>, after: seq<User>, id: Id)
    requires UserById(before, id).Some?
    requires var j := UserById(before, id).value; after == before[j := LoggedOut(before[j])]
    ensures UserById(after, id) == UserById(before, id)
    ensures !after[UserById(after, id).value].isOnline
  {
    var j := UserById(before, id).value;
    FirstIndexIs(after, (u: User) => u.id == id, j);
  }
}
