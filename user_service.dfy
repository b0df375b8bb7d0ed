/**
 * Registration, OTP verification and renewal, password changes and the user
 * listing (src/app/modules/user/user.service.ts).
 */
module UserService {
  import opened Common
  import opened Tables
  import opened Query
  import opened Pagination
  import opened Database
  import AuthMiddleware

  // ---------------------------------------------------------------------------
  // Role-profile data

  /** The payload columns copied into each role's profile row. */
  const AthleteColumns: set<string> := {
    "martialArts", "about", "experience", "fightingStances", "country", "gender", "height",
    "weight", "age", "winbyKO", "winbyOther", "wins", "losses", "draws", "titles", "reach"
  }
  const CoachColumns: set<string> := {"bio", "age", "certifications", "martialArts", "experience", "gender", "country"}
  const GymColumns: set<string> := {"description", "location", "country", "martialArtsGym", "trainingTime"}
  const PromoterColumns: set<string> := {"location", "gender"}

  /**
   * An object literal `{ k: payload.k, ..., e: v, ... }`: the columns `keys`
   * copied from the payload, and the `extras` set to fixed values.
   */
  function Columns(payload: Payload, keys: set<string>, extras: map<string, Value>): (r: Payload)
    ensures r.Keys == keys + extras.Keys
    ensures forall k :: k in extras ==> r[k] == extras[k]
    ensures forall k :: k in keys && k !in extras ==> r[k] == Get(payload, k)
  {
    map k | k in keys + extras.Keys :: if k in extras then extras[k] else Get(payload, k)
  }

  /** `fighting` is PRO exactly when the payload's `fighting` is truthy. */
  function FightingStatus(payload: Payload): (v: Value)
    ensures v == Str("PRO") <==> Truthy(Get(payload, "fighting"))
    ensures v == Str("PRO") || v == Str("AMATEUR")
  {
    if Truthy(Get(payload, "fighting")) then Str("PRO") else Str("AMATEUR")
  }

  /** The payload columns a role's profile takes over. */
  function RoleColumns(role: string): set<string>
  {
    if role == "ATHLETE" then AthleteColumns
    else if role == "COACH" then CoachColumns
    else if role == "GYM" then GymColumns
    else if role == "PROMOTER" then PromoterColumns
    else {}
  }

  /** The columns each role's data carries besides the copied ones. */
  function RoleExtras(role: string, payload: Payload, userId: Id): map<string, Value>
  {
    if role == "ATHLETE" then map["userId" := Num(userId), "fighting" := FightingStatus(payload)]
    else if role == "PROMOTER" then map[]
    else map["userId" := Num(userId)]
  }

  /** `getRoleData`: the profile row a new user of `role` gets, or null for a role without a profile table. */
  function GetRoleData(role: string, payload: Payload, userId: Id): (r: Option<Payload>)
    ensures r.Some? <==> KindOf(role).Some?
  {
    if KindOf(role).None? then None
    else Some(Columns(payload, RoleColumns(role), RoleExtras(role, payload, userId)))
  }

  /** The role's columns are copied from the payload, and nothing but them, the user link and the fighting status is set. */
  lemma RoleDataCopiesPayload(role: string, payload: Payload, userId: Id)
    requires KindOf(role).Some?
    ensures var data := GetRoleData(role, payload, userId).value;
            && (forall k :: k in RoleColumns(role) && k != "userId" && k != "fighting" ==> k in data && data[k] == Get(payload, k))
            && (forall k :: k in data ==> k in RoleColumns(role) || k == "userId" || k == "fighting")
  {
  }

  /** Every role but the promoter links its row to the user; the promoter's row has no link. */
  lemma RoleDataLinksUser(role: string, payload: Payload, userId: Id)
    requires KindOf(role).Some?
    ensures var data := GetRoleData(role, payload, userId).value;
            role != "PROMOTER" <==> "userId" in data && data["userId"] == Num(userId)
  {
  }

  /** An athlete's row says PRO exactly when the payload's `fighting` is truthy, and AMATEUR otherwise. */
  lemma RoleDataFighting(payload: Payload, userId: Id)
    ensures var data := GetRoleData("ATHLETE", payload, userId).value;
            && "fighting" in data
            && (data["fighting"] == Str("PRO") <==> Truthy(Get(payload, "fighting")))
            && (data["fighting"] == Str("AMATEUR") <==> !Truthy(Get(payload, "fighting")))
  {
  }

  /** The columns registration writes: the role data, with `userId` added for a promoter. */
  function ProfileColumns(role: string, payload: Payload, userId: Id): (r: Option<Payload>)
    ensures r.Some? <==> KindOf(role).Some?
    // the role data, linked to the user whatever the role
    ensures r.Some? ==> r.value == GetRoleData(role, payload, userId).value["userId" := Num(userId)]
  {
    match GetRoleData(role, payload, userId)
    case None => None
    case Some(data) => Some(if role == "PROMOTER" then data["userId" := Num(userId)] else data)
  }

  /** Whatever the role, the profile row registration creates belongs to the new user. */
  lemma ProfileBelongsToNewUser(role: string, payload: Payload, userId: Id)
    requires KindOf(role).Some?
    ensures ProfileColumns(role, payload, userId).Some?
    ensures OwnedBy(Profile(0, ProfileColumns(role, payload, userId).value), userId)
  {
  }

  /** The rows registration adds to table `k`: the role's profile, with id `pid`, if `k` is the role's table. */
  function NewProfileRows(k: Kind, role: string, payload: Payload, userId: Id, pid: Id): seq<Profile>
  {
    if KindOf(role) == Some(k) then [Profile(pid, ProfileColumns(role, payload, userId).value)] else []
  }

  // ---------------------------------------------------------------------------
  // Registration

  /** The registration form, parsed. `body` is the whole payload, read for the role columns. */
  datatype Registration = Registration(
    email: string, password: string, name: Value, role: string,
    phoneNumber: Value, latitude: Value, longitude: Value, body: Payload)

  /** The fields of the new user that registration returns. */
  datatype Registered = Registered(id: Id, email: string, name: Value, profileImage: Option<string>, role: string, isVerified: bool)

  const EmailTaken: Error := ApiError(Conflict, "User already exists with this email")

  /** `file?.location ? file.location : null`. */
  function UploadedImage(fileLocation: Option<string>): Option<string>
  {
    if Present(fileLocation) then fileLocation else None
  }

  /** The user row registration creates. */
  function NewUser(id: Id, reg: Registration, fileLocation: Option<string>, passwordHash: string): User
  {
    User(id, reg.email, passwordHash, reg.name, UploadedImage(fileLocation), reg.role,
         false, false, None, reg.phoneNumber, reg.latitude, reg.longitude)
  }

  /** The profile row registration adds to the role's table, if the role has one. */
  method CreateRoleProfile(db: Db, role: string, body: Payload, userId: Id)
    requires db.Valid()
    modifies db`athletes, db`coaches, db`gyms, db`promoters, db`nextId
    ensures db.Valid()
    ensures db.nextId == old(db.nextId) + (if KindOf(role).Some? then 1 else 0)
    ensures forall k :: db.Table(k) == old(db.Table(k)) + NewProfileRows(k, role, body, userId, old(db.nextId))
  {
    var roleData := GetRoleData(role, body, userId);
    if roleData.Some? {
      var data := roleData.value;
      if role == "PROMOTER" {
        data := data["userId" := Num(userId)];
      }
      var pid := db.FreshId();
      db.AppendProfile(KindOf(role).value, Profile(pid, data));
    }
  }

  /**
   * The writes of a registration whose email is free: the user, its role
   * profile and its OTP row.
   */
  method CreateRegistration(db: Db, fileLocation: Option<string>, reg: Registration, passwordHash: string, otp: int, otpExpiry: int)
    returns (created: Registered)
    requires db.Valid()
    requires UserByEmail(db.users, reg.email).None?
    modifies db`users, db`otps, db`athletes, db`coaches, db`gyms, db`promoters, db`nextId
    ensures db.Valid()
    ensures var id := old(db.nextId);
            var u := NewUser(id, reg, fileLocation, passwordHash);
            && created == Registered(id, reg.email, reg.name, u.profileImage, reg.role, false)
            && db.users == old(db.users) + [u]
            // one profile row, in the role's own table, and only for a role that has one
            && (forall k :: db.Table(k) == old(db.Table(k)) + NewProfileRows(k, reg.role, reg.body, id, id + 1))
            // and an OTP row for the email
            && var otpId := id + (if KindOf(reg.role).Some? then 2 else 1);
               db.otps == old(db.otps) + [Otp(otpId, reg.email, otp, otpExpiry)] && db.nextId == otpId + 1
  {
    var profileImage := UploadedImage(fileLocation);
    var id := db.FreshId();
    var createdUser := User(id, reg.email, passwordHash, reg.name, profileImage, reg.role,
                            false, false, None, reg.phoneNumber, reg.latitude, reg.longitude);
    db.InsertUser(createdUser);
    CreateRoleProfile(db, reg.role, reg.body, id);
    var otpId := db.FreshId();
    db.InsertOtp(Otp(otpId, reg.email, otp, otpExpiry));
    created := Registered(id, createdUser.email, createdUser.name, createdUser.profileImage, createdUser.role, createdUser.isVerified);
  }

  /** `registerUserIntoDB`. `passwordHash` is what bcrypt makes of the password; `otp` and `otpExpiry` come from the OTP generator. */
  method RegisterUserIntoDB(db: Db, fileLocation: Option<string>, reg: Registration, passwordHash: string, otp: int, otpExpiry: int)
    returns (r: Result<Registered>)
    requires db.Valid()
    modifies db`users, db`otps, db`athletes, db`coaches, db`gyms, db`promoters, db`nextId
    ensures db.Valid()
    // an email already present is refused before anything is written
    ensures UserByEmail(old(db.users), reg.email).Some? ==>
              && r == Fail(EmailTaken)
              && db.users == old(db.users) && db.otps == old(db.otps) && db.nextId == old(db.nextId)
              && (forall k :: db.Table(k) == old(db.Table(k)))
    ensures UserByEmail(old(db.users), reg.email).None? ==>
              var id := old(db.nextId);
              && r == Ok(Registered(id, reg.email, reg.name, UploadedImage(fileLocation), reg.role, false))
              && db.users == old(db.users) + [NewUser(id, reg, fileLocation, passwordHash)]
              && (forall k :: db.Table(k) == old(db.Table(k)) + NewProfileRows(k, reg.role, reg.body, id, id + 1))
              && OtpCount(db.otps, reg.email) == OtpCount(old(db.otps), reg.email) + 1
              && var otpId := id + (if KindOf(reg.role).Some? then 2 else 1);
                 db.otps == old(db.otps) + [Otp(otpId, reg.email, otp, otpExpiry)] && db.nextId == otpId + 1
  {
    var existing := UserByEmail(db.users, reg.email);
    if existing.Some? {
      return Fail(EmailTaken);
    }
    ghost var otpsBefore := db.otps;
    var created := CreateRegistration(db, fileLocation, reg, passwordHash, otp, otpExpiry);
    CountAppend(otpsBefore, db.otps[|db.otps| - 1], (o: Otp) => o.email == reg.email);
    return Ok(created);
  }

  // ---------------------------------------------------------------------------
  // OTP verification

  const UnknownEmail: Error := ApiError(BadRequest, "User not found")
  const InvalidOtp: Error := ApiError(BadRequest, "Invalid OTP")
  const ExpiredOtp: Error := ApiError(BadRequest, "OTP has expired")

  /** `otp.findFirst({ where: { email, otp } })`. */
  function MatchingOtp(otps: seq<Otp>, email: string, otp: int): Option<nat>
  {
    FirstIndex(otps, (o: Otp) => o.email == email && o.otp == otp)
  }

  /** An OTP is expired only when its expiry lies strictly before `now`. */
  predicate Expired(o: Otp, now: int)
  {
    o.expiry < now
  }

  datatype Verified = Verified(isVerified: bool, isOnline: bool)

  /** `verifyOtp`; `now` is the clock reading. */
  method VerifyOtp(db: Db, email: string, otp: int, now: int) returns (r: Result<Verified>)
    requires db.Valid()
    modifies db`users, db`otps
    ensures db.Valid()
    ensures r.Fail? ==> db.users == old(db.users) && db.otps == old(db.otps)
    ensures UserByEmail(old(db.users), email).None? ==> r == Fail(UnknownEmail)
    // a missing or mismatching code is refused before the expiry is looked at
    ensures UserByEmail(old(db.users), email).Some? && MatchingOtp(old(db.otps), email, otp).None? ==>
              r == Fail(InvalidOtp)
    ensures UserByEmail(old(db.users), email).Some? && MatchingOtp(old(db.otps), email, otp).Some? ==>
              var o := old(db.otps)[MatchingOtp(old(db.otps), email, otp).value];
              (Expired(o, now) <==> r == Fail(ExpiredOtp)) && (!Expired(o, now) <==> r.Ok?)
    // success deletes exactly the matched row and marks the user verified and online
    ensures r.Ok? ==>
              var i := MatchingOtp(old(db.otps), email, otp).value;
              var j := UserByEmail(old(db.users), email).value;
              && r.value == Verified(true, true)
              && db.otps == RemoveAt(old(db.otps), i)
              && db.users == old(db.users)[j := old(db.users)[j].(isVerified := true, isOnline := true)]
  {
    var user := UserByEmail(db.users, email);
    if user.None? {
      return Fail(UnknownEmail);
    }
    var found := MatchingOtp(db.otps, email, otp);
    if found.None? {
      return Fail(InvalidOtp);
    }
    var row := db.otps[found.value];
    if row.expiry < now {
      return Fail(ExpiredOtp);
    }
    db.otps := RemoveAt(db.otps, found.value);
    var j := user.value;
    db.users := db.users[j := db.users[j].(isVerified := true, isOnline := true)];
    return Ok(Verified(true, true));
  }

  // ---------------------------------------------------------------------------
  // OTP renewal

  /**
   * The upsert shared by `forgotPassword` and `resendOtpRest`: refresh the
   * first OTP row of the email, or create one if it has none.
   */
  method UpsertOtp(db: Db, email: string, otp: int, otpExpiry: int)
    requires db.Valid()
    modifies db`otps, db`nextId
    ensures db.Valid()
    ensures OtpForEmail(old(db.otps), email).Some? ==>
              var i := OtpForEmail(old(db.otps), email).value;
              db.otps == old(db.otps)[i := old(db.otps)[i].(otp := otp, expiry := otpExpiry)]
    ensures OtpForEmail(old(db.otps), email).None? ==>
              db.otps == old(db.otps) + [Otp(old(db.nextId), email, otp, otpExpiry)]
    // never a second row for an email that already has one
    ensures OtpCount(db.otps, email) == if OtpCount(old(db.otps), email) == 0 then 1 else OtpCount(old(db.otps), email)
    // the email's first row now carries the new code
    ensures OtpForEmail(db.otps, email).Some?
    ensures db.otps[OtpForEmail(db.otps, email).value].otp == otp
    ensures db.otps[OtpForEmail(db.otps, email).value].expiry == otpExpiry
  {
    var existing := OtpForEmail(db.otps, email);
    ghost var before := db.otps;
    if existing.Some? {
      var i := existing.value;
      db.otps := db.otps[i := db.otps[i].(otp := otp, expiry := otpExpiry)];
      CountUpdate(before, i, db.otps[i], (o: Otp) => o.email == email);
      CountZero(before, (o: Otp) => o.email == email);
      FirstIndexAfterUpdate(before, email, i, db.otps[i]);
    } else {
      var id := db.FreshId();
      db.otps := db.otps + [Otp(id, email, otp, otpExpiry)];
      CountAppend(before, Otp(id, email, otp, otpExpiry), (o: Otp) => o.email == email);
      CountZero(before, (o: Otp) => o.email == email);
      assert db.otps[|before|].email == email;
      assert forall j :: 0 <= j < |before| ==> db.otps[j] == before[j];
    }
  }

  /** Rewriting the first row of an email, keeping the email, keeps it the first row. */
  lemma FirstIndexAfterUpdate(otps: seq<Otp>, email: string, i: nat, o: Otp)
    requires OtpForEmail(otps, email) == Some(i)
    requires o.email == email
    ensures OtpForEmail(otps[i := o], email) == Some(i)
  {
    FirstIndexIs(otps[i := o], (x: Otp) => x.email == email, i);
  }

  /** `forgotPassword`: no check that the email belongs to a user. */
  method ForgotPassword(db: Db, email: string, otp: int, otpExpiry: int)
    requires db.Valid()
    modifies db`otps, db`nextId
    ensures db.Valid()
    ensures OtpForEmail(old(db.otps), email).Some? ==>
              var i := OtpForEmail(old(db.otps), email).value;
              db.otps == old(db.otps)[i := old(db.otps)[i].(otp := otp, expiry := otpExpiry)]
    ensures OtpForEmail(old(db.otps), email).None? ==>
              db.otps == old(db.otps) + [Otp(old(db.nextId), email, otp, otpExpiry)]
    ensures OtpCount(db.otps, email) == if OtpCount(old(db.otps), email) == 0 then 1 else OtpCount(old(db.otps), email)
    ensures OtpForEmail(db.otps, email).Some?
    ensures db.otps[OtpForEmail(db.otps, email).value].otp == otp
    ensures db.otps[OtpForEmail(db.otps, email).value].expiry == otpExpiry
  {
    UpsertOtp(db, email, otp, otpExpiry);
  }

  /** `resendOtpRest`: the same upsert, answering with the new expiry. */
  method ResendOtpRest(db: Db, email: string, otp: int, otpExpiry: int) returns (expiry: int)
    requires db.Valid()
    modifies db`otps, db`nextId
    ensures db.Valid()
    ensures expiry == otpExpiry
    ensures OtpForEmail(old(db.otps), email).Some? ==>
              var i := OtpForEmail(old(db.otps), email).value;
              db.otps == old(db.otps)[i := old(db.otps)[i].(otp := otp, expiry := otpExpiry)]
    ensures OtpForEmail(old(db.otps), email).None? ==>
              db.otps == old(db.otps) + [Otp(old(db.nextId), email, otp, otpExpiry)]
    ensures OtpCount(db.otps, email) == if OtpCount(old(db.otps), email) == 0 then 1 else OtpCount(old(db.otps), email)
    ensures OtpForEmail(db.otps, email).Some?
    ensures db.otps[OtpForEmail(db.otps, email).value].otp == otp
    ensures db.otps[OtpForEmail(db.otps, email).value].expiry == otpExpiry
  {
    UpsertOtp(db, email, otp, otpExpiry);
    expiry := otpExpiry;
  }

  /**
   * `resendOtpReg` as written: it looks the OTP row up by `id: userData.id`,
   * an OTP row id equal to the user's id, so for an email that already has a
   * row it still creates another.
   */
  method ResendOtpRegAsWritten(db: Db, email: string, otp: int, otpExpiry: int) returns (r: Result<int>)
    requires db.Valid()
    modifies db`otps, db`nextId
    ensures db.Valid()
    ensures UserByEmail(old(db.users), email).None? ==> r == Fail(UnknownEmail) && db.otps == old(db.otps)
    ensures UserByEmail(old(db.users), email).Some? ==>
              var uid := old(db.users)[UserByEmail(old(db.users), email).value].id;
              && r == Ok(otpExpiry)
              && (OtpById(old(db.otps), uid).None? ==>
                    db.otps == old(db.otps) + [Otp(old(db.nextId), email, otp, otpExpiry)])
              && (OtpById(old(db.otps), uid).Some? ==>
                    var i := OtpById(old(db.otps), uid).value;
                    db.otps == old(db.otps)[i := old(db.otps)[i].(otp := otp, expiry := otpExpiry)])
  {
    var user := UserByEmail(db.users, email);
    if user.None? {
      return Fail(UnknownEmail);
    }
    var uid := db.users[user.value].id;
    var found := OtpById(db.otps, uid);
    if found.None? {
      var id := db.FreshId();
      db.otps := db.otps + [Otp(id, email, otp, otpExpiry)];
    } else {
      var i := found.value;
      db.otps := db.otps[i := db.otps[i].(otp := otp, expiry := otpExpiry)];
    }
    return Ok(otpExpiry);
  }

  /** The corrected `resendOtpReg`: the OTP row is looked up by the user's email, as `resendOtpRest` does. */
  method ResendOtpReg(db: Db, email: string, otp: int, otpExpiry: int) returns (r: Result<int>)
    requires db.Valid()
    modifies db`otps, db`nextId
    ensures db.Valid()
    ensures UserByEmail(old(db.users), email).None? ==> r == Fail(UnknownEmail) && db.otps == old(db.otps)
    ensures UserByEmail(old(db.users), email).Some? ==>
              && r == Ok(otpExpiry)
              && OtpCount(db.otps, email) == (if OtpCount(old(db.otps), email) == 0 then 1 else OtpCount(old(db.otps), email))
              && OtpForEmail(db.otps, email).Some?
              && db.otps[OtpForEmail(db.otps, email).value].otp == otp
  {
    var user := UserByEmail(db.users, email);
    if user.None? {
      return Fail(UnknownEmail);
    }
    UpsertOtp(db, email, otp, otpExpiry);
    return Ok(otpExpiry);
  }

  /** A fresh store after one registration of a user whose role has no profile table. */
  method RegisteredOnce() returns (db: Db)
    ensures fresh(db) && db.Valid()
    ensures UserByEmail(db.users, "a@b.c").Some? && db.users[UserByEmail(db.users, "a@b.c").value].id == 0
    ensures db.otps == [Otp(1, "a@b.c", 1111, 100)] && db.nextId == 2
  {
    db := new Db();
    var reg := Registration("a@b.c", "pw", Str("A"), "ADMIN", Null, Null, Null, map[]);
    var registered := RegisterUserIntoDB(db, None, reg, "hash", 1111, 100);
    assert db.users[0].email == "a@b.c";
    assert UserByEmail(db.users, "a@b.c") == Some(0);
  }

  /**
   * The counterexample: one user whose email already has an OTP row. The
   * lookup by user id misses, so a second row for the email appears.
   */
  method ResendOtpRegDuplicates() returns (rowsBefore: nat, rowsAfter: nat)
    ensures rowsBefore == 1 && rowsAfter == 2
  {
    var db := RegisteredOnce();
    rowsBefore := OtpCount(db.otps, "a@b.c");
    assert OtpById(db.otps, 0) == None;
    var r := ResendOtpRegAsWritten(db, "a@b.c", 2222, 200);
    assert db.otps == [Otp(1, "a@b.c", 1111, 100), Otp(2, "a@b.c", 2222, 200)];
    assert db.otps[1..] == [Otp(2, "a@b.c", 2222, 200)];
    assert db.otps[1..][1..] == [];
    assert OtpCount(db.otps[1..][1..], "a@b.c") == 0;
    assert OtpCount(db.otps[1..], "a@b.c") == 1;
    rowsAfter := OtpCount(db.otps, "a@b.c");
  }

  // ---------------------------------------------------------------------------
  // Password reset and change

  /** The claims of the token `verifyResetOtp` issues. */
  datatype ResetClaims = ResetClaims(id: Id, email: string, isVerified: bool)

  /** `verifyResetOtp`: checks the email's first OTP row only. */
  method VerifyResetOtp(db: Db, email: string, otp: int, now: int) returns (r: Result<ResetClaims>)
    requires db.Valid()
    modifies db`otps
    ensures db.Valid()
    ensures r.Fail? ==> db.otps == old(db.otps)
    ensures UserByEmail(old(db.users), email).None? ==> r == Fail(UnknownEmail)
    ensures UserByEmail(old(db.users), email).Some? ==>
              match OtpForEmail(old(db.otps), email)
              case None => r == Fail(InvalidOtp)
              case Some(i) =>
                && (old(db.otps)[i].otp != otp ==> r == Fail(InvalidOtp))
                && (old(db.otps)[i].otp == otp && Expired(old(db.otps)[i], now) ==> r == Fail(ExpiredOtp))
                && (old(db.otps)[i].otp == otp && !Expired(old(db.otps)[i], now) ==>
                      var u := db.users[UserByEmail(db.users, email).value];
                      r == Ok(ResetClaims(u.id, u.email, u.isVerified)) && db.otps == RemoveAt(old(db.otps), i))
  {
    var user := UserByEmail(db.users, email);
    if user.None? {
      return Fail(UnknownEmail);
    }
    var found := OtpForEmail(db.otps, email);
    if found.None? || db.otps[found.value].otp != otp {
      return Fail(InvalidOtp);
    }
    if db.otps[found.value].expiry < now {
      return Fail(ExpiredOtp);
    }
    db.otps := RemoveAt(db.otps, found.value);
    var u := db.users[user.value];
    return Ok(ResetClaims(u.id, u.email, u.isVerified));
  }

  const NotAuthorized: Error := ApiError(Unauthorized, "You are not authorized!")

  /** `resetPassword`: `verify` stands for the token library, `passwordHash` for bcrypt's hash of the new password. */
  method ResetPassword(db: Db, accessToken: Option<string>, verify: string -> Option<AuthMiddleware.Claims>, passwordHash: string)
    returns (r: Result<()>)
    requires db.Valid()
    modifies db`users
    ensures db.Valid()
    ensures !Present(accessToken) ==> r == Fail(NotAuthorized)
    ensures Present(accessToken) && verify(accessToken.value).None? ==> r == Fail(TokenError)
    ensures Present(accessToken) && verify(accessToken.value).Some? && !Present(verify(accessToken.value).value.email) ==>
              r == Fail(NotAuthorized)
    ensures Present(accessToken) && verify(accessToken.value).Some? && Present(verify(accessToken.value).value.email) ==>
              var j := UserByEmail(old(db.users), verify(accessToken.value).value.email.value);
              && (j.None? ==> r == Fail(UnknownEmail))
              && (j.Some? ==> r == Ok(()) && db.users == old(db.users)[j.value := old(db.users)[j.value].(password := passwordHash)])
    ensures r.Fail? ==> db.users == old(db.users)
  {
    if !Present(accessToken) {
      return Fail(NotAuthorized);
    }
    var decoded := verify(accessToken.value);
    if decoded.None? {
      return Fail(TokenError);
    }
    if !Present(decoded.value.email) {
      return Fail(NotAuthorized);
    }
    var user := UserByEmail(db.users, decoded.value.email.value);
    if user.None? {
      return Fail(UnknownEmail);
    }
    var j := user.value;
    db.users := db.users[j := db.users[j].(password := passwordHash)];
    return Ok(());
  }

  const PasswordsRequired: Error := ApiError(BadRequest, "Both old and new passwords are required")
  const UnknownUserId: Error := ApiError(NotFound, "User not found")
  const WrongOldPassword: Error := ApiError(BadRequest, "Invalid old password")
  const SamePassword: Error := ApiError(BadRequest, "New password should be different from old password")

  /**
   * `changePassword`. `compare(plain, hash)` stands for bcrypt's comparison and
   * `passwordHash` for bcrypt's hash of the new password.
   */
  method ChangePassword(db: Db, userId: Id, oldPassword: Option<string>, newPassword: Option<string>,
                        compare: (string, string) -> bool, passwordHash: string) returns (r: Result<()>)
    requires db.Valid()
    modifies db`users
    ensures db.Valid()
    ensures r.Fail? ==> db.users == old(db.users)
    // the checks, in order
    ensures !Present(oldPassword) || !Present(newPassword) ==> r == Fail(PasswordsRequired)
    ensures Present(oldPassword) && Present(newPassword) && UserById(old(db.users), userId).None? ==>
              r == Fail(UnknownUserId)
    ensures Present(oldPassword) && Present(newPassword) && UserById(old(db.users), userId).Some? ==>
              var u := old(db.users)[UserById(old(db.users), userId).value];
              && (!compare(oldPassword.value, u.password) ==> r == Fail(WrongOldPassword))
              && (compare(oldPassword.value, u.password) && oldPassword == newPassword ==> r == Fail(SamePassword))
    // the stored hash is replaced only when all four pass
    ensures r.Ok? <==>
              && Present(oldPassword) && Present(newPassword)
              && UserById(old(db.users), userId).Some?
              && compare(oldPassword.value, old(db.users)[UserById(old(db.users), userId).value].password)
              && oldPassword != newPassword
    ensures r.Ok? ==>
              var j := UserById(old(db.users), userId).value;
              db.users == old(db.users)[j := old(db.users)[j].(password := passwordHash)]
  {
    if !Present(oldPassword) || !Present(newPassword) {
      return Fail(PasswordsRequired);
    }
    var user := UserById(db.users, userId);
    if user.None? {
      return Fail(UnknownUserId);
    }
    var j := user.value;
    if !compare(oldPassword.value, db.users[j].password) {
      return Fail(WrongOldPassword);
    }
    if oldPassword.value == newPassword.value {
      return Fail(SamePassword);
    }
    db.users := db.users[j := db.users[j].(password := passwordHash)];
    return Ok(());
  }

  // ---------------------------------------------------------------------------
  // Reading users

  /** The fields `getUserById` selects. */
  datatype UserSummary = UserSummary(id: Id, name: Value, email: string, phoneNumber: Value, profileImage: Option<string>)

  /** `getUserById`. */
  method GetUserById(db: Db, userId: Id) returns (r: Result<UserSummary>)
    ensures UserById(db.users, userId).None? <==> r == Fail(UnknownUserId)
    ensures r.Ok? ==> exists i :: 0 <= i < |db.users| && db.users[i].id == userId &&
                        r.value == UserSummary(userId, db.users[i].name, db.users[i].email, db.users[i].phoneNumber, db.users[i].profileImage)
  {
    var found := UserById(db.users, userId);
    if found.None? {
      return Fail(UnknownUserId);
    }
    var u := db.users[found.value];
    return Ok(UserSummary(u.id, u.name, u.email, u.phoneNumber, u.profileImage));
  }

  /** What `getAllUsers` is meant to admit: every given filter matches, ignoring case. */
  predicate UserWanted(r: Row, search: Option<string>, username: Option<string>, email: Option<string>)
  {
    && (Present(search) ==> TextMatches(r, "name", search.value) || TextMatches(r, "email", search.value))
    && (Present(username) ==> TextMatches(r, "name", username.value))
    && (Present(email) ==> TextMatches(r, "email", email.value))
  }

  /** The `contains ... insensitive` clause the listing puts under a column. */
  function Like(t: string): Clause
  {
    Contains(t, Insensitive)
  }

  /** The alternatives under OR for a search term. */
  function SearchAlternatives(t: string): Clause
  {
    AnyOf([Where(map["name" := Like(t)]), Where(map["email" := Like(t)])])
  }

  /** The keys of the listing's where-object: OR for a search, then name and email; nothing else. */
  predicate UserWhereShape(w: Where, search: Option<string>, username: Option<string>, email: Option<string>)
  {
    && ("OR" in w.fields <==> Present(search))
    && ("name" in w.fields <==> Present(username))
    && ("email" in w.fields <==> Present(email))
    && (forall k :: k in w.fields ==> k == "OR" || k == "name" || k == "email")
    && (Present(search) ==> w.fields["OR"] == SearchAlternatives(search.value))
    && (Present(username) ==> w.fields["name"] == Like(username.value))
    && (Present(email) ==> w.fields["email"] == Like(email.value))
  }

  /** The where-object of `getAllUsers`, built key by key. */
  method BuildUserWhere(search: Option<string>, username: Option<string>, email: Option<string>) returns (w: Where)
    ensures UserWhereShape(w, search, username, email)
    ensures forall r :: Holds(w, r) <==> UserWanted(r, search, username, email)
  {
    var whereConditions: map<string, Clause> := map[];
    if Present(search) {
      whereConditions := whereConditions["OR" := SearchAlternatives(search.value)];
    }
    if Present(username) {
      whereConditions := whereConditions["name" := Like(username.value)];
    }
    if Present(email) {
      whereConditions := whereConditions["email" := Like(email.value)];
    }
    // deleting OR from an empty object changes nothing
    if |whereConditions| == 0 {
      whereConditions := whereConditions - {"OR"};
    }
    w := Where(whereConditions);
    forall r
      ensures Holds(w, r) <==> UserWanted(r, search, username, email)
    {
      UserWhereMeaning(w, search, username, email, r);
    }
  }

  /** An insensitive `contains` on a column is a text match on it. */
  lemma LikeMeaning(key: string, t: string, r: Row)
    ensures ClauseHolds(key, Like(t), r) <==> TextMatches(r, key, t)
  {
  }

  /** The search alternatives match the name or the email. */
  lemma SearchAlternativesMeaning(t: string, r: Row)
    ensures ClauseHolds("OR", SearchAlternatives(t), r) <==> TextMatches(r, "name", t) || TextMatches(r, "email", t)
  {
    var alts := SearchAlternatives(t).alternatives;
    HoldsSingle("name", Like(t), r);
    HoldsSingle("email", Like(t), r);
    assert ClauseHolds("OR", SearchAlternatives(t), r) <==> Holds(alts[0], r) || Holds(alts[1], r);
  }

  /** A where-object of the listing's shape admits exactly the wanted users. */
  lemma UserWhereMeaning(w: Where, search: Option<string>, username: Option<string>, email: Option<string>, r: Row)
    requires UserWhereShape(w, search, username, email)
    ensures Holds(w, r) <==> UserWanted(r, search, username, email)
  {
    if Present(search) {
      SearchAlternativesMeaning(search.value, r);
    }
    if Present(username) {
      LikeMeaning("name", username.value, r);
    }
    if Present(email) {
      LikeMeaning("email", email.value, r);
    }
  }

  /** The users a where-object admits, in table order. */
  function Admitted(users: seq<User>, w: Where): seq<User>
  {
    Select(users, (u: User) => Holds(w, UserRow(u)))
  }

  /** The users `getAllUsers` is meant to list, in table order. */
  function WantedUsers(users: seq<User>, search: Option<string>, username: Option<string>, email: Option<string>): seq<User>
  {
    Select(users, (u: User) => UserWanted(UserRow(u), search, username, email))
  }

  /** `getAllUsers`: the requested page of the matching users and its metadata. */
  method GetAllUsers(db: Db, options: Options, search: Option<string>, username: Option<string>, email: Option<string>)
    returns (meta: Meta, page: seq<User>)
    ensures var p := Calculate(options);
            var wanted := WantedUsers(db.users, search, username, email);
            meta == PageMeta(p, |wanted|) && page == Window(wanted, p)
  {
    var p := Calculate(options);
    var w := BuildUserWhere(search, username, email);
    var matching := Admitted(db.users, w);
    SelectSame(db.users, (u: User) => Holds(w, UserRow(u)), (u: User) => UserWanted(UserRow(u), search, username, email));
    meta := PageMeta(p, |matching|);
    page := Window(matching, p);
  }
}
