/** Reading, editing and deleting one's own profile (src/app/modules/profile/profile.service.ts). */
module ProfileService {
  import opened Common
  import opened Tables
  import opened Database

  const ProfileNotFound: Error := ApiError(NotFound, "User not found")
  const UpdateNotFound: Error := PlainError("User not found")
  const DeleteNotFound: Error := ApiError(BadRequest, "User not found")

  // ---------------------------------------------------------------------------
  // Reading

  /** The fields `getMyProfileFromDB` selects: no id, no email, and no gym profile. */
  datatype MyProfile = MyProfile(
    name: Value, profileImage: Option<string>, latitude: Value, longitude: Value,
    athlete: Option<Profile>, coach: Option<Profile>, promoter: Option<Profile>)

  /** The user's row of a profile table, if it has one. */
  function ProfileRowOf(table: seq<Profile>, userId: Id): (r: Option<Profile>)
    ensures r.Some? <==> exists i :: 0 <= i < |table| && OwnedBy(table[i], userId)
    ensures r.Some? ==> r.value in table && OwnedBy(r.value, userId)
  {
    match ProfileOfUser(table, userId)
    case None => None
    case Some(i) => Some(table[i])
  }

  /** `getMyProfileFromDB`. */
  method GetMyProfile(db: Db, id: Id) returns (r: Result<MyProfile>)
    ensures UserById(db.users, id).None? <==> r == Fail(ProfileNotFound)
    ensures r.Ok? ==>
              var u := db.users[UserById(db.users, id).value];
              && u.id == id
              && r.value == MyProfile(u.name, u.profileImage, u.latitude, u.longitude,
                                      ProfileRowOf(db.athletes, id), ProfileRowOf(db.coaches, id),
                                      ProfileRowOf(db.promoters, id))
  {
    var found := UserById(db.users, id);
    if found.None? {
      return Fail(ProfileNotFound);
    }
    var u := db.users[found.value];
    return Ok(MyProfile(u.name, u.profileImage, u.latitude, u.longitude,
                        ProfileRowOf(db.athletes, id), ProfileRowOf(db.coaches, id), ProfileRowOf(db.promoters, id)));
  }

  // ---------------------------------------------------------------------------
  // Editing

  /** `file?.location ?? existing`: an uploaded file replaces the image, even an empty location; otherwise it is kept. */
  function ImageChoice(fileLocation: Option<string>, existing: Option<string>): (r: Option<string>)
    ensures fileLocation.Some? ==> r == fileLocation
    ensures fileLocation.None? ==> r == existing
  {
    if fileLocation.Some? then fileLocation else existing
  }

  /** The one payload column each role may edit on its profile row. */
  function EditableColumn(role: string): Option<string>
  {
    if role == "ATHLETE" then Some("about")
    else if role == "COACH" then Some("bio")
    else if role == "GYM" then Some("description")
    else if role == "PROMOTER" then Some("location")
    else None
  }

  /** The `roleData` switch: `{about}`, `{bio}`, `{description}` or `{location}` by role, and `{}` otherwise. */
  function RoleData(role: string, payload: Payload): (data: Payload)
    ensures role == "ATHLETE" ==> data == map["about" := Get(payload, "about")]
    ensures role == "COACH" ==> data == map["bio" := Get(payload, "bio")]
    ensures role == "GYM" ==> data == map["description" := Get(payload, "description")]
    ensures role == "PROMOTER" ==> data == map["location" := Get(payload, "location")]
    ensures KindOf(role).None? ==> data == map[]
  {
    match EditableColumn(role)
    case None => map[]
    case Some(column) => map[column := Get(payload, column)]
  }

  /** The store leaves a column alone when the data gives it as undefined. */
  function Patch(current: Value, given: Value): (v: Value)
    ensures given.Undefined? ==> v == current
    ensures !given.Undefined? ==> v == given
  {
    if given.Undefined? then current else given
  }

  /** `update ... data`: the columns `data` defines are written, every other column is kept. */
  function ApplyData(columns: Payload, data: Payload): (r: Payload)
    ensures forall k :: k in data && !data[k].Undefined? ==> k in r && r[k] == data[k]
    ensures forall k :: k in columns && (k !in data || data[k].Undefined?) ==> k in r && r[k] == columns[k]
    ensures forall k :: k in r ==> k in columns || (k in data && !data[k].Undefined?)
  {
    map k | k in columns.Keys + data.Keys && (k in columns || !data[k].Undefined?) ::
      if k in data && !data[k].Undefined? then data[k] else columns[k]
  }

  /** Data without a defined column changes nothing. */
  lemma ApplyNothing(columns: Payload, data: Payload)
    requires forall k :: k in data ==> data[k].Undefined?
    ensures ApplyData(columns, data) == columns
  {
  }

  /** The email the update asks for: the current one when undefined, none when it is not a string. */
  function RequestedEmail(u: User, payload: Payload): (r: Option<string>)
    ensures Get(payload, "email").Undefined? ==> r == Some(u.email)
    ensures Get(payload, "email").Str? ==> r == Some(Get(payload, "email").s)
    ensures r.None? <==> !Get(payload, "email").Undefined? && !Get(payload, "email").Str?
  {
    match Get(payload, "email")
    case Undefined => Some(u.email)
    case Str(s) => Some(s)
    case _ => None
  }

  /** The user row after the update: the payload's defined name, coordinates and email, and the chosen image. */
  function EditedUser(u: User, payload: Payload, email: string, image: Option<string>): (v: User)
    ensures v.id == u.id && v.email == email && v.profileImage == image
    ensures v.name == Patch(u.name, Get(payload, "name"))
    ensures v.latitude == Patch(u.latitude, Get(payload, "latitude"))
    ensures v.longitude == Patch(u.longitude, Get(payload, "longitude"))
    // password, role and the flags are not touched
    ensures v.password == u.password && v.role == u.role && v.isVerified == u.isVerified
    ensures v.isOnline == u.isOnline && v.fcmToken == u.fcmToken && v.phoneNumber == u.phoneNumber
  {
    u.(name := Patch(u.name, Get(payload, "name")),
       latitude := Patch(u.latitude, Get(payload, "latitude")),
       longitude := Patch(u.longitude, Get(payload, "longitude")),
       email := email,
       profileImage := image)
  }

  /** Another user (a row with a different id) that holds `email`. */
  function OtherUserWithEmail(users: seq<User>, email: string, id: Id): Option<nat>
  {
    FirstIndex(users, (v: User) => v.email == email && v.id != id)
  }

  /** The profile tables in the order the update tries them. */
  const UpdateOrder: seq<Kind> := [AthleteTable, CoachTable, GymTable, PromoterTable]

  /** The position of a table in the update order. */
  function Rank(k: Kind): (n: nat)
    ensures n < |UpdateOrder| && UpdateOrder[n] == k
  {
    match k
    case AthleteTable => 0
    case CoachTable => 1
    case GymTable => 2
    case PromoterTable => 3
  }

  /**
   * The profile row the update writes: the user's row in the first of the
   * athlete, coach, gym and promoter tables that has one.
   */
  function UpdateTarget(db: Db, userId: Id): (t: Option<(Kind, nat)>)
    reads db
    ensures t.Some? ==> t.value.1 < |db.Table(t.value.0)| && OwnedBy(db.Table(t.value.0)[t.value.1], userId)
    ensures t.Some? ==> forall k :: Rank(k) < Rank(t.value.0) ==> ProfileOfUser(db.Table(k), userId).None?
    ensures t.None? ==> forall k :: ProfileOfUser(db.Table(k), userId).None?
  {
    TargetFrom(db, userId, 0)
  }

  function TargetFrom(db: Db, userId: Id, n: nat): (t: Option<(Kind, nat)>)
    requires n <= |UpdateOrder|
    reads db
    ensures t.Some? ==> Rank(t.value.0) >= n
    ensures t.Some? ==> t.value.1 < |db.Table(t.value.0)| && OwnedBy(db.Table(t.value.0)[t.value.1], userId)
    ensures t.Some? ==> forall k :: n <= Rank(k) < Rank(t.value.0) ==> ProfileOfUser(db.Table(k), userId).None?
    ensures t.None? ==> forall k :: n <= Rank(k) ==> ProfileOfUser(db.Table(k), userId).None?
    decreases |UpdateOrder| - n
  {
    if n == |UpdateOrder| then None
    else match ProfileOfUser(db.Table(UpdateOrder[n]), userId)
      case Some(i) => Some((UpdateOrder[n], i))
      case None => TargetFrom(db, userId, n + 1)
  }

  /** Table `k` after the role data is applied to the target row, if the target lies in `k`. */
  function EditedTable(rows: seq<Profile>, k: Kind, target: Option<(Kind, nat)>, data: Payload): (r: seq<Profile>)
    ensures |r| == |rows|
    ensures forall i :: 0 <= i < |rows| && (target != Some((k, i))) ==> r[i] == rows[i]
    ensures target.Some? && target.value.0 == k && target.value.1 < |rows| ==>
              var i := target.value.1;
              r[i] == Profile(rows[i].id, ApplyData(rows[i].columns, data))
  {
    if target.Some? && target.value.0 == k && target.value.1 < |rows|
    then var i := target.value.1; rows[i := Profile(rows[i].id, ApplyData(rows[i].columns, data))]
    else rows
  }

  /** The writes of the update's transaction: the user row, then at most one profile row. */
  method WriteProfileEdit(db: Db, j: nat, v: User, id: Id, data: Payload)
    requires db.Valid()
    requires j < |db.users| && v.id == db.users[j].id
    requires forall i :: 0 <= i < |db.users| && i != j ==> db.users[i].email != v.email
    modifies db`users, db`athletes, db`coaches, db`gyms, db`promoters
    ensures db.Valid()
    ensures db.users == old(db.users)[j := v]
    ensures forall k :: db.Table(k) == EditedTable(old(db.Table(k)), k, old(UpdateTarget(db, id)), data)
  {
    var target := UpdateTarget(db, id);
    db.UpdateUser(j, v);
    if target.Some? {
      var (k, i) := target.value;
      var p := db.Table(k)[i];
      db.UpdateProfile(k, i, Profile(p.id, ApplyData(p.columns, data)));
    }
  }

  /** What `updateUserProfile` answers: the edited user as the client sees it, and the role data it applied. */
  datatype EditedProfile = EditedProfile(
    id: Id, athleteId: Option<Id>, coachId: Option<Id>, gymId: Option<Id>, promoterId: Option<Id>,
    name: Value, role: string, profileImage: Option<string>, latitude: Value, longitude: Value,
    roleData: Payload)

  /**
   * `updateUserProfile`. The user row and the profile row are written in one
   * transaction: a refused email leaves both as they were.
   */
  method UpdateUserProfile(db: Db, id: Id, payload: Payload, fileLocation: Option<string>) returns (r: Result<EditedProfile>)
    requires db.Valid()
    modifies db`users, db`athletes, db`coaches, db`gyms, db`promoters
    ensures db.Valid()
    ensures r.Fail? ==> db.users == old(db.users) && forall k :: db.Table(k) == old(db.Table(k))
    ensures UserById(old(db.users), id).None? ==> r == Fail(UpdateNotFound)
    ensures UserById(old(db.users), id).Some? ==>
              var j := UserById(old(db.users), id).value;
              var u := old(db.users)[j];
              var email := RequestedEmail(u, payload);
              && (email.None? ==> r == Fail(ValidationError("email")))
              && (email.Some? && OtherUserWithEmail(old(db.users), email.value, id).Some? ==>
                    r == Fail(UniqueViolation("email")))
              && (email.Some? && OtherUserWithEmail(old(db.users), email.value, id).None? ==>
                    var v := EditedUser(u, payload, email.value, ImageChoice(fileLocation, u.profileImage));
                    var data := RoleData(u.role, payload);
                    var target := old(UpdateTarget(db, id));
                    && db.users == old(db.users)[j := v]
                    // at most one profile row changes: the target's, with the role data applied
                    && (forall k :: db.Table(k) == EditedTable(old(db.Table(k)), k, target, data))
                    // the answer echoes the role data as given
                    && r.Ok? && r.value.roleData == data
                    && r.value.id == id && r.value.role == u.role
                    && r.value.name == v.name && r.value.profileImage == v.profileImage
                    && r.value.latitude == v.latitude && r.value.longitude == v.longitude
                    && r.value.athleteId == ProfileIdOf(old(db.athletes), id)
                    && r.value.coachId == ProfileIdOf(old(db.coaches), id)
                    && r.value.gymId == ProfileIdOf(old(db.gyms), id)
                    && r.value.promoterId == ProfileIdOf(old(db.promoters), id))
  {
    var found := UserById(db.users, id);
    if found.None? {
      return Fail(UpdateNotFound);
    }
    var j := found.value;
    var existingUser := db.users[j];
    var profileImage := ImageChoice(fileLocation, existingUser.profileImage);
    var roleData := RoleData(existingUser.role, payload);
    var email := RequestedEmail(existingUser, payload);
    if email.None? {
      return Fail(ValidationError("email"));
    }
    if OtherUserWithEmail(db.users, email.value, id).Some? {
      return Fail(UniqueViolation("email"));
    }
    var athleteId, coachId := ProfileIdOf(db.athletes, id), ProfileIdOf(db.coaches, id);
    var gymId, promoterId := ProfileIdOf(db.gyms, id), ProfileIdOf(db.promoters, id);
    var updated := EditedUser(existingUser, payload, email.value, profileImage);
    EmailFreeForUpdate(db.users, j, email.value, id);
    WriteProfileEdit(db, j, updated, id, roleData);
    return Ok(EditedProfile(id, athleteId, coachId, gymId, promoterId, updated.name, existingUser.role,
                            updated.profileImage, updated.latitude, updated.longitude, roleData));
  }

  /** An email no other user holds may be written to row `j`, whose id is unique. */
  lemma EmailFreeForUpdate(users: seq<User>, j: nat, email: string, id: Id)
    requires UsersUnique(users)
    requires j < |users| && users[j].id == id
    requires OtherUserWithEmail(users, email, id).None?
    ensures forall i :: 0 <= i < |users| && i != j ==> users[i].email != email
  {
    forall i | 0 <= i < |users| && i != j
      ensures users[i].email != email
    {
      assert users[i].id != id;
    }
  }

  /** Only the role's own column can change on the profile row: every other column keeps its value. */
  lemma OnlyEditableColumnChanges(role: string, payload: Payload, columns: Payload, k: string)
    requires k in columns
    requires EditableColumn(role) != Some(k)
    ensures k in ApplyData(columns, RoleData(role, payload))
    ensures ApplyData(columns, RoleData(role, payload))[k] == columns[k]
  {
  }

  // ---------------------------------------------------------------------------
  // Deleting

  /** The calls `deleteUser` makes, in order: the image blob, if any, then the user row. */
  datatype Effect = DeleteBlob(url: string) | DeleteUserRow(id: Id)

  const Deleted: string := "User deleted successfully"

  /** `deleteUser`: returns its answer and the calls it made, and removes the row from the store. */
  method DeleteUser(db: Db, id: Id) returns (r: Result<string>, effects: seq<Effect>)
    requires db.Valid()
    modifies db`users
    ensures db.Valid()
    ensures UserById(old(db.users), id).None? ==>
              r == Fail(DeleteNotFound) && effects == [] && db.users == old(db.users)
    ensures UserById(old(db.users), id).Some? ==>
              var j := UserById(old(db.users), id).value;
              var image := old(db.users)[j].profileImage;
              && r == Ok(Deleted)
              && db.users == RemoveAt(old(db.users), j)
              // the blob goes first, and only when there is an image
              && effects == (if Present(image) then [DeleteBlob(image.value)] else []) + [DeleteUserRow(id)]
  {
    var found := UserById(db.users, id);
    if found.None? {
      return Fail(DeleteNotFound), [];
    }
    var j := found.value;
    var existingUser := db.users[j];
    effects := [];
    if Present(existingUser.profileImage) {
      effects := effects + [DeleteBlob(existingUser.profileImage.value)];
    }
    db.RemoveUser(j);
    effects := effects + [DeleteUserRow(id)];
    return Ok(Deleted), effects;
  }

  /** After a delete, no user has the id any more. */
  lemma DeletedUserIsGone(users: seq<User>, id: Id)
    requires UsersUnique(users)
    requires UserById(users, id).Some?
    ensures UserById(RemoveAt(users, UserById(users, id).value), id).None?
  {
    var j := UserById(users, id).value;
    var rest := RemoveAt(users, j);
    forall i | 0 <= i < |rest|
      ensures rest[i].id != id
    {
      if i < j {
        assert rest[i] == users[i];
      } else {
        assert rest[i] == users[i + 1];
      }
    }
  }
}
