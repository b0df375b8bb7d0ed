/**
 * The relational store the services talk to, kept in memory: one sequence of
 * rows per table, in insertion order, and the counter the store draws new row
 * ids from.
 */
module Database {
  import opened Common
  import opened Tables

  /** A row of the user table. */
  datatype User = User(
    id: Id,
    email: string,
    password: string,              // the bcrypt hash, never the plain password
    name: Value,
    profileImage: Option<string>,  // null or a blob URL
    role: string,                  // ATHLETE, COACH, GYM, PROMOTER, ADMIN, SUPER_ADMIN, ...
    isVerified: bool,
    isOnline: bool,
    fcmToken: Option<string>,
    phoneNumber: Value,
    latitude: Value,
    longitude: Value)

  /** A row of the otp table; several rows may share an email. */
  datatype Otp = Otp(id: Id, email: string, otp: int, expiry: int)

  /** A row of the athlete, coach, gym or promoter table; `userId` is one of its columns. */
  datatype Profile = Profile(id: Id, columns: Payload)

  datatype JoinStatus = Pending | Accepted | Rejected

  datatype CoachRequest = CoachRequest(id: Id, athleteId: Id, coachId: Id, status: JoinStatus)

  datatype GymMembership = GymMembership(id: Id, athleteId: Id, gymId: Id, status: JoinStatus)

  /** The four role-profile tables. */
  datatype Kind = AthleteTable | CoachTable | GymTable | PromoterTable

  /** `tx[role.toLowerCase()]`: the table a role's profile lives in, if the role has one. */
  function KindOf(role: string): (k: Option<Kind>)
    ensures k == Some(AthleteTable) <==> role == "ATHLETE"
    ensures k == Some(CoachTable) <==> role == "COACH"
    ensures k == Some(GymTable) <==> role == "GYM"
    ensures k == Some(PromoterTable) <==> role == "PROMOTER"
  {
    if role == "ATHLETE" then Some(AthleteTable)
    else if role == "COACH" then Some(CoachTable)
    else if role == "GYM" then Some(GymTable)
    else if role == "PROMOTER" then Some(PromoterTable)
    else None
  }

  predicate OwnedBy(p: Profile, userId: Id)
  {
    Get(p.columns, "userId") == Num(userId)
  }

  // Lookups, named once so that every caller means the same row.

  function UserByEmail(users: seq<User>, email: string): Option<nat>
  {
    FirstIndex(users, (u: User) => u.email == email)
  }

  function UserById(users: seq<User>, id: Id): Option<nat>
  {
    FirstIndex(users, (u: User) => u.id == id)
  }

  function ProfileById(table: seq<Profile>, id: Id): Option<nat>
  {
    FirstIndex(table, (p: Profile) => p.id == id)
  }

  function ProfileOfUser(table: seq<Profile>, userId: Id): Option<nat>
  {
    FirstIndex(table, (p: Profile) => OwnedBy(p, userId))
  }

  /** `userData.athlete?.id` and its like: the id of the user's row in a profile table, if any. */
  function ProfileIdOf(table: seq<Profile>, userId: Id): (r: Option<Id>)
    ensures r.Some? <==> exists i :: 0 <= i < |table| && OwnedBy(table[i], userId)
    ensures r.Some? ==> exists i :: 0 <= i < |table| && OwnedBy(table[i], userId) && table[i].id == r.value
  {
    match ProfileOfUser(table, userId)
    case None => None
    case Some(i) => Some(table[i].id)
  }

  /** The request of the compound key (athleteId, coachId), if there is one. */
  function CoachRequestFor(rs: seq<CoachRequest>, athleteId: Id, coachId: Id): Option<nat>
  {
    FirstIndex(rs, (q: CoachRequest) => q.athleteId == athleteId && q.coachId == coachId)
  }

  function CoachRequestById(rs: seq<CoachRequest>, id: Id): Option<nat>
  {
    FirstIndex(rs, (q: CoachRequest) => q.id == id)
  }

  /** The membership of the compound key (athleteId, gymId), if there is one. */
  function MembershipFor(ms: seq<GymMembership>, athleteId: Id, gymId: Id): Option<nat>
  {
    FirstIndex(ms, (m: GymMembership) => m.athleteId == athleteId && m.gymId == gymId)
  }

  /** A user as the store's query engine sees it: its scalar columns by name. */
  function UserRow(u: User): Payload
  {
    map["id" := Num(u.id), "name" := u.name, "email" := Str(u.email), "role" := Str(u.role),
        "phoneNumber" := u.phoneNumber, "latitude" := u.latitude, "longitude" := u.longitude,
        "isVerified" := Bool(u.isVerified), "isOnline" := Bool(u.isOnline)]
  }

  function OtpForEmail(otps: seq<Otp>, email: string): Option<nat>
  {
    FirstIndex(otps, (o: Otp) => o.email == email)
  }

  function OtpById(otps: seq<Otp>, id: Id): Option<nat>
  {
    FirstIndex(otps, (o: Otp) => o.id == id)
  }

  function OtpCount(otps: seq<Otp>, email: string): nat
  {
    Count(otps, (o: Otp) => o.email == email)
  }

  /** No two users share an id or an email (the table's unique keys). */
  ghost predicate UsersUnique(users: seq<User>)
  {
    forall i, j :: 0 <= i < j < |users| ==> users[i].id != users[j].id && users[i].email != users[j].email
  }

  /** The compound unique key (athleteId, coachId), and unique row ids. */
  ghost predicate CoachRequestsUnique(rs: seq<CoachRequest>)
  {
    forall i, j :: 0 <= i < j < |rs| ==>
      rs[i].id != rs[j].id && (rs[i].athleteId, rs[i].coachId) != (rs[j].athleteId, rs[j].coachId)
  }

  /** The compound unique key (athleteId, gymId), and unique row ids. */
  ghost predicate MembershipsUnique(ms: seq<GymMembership>)
  {
    forall i, j :: 0 <= i < j < |ms| ==>
      ms[i].id != ms[j].id && (ms[i].athleteId, ms[i].gymId) != (ms[j].athleteId, ms[j].gymId)
  }

  class Db {
    var users: seq<User>
    var otps: seq<Otp>
    var athletes: seq<Profile>
    var coaches: seq<Profile>
    var gyms: seq<Profile>
    var promoters: seq<Profile>
    var coachRequests: seq<CoachRequest>
    var gymMemberships: seq<GymMembership>
    var nextId: nat

    /** The unique keys hold and every id in use was drawn from the counter. */
    ghost predicate Valid()
      reads this`users, this`coachRequests, this`gymMemberships, this`nextId
    {
      && UsersUnique(users)
      && CoachRequestsUnique(coachRequests)
      && MembershipsUnique(gymMemberships)
      && (forall i :: 0 <= i < |users| ==> users[i].id < nextId)
      && (forall i :: 0 <= i < |coachRequests| ==> coachRequests[i].id < nextId)
      && (forall i :: 0 <= i < |gymMemberships| ==> gymMemberships[i].id < nextId)
    }

    constructor ()
      ensures Valid()
      ensures users == [] && otps == [] && coachRequests == [] && gymMemberships == []
      ensures athletes == [] && coaches == [] && gyms == [] && promoters == []
      ensures nextId == 0
    {
      users, otps := [], [];
      athletes, coaches, gyms, promoters := [], [], [], [];
      coachRequests, gymMemberships := [], [];
      nextId := 0;
    }

    /** The rows of a role-profile table. */
    function Table(k: Kind): seq<Profile>
      reads this`athletes, this`coaches, this`gyms, this`promoters
    {
      match k
      case AthleteTable => athletes
      case CoachTable => coaches
      case GymTable => gyms
      case PromoterTable => promoters
    }

    /** The store hands out a new row id. */
    method FreshId() returns (id: Id)
      requires Valid()
      modifies this`nextId
      ensures Valid()
      ensures id == old(nextId) && nextId == id + 1
    {
      id := nextId;
      nextId := nextId + 1;
    }

    /** `create` on the user table, for a row that breaks neither unique key. */
    method InsertUser(u: User)
      requires Valid()
      requires u.id < nextId
      requires forall i :: 0 <= i < |users| ==> users[i].id != u.id
      requires UserByEmail(users, u.email).None?
      modifies this`users
      ensures Valid()
      ensures users == old(users) + [u]
    {
      users := users + [u];
    }

    /** `update` of user row `j`, keeping its id, with an email no other user has. */
    method UpdateUser(j: nat, u: User)
      requires Valid()
      requires j < |users| && u.id == users[j].id
      requires forall i :: 0 <= i < |users| && i != j ==> users[i].email != u.email
      modifies this`users
      ensures Valid()
      ensures users == old(users)[j := u]
    {
      users := users[j := u];
    }

    /** `delete` of user row `j`. */
    method RemoveUser(j: nat)
      requires Valid()
      requires j < |users|
      modifies this`users
      ensures Valid()
      ensures users == RemoveAt(old(users), j)
    {
      users := RemoveAt(users, j);
    }

    /** `create` on the coach-request table, for a row whose id and key are both new. */
    method InsertCoachRequest(q: CoachRequest)
      requires Valid()
      requires q.id < nextId
      requires forall i :: 0 <= i < |coachRequests| ==> coachRequests[i].id != q.id
      requires CoachRequestFor(coachRequests, q.athleteId, q.coachId).None?
      modifies this`coachRequests
      ensures Valid()
      ensures coachRequests == old(coachRequests) + [q]
    {
      coachRequests := coachRequests + [q];
    }

    /** `delete` of coach-request row `i`. */
    method RemoveCoachRequest(i: nat)
      requires Valid()
      requires i < |coachRequests|
      modifies this`coachRequests
      ensures Valid()
      ensures coachRequests == RemoveAt(old(coachRequests), i)
    {
      coachRequests := RemoveAt(coachRequests, i);
    }

    /** `create` on the gym-membership table, for a row whose id and key are both new. */
    method InsertMembership(m: GymMembership)
      requires Valid()
      requires m.id < nextId
      requires forall i :: 0 <= i < |gymMemberships| ==> gymMemberships[i].id != m.id
      requires MembershipFor(gymMemberships, m.athleteId, m.gymId).None?
      modifies this`gymMemberships
      ensures Valid()
      ensures gymMemberships == old(gymMemberships) + [m]
    {
      gymMemberships := gymMemberships + [m];
    }

    /** `create` on the otp table. */
    method InsertOtp(o: Otp)
      requires Valid()
      modifies this`otps
      ensures Valid()
      ensures otps == old(otps) + [o]
    {
      otps := otps + [o];
    }

    /** `create` on a role-profile table. */
    method AppendProfile(k: Kind, p: Profile)
      modifies this`athletes, this`coaches, this`gyms, this`promoters
      ensures forall k' :: Table(k') == if k' == k then old(Table(k')) + [p] else old(Table(k'))
    {
      match k
      case AthleteTable => athletes := athletes + [p];
      case CoachTable => coaches := coaches + [p];
      case GymTable => gyms := gyms + [p];
      case PromoterTable => promoters := promoters + [p];
    }

    /** `update` of row `i` of a role-profile table. */
    method UpdateProfile(k: Kind, i: nat, p: Profile)
      requires i < |Table(k)|
      modifies this`athletes, this`coaches, this`gyms, this`promoters
      ensures forall k' :: Table(k') == if k' == k then old(Table(k'))[i := p] else old(Table(k'))
    {
      match k
      case AthleteTable => athletes := athletes[i := p];
      case CoachTable => coaches := coaches[i := p];
      case GymTable => gyms := gyms[i := p];
      case PromoterTable => promoters := promoters[i := p];
    }
  }
}
