/**
 * Listing athletes, and the coach requests and gym memberships an athlete
 * sends, removes and lists (src/app/modules/athlete/athlete.service.ts).
 */
module AthleteService {
  import opened Common
  import opened Tables
  import opened Query
  import opened Pagination
  import opened Database

  // ---------------------------------------------------------------------------
  // The listing's conditions

  /** `{ userId: { not: userId } }`: leave out the caller's own athlete row. */
  function NotSelf(userId: Id): Where
  {
    Where(map["userId" := NotEquals(Num(userId))])
  }

  /** `{ OR: [ { user: { name: contains } }, { about: contains } ] }`. */
  function NameOrAbout(t: string): Where
  {
    Where(map["OR" := AnyOf([
      Where(map["user" := Relation(Where(map["name" := Contains(t, Insensitive)]))]),
      Where(map["about" := Contains(t, Insensitive)])
    ])])
  }

  /** `{ key: { equals: value } }` for every remaining filter, in order. */
  function EqualsEach(rest: seq<(string, Value)>): (ws: seq<Where>)
    ensures |ws| == |rest|
    ensures forall i :: 0 <= i < |rest| ==> ws[i] == Where(map[rest[i].0 := Equals(rest[i].1)])
  {
    if rest == [] then [] else [Where(map[rest[0].0 := Equals(rest[0].1)])] + EqualsEach(rest[1..])
  }

  /** `{ AND: [...] }` over the remaining filters. */
  function AllEqual(rest: seq<(string, Value)>): Where
  {
    Where(map["AND" := AllOf(EqualsEach(rest))])
  }

  /** `{ key: { gte: lo, lte: hi } }`, an undefined bound left open. */
  function Range(key: string, lo: Option<int>, hi: Option<int>): Where
  {
    Where(map[key := Between(lo, hi)])
  }

  // What each condition means for a joined athlete row.

  predicate IsNotSelf(r: Row, userId: Option<Id>)
  {
    userId.Some? ==> Get(r, "userId") != Null && Get(r, "userId") != Num(userId.value)
  }

  predicate SearchHit(r: Row, search: Option<string>)
  {
    Present(search) ==>
      (Get(r, "user").Obj? && TextMatches(Get(r, "user").fields, "name", search.value))
      || TextMatches(r, "about", search.value)
  }

  predicate RestEqual(r: Row, rest: seq<(string, Value)>)
  {
    forall i :: 0 <= i < |rest| ==> Get(r, rest[i].0) == rest[i].1
  }

  predicate InRange(r: Row, key: string, lo: Option<int>, hi: Option<int>)
  {
    && (lo.Some? ==> Get(r, key).Num? && lo.value <= Get(r, key).n)
    && (hi.Some? ==> Get(r, key).Num? && Get(r, key).n <= hi.value)
  }

  /** The listing's filters: what `getAthletes` asks of a row, its distance filter aside. */
  datatype Filters = Filters(
    userId: Option<Id>, search: Option<string>, rest: seq<(string, Value)>,
    minAge: Option<int>, maxAge: Option<int>, minHeight: Option<int>, maxHeight: Option<int>,
    minWeight: Option<int>, maxWeight: Option<int>)

  /** A row the listing is meant to show: every given filter holds of it. */
  predicate AthleteWanted(r: Row, f: Filters)
  {
    && IsNotSelf(r, f.userId)
    && SearchHit(r, f.search)
    && RestEqual(r, f.rest)
    && InRange(r, "age", f.minAge, f.maxAge)
    && InRange(r, "height", f.minHeight, f.maxHeight)
    && InRange(r, "weight", f.minWeight, f.maxWeight)
  }

  lemma NotSelfMeaning(userId: Id, r: Row)
    ensures Holds(NotSelf(userId), r) <==> IsNotSelf(r, Some(userId))
  {
    HoldsSingle("userId", NotEquals(Num(userId)), r);
  }

  lemma NameOrAboutMeaning(t: string, r: Row)
    requires t != ""
    ensures Holds(NameOrAbout(t), r) <==> SearchHit(r, Some(t))
  {
    var alts := NameOrAbout(t).fields["OR"].alternatives;
    HoldsSingle("OR", AnyOf(alts), r);
    HoldsSingle("user", Relation(Where(map["name" := Contains(t, Insensitive)])), r);
    HoldsSingle("about", Contains(t, Insensitive), r);
    if Get(r, "user").Obj? {
      HoldsSingle("name", Contains(t, Insensitive), Get(r, "user").fields);
    }
    assert ClauseHolds("OR", AnyOf(alts), r) <==> Holds(alts[0], r) || Holds(alts[1], r);
  }

  lemma AllEqualMeaning(rest: seq<(string, Value)>, r: Row)
    ensures Holds(AllEqual(rest), r) <==> RestEqual(r, rest)
  {
    var ws := EqualsEach(rest);
    HoldsSingle("AND", AllOf(ws), r);
    forall i | 0 <= i < |rest|
      ensures Holds(ws[i], r) <==> Get(r, rest[i].0) == rest[i].1
    {
      HoldsSingle(rest[i].0, Equals(rest[i].1), r);
    }
  }

  lemma RangeMeaning(key: string, lo: Option<int>, hi: Option<int>, r: Row)
    ensures Holds(Range(key, lo, hi), r) <==> InRange(r, key, lo, hi)
  {
    HoldsSingle(key, Between(lo, hi), r);
  }

  /** The filters the first `k` steps of the condition list look at; the later ones left out. */
  function Upto(f: Filters, k: nat): Filters
  {
    Filters(
      if k >= 1 then f.userId else None,
      if k >= 2 then f.search else None,
      if k >= 3 then f.rest else [],
      if k >= 4 then f.minAge else None, if k >= 4 then f.maxAge else None,
      if k >= 5 then f.minHeight else None, if k >= 5 then f.maxHeight else None,
      if k >= 6 then f.minWeight else None, if k >= 6 then f.maxWeight else None)
  }

  /** The `andConditions` list, pushed condition by condition. */
  method AthleteConditions(f: Filters) returns (conds: seq<Where>)
    // one conjunct per given filter, and no more
    ensures |conds| ==
              (if f.userId.Some? then 1 else 0) + (if Present(f.search) then 1 else 0) + (if |f.rest| > 0 then 1 else 0)
              + (if f.minAge.Some? || f.maxAge.Some? then 1 else 0)
              + (if f.minHeight.Some? || f.maxHeight.Some? then 1 else 0)
              + (if f.minWeight.Some? || f.maxWeight.Some? then 1 else 0)
    // together they admit exactly the wanted rows
    ensures forall r :: HoldsAll(conds, r) <==> AthleteWanted(r, f)
  {
    conds := [];
    ghost var before := conds;
    if f.userId.Some? {
      conds := conds + [NotSelf(f.userId.value)];
    }
    forall r
      ensures HoldsAll(conds, r) <==> AthleteWanted(r, Upto(f, 1))
    {
      if f.userId.Some? {
        HoldsAllPush(before, NotSelf(f.userId.value), r);
        NotSelfMeaning(f.userId.value, r);
      }
    }
    before := conds;
    if Present(f.search) {
      conds := conds + [NameOrAbout(f.search.value)];
    }
    forall r
      ensures HoldsAll(conds, r) <==> AthleteWanted(r, Upto(f, 2))
    {
      if Present(f.search) {
        HoldsAllPush(before, NameOrAbout(f.search.value), r);
        NameOrAboutMeaning(f.search.value, r);
      }
    }
    before := conds;
    if |f.rest| > 0 {
      conds := conds + [AllEqual(f.rest)];
    }
    forall r
      ensures HoldsAll(conds, r) <==> AthleteWanted(r, Upto(f, 3))
    {
      if |f.rest| > 0 {
        HoldsAllPush(before, AllEqual(f.rest), r);
        AllEqualMeaning(f.rest, r);
      }
    }
    before := conds;
    if f.minAge.Some? || f.maxAge.Some? {
      conds := conds + [Range("age", f.minAge, f.maxAge)];
    }
    forall r
      ensures HoldsAll(conds, r) <==> AthleteWanted(r, Upto(f, 4))
    {
      if f.minAge.Some? || f.maxAge.Some? {
        HoldsAllPush(before, Range("age", f.minAge, f.maxAge), r);
        RangeMeaning("age", f.minAge, f.maxAge, r);
      }
    }
    before := conds;
    if f.minHeight.Some? || f.maxHeight.Some? {
      conds := conds + [Range("height", f.minHeight, f.maxHeight)];
    }
    forall r
      ensures HoldsAll(conds, r) <==> AthleteWanted(r, Upto(f, 5))
    {
      if f.minHeight.Some? || f.maxHeight.Some? {
        HoldsAllPush(before, Range("height", f.minHeight, f.maxHeight), r);
        RangeMeaning("height", f.minHeight, f.maxHeight, r);
      }
    }
    before := conds;
    if f.minWeight.Some? || f.maxWeight.Some? {
      conds := conds + [Range("weight", f.minWeight, f.maxWeight)];
    }
    forall r
      ensures HoldsAll(conds, r) <==> AthleteWanted(r, Upto(f, 6))
    {
      if f.minWeight.Some? || f.maxWeight.Some? {
        HoldsAllPush(before, Range("weight", f.minWeight, f.maxWeight), r);
        RangeMeaning("weight", f.minWeight, f.maxWeight, r);
      }
    }
    assert Upto(f, 6) == f;
  }

  // ---------------------------------------------------------------------------
  // Sorting

  /** The athlete columns a listing may be sorted by. */
  const ValidSortFields: seq<string> := [
    "id", "userId", "fighting", "martialArts", "experience", "gender", "country", "height", "weight",
    "about", "age", "winbyKO", "winbyOther", "wins", "losses", "draws", "titles", "reach", "fightingStances"
  ]

  function InvalidSortBy(field: string): Error
  {
    PlainError("Invalid sortBy field: " + field)
  }

  /** `sortBy = 'id'` and the whitelist check. */
  function CheckSortBy(sortBy: Option<string>): (r: Result<string>)
    ensures sortBy.None? ==> r == Ok("id")
    ensures sortBy.Some? && sortBy.value in ValidSortFields ==> r == Ok(sortBy.value)
    ensures sortBy.Some? && sortBy.value !in ValidSortFields ==> r == Fail(InvalidSortBy(sortBy.value))
    ensures r.Ok? ==> r.value in ValidSortFields
  {
    var field := if sortBy.Some? then sortBy.value else "id";
    if field in ValidSortFields then Ok(field) else Fail(InvalidSortBy(field))
  }

  // ---------------------------------------------------------------------------
  // The listing

  /** An athlete row with its user included, as the query engine filters it. */
  function JoinedRow(p: Profile, users: seq<User>): Row
  {
    var user :=
      if Get(p.columns, "userId").Num? && Get(p.columns, "userId").n >= 0
         && UserById(users, Get(p.columns, "userId").n).Some?
      then Obj(UserRow(users[UserById(users, Get(p.columns, "userId").n).value]))
      else Null;
    p.columns["id" := Num(p.id)]["user" := user]
  }

  /** The athletes `where` admits, in table order. */
  function AdmittedAthletes(athletes: seq<Profile>, users: seq<User>, w: Where): seq<Profile>
  {
    Select(athletes, (p: Profile) => Holds(w, JoinedRow(p, users)))
  }

  /** The athletes the listing is meant to show, in table order. */
  function WantedAthletes(athletes: seq<Profile>, users: seq<User>, f: Filters): seq<Profile>
  {
    Select(athletes, (p: Profile) => AthleteWanted(JoinedRow(p, users), f))
  }

  /**
   * `getAthletes`: an unlisted sort field is refused before the store is
   * queried; otherwise the page of wanted athletes and its metadata.
   */
  method GetAthletes(db: Db, options: Options, f: Filters) returns (r: Result<(Meta, seq<Profile>)>)
    ensures CheckSortBy(Calculate(options).sortBy).Fail? ==> r == Fail(CheckSortBy(Calculate(options).sortBy).error)
    ensures CheckSortBy(Calculate(options).sortBy).Ok? ==>
              var p := Calculate(options);
              var wanted := WantedAthletes(db.athletes, db.users, f);
              r == Ok((PageMeta(p, |wanted|), Window(wanted, p)))
  {
    var p := Calculate(options);
    var andConditions := AthleteConditions(f);
    var sortBy := CheckSortBy(p.sortBy);
    if sortBy.Fail? {
      return Fail(sortBy.error);
    }
    var w := AndOrNothing(andConditions);
    var users := db.users;
    forall q: Profile
      ensures Holds(w, JoinedRow(q, users)) == AthleteWanted(JoinedRow(q, users), f)
    {
      AndOrNothingMeaning(andConditions, JoinedRow(q, users));
    }
    SelectSame(db.athletes, (q: Profile) => Holds(w, JoinedRow(q, users)),
               (q: Profile) => AthleteWanted(JoinedRow(q, users), f));
    var result := AdmittedAthletes(db.athletes, users, w);
    return Ok((PageMeta(p, |result|), Window(result, p)));
  }

  // ---------------------------------------------------------------------------
  // Coach requests

  const AthleteNotFound: Error := PlainError("Athlete not found")
  const CoachNotFound: Error := PlainError("Coach not found")
  const PendingExists: Error := PlainError("A pending request already exists")
  const CoachRequestNotFound: Error := PlainError("Coach Request not found")
  const DuplicateCoachRequest: Error := UniqueViolation("athleteId_coachId")
  const DuplicateMembership: Error := UniqueViolation("athleteId_gymId")

  /**
   * `sendCoachRequest`, where `athleteUserId` is the user id of the athlete
   * sending and `coachId` the coach row's id.
   */
  method SendCoachRequest(db: Db, athleteUserId: Id, coachId: Id) returns (r: Result<CoachRequest>)
    requires db.Valid()
    modifies db`coachRequests, db`nextId
    ensures db.Valid()
    ensures r.Fail? ==> db.coachRequests == old(db.coachRequests)
    // the athlete is checked first, then the coach, then an earlier request for the pair
    ensures ProfileOfUser(old(db.athletes), athleteUserId).None? ==> r == Fail(AthleteNotFound)
    ensures ProfileOfUser(old(db.athletes), athleteUserId).Some? && ProfileById(old(db.coaches), coachId).None? ==>
              r == Fail(CoachNotFound)
    ensures ProfileOfUser(old(db.athletes), athleteUserId).Some? && ProfileById(old(db.coaches), coachId).Some? ==>
              var a := old(db.athletes)[ProfileOfUser(old(db.athletes), athleteUserId).value].id;
              match CoachRequestFor(old(db.coachRequests), a, coachId)
              case Some(i) =>
                r == Fail(if old(db.coachRequests)[i].status == Pending then PendingExists else DuplicateCoachRequest)
              case None =>
                var q := CoachRequest(old(db.nextId), a, coachId, Pending);
                r == Ok(q) && db.coachRequests == old(db.coachRequests) + [q]
  {
    var athlete := ProfileOfUser(db.athletes, athleteUserId);
    var coach := ProfileById(db.coaches, coachId);
    if athlete.None? {
      return Fail(AthleteNotFound);
    }
    if coach.None? {
      return Fail(CoachNotFound);
    }
    var a := db.athletes[athlete.value].id;
    var c := db.coaches[coach.value].id;
    var existingRequest := CoachRequestFor(db.coachRequests, a, c);
    if existingRequest.Some? && db.coachRequests[existingRequest.value].status == Pending {
      return Fail(PendingExists);
    }
    if existingRequest.Some? {
      return Fail(DuplicateCoachRequest);
    }
    var id := db.FreshId();
    var result := CoachRequest(id, a, c, Pending);
    db.InsertCoachRequest(result);
    return Ok(result);
  }

  /** The requests of one pair: the compound key allows at most one. */
  function PairCount(rs: seq<CoachRequest>, athleteId: Id, coachId: Id): nat
  {
    Count(rs, (q: CoachRequest) => q.athleteId == athleteId && q.coachId == coachId)
  }

  /** In a valid store a pair never has two requests, so never two PENDING ones. */
  lemma {:induction false} AtMostOneRequestPerPair(rs: seq<CoachRequest>, athleteId: Id, coachId: Id)
    requires CoachRequestsUnique(rs)
    ensures PairCount(rs, athleteId, coachId) <= 1
  {
    if rs != [] {
      AtMostOneRequestPerPair(rs[1..], athleteId, coachId);
      if rs[0].athleteId == athleteId && rs[0].coachId == coachId {
        CountZero(rs[1..], (q: CoachRequest) => q.athleteId == athleteId && q.coachId == coachId);
        forall j | 0 <= j < |rs[1..]|
          ensures !(rs[1..][j].athleteId == athleteId && rs[1..][j].coachId == coachId)
        {
          assert rs[1..][j] == rs[j + 1];
        }
      }
    }
  }

  /**
   * `removeCoach`, where `athleteId` is the athlete row's id. The request is
   * deleted whichever athlete it belongs to: only the two rows' existence is
   * checked.
   */
  method RemoveCoach(db: Db, athleteId: Id, coachRequestId: Id) returns (r: Result<CoachRequest>)
    requires db.Valid()
    modifies db`coachRequests
    ensures db.Valid()
    ensures r.Fail? ==> db.coachRequests == old(db.coachRequests)
    ensures ProfileById(old(db.athletes), athleteId).None? ==> r == Fail(AthleteNotFound)
    ensures ProfileById(old(db.athletes), athleteId).Some? && CoachRequestById(old(db.coachRequests), coachRequestId).None? ==>
              r == Fail(CoachRequestNotFound)
    ensures ProfileById(old(db.athletes), athleteId).Some? && CoachRequestById(old(db.coachRequests), coachRequestId).Some? ==>
              var i := CoachRequestById(old(db.coachRequests), coachRequestId).value;
              r == Ok(old(db.coachRequests)[i]) && db.coachRequests == RemoveAt(old(db.coachRequests), i)
  {
    var athlete := ProfileById(db.athletes, athleteId);
    var coachRequest := CoachRequestById(db.coachRequests, coachRequestId);
    if athlete.None? {
      return Fail(AthleteNotFound);
    }
    if coachRequest.None? {
      return Fail(CoachRequestNotFound);
    }
    var result := db.coachRequests[coachRequest.value];
    db.RemoveCoachRequest(coachRequest.value);
    return Ok(result);
  }

  // ---------------------------------------------------------------------------
  // Gym memberships

  /**
   * `sendGymJoinRequest`, where `athleteUserId` is the user id of the athlete
   * and `gymId` the gym row's id; the gym itself is not looked up.
   */
  method SendGymJoinRequest(db: Db, athleteUserId: Id, gymId: Id) returns (r: Result<GymMembership>)
    requires db.Valid()
    modifies db`gymMemberships, db`nextId
    ensures db.Valid()
    ensures r.Fail? ==> db.gymMemberships == old(db.gymMemberships)
    ensures ProfileOfUser(old(db.athletes), athleteUserId).None? ==> r == Fail(AthleteNotFound)
    ensures ProfileOfUser(old(db.athletes), athleteUserId).Some? ==>
              var a := old(db.athletes)[ProfileOfUser(old(db.athletes), athleteUserId).value].id;
              match MembershipFor(old(db.gymMemberships), a, gymId)
              case Some(i) =>
                r == Fail(if old(db.gymMemberships)[i].status == Pending then PendingExists else DuplicateMembership)
              case None =>
                var m := GymMembership(old(db.nextId), a, gymId, Pending);
                r == Ok(m) && db.gymMemberships == old(db.gymMemberships) + [m]
  {
    var athlete := ProfileOfUser(db.athletes, athleteUserId);
    if athlete.None? {
      return Fail(AthleteNotFound);
    }
    var a := db.athletes[athlete.value].id;
    var existingRequest := MembershipFor(db.gymMemberships, a, gymId);
    if existingRequest.Some? && db.gymMemberships[existingRequest.value].status == Pending {
      return Fail(PendingExists);
    }
    if existingRequest.Some? {
      return Fail(DuplicateMembership);
    }
    var id := db.FreshId();
    var result := GymMembership(id, a, gymId, Pending);
    db.InsertMembership(result);
    return Ok(result);
  }

  // ---------------------------------------------------------------------------
  // Listing an athlete's accepted coaches and gyms

  /** The `{ athleteId, status: ACCEPTED }` filter on coach requests. */
  predicate AcceptedCoach(q: CoachRequest, athleteId: Id)
  {
    q.athleteId == athleteId && q.status == Accepted
  }

  predicate AcceptedGym(m: GymMembership, athleteId: Id)
  {
    m.athleteId == athleteId && m.status == Accepted
  }

  function AssignedCoaches(rs: seq<CoachRequest>, athleteId: Id): seq<CoachRequest>
  {
    Select(rs, (q: CoachRequest) => AcceptedCoach(q, athleteId))
  }

  function JoinedMemberships(ms: seq<GymMembership>, athleteId: Id): seq<GymMembership>
  {
    Select(ms, (m: GymMembership) => AcceptedGym(m, athleteId))
  }

  /** `fetchAssignedCoaches`, where `athleteId` is the athlete row's id. */
  method FetchAssignedCoaches(db: Db, options: Options, athleteId: Id) returns (r: Result<(Meta, seq<CoachRequest>)>)
    ensures ProfileById(db.athletes, athleteId).None? <==> r == Fail(AthleteNotFound)
    ensures r.Ok? ==>
              var p := Calculate(options);
              var all := AssignedCoaches(db.coachRequests, athleteId);
              && r.value == (PageMeta(p, |all|), Window(all, p))
              // only that athlete's accepted requests are listed
              && (forall q :: q in r.value.1 ==> q in db.coachRequests && AcceptedCoach(q, athleteId))
  {
    var p := Calculate(options);
    var athlete := ProfileById(db.athletes, athleteId);
    if athlete.None? {
      return Fail(AthleteNotFound);
    }
    var result := AssignedCoaches(db.coachRequests, athleteId);
    WindowWithin(result, p);
    return Ok((PageMeta(p, |result|), Window(result, p)));
  }

  /** A joined gym as listed: the membership's id and the gym's country and location. */
  datatype JoinedGym = JoinedGym(id: Id, country: Value, location: Value)

  /** The gym columns shown for a membership; a gym row that is missing shows as undefined. */
  function GymSummary(m: GymMembership, gyms: seq<Profile>): (g: JoinedGym)
    ensures g.id == m.id
  {
    match ProfileById(gyms, m.gymId)
    case None => JoinedGym(m.id, Undefined, Undefined)
    case Some(i) => JoinedGym(m.id, Get(gyms[i].columns, "country"), Get(gyms[i].columns, "location"))
  }

  /** `fetchJoinedGyms`, where `athleteId` is the athlete row's id. */
  method FetchJoinedGyms(db: Db, athleteId: Id, options: Options) returns (r: Result<(Meta, seq<JoinedGym>)>)
    ensures ProfileById(db.athletes, athleteId).None? <==> r == Fail(AthleteNotFound)
    ensures r.Ok? ==>
              var p := Calculate(options);
              var all := JoinedMemberships(db.gymMemberships, athleteId);
              var page := Window(all, p);
              && r.value.0 == PageMeta(p, |all|)
              && |r.value.1| == |page|
              && (forall i :: 0 <= i < |page| ==> r.value.1[i] == GymSummary(page[i], db.gyms))
              // only that athlete's accepted memberships are listed
              && (forall m :: m in page ==> m in db.gymMemberships && AcceptedGym(m, athleteId))
  {
    var p := Calculate(options);
    var athlete := ProfileById(db.athletes, athleteId);
    if athlete.None? {
      return Fail(AthleteNotFound);
    }
    var result := JoinedMemberships(db.gymMemberships, athleteId);
    var page := Window(result, p);
    WindowWithin(result, p);
    var gyms := db.gyms;
    var shown := seq(|page|, i requires 0 <= i < |page| => GymSummary(page[i], gyms));
    return Ok((PageMeta(p, |result|), shown));
  }

  /** A page holds only rows of the listing it is cut from. */
  lemma WindowWithin<T>(rows: seq<T>, p: Pagination)
    requires p.skip >= 0 && p.limit >= 1
    ensures forall x :: x in Window(rows, p) ==> x in rows
  {
  }
}
