# restaurant-backend: a verified model of the account, profile and athlete services

This project models the rule-based core of the `restaurant-backend` service. That service is an Express and Prisma backend for a martial-arts community: athletes, coaches, gyms and promoters.

The database is a class `Database.Db`. It keeps the user, OTP, role-profile, coach-request and gym-membership tables as sequences of rows. It also holds one id counter that stands for the store's id generator. The unique keys the services rely on are an invariant of the class:
- user email,
- the coach-request pair (athlete, coach),
- the membership pair (athlete, gym).

The services that change the store are methods on it. They state the new state and keep that invariant. The parts that only compute are functions:
- pagination,
- where-object builders,
- role data,
- the middleware's decision.

Each where-object a service builds is given a meaning by `Query.Holds`, a model of how the store evaluates `where` clauses. The builders are then proved to admit exactly the rows the service means to return.

Modules, one per source file of the core, plus three shared ones:

- `Common`: the JSON-like values of payloads and rows, JavaScript truthiness, the services' errors, and ASCII case folding.
- `Tables`: generic row lookups (`findFirst`), filters (`findMany`), counts and deletes on sequences.
- `Query`: the where-object syntax the services build (`equals`, `not`, `contains` with a mode, `gte`/`lte`, `OR`, `AND`) and its meaning on a row.
- `Pagination`: `calculatePagination`, the page metadata, and the `skip`/`take` window.
- `SearchFilter`: `buildSearchFilter`.
- `Database`: the row types, lookups by key, and the `Db` class with its writes.
- `AuthMiddleware`: the `auth(...roles)` guard.
- `UserService`: registration, OTP verification and resending, password reset and change, user lookup and listing.
- `AuthService`: login and logout.
- `ProfileService`: reading, editing and deleting one's own profile.
- `AthleteService`: the athlete listing, coach requests, gym memberships and the accepted-coach and joined-gym listings.

Foreign calls are parameters:
- bcrypt's comparison is `compare: (string, string) -> bool`, and its hash is a `passwordHash` argument;
- the OTP generator's output is the `otp` and `otpExpiry` arguments;
- the clock is `now: int`;
- the JWT verifier is `verify: string -> Option<Claims>`.

Signing a token is not modelled: the services return the claims they would sign.

## Model

| member | source | states |
|---|---|---|
| Pagination.Calculate | src/app/utils/calculatePagination.ts:8-17 | page and limit are the given values when present and positive, else 1 and 10, so both are at least 1; skip is (page-1)*limit and never negative; sortBy passes through unchanged, absent included; sortOrder is desc exactly when the input is "desc" |
| Pagination.CalculateIdempotent | src/app/utils/calculatePagination.ts:8-17 | feeding a normalised result back in as options gives the same page, limit, skip, sortBy and sortOrder |
| Pagination.SkipIsPageBoundary | src/app/utils/calculatePagination.ts:11 | skip is a multiple of limit, and skip/limit is page-1 |
| Pagination.RowOnItsPage | src/app/utils/calculatePagination.ts:9-11 | the row at index i appears on page i/limit+1, at position i%limit of that page's window |
| Pagination.TotalPages | src/app/modules/user/user.service.ts:303 | `Math.ceil(total/limit)`: the smallest page count whose pages cover all the rows |
| Pagination.PageMeta | src/app/modules/athlete/athlete.service.ts:296-301 | the meta echoes page, limit and total; it reports zero pages exactly when there are no rows; otherwise the page count covers all rows and its last page is non-empty |
| Pagination.Window | src/app/modules/user/user.service.ts:288-289 | `skip`/`take`: at most limit rows, the rows from index skip onwards in order, and empty when skip is past the end |
| Pagination.NonEmptyPagesAreCounted | src/app/modules/user/user.service.ts:276-304 | a page of the listing has rows exactly when its number is at most the reported total_pages |
| Query.EverythingHolds | src/app/utils/searchFilter.ts:4-6 | the empty where-object `{}` admits every row |
| Query.AndOrNothing | src/app/modules/athlete/athlete.service.ts:276 | `{ AND: conds.length > 0 ? conds : undefined }`: no condition gives the empty filter, otherwise one AND over the list |
| Query.AndOrNothingMeaning | src/app/modules/athlete/athlete.service.ts:276 | in both cases a row passes exactly when it meets every condition of the list |
| Query.HoldsAllPush | src/app/modules/athlete/athlete.service.ts:131-184 | pushing a condition onto the list conjoins it with the earlier ones |
| SearchFilter.BuildSearchFilter | src/app/utils/searchFilter.ts:3-24 | a falsy term gives `{}`, and only a falsy term does; otherwise an OR of exactly two clauses, first on title and then on description, each an insensitive `contains` of the unchanged term |
| SearchFilter.SearchFilterMeaning | src/app/utils/searchFilter.ts:8-23 | a row passes exactly when there is no term, or when the term occurs, ignoring case, in its title or its description |
| Database.KindOf | src/app/modules/user/user.service.ts:63 | `tx[role.toLowerCase()]`: ATHLETE, COACH, GYM and PROMOTER name their own profile table, and no other role names one |
| Database.ProfileIdOf | src/app/modules/auth/auth.service.ts:93-95 | `userData.athlete?.id` and its like: an id is given exactly when the user owns a row of the table, and it is that row's id |
| AuthMiddleware.Split | src/app/middlewares/auth.ts:22 | `split(' ')`: at least one field, no field holds the separator, and there are several fields exactly when the separator occurs |
| AuthMiddleware.JoinSplit | src/app/middlewares/auth.ts:22 | splitting loses nothing: joining the fields gives back the header |
| AuthMiddleware.BearerToken | src/app/middlewares/auth.ts:18-22 | for a header starting with "Bearer ", the token is the text after the prefix up to the next space or the end |
| AuthMiddleware.FirstWord | src/app/middlewares/auth.ts:22 | the first split field is the longest space-free prefix |
| AuthMiddleware.Decide | src/app/middlewares/auth.ts:15-54 | the request goes on exactly when the bearer header is there, the token verifies, it carries an email, its id names a user, and the role list is empty or holds its role; the first failing check decides the error (UNAUTHORIZED, the verifier's error, UNAUTHORIZED, NOT_FOUND, FORBIDDEN); `req.user` is set exactly when the caller is identified, even if then forbidden |
| AuthMiddleware.EmptyRolesAdmitAnyRole | src/app/middlewares/auth.ts:45 | an empty role list lets every identified caller through |
| AuthMiddleware.Authenticate | src/app/middlewares/auth.ts:10-55 | the way `next` is called is the decision's outcome; `req.user` becomes the verified claims exactly when the caller is identified, and is left alone otherwise |
| UserService.FightingStatus | src/app/modules/user/user.service.ts:97-99 | PRO exactly when the payload's `fighting` is truthy, AMATEUR otherwise |
| UserService.GetRoleData | src/app/modules/user/user.service.ts:92-145 | role data exists exactly for ATHLETE, COACH, GYM and PROMOTER; any other role gives null |
| UserService.RoleDataCopiesPayload | src/app/modules/user/user.service.ts:94-141 | the role's columns are copied from the payload, and nothing but them, `userId` and `fighting` appears |
| UserService.RoleDataLinksUser | src/app/modules/user/user.service.ts:95-141 | every role but PROMOTER links the row to the new user's id; the promoter's data has no `userId` |
| UserService.RoleDataFighting | src/app/modules/user/user.service.ts:94-99 | an athlete's row says PRO exactly when `fighting` is truthy and AMATEUR exactly when it is not |
| UserService.ProfileColumns | src/app/modules/user/user.service.ts:57-62 | the columns written to the profile table: present exactly for the four profile roles, and then the role data with `userId` set to the new user, which adds it for a promoter and changes nothing for the others |
| UserService.ProfileBelongsToNewUser | src/app/modules/user/user.service.ts:57-65 | whatever the role, the profile row registration writes belongs to the new user |
| UserService.CreateRoleProfile | src/app/modules/user/user.service.ts:57-66 | exactly one row is added, to the role's own table, for a profile role; no table changes for any other role |
| UserService.CreateRegistration | src/app/modules/user/user.service.ts:42-80 | the user row is created unverified, then its profile row, then one OTP row for the email with the generated code and expiry |
| UserService.RegisterUserIntoDB | src/app/modules/user/user.service.ts:23-90 | a taken email fails with CONFLICT before any write; otherwise the answer is the new user's id, email, name, uploaded image and role, unverified; the users table gains exactly that row, the role table gains its profile row, and the email gains exactly one OTP row |
| UserService.VerifyOtp | src/app/modules/user/user.service.ts:190-240 | an unknown email fails; a missing or mismatching code fails as "Invalid OTP" before the expiry is looked at; the code is expired only when its expiry is strictly before now; success deletes exactly the matched OTP row and sets isVerified and isOnline, and any failure changes nothing |
| UserService.UpsertOtp | src/app/modules/user/user.service.ts:335-357 | an existing first row for the email is updated in place, else one row is created; the email's row count goes from 0 to 1 or stays the same, and its first row carries the new code and expiry |
| UserService.FirstIndexAfterUpdate | src/app/modules/user/user.service.ts:339-348 | rewriting the email's first OTP row keeps it the first row for that email |
| UserService.ForgotPassword | src/app/modules/user/user.service.ts:331-358 | the upsert, with no check that the email belongs to a user: the email's first OTP row gets the new code and expiry in place, or one row is appended when it has none; every other row is unchanged, and the email never gets a second row |
| UserService.ResendOtpRest | src/app/modules/user/user.service.ts:360-389 | the same upsert (first row refreshed in place, or one row appended, nothing else touched), answering with the new expiry |
| UserService.ResendOtpRegAsWritten | src/app/modules/user/user.service.ts:147-188 | an unknown email fails; otherwise the OTP row is looked up by the user's id, so a miss appends a new row even when the email already has one |
| UserService.ResendOtpRegDuplicates | src/app/modules/user/user.service.ts:161-174 | after one registration, a resend as written leaves the email with two OTP rows where it had one |
| UserService.ResendOtpReg | src/app/modules/user/user.service.ts:147-188 | the corrected resend: an unknown email fails; otherwise the email never gets a second row, and its first row carries the new code |
| UserService.VerifyResetOtp | src/app/modules/user/user.service.ts:391-436 | an unknown email fails; only the email's first OTP row is checked, a mismatch before the expiry; success deletes that row and yields claims with the user's id, email and isVerified |
| UserService.ResetPassword | src/app/modules/user/user.service.ts:438-479 | a missing token, a token the verifier rejects, a token without email and an unknown email fail in that order and change nothing; otherwise only that user's password hash changes |
| UserService.ChangePassword | src/app/modules/user/user.service.ts:481-519 | the checks run in order (both passwords present, user exists, old password correct, new password differs), and the hash is replaced exactly when all four pass; any failure changes nothing |
| UserService.GetUserById | src/app/modules/user/user.service.ts:312-329 | an unknown id fails NOT_FOUND, and only then; otherwise the summary is that user's id, name, email, phone and image |
| UserService.BuildUserWhere | src/app/modules/user/user.service.ts:255-274 | the where-object has OR exactly for a search term, name exactly for a username, email exactly for an email filter, and no other key; it admits exactly the users every given filter matches, ignoring case |
| UserService.LikeMeaning | src/app/modules/user/user.service.ts:265-269 | an insensitive `contains` clause on a column matches exactly the rows whose column contains the text, ignoring case |
| UserService.SearchAlternativesMeaning | src/app/modules/user/user.service.ts:257-262 | the search OR matches exactly the users whose name or email contains the term |
| UserService.UserWhereMeaning | src/app/modules/user/user.service.ts:255-274 | any where-object of the listing's shape admits exactly the wanted users |
| UserService.GetAllUsers | src/app/modules/user/user.service.ts:242-310 | the meta counts the wanted users, and the page is the requested window of them in table order |
| AuthService.LoggedIn | src/app/modules/auth/auth.service.ts:57-77 | after login the user is online; the device token is replaced only when one is supplied; no other column changes |
| AuthService.Login | src/app/modules/auth/auth.service.ts:10-100 | an unknown email fails and changes nothing; an unverified user gets one new OTP row and a TEMPORARY_REDIRECT, and the password is never checked; a wrong password fails and changes nothing; success leaves the user online with the new device token if one is given; the token carries isOnline as read before the update; the answer carries the athlete, coach and gym ids |
| AuthService.LoggedOut | src/app/modules/auth/auth.service.ts:117-125 | after logout the user is offline with no device token, and nothing else changes |
| AuthService.Logout | src/app/modules/auth/auth.service.ts:102-127 | an unknown id fails; an offline user fails as already logged out; otherwise only that user's row becomes logged out; failures change nothing |
| AuthService.LogoutTwice | src/app/modules/auth/auth.service.ts:109-115 | of two logouts in a row the second always fails, and after a successful first it fails as "already logged out" |
| AuthService.LogoutLeavesOffline | src/app/modules/auth/auth.service.ts:117-125 | after a logout, the id still names the same row, and that user is offline |
| ProfileService.ProfileRowOf | src/app/modules/profile/profile.service.ts:16-18 | a user's included profile is present exactly when the user owns a row of the table, and it is such a row |
| ProfileService.GetMyProfile | src/app/modules/profile/profile.service.ts:6-27 | an unknown id fails NOT_FOUND, and only then; otherwise the answer is the user's name, image and coordinates with its athlete, coach and promoter rows, and no gym |
| ProfileService.ImageChoice | src/app/modules/profile/profile.service.ts:44 | `??`: an uploaded file's location, even an empty one, replaces the image; otherwise the existing image is kept |
| ProfileService.RoleData | src/app/modules/profile/profile.service.ts:49-73 | `{about}` for ATHLETE, `{bio}` for COACH, `{description}` for GYM, `{location}` for PROMOTER, `{}` for any other role |
| ProfileService.Patch | src/app/modules/profile/profile.service.ts:79-84 | a column given as undefined keeps its value; any other value replaces it |
| ProfileService.ApplyData | src/app/modules/profile/profile.service.ts:89-107 | `update`: every defined column of the data is written, every other column is kept, and no column appears from nowhere |
| ProfileService.ApplyNothing | src/app/modules/profile/profile.service.ts:89-107 | data without a defined column leaves the row as it was |
| ProfileService.RequestedEmail | src/app/modules/profile/profile.service.ts:83 | an undefined email keeps the current one; a string is taken as it is; anything else is refused |
| ProfileService.EditedUser | src/app/modules/profile/profile.service.ts:77-86 | the user row after the update: name and coordinates patched from the payload, the requested email, the chosen image, and every other column unchanged |
| ProfileService.UpdateTarget | src/app/modules/profile/profile.service.ts:88-108 | the row the update writes is the user's row in the first table, in the order athlete, coach, gym, promoter, where the user has one; none when the user has no profile |
| ProfileService.EditedTable | src/app/modules/profile/profile.service.ts:88-108 | only the target row of the target table changes, and it gets the role data applied |
| ProfileService.WriteProfileEdit | src/app/modules/profile/profile.service.ts:76-111 | the transaction writes the user row and at most one profile row, the target's, and nothing else |
| ProfileService.UpdateUserProfile | src/app/modules/profile/profile.service.ts:29-130 | an unknown id fails with a plain "User not found"; an email held by another user is refused with nothing written; otherwise the user row is edited, at most the first profile row gets the role data, and the answer echoes the role data and the user's profile ids |
| ProfileService.EmailFreeForUpdate | src/app/modules/profile/profile.service.ts:77-86 | an email no other user holds can be written to the user's row without breaking the unique key |
| ProfileService.OnlyEditableColumnChanges | src/app/modules/profile/profile.service.ts:49-108 | on the profile row only the role's one column (about, bio, description or location) can change |
| ProfileService.DeleteUser | src/app/modules/profile/profile.service.ts:132-150 | an unknown id fails BAD_REQUEST and calls nothing; otherwise the image blob is deleted first, and only when there is an image, then the user row is removed |
| ProfileService.DeletedUserIsGone | src/app/modules/profile/profile.service.ts:144-148 | after the delete no user has the id |
| AthleteService.EqualsEach | src/app/modules/athlete/athlete.service.ts:150-152 | one `equals` condition per remaining filter, in order, on that filter's key and value |
| AthleteService.NotSelfMeaning | src/app/modules/athlete/athlete.service.ts:133-137 | the userId condition admits exactly the athletes of other users |
| AthleteService.NameOrAboutMeaning | src/app/modules/athlete/athlete.service.ts:139-146 | the search condition admits exactly the athletes whose user name or about contains the term, ignoring case |
| AthleteService.AllEqualMeaning | src/app/modules/athlete/athlete.service.ts:148-154 | the AND of equalities admits exactly the athletes equal on every remaining filter |
| AthleteService.RangeMeaning | src/app/modules/athlete/athlete.service.ts:157-184 | a range admits exactly the athletes within its defined bounds; an undefined bound stays open |
| AthleteService.AthleteConditions | src/app/modules/athlete/athlete.service.ts:131-184 | one conjunct per given filter (userId, a non-empty search, any remaining keys, and each age, height or weight range with a defined bound) and no more; together they admit exactly the wanted athletes |
| AthleteService.CheckSortBy | src/app/modules/athlete/athlete.service.ts:125 | sortBy defaults to id; a field on the 19-name whitelist passes, and any other fails with "Invalid sortBy field"; what passes is always whitelisted |
| AthleteService.GetAthletes | src/app/modules/athlete/athlete.service.ts:106-331 | an unlisted sort field fails before the query; otherwise the meta counts the wanted athletes and the page is the requested window of them |
| AthleteService.SendCoachRequest | src/app/modules/athlete/athlete.service.ts:333-392 | the athlete is checked first, then the coach, then a PENDING request for the pair; otherwise exactly one PENDING request for the pair is created; failures change nothing |
| AthleteService.AtMostOneRequestPerPair | src/app/modules/athlete/athlete.service.ts:358-377 | in a consistent store a pair has at most one request, so never two pending ones |
| AthleteService.RemoveCoach | src/app/modules/athlete/athlete.service.ts:394-423 | the athlete must exist, then the request; success removes exactly that request and answers with it; failures change nothing |
| AthleteService.SendGymJoinRequest | src/app/modules/athlete/athlete.service.ts:425-468 | a missing athlete fails, then a PENDING membership for the pair fails; otherwise exactly one PENDING membership is created; failures change nothing |
| AthleteService.FetchAssignedCoaches | src/app/modules/athlete/athlete.service.ts:501-572 | an unknown athlete fails; otherwise the listing holds only that athlete's ACCEPTED requests, paged, with their count in the meta |
| AthleteService.GymSummary | src/app/modules/athlete/athlete.service.ts:627-631 | a joined gym is shown by the membership's id, with the gym's country and location |
| AthleteService.FetchJoinedGyms | src/app/modules/athlete/athlete.service.ts:574-633 | an unknown athlete fails; otherwise the listing shows only that athlete's ACCEPTED memberships, paged, with their count in the meta |
| AthleteService.WindowWithin | src/app/modules/athlete/athlete.service.ts:550-551 | a page holds only rows of the listing it is cut from |

## Left out

- Geodesic distance: `calculateDistance` (src/app/modules/athlete/athlete.service.ts:32-66), the distance block of `getAthletes` (186-244) and `getNearByUsers` (src/app/modules/user/user.service.ts:537-589). They work on floating-point coordinates through geolib. `updateLocation` (src/app/modules/user/user.service.ts:521-535) is a plain coordinate write and is not modelled either.
- `getAthlete` (src/app/modules/athlete/athlete.service.ts:68-104), and the rating fields of the `getAthletes` answer (287-329). Both call into the rating service, which is not part of this model.
- `cancelGymJoinRequest` (src/app/modules/athlete/athlete.service.ts:469-499) is not modelled. It deletes by a `userId` column that the membership rows do not carry in this model.
- AthleteService.GetAthletes, UserService.GetAllUsers, AthleteService.FetchAssignedCoaches, AthleteService.FetchJoinedGyms: rows are taken in table order, not ordered by `sortBy`/`sortOrder`. The sort order is normalised but not applied.
- UserService.GetAllUsers, AthleteService.FetchAssignedCoaches, AthleteService.FetchJoinedGyms: these put `sortBy` into `orderBy` unchecked (src/app/modules/user/user.service.ts:290-292, src/app/modules/athlete/athlete.service.ts:552-554 and 609-611). The store refuses a `sortBy` that is not a column, and the service then throws. The model answers with the page whatever `sortBy` is, because the column names come from the schema, which is not part of this model. Only `getAthletes` checks its field against a fixed list, and that check is modelled.
- UserService.GetAllUsers: the answer is the whole user rows. The source selects seven columns (src/app/modules/user/user.service.ts:279-287). Those exclude the password hash and include a `status` column that the model's user rows do not have.
- AthleteService.FetchAssignedCoaches: the answer is the coach-request rows without the coach columns and user name and image that the source includes (src/app/modules/athlete/athlete.service.ts:530-549).
- AthleteService.GetAthletes: the answer is the athlete rows. The mapping to a flat record with the user's name and image (src/app/modules/athlete/athlete.service.ts:304-329) is not modelled.
- Numbers are integers. NaN, fractions and the `parseInt`/`parseFloat` of the controllers are not modelled, so ranges compare integer columns only.
- Prisma transactions and concurrency: each service runs alone on the store, and a write the store refuses (a unique key) is refused before any change.
- Blob storage, uploads and `JSON.parse` of payloads. Payloads arrive parsed. The upload is its `location`. `deleteUser` returns the calls it would make instead of making them.
- The token library: signing is not modelled (the claims are returned), and verification is the `verify` parameter. bcrypt is the `compare` parameter and the `passwordHash` argument.
- The OTP generator: src/app/utils/otpGenerateReg.ts is not part of this model. Its output is the `otp` and `otpExpiry` arguments.
- The real-time chat: src/app/ws/websockettype.ts:1-21 declares only message types, with no behaviour.
- The Prisma schema is not part of this model. The following are assumed:
  - The defaults `isOnline = false` and `fcmToken = null`.
  - A unique `email` on users, a compound unique key on (athleteId, coachId) and (athleteId, gymId), and no foreign-key check on `gymId`. `sendGymJoinRequest` never looks the gym up.
  - That deleting a user does not cascade to its profile rows.
- AthleteService.SendCoachRequest, AthleteService.SendGymJoinRequest: an existing non-pending request for the pair passes the source's check. The compound unique key then refuses the `create`; the model fails with `UniqueViolation` instead of a database exception.
- ProfileService.UpdateUserProfile: an email that is neither a string nor undefined fails as a validation error, which stands for Prisma's own rejection. Role data is written as given, even where Prisma would reject an unknown column.
- AthleteService.GymSummary: a membership whose gym row is missing shows as undefined columns, where the source would throw on `gym.gym.country`.
- Common.ContainsInsensitive: case folding is ASCII only, where the store folds full Unicode.
- The controllers pass the caller's user id (`req.user.id`) to `removeCoach` and `fetchJoinedGyms` (src/app/modules/athlete/athlete.controller.ts:115, 181), but those services look up an athlete row id. `fetchAssignedCoaches` gets the route parameter `athleteId` (src/app/modules/athlete/athlete.controller.ts:152). The model takes the athlete row id, as the services do.
- AthleteService.AllEqualMeaning: an `equals` whose value is undefined admits only rows without that column. The store ignores `{ equals: undefined }` and admits every row.
- AuthMiddleware.Decide: the claims always carry an id. A token whose `id` is undefined makes `findUnique` throw (src/app/middlewares/auth.ts:34-41), and the model cannot express that case.

## Findings

| source | as written | input that shows it | evidently intended | confidence | as-written member | corrected member |
|---|---|---|---|---|---|---|
| src/app/modules/user/user.service.ts:161-184 | `resendOtpReg` looks the OTP row up with `where: { id: userData.id }`, an OTP row id equal to the user's id, and updates by that id | register a user with a role that has no profile table (user id 0, its OTP row id 1), then resend: no OTP row has id 0, so a second OTP row for the same email is created instead of updating the first | look the row up by the email, as `forgotPassword` and `resendOtpRest` do (src/app/modules/user/user.service.ts:335-357), so an email keeps at most one row | not executed | UserService.ResendOtpRegDuplicates | UserService.ResendOtpReg |
