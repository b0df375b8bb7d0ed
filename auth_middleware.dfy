/** The `auth(...roles)` request guard (src/app/middlewares/auth.ts). */
module AuthMiddleware {
  import opened Common
  import opened Tables
  import opened Database

  /** The claims the token library returns for a token it accepts. */
  datatype Claims = Claims(id: Id, email: Option<string>, role: Option<string>)

  /** `next()` lets the request through; `next(err)` hands it to the error handler. */
  datatype Outcome = Next | NextError(error: Error)

  /** What the guard does: how it calls `next`, and what it assigns to `req.user`, if anything. */
  datatype Decision = Decision(outcome: Outcome, reqUser: Option<Claims>)

  const BearerPrefix: string := "Bearer "
  const NotAuthorized: Error := ApiError(Unauthorized, "You are not authorized!")
  const UnknownUser: Error := ApiError(NotFound, "User not found!")
  const WrongRole: Error := ApiError(Forbidden, "Forbidden! You are not authorized!")

  /** `s.split(sep)`: the fields between separators, empty ones included. */
  function Split(s: string, sep: char): (r: seq<string>)
    ensures |r| >= 1
    ensures forall i :: 0 <= i < |r| ==> sep !in r[i]
    ensures (sep in s) <==> |r| >= 2
    decreases |s|
  {
    match FirstIndex(s, (c: char) => c == sep)
    case None => [s]
    case Some(i) => [s[..i]] + Split(s[i + 1..], sep)
  }

  /** `parts.join(sep)`. */
  function Join(parts: seq<string>, sep: char): string
  {
    if |parts| <= 1 then (if parts == [] then "" else parts[0])
    else parts[0] + [sep] + Join(parts[1..], sep)
  }

  /** Splitting loses nothing: joining the fields back gives the original string. */
  lemma {:induction false} JoinSplit(s: string, sep: char)
    ensures Join(Split(s, sep), sep) == s
    decreases |s|
  {
    match FirstIndex(s, (c: char) => c == sep)
    case None =>
    case Some(i) =>
      JoinSplit(s[i + 1..], sep);
      assert s == s[..i] + [sep] + s[i + 1..];
  }

  predicate HasBearer(header: Option<string>)
  {
    header.Some? && BearerPrefix <= header.value
  }

  /**
   * `authHeader.split(' ')[1]`: the characters after the first space up to the
   * next space or the end of the header.
   */
  function BearerToken(header: string): (token: string)
    requires BearerPrefix <= header
    ensures ' ' !in token
    ensures |BearerPrefix| + |token| <= |header|
    ensures header[|BearerPrefix|..|BearerPrefix| + |token|] == token
    ensures |BearerPrefix| + |token| == |header| || header[|BearerPrefix| + |token|] == ' '
  {
    var fields := Split(header, ' ');
    assert header[6] == ' ';
    FirstWord(header[|BearerPrefix|..]);
    assert FirstIndex(header, (c: char) => c == ' ') == Some(6) by {
      assert forall j :: 0 <= j < 6 ==> header[j] == BearerPrefix[j];
    }
    assert header[7..] == header[6 + 1..];
    fields[1]
  }

  /** The first field of a split is the longest space-free prefix. */
  lemma FirstWord(s: string)
    ensures var w := Split(s, ' ')[0];
            |w| <= |s| && s[..|w|] == w && (|w| == |s| || s[|w|] == ' ')
  {
  }

  /** `!roles.length || roles.includes(role)`. */
  predicate RoleAllowed(roles: seq<string>, role: Option<string>)
  {
    roles == [] || (role.Some? && role.value in roles)
  }

  /** What the token library makes of the header's token. */
  function Verified(header: Option<string>, verify: string -> Option<Claims>): Option<Claims>
    requires HasBearer(header)
  {
    verify(BearerToken(header.value))
  }

  /** The token in the header was accepted, names an email, and names a user that exists. */
  predicate Identified(header: Option<string>, verify: string -> Option<Claims>, users: seq<User>)
  {
    && HasBearer(header)
    && Verified(header, verify).Some?
    && Present(Verified(header, verify).value.email)
    && UserById(users, Verified(header, verify).value.id).Some?
  }

  /** The guard's decision, with its checks in the order the source makes them. */
  function Decide(roles: seq<string>, header: Option<string>, verify: string -> Option<Claims>, users: seq<User>): (d: Decision)
    // the request goes through exactly when every check passes
    ensures d.outcome == Next <==>
              Identified(header, verify, users) && RoleAllowed(roles, Verified(header, verify).value.role)
    // `req.user` is assigned exactly when the caller is identified, even if the role gate then refuses
    ensures d.reqUser.Some? <==> Identified(header, verify, users)
    ensures d.reqUser.Some? ==> d.reqUser == Verified(header, verify)
    // the first failing check decides the error
    ensures !HasBearer(header) ==> d.outcome == NextError(NotAuthorized)
    ensures (HasBearer(header) && Verified(header, verify).None?) ==> d.outcome == NextError(TokenError)
    ensures (HasBearer(header) && Verified(header, verify).Some? && !Present(Verified(header, verify).value.email))
            ==> d.outcome == NextError(NotAuthorized)
    ensures (HasBearer(header) && Verified(header, verify).Some? && Present(Verified(header, verify).value.email)
             && UserById(users, Verified(header, verify).value.id).None?)
            ==> d.outcome == NextError(UnknownUser)
    ensures (Identified(header, verify, users) && !RoleAllowed(roles, Verified(header, verify).value.role))
            ==> d.outcome == NextError(WrongRole)
  {
    if !HasBearer(header) then Decision(NextError(NotAuthorized), None)
    else
      match Verified(header, verify)
      case None => Decision(NextError(TokenError), None)
      case Some(claims) =>
        if !Present(claims.email) then Decision(NextError(NotAuthorized), None)
        else if UserById(users, claims.id).None? then Decision(NextError(UnknownUser), None)
        else if !RoleAllowed(roles, claims.role) then Decision(NextError(WrongRole), Some(claims))
        else Decision(Next, Some(claims))
  }

  /** An empty role list admits every identified caller, whatever its role. */
  lemma EmptyRolesAdmitAnyRole(header: Option<string>, verify: string -> Option<Claims>, users: seq<User>)
    requires Identified(header, verify, users)
    ensures Decide([], header, verify, users).outcome == Next
  {
  }

  /** An Express request, as far as the guard touches it. */
  class Request {
    var authorization: Option<string>
    var user: Option<Claims>

    constructor (authorization: Option<string>)
      ensures this.authorization == authorization && user == None
    {
      this.authorization := authorization;
      user := None;
    }
  }

  /** `auth(...roles)(req, res, next)`: returns how `next` is called. */
  method Authenticate(roles: seq<string>, req: Request, verify: string -> Option<Claims>, db: Db) returns (outcome: Outcome)
    modifies req`user
    ensures outcome == Decide(roles, req.authorization, verify, db.users).outcome
    ensures req.user == if Identified(req.authorization, verify, db.users)
                        then Verified(req.authorization, verify)
                        else old(req.user)
  {
    var header := req.authorization;
    if header.None? || !(BearerPrefix <= header.value) {
      return NextError(NotAuthorized);
    }
    var token := BearerToken(header.value);
    var verified := verify(token);
    if verified.None? {
      return NextError(TokenError);
    }
    var claims := verified.value;
    if !Present(claims.email) {
      return NextError(NotAuthorized);
    }
    var user := UserById(db.users, claims.id);
    if user.None? {
      return NextError(UnknownUser);
    }
    req.user := Some(claims);
    if roles != [] && !(claims.role.Some? && claims.role.value in roles) {
      return NextError(WrongRole);
    }
    return Next;
  }
}
