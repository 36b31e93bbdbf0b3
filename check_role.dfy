/** The role check: the middleware `checkRole(requiredRole)` looks up the
    authenticated subject's stored user and answers 404, 403 or 500, or
    attaches the user to the request and continues. The lookup is a
    parameter. */
module CheckRole {
  import opened Wrappers
  import opened Js
  import opened UserModel

  /** The authentication data an earlier middleware attached to the request. */
  datatype AuthInfo = AuthInfo(sub: Value)

  /** The stored-user lookup by identity-provider id: a user, nothing, or a
      thrown error. */
  datatype Lookup = Found(user: User) | NotFound | LookupThrew(message: string)

  /** A JSON error body. */
  datatype ErrorBody = ErrorBody(status: string, message: string)

  /** Either an error response, or the user to attach before continuing. */
  datatype RoleDecision = Respond(code: nat, body: ErrorBody) | Proceed(user: User)

  const NotFoundBody: ErrorBody := ErrorBody("error", "User not found")
  const ForbiddenBody: ErrorBody := ErrorBody("error", "Access denied. Insufficient permissions.")
  const FailureBody: ErrorBody := ErrorBody("error", "Error checking user role")

  /** The decision for a request: a request without authentication data, or a
      lookup that throws, is a 500; no user is a 404; a user of another role
      is a 403; otherwise the found user proceeds. */
  function Decide(requiredRole: string, auth: Option<AuthInfo>, lookup: Value -> Lookup): (d: RoleDecision)
    ensures d.Proceed? ==> auth.Some? && lookup(auth.value.sub) == Found(d.user) && RoleName(d.user.role) == requiredRole
    ensures d.Respond? ==> d.code in {403, 404, 500}
  {
    if auth.None? then Respond(500, FailureBody)
    else
      match lookup(auth.value.sub)
      case LookupThrew(_) => Respond(500, FailureBody)
      case NotFound => Respond(404, NotFoundBody)
      case Found(user) =>
        if RoleName(user.role) != requiredRole then Respond(403, ForbiddenBody)
        else Proceed(user)
  }

  /** A request and its response, as far as the middleware touches them. */
  class Exchange {
    const auth: Option<AuthInfo>
    var user: Option<User>
    var statusCode: Option<nat>
    var body: Option<ErrorBody>
    var nextCalls: nat

    constructor (auth: Option<AuthInfo>)
      ensures this.auth == auth && user == None && statusCode == None && body == None && nextCalls == 0
    {
      this.auth := auth;
      user := None;
      statusCode := None;
      body := None;
      nextCalls := 0;
    }
  }

  /** The middleware returned by `checkRole(requiredRole)`: exactly one of
      "send a response" and "call the next handler" happens. */
  method Handle(ex: Exchange, requiredRole: string, lookup: Value -> Lookup)
    modifies ex
    ensures match Decide(requiredRole, ex.auth, lookup)
            case Respond(code, body) =>
              ex.statusCode == Some(code) && ex.body == Some(body)
              && ex.user == old(ex.user) && ex.nextCalls == old(ex.nextCalls)
            case Proceed(user) =>
              ex.user == Some(user) && ex.nextCalls == old(ex.nextCalls) + 1
              && ex.statusCode == old(ex.statusCode) && ex.body == old(ex.body)
  {
    if ex.auth.None? {
      ex.statusCode, ex.body := Some(500), Some(FailureBody);
      return;
    }
    var found := lookup(ex.auth.value.sub);
    if found.LookupThrew? {
      ex.statusCode, ex.body := Some(500), Some(FailureBody);
      return;
    }
    if found.NotFound? {
      ex.statusCode, ex.body := Some(404), Some(NotFoundBody);
      return;
    }
    if RoleName(found.user.role) != requiredRole {
      ex.statusCode, ex.body := Some(403), Some(ForbiddenBody);
      return;
    }
    ex.user := Some(found.user);
    ex.nextCalls := ex.nextCalls + 1;
  }

  /** No stored user gives 404 "User not found", never 403. */
  lemma MissingUserIsNotFound(requiredRole: string, auth: AuthInfo, lookup: Value -> Lookup)
    requires lookup(auth.sub) == NotFound
    ensures Decide(requiredRole, Some(auth), lookup) == Respond(404, NotFoundBody)
  {
  }

  /** A stored user of another role gives 403. */
  lemma OtherRoleIsForbidden(requiredRole: string, auth: AuthInfo, lookup: Value -> Lookup)
    requires lookup(auth.sub).Found? && RoleName(lookup(auth.sub).user.role) != requiredRole
    ensures Decide(requiredRole, Some(auth), lookup) == Respond(403, ForbiddenBody)
  {
  }

  /** A lookup that throws gives 500, whatever the role. */
  lemma LookupFailureIsServerError(requiredRole: string, auth: Option<AuthInfo>, lookup: Value -> Lookup)
    requires auth.None? || lookup(auth.value.sub).LookupThrew?
    ensures Decide(requiredRole, auth, lookup) == Respond(500, FailureBody)
  {
  }

  /** The request proceeds exactly when the subject's stored user has the
      required role, and then carries that user. */
  lemma ProceedsExactlyWithRequiredRole(requiredRole: string, auth: Option<AuthInfo>, lookup: Value -> Lookup)
    ensures Decide(requiredRole, auth, lookup).Proceed? <==>
      auth.Some? && lookup(auth.value.sub).Found? && RoleName(lookup(auth.value.sub).user.role) == requiredRole
  {
  }

  /** Stored roles are only `farmer` and `buyer`, so a check for any other
      role, such as `seller`, never lets a request through. */
  lemma UnknownRoleNeverProceeds(requiredRole: string, auth: Option<AuthInfo>, lookup: Value -> Lookup)
    requires requiredRole !in RoleNames
    ensures Decide(requiredRole, auth, lookup).Respond?
  {
    if auth.Some? && lookup(auth.value.sub).Found? {
      var r := lookup(auth.value.sub).user.role;
      assert RoleName(r) in RoleNames;
    }
  }

  /** src/services/userService.js exports no `getUserByAuth0Id` (its
      definition is commented out), so calling it throws a TypeError: every lookup throws. */
  const MissingLookup: Value -> Lookup := (sub: Value) => LookupThrew("userService.getUserByAuth0Id is not a function")

  /** With that service, every request through the role check gets a 500. */
  lemma MissingLookupAlwaysFails(requiredRole: string, auth: Option<AuthInfo>)
    ensures Decide(requiredRole, auth, MissingLookup) == Respond(500, FailureBody)
  {
  }

  /** The first stored user with the given identity-provider id, as
      `User.findOne({ auth0Id })` returns it. */
  function FindByAuth0Id(users: seq<User>, auth0Id: string): (r: Option<User>)
    ensures r.Some? ==> r.value in users && r.value.auth0Id == auth0Id
    ensures r.None? <==> forall u :: u in users ==> u.auth0Id != auth0Id
  {
    if users == [] then None
    else if users[0].auth0Id == auth0Id then Some(users[0])
    else FindByAuth0Id(users[1..], auth0Id)
  }

  const LookupErrorPrefix: string := "Error fetching user: "

  /** The commented-out `getUserByAuth0Id` over a store: a missing user is
      thrown as "User not found", wrapped as "Error fetching user: …"; a
      subject that is not a string finds no user. */
  function CommentedOutLookup(users: seq<User>, sub: Value): (r: Lookup)
    ensures r != NotFound
    ensures r.Found? ==> r.user in users && sub == Str(r.user.auth0Id)
    ensures (exists u :: u in users && sub == Str(u.auth0Id)) ==> r.Found?
    ensures r.LookupThrew? ==> r.message == LookupErrorPrefix + "User not found"
  {
    match (if sub.Str? then FindByAuth0Id(users, sub.s) else None)
    case Some(u) => Found(u)
    case None => LookupThrew(LookupErrorPrefix + "User not found")
  }

  /** Even with that lookup restored, a subject with no stored user gets a
      500 rather than the 404, which only a lookup returning nothing reaches. */
  lemma RestoredLookupMissingUserIsServerError(requiredRole: string, auth: AuthInfo, users: seq<User>)
    requires forall u :: u in users ==> auth.sub != Str(u.auth0Id)
    ensures Decide(requiredRole, Some(auth), sub => CommentedOutLookup(users, sub)) == Respond(500, FailureBody)
  {
    if auth.sub.Str? {
      assert forall u :: u in users ==> u.auth0Id != auth.sub.s;
    }
  }

  /** With that lookup restored, a 404 never happens. */
  lemma RestoredLookupNeverNotFound(requiredRole: string, auth: Option<AuthInfo>, users: seq<User>)
    ensures var d := Decide(requiredRole, auth, sub => CommentedOutLookup(users, sub));
      d.Respond? ==> d.code != 404
  {
  }
}
