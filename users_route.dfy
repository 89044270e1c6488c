/**
 * The user-administration API route (app/api/users/route.ts): who may list
 * users and change roles, and how profiles are merged with the e-mail
 * addresses of the authentication users. Session, database and environment
 * results are parameters.
 */
module UsersRoute {
  import opened Wrappers
  import opened Js
  import opened Text
  import opened Http
  import opened Seqs

  datatype Session = Session(userId: string, email: Option<string>)

  /** What `supabase.auth.getSession()` yields. */
  datatype AuthState = AuthError | NoSession | SignedIn(session: Session)

  /** The `select('role') … .single()` lookup of the signed-in user's profile. */
  datatype RoleLookup = RoleFound(role: JsVal) | NoProfile | LookupError(message: string)

  /** One entry of `auth.admin.listUsers()`. */
  datatype AuthUser = AuthUser(id: string, email: Option<string>)

  const Unauthorized := "Unauthorized"
  const Forbidden := "Forbidden"
  const AdminCheckError := "Error checking admin status"
  const MissingUserIdOrRole := "Missing userId or role"
  const UnknownEmail := "Unknown"

  /** `session.user.email?.includes('admin')` */
  predicate AdminByEmail(s: Session) {
    s.email.Some? && Contains(s.email.value, "admin")
  }

  /** `profile && profile.role === 'admin'` */
  predicate AdminByProfile(lookup: RoleLookup) {
    lookup.RoleFound? && StrictEquals(lookup.role, Str("admin"))
  }

  /** The session check shared by GET and PATCH. GET stops with 500 when the
      profile lookup fails (`strictLookup`); PATCH reads a failed lookup as
      no profile. The service client throws, giving 500, when it is not
      configured. */
  function AdminAccess(auth: AuthState, env: ServiceEnv, lookup: RoleLookup, strictLookup: bool): (r: Reply<()>)
    ensures r == Reject(401, Unauthorized) <==> !auth.SignedIn?
    ensures r.Accept? <==> auth.SignedIn? && (AdminByEmail(auth.session) || (env.Configured() && AdminByProfile(lookup)))
    ensures r == Reject(403, Forbidden) <==>
              auth.SignedIn? && !AdminByEmail(auth.session) && env.Configured()
              && !AdminByProfile(lookup) && !(strictLookup && lookup.LookupError?)
    ensures r == Reject(500, AdminCheckError) ==> strictLookup
    ensures auth.SignedIn? && !AdminByEmail(auth.session) && env.Configured() && strictLookup && lookup.LookupError? ==>
              r == Reject(500, AdminCheckError)
    ensures auth.SignedIn? && !AdminByEmail(auth.session) && !env.Configured() ==> r == Reject(500, InternalServerError)
  {
    match auth
    case AuthError => Reject(401, Unauthorized)
    case NoSession => Reject(401, Unauthorized)
    case SignedIn(s) =>
      if AdminByEmail(s) then Accept(())
      else if !env.Configured() then Reject(500, InternalServerError)
      else if strictLookup && lookup.LookupError? then Reject(500, AdminCheckError)
      else if AdminByProfile(lookup) then Accept(())
      else Reject(403, Forbidden)
  }

  /** Which authentication user a profile belongs to: the first whose id is
      the profile's `user_id`. */
  function FindUser(users: seq<AuthUser>, userId: JsVal): (r: Option<nat>)
    ensures r.Some? ==> r.value < |users| && StrictEquals(Str(users[r.value].id), userId)
    ensures r.Some? ==> forall j :: 0 <= j < r.value ==> !StrictEquals(Str(users[j].id), userId)
    ensures r.None? <==> forall j :: 0 <= j < |users| ==> !StrictEquals(Str(users[j].id), userId)
  {
    FindIndex(users, (u: AuthUser) => StrictEquals(Str(u.id), userId))
  }

  /** `authUsers?.users?.find(u => u.id === profile.user_id)?.email || 'Unknown'` */
  function EmailFor(users: Option<seq<AuthUser>>, profile: Body): (email: string)
    ensures email != []
    ensures users.None? ==> email == UnknownEmail
    ensures users.Some? ==> var k := FindUser(users.value, Field(profile, "user_id"));
              if k.Some? && users.value[k.value].email.Some? && users.value[k.value].email.value != []
              then email == users.value[k.value].email.value
              else email == UnknownEmail
  {
    if users.None? then UnknownEmail
    else match FindUser(users.value, Field(profile, "user_id"))
      case None => UnknownEmail
      case Some(k) =>
        var e := users.value[k].email;
        if e.Some? && e.value != [] then e.value else UnknownEmail
  }

  /** `{ ...profile, email }` for every profile, in the profiles' order. */
  function MergeEmails(profiles: seq<Body>, users: Option<seq<AuthUser>>): (r: seq<Body>)
    ensures |r| == |profiles|
    ensures forall i :: 0 <= i < |r| ==> r[i] == profiles[i]["email" := Str(EmailFor(users, profiles[i]))]
  {
    seq(|profiles|, i requires 0 <= i < |profiles| => profiles[i]["email" := Str(EmailFor(users, profiles[i]))])
  }

  /** Every merged entry is its profile with an e-mail address added: all
      other fields come through untouched; the address is the matching
      authentication user's when it has a non-empty one, and 'Unknown'
      when there is no match or the match has no address. */
  lemma MergePreservesProfiles(profiles: seq<Body>, users: seq<AuthUser>, i: nat)
    requires i < |profiles|
    ensures var m := MergeEmails(profiles, Some(users))[i];
            m - {"email"} == profiles[i] - {"email"} && "email" in m
    ensures var k := FindUser(users, Field(profiles[i], "user_id"));
            k.Some? && users[k.value].email.Some? && users[k.value].email.value != [] ==>
              MergeEmails(profiles, Some(users))[i]["email"] == Str(users[k.value].email.value)
    ensures var k := FindUser(users, Field(profiles[i], "user_id"));
            k.None? || users[k.value].email.None? || users[k.value].email.value == [] ==>
              MergeEmails(profiles, Some(users))[i]["email"] == Str(UnknownEmail)
  {
    var m := MergeEmails(profiles, Some(users))[i];
    assert m == profiles[i]["email" := Str(EmailFor(Some(users), profiles[i]))];
    assert (m - {"email"}).Keys == (profiles[i] - {"email"}).Keys;
  }

  /** The URL verification parameters `verified=true&email=…`. */
  predicate Bypass(verified: Option<string>, emailParam: Option<string>) {
    verified == Some("true") && ParamPresent(emailParam)
  }

  /** GET: with `verified=true` and an e-mail in the query the session is not
      checked at all; otherwise only an admin may list the users. */
  function Get(verified: Option<string>, emailParam: Option<string>, auth: AuthState, env: ServiceEnv,
               lookup: RoleLookup, profiles: DbResult<Option<seq<Body>>>, users: Option<seq<AuthUser>>): (r: Reply<seq<Body>>)
    ensures r.Reject? && r.status == 401 ==> !Bypass(verified, emailParam)
    ensures !Bypass(verified, emailParam) && AdminAccess(auth, env, lookup, true).Reject? ==>
              r == AdminAccess(auth, env, lookup, true).Propagate()
    ensures r.Accept? ==> Bypass(verified, emailParam) || AdminAccess(auth, env, lookup, true).Accept?
    ensures r.Accept? ==> profiles.DbOk? && r.value == MergeEmails(profiles.data.GetOr([]), users)
    ensures r.Accept? <==> (Bypass(verified, emailParam) || AdminAccess(auth, env, lookup, true).Accept?)
                           && env.Configured() && profiles.DbOk?
    ensures (Bypass(verified, emailParam) || AdminAccess(auth, env, lookup, true).Accept?) && !env.Configured() ==>
              r == Reject(500, InternalServerError)
    ensures (Bypass(verified, emailParam) || AdminAccess(auth, env, lookup, true).Accept?) && env.Configured() && profiles.DbError? ==>
              r == Reject(500, profiles.message)
  {
    var bypass := Bypass(verified, emailParam);
    if !bypass && AdminAccess(auth, env, lookup, true).Reject? then
      AdminAccess(auth, env, lookup, true).Propagate()
    else if !env.Configured() then Reject(500, InternalServerError)
    else match profiles
      case DbError(message) => Reject(500, message)
      case DbOk(ps) => Accept(MergeEmails(ps.GetOr([]), users))
  }

  /** The URL bypass ignores the session and the profile lookup entirely. */
  lemma BypassIgnoresSession(emailParam: Option<string>, auth1: AuthState, auth2: AuthState, env: ServiceEnv,
                             lookup1: RoleLookup, lookup2: RoleLookup, profiles: DbResult<Option<seq<Body>>>,
                             users: Option<seq<AuthUser>>)
    requires ParamPresent(emailParam)
    ensures Get(Some("true"), emailParam, auth1, env, lookup1, profiles, users)
            == Get(Some("true"), emailParam, auth2, env, lookup2, profiles, users)
  {
  }

  /** PATCH's body check: `userId` and `role` are both truthy. */
  predicate HasUserIdAndRole(body: Option<Body>) {
    body.Some? && Truthy(Field(body.value, "userId")) && Truthy(Field(body.value, "role"))
  }

  /** PATCH: the body is checked before anything else; then only an admin may
      change a role, and a failed profile lookup just means "not admin". */
  function Patch(body: Option<Body>, auth: AuthState, env: ServiceEnv, lookup: RoleLookup, update: DbResult<()>): (r: Reply<()>)
    ensures body.None? ==> r == Reject(500, InternalServerError)
    ensures body.Some? && !HasUserIdAndRole(body) ==> r == Reject(400, MissingUserIdOrRole)
    ensures HasUserIdAndRole(body) && !auth.SignedIn? ==> r == Reject(401, Unauthorized)
    ensures HasUserIdAndRole(body) && auth.SignedIn? && !AdminByEmail(auth.session) && env.Configured() && lookup.LookupError? ==>
              r == Reject(403, Forbidden)
    ensures HasUserIdAndRole(body) && AdminAccess(auth, env, lookup, false).Reject? ==>
              r == AdminAccess(auth, env, lookup, false).Propagate()
    ensures HasUserIdAndRole(body) && AdminAccess(auth, env, lookup, false).Accept? && !env.Configured() ==>
              r == Reject(500, InternalServerError)
    ensures HasUserIdAndRole(body) && AdminAccess(auth, env, lookup, false).Accept? && env.Configured() && update.DbError? ==>
              r == Reject(500, update.message)
    ensures r.Accept? <==> HasUserIdAndRole(body) && AdminAccess(auth, env, lookup, false).Accept? && env.Configured() && update.DbOk?
  {
    if body.None? then Reject(500, InternalServerError)
    else if !Truthy(Field(body.value, "userId")) || !Truthy(Field(body.value, "role")) then Reject(400, MissingUserIdOrRole)
    else if AdminAccess(auth, env, lookup, false).Reject? then AdminAccess(auth, env, lookup, false).Propagate()
    else if !env.Configured() then Reject(500, InternalServerError)
    else match update
      case DbError(message) => Reject(500, message)
      case DbOk(_) => Accept(())
  }
}
