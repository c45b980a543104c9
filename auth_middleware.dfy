/**
 * The authorization gates (middleware/authMiddleware.js): `protect`, which
 * takes the access token from the Authorization header or the cookie, and
 * runs the chain of 401 checks before setting `req.user`; and `restrictTo`,
 * which admits only users whose role is in a list of role names.
 *
 * Token verification is an input. A user found by `protect` has its role
 * populated by the pre-find hook of the User model, so `req.user.role` is
 * the role document (or null), never a role-name string.
 */
module AuthMiddleware {
  import opened Wrappers
  import opened Strings
  import opened Constants
  import opened AppErrors
  import opened Failures
  import opened UserModel
  import opened AuthService

  /** The value of `req.user.role`: a plain string, a populated role document, or null. */
  datatype RoleValue = RoleName(name: string) | RoleDocument(docName: string) | NullRole

  /** `req.user`: the user document together with what its `role` path holds. */
  datatype CurrentUser = CurrentUser(user: User, role: RoleValue)

  const FORBIDDEN_ACTION: string := "You don't have permission to perform this action"
  const NO_REQ_USER: string := "Cannot read properties of undefined (reading 'role')"

  /**
   * `restrictTo(...roles)(req, res, next)`: `roles.includes(req.user.role)`
   * compares by value, so only a role given as a string can match one of
   * the names.
   */
  function RestrictToOutcome(roles: seq<string>, reqUser: Option<CurrentUser>): (r: Result<(), Failure>)
    ensures reqUser.None? ==> r == Err(TypeErrorThrown(NO_REQ_USER))
    ensures reqUser.Some? ==> (r.Ok? <==> reqUser.value.role.RoleName? && reqUser.value.role.name in roles)
    ensures r.Err? && reqUser.Some? ==> r.error == Raised(AppError(FORBIDDEN_ACTION, FORBIDDEN))
  {
    match reqUser
    case None => Err(TypeErrorThrown(NO_REQ_USER))
    case Some(cu) =>
      if cu.role.RoleName? && cu.role.name in roles then Ok(())
      else Err(Raised(AppError(FORBIDDEN_ACTION, FORBIDDEN)))
  }

  /** A truthy string: present and non-empty. */
  predicate Truthy(v: Option<string>) {
    v.Some? && v.value != ""
  }

  /** `split(' ')[1]`, None when there is no second piece. */
  function SecondPiece(h: string): Option<string> {
    var parts := Split(h, ' ');
    if |parts| > 1 then Some(parts[1]) else None
  }

  /**
   * The token `protect` uses: the second space-separated piece of an
   * Authorization header starting with 'Bearer', else the accessToken
   * cookie; an empty token counts as none.
   */
  function ExtractToken(authorization: Option<string>, cookieToken: Option<string>): Option<string> {
    var token :=
      if Truthy(authorization) && StartsWith(authorization.value, "Bearer") then SecondPiece(authorization.value)
      else if Truthy(cookieToken) then cookieToken
      else None;
    if Truthy(token) then token else None
  }

  /** A 'Bearer' header decides alone: the cookie is read only without one. */
  lemma HeaderTakesPrecedence(authorization: Option<string>, cookieToken: Option<string>, otherCookie: Option<string>)
    requires Truthy(authorization) && StartsWith(authorization.value, "Bearer")
    ensures ExtractToken(authorization, cookieToken) == ExtractToken(authorization, otherCookie)
  {
  }

  /** Without a 'Bearer' header the cookie token, if non-empty, is used as it is. */
  lemma CookieWithoutBearerHeader(authorization: Option<string>, cookieToken: Option<string>)
    requires !(Truthy(authorization) && StartsWith(authorization.value, "Bearer"))
    ensures ExtractToken(authorization, cookieToken) == (if Truthy(cookieToken) then cookieToken else None)
  {
  }

  /** 'Bearer <token>' yields the token, for a non-empty token without spaces. */
  lemma {:induction false} BearerHeaderYieldsToken(t: string, cookieToken: Option<string>)
    requires t != "" && ' ' !in t
    ensures ExtractToken(Some("Bearer " + t), cookieToken) == Some(t)
  {
    var h := "Bearer " + t;
    assert h == "Bearer" + [' '] + t;
    assert ' ' !in "Bearer";
    SplitAtFirst("Bearer", ' ', t);
    SplitWithoutSeparator(t, ' ');
    assert Split(h, ' ') == ["Bearer", t];
    assert StartsWith(h, "Bearer");
  }

  /** A header of exactly 'Bearer' yields no token, and the cookie is not consulted. */
  lemma {:induction false} BareBearerYieldsNoToken(cookieToken: Option<string>)
    ensures ExtractToken(Some("Bearer"), cookieToken) == None
  {
    assert ' ' !in "Bearer";
    SplitWithoutSeparator("Bearer", ' ');
    assert StartsWith("Bearer", "Bearer");
  }

  /** Nor does 'Bearer ' with nothing after the space: its second piece is empty. */
  lemma {:induction false} BearerSpaceYieldsNoToken(cookieToken: Option<string>)
    ensures ExtractToken(Some("Bearer "), cookieToken) == None
  {
    assert ' ' !in "Bearer";
    assert "Bearer " == "Bearer" + [' '] + "";
    SplitAtFirst("Bearer", ' ', "");
    assert Split("", ' ') == [""];
    assert Split("Bearer ", ' ') == ["Bearer", ""];
    assert StartsWith("Bearer ", "Bearer");
  }

  const NOT_LOGGED_IN: string := "You are not logged in ! Please log in to access."
  const USER_GONE: string := "The user belonging to this token does no longer exist!"
  const PASSWORD_CHANGED: string := "User recently change password! Please log in again."

  /** What the pre-find hook puts in `role`: the role document by id, null when there is none. */
  function PopulatedRole(u: User, roleNames: map<string, string>): RoleValue {
    if u.role.Some? && u.role.value in roleNames then RoleDocument(roleNames[u.role.value]) else NullRole
  }

  /**
   * `protect`: the user it admits, or the failure passed to `next`. A
   * verification failure is thrown and reaches `next` through catchAsync.
   */
  function ProtectOutcome(authorization: Option<string>, cookieToken: Option<string>, verify: string -> Result<Claims, JwtError>,
                          users: seq<User>, roleNames: map<string, string>): Result<CurrentUser, Failure>
  {
    match ExtractToken(authorization, cookieToken)
    case None => Err(Raised(AppError(NOT_LOGGED_IN, UNAUTHORIZED)))
    case Some(token) =>
      match verify(token)
      case Err(e) => Err(JwtFailed(e))
      case Ok(decoded) =>
        match IndexOfUser(users, decoded.id)
        case None => Err(Raised(AppError(USER_GONE, UNAUTHORIZED)))
        case Some(k) =>
          if ChangedPasswordAfter(users[k], decoded.iat) then Err(Raised(AppError(PASSWORD_CHANGED, UNAUTHORIZED)))
          else Ok(CurrentUser(users[k], PopulatedRole(users[k], roleNames)))
  }

  /**
   * The checks run in order: no token is refused before verification and
   * lookup (whatever they would give); then a missing user; then a
   * password changed after the token was issued. A user is admitted
   * exactly when all pass, and it is the token's user.
   */
  lemma ProtectChain(authorization: Option<string>, cookieToken: Option<string>, verify: string -> Result<Claims, JwtError>,
                     users: seq<User>, roleNames: map<string, string>)
    ensures var r := ProtectOutcome(authorization, cookieToken, verify, users, roleNames);
      && (ExtractToken(authorization, cookieToken).None? ==> r == Err(Raised(AppError(NOT_LOGGED_IN, UNAUTHORIZED))))
      && (r.Ok? <==>
            && ExtractToken(authorization, cookieToken).Some?
            && verify(ExtractToken(authorization, cookieToken).value).Ok?
            && var decoded := verify(ExtractToken(authorization, cookieToken).value).value;
            && (exists j :: 0 <= j < |users| && users[j].id == decoded.id)
            && !ChangedPasswordAfter(users[IndexOfUser(users, decoded.id).value], decoded.iat))
      && (r.Ok? ==> var decoded := verify(ExtractToken(authorization, cookieToken).value).value;
            r.value.user.id == decoded.id && r.value.user in users && !ChangedPasswordAfter(r.value.user, decoded.iat))
  {
  }

  /**
   * As written, `restrictTo` after `protect` refuses every user: the admitted
   * user's role is a populated document or null, which no role name equals.
   */
  lemma ProtectedUserAlwaysForbidden(authorization: Option<string>, cookieToken: Option<string>,
                                     verify: string -> Result<Claims, JwtError>, users: seq<User>,
                                     roleNames: map<string, string>, roles: seq<string>)
    requires ProtectOutcome(authorization, cookieToken, verify, users, roleNames).Ok?
    ensures RestrictToOutcome(roles, Some(ProtectOutcome(authorization, cookieToken, verify, users, roleNames).value)) ==
      Err(Raised(AppError(FORBIDDEN_ACTION, FORBIDDEN)))
  {
  }

  /** A request passing through the middleware: its credentials and the `user` that `protect` sets. */
  class Request {
    const authorization: Option<string>
    const cookieToken: Option<string>
    var user: Option<CurrentUser>

    constructor (authorization: Option<string>, cookieToken: Option<string>)
      ensures this.authorization == authorization && this.cookieToken == cookieToken && user.None?
    {
      this.authorization := authorization;
      this.cookieToken := cookieToken;
      user := None;
    }

    /** `protect(req, res, next)`: Ok when `next()` is called without an error. */
    method Protect(verify: string -> Result<Claims, JwtError>, users: seq<User>, roleNames: map<string, string>)
      returns (r: Result<(), Failure>)
      modifies this
      ensures var o := ProtectOutcome(authorization, cookieToken, verify, users, roleNames);
        && (r.Ok? <==> o.Ok?)
        && (r.Err? ==> r.error == o.error && user == old(user))
        && (r.Ok? ==> user == Some(o.value))
    {
      var token := ExtractToken(authorization, cookieToken);
      if token.None? {
        return Err(Raised(AppError(NOT_LOGGED_IN, UNAUTHORIZED)));
      }
      var decoded := verify(token.value);
      if decoded.Err? {
        return Err(JwtFailed(decoded.error));
      }
      var found := IndexOfUser(users, decoded.value.id);
      if found.None? {
        return Err(Raised(AppError(USER_GONE, UNAUTHORIZED)));
      }
      var currentUser := users[found.value];
      if ChangedPasswordAfter(currentUser, decoded.value.iat) {
        return Err(Raised(AppError(PASSWORD_CHANGED, UNAUTHORIZED)));
      }
      user := Some(CurrentUser(currentUser, PopulatedRole(currentUser, roleNames)));
      return Ok(());
    }

    /** `restrictTo(...roles)` applied to this request. */
    method RestrictTo(roles: seq<string>) returns (r: Result<(), Failure>)
      ensures r == RestrictToOutcome(roles, user)
    {
      if user.None? {
        return Err(TypeErrorThrown(NO_REQ_USER));
      }
      if !(user.value.role.RoleName? && user.value.role.name in roles) {
        return Err(Raised(AppError(FORBIDDEN_ACTION, FORBIDDEN)));
      }
      return Ok(());
    }
  }
}
