/**
 * The authentication service (services/authService.js): login with a
 * failed-attempt counter and a lock deadline, password reset by an emailed
 * token, password change, and refresh-token rotation against a blacklist.
 *
 * AuthStore holds the users collection, the blacklist keys and the id of
 * the role named 'user' (which the role-defaulting save hook looks up).
 * Each method loads a UserDocument, changes it as the service does and
 * saves it back, and is proved equal to a pure outcome function; the
 * lemmas below are about those functions. The clock, the random reset
 * token, the email delivery, token verification, the blacklist key written
 * for a token and token generation are inputs.
 */
module AuthService {
  import opened Wrappers
  import opened Strings
  import opened Constants
  import opened AppErrors
  import opened Failures
  import opened Helpers
  import opened UserModel

  datatype AuthState = AuthState(users: seq<User>, blacklist: set<string>, userRoleId: Option<string>)

  /** The claims a verified refresh token carries. */
  datatype Claims = Claims(id: string, jti: string, iat: int)

  datatype TokenPair = TokenPair(accessToken: string, refreshToken: string)

  /** `User.findOne({ email })`; the query goes through the lowercasing setter of `email`. */
  function FirstByEmail(us: seq<User>, email: string): (r: Option<nat>)
    ensures r.Some? ==> r.value < |us| && us[r.value].email == Lower(email)
    ensures r.Some? ==> forall j :: 0 <= j < r.value ==> us[j].email != Lower(email)
    ensures r.None? <==> forall j :: 0 <= j < |us| ==> us[j].email != Lower(email)
    decreases |us|
  {
    if |us| == 0 then None
    else if us[0].email == Lower(email) then Some(0)
    else match FirstByEmail(us[1..], email)
      case None => None
      case Some(i) => Some(i + 1)
  }

  /** A user holding a reset token with this digest that has not expired at `now`. */
  predicate HoldsLiveToken(u: User, digest: Sha256Hex, now: int) {
    u.passwordResetToken == Some(digest) && u.passwordResetExpires.Some? && u.passwordResetExpires.value >= now
  }

  /** `User.findOne({ passwordResetToken: digest, passwordResetExpires: { $gte: now } })` */
  function FirstWithLiveToken(us: seq<User>, digest: Sha256Hex, now: int): (r: Option<nat>)
    ensures r.Some? ==> r.value < |us| && HoldsLiveToken(us[r.value], digest, now)
    ensures r.Some? ==> forall j :: 0 <= j < r.value ==> !HoldsLiveToken(us[j], digest, now)
    ensures r.None? <==> forall j :: 0 <= j < |us| ==> !HoldsLiveToken(us[j], digest, now)
    decreases |us|
  {
    if |us| == 0 then None
    else if HoldsLiveToken(us[0], digest, now) then Some(0)
    else match FirstWithLiveToken(us[1..], digest, now)
      case None => None
      case Some(i) => Some(i + 1)
  }

  /** `User.findById(id)` */
  function IndexOfUser(us: seq<User>, id: string): (r: Option<nat>)
    ensures r.Some? ==> r.value < |us| && us[r.value].id == id
    ensures r.None? <==> forall j :: 0 <= j < |us| ==> us[j].id != id
    decreases |us|
  {
    if |us| == 0 then None
    else if us[0].id == id then Some(0)
    else match IndexOfUser(us[1..], id)
      case None => None
      case Some(i) => Some(i + 1)
  }

  const BAD_CREDENTIALS: string := "Incorrect email or password"
  const LOCKED: string := "Account temporarily locked, please try again later"

  /** The user after a wrong password: one more failure, and a lock from the third failure on. */
  function AfterFailure(u: User, now: int): User {
    var failed := u.failedAttempts + 1;
    u.(failedAttempts := failed, lockUntil := if failed >= MAX_ATTEMPTS then Some(now + LOCK_TIME) else u.lockUntil)
  }

  /** `login(email, password)` */
  function LoginOutcome(s: AuthState, email: string, password: string, now: int): (AuthState, Result<User, Failure>) {
    match FirstByEmail(s.users, email)
    case None => (s, Err(Raised(AppError(BAD_CREDENTIALS, UNAUTHORIZED))))
    case Some(k) =>
      var u := s.users[k];
      if IsLocked(u, now) then (s, Err(Raised(AppError(LOCKED, FORBIDDEN))))
      else if !CorrectPassword(password, u.password) then
        match SaveOutcome(AfterFailure(u, now), false, false, now, s.userRoleId)
        case Err(f) => (s, Err(f))
        case Ok(saved) => (s.(users := s.users[k := saved]), Err(Raised(AppError(BAD_CREDENTIALS, UNAUTHORIZED))))
      else
        match SaveOutcome(u.(failedAttempts := 0, lockUntil := None), false, false, now, s.userRoleId)
        case Err(f) => (s, Err(f))
        case Ok(saved) => (s.(users := s.users[k := saved]), Ok(saved))
  }

  const EMAIL_FAILED: string := "There was an error sending the email. Try again later!"

  function ResetUrl(clientUrl: string, resetToken: string): string {
    clientUrl + "/forgot-password/" + resetToken
  }

  /**
   * `forgotPassword(email)`, with the random token, the CLIENT_URL setting
   * and whether the email went out as inputs. Besides the new state and the
   * result (the service returns nothing on success), the outcome records the
   * link handed to the mailer, None when no email is attempted.
   */
  function ForgotOutcome(s: AuthState, email: string, randomHex: string, now: int, clientUrl: string, emailSent: bool)
    : (AuthState, Option<string>, Result<(), Failure>)
  {
    match FirstByEmail(s.users, email)
    case None => (s, None, Err(Raised(AppError("There is no user with email address", NOT_FOUND))))
    case Some(k) =>
      var u := s.users[k].(passwordResetToken := Some(HashToken(randomHex)), passwordResetExpires := Some(now + RESET_TOKEN_TTL));
      match SaveOutcome(u, false, false, now, s.userRoleId)
      case Err(f) => (s, None, Err(f))
      case Ok(saved) =>
        var link := Some(ResetUrl(clientUrl, randomHex));
        if emailSent then (s.(users := s.users[k := saved]), link, Ok(()))
        else
          // the saved document has a role, so this unvalidated save cannot fail
          var cleared := SaveOutcome(saved.(passwordResetToken := None, passwordResetExpires := None), false, false, now, s.userRoleId);
          (s.(users := s.users[k := cleared.value]), link, Err(Raised(AppError(EMAIL_FAILED, SERVER_ERROR))))
  }

  function AssignedPassword(p: Option<string>): Option<Secret> {
    if p.Some? then Some(Plain(p.value)) else None
  }

  /** The user after `resetPassword` assigns the new password and clears the token, the counter and the lock. */
  function WithNewPassword(u: User, password: Option<string>, passwordConfirm: Option<string>): User {
    u.(password := AssignedPassword(password), passwordConfirm := passwordConfirm,
       passwordResetToken := None, passwordResetExpires := None, failedAttempts := 0, lockUntil := None)
  }

  /** `resetPassword(token, password, passwordConfirm)` */
  function ResetOutcome(s: AuthState, token: string, password: Option<string>, passwordConfirm: Option<string>, now: int)
    : (AuthState, Result<User, Failure>)
  {
    match FirstWithLiveToken(s.users, HashToken(token), now)
    case None => (s, Err(Raised(AppError("Token invalid or has expired", BAD_REQUEST))))
    case Some(k) =>
      match SaveOutcome(WithNewPassword(s.users[k], password, passwordConfirm), false, true, now, s.userRoleId)
      case Err(f) => (s, Err(f))
      case Ok(saved) => (s.(users := s.users[k := saved]), Ok(saved))
  }

  const NULL_CORRECT_PASSWORD: string := "Cannot read properties of null (reading 'correctPassword')"

  /** `updatePassword(userId, currentPassword, newPassword, passwordConfirm)` */
  function UpdatePasswordOutcome(s: AuthState, userId: string, currentPassword: string, newPassword: Option<string>,
                                 passwordConfirm: Option<string>, now: int): (AuthState, Result<User, Failure>)
  {
    match IndexOfUser(s.users, userId)
    case None => (s, Err(TypeErrorThrown(NULL_CORRECT_PASSWORD)))
    case Some(k) =>
      var u := s.users[k];
      if !CorrectPassword(currentPassword, u.password) then (s, Err(Raised(AppError("Your current password is wrong", UNAUTHORIZED))))
      else
        match SaveOutcome(u.(password := AssignedPassword(newPassword), passwordConfirm := passwordConfirm), false, true, now, s.userRoleId)
        case Err(f) => (s, Err(f))
        case Ok(saved) => (s.(users := s.users[k := saved]), Ok(saved))
  }

  /** The key `refreshToken` reads for a decoded token. */
  function BlacklistKey(c: Claims): string {
    "bl_refresh_" + c.id + "_" + c.jti
  }

  /**
   * `refreshToken(oldRefreshToken)`. `verify` is the token verification,
   * `keyWritten` the key `setTokenBlacklist` stores for a token, `generate`
   * the token pair issued for a user id.
   */
  function RefreshOutcome(s: AuthState, oldRefreshToken: string, verify: string -> Result<Claims, JwtError>,
                          keyWritten: string -> string, generate: string -> TokenPair): (AuthState, Result<TokenPair, Failure>)
  {
    match verify(oldRefreshToken)
    case Err(e) => (s, Err(JwtFailed(e)))
    case Ok(decoded) =>
      if BlacklistKey(decoded) in s.blacklist then (s, Err(Raised(AppError("Token revoked", UNAUTHORIZED))))
      else (s.(blacklist := s.blacklist + {keyWritten(oldRefreshToken)}), Ok(generate(decoded.id)))
  }

  class AuthStore {
    var users: seq<User>
    var blacklist: set<string>
    var userRoleId: Option<string>

    function State(): AuthState
      reads this
    {
      AuthState(users, blacklist, userRoleId)
    }

    constructor (s: AuthState)
      ensures State() == s
    {
      users := s.users;
      blacklist := s.blacklist;
      userRoleId := s.userRoleId;
    }

    method Login(email: string, password: string, now: int) returns (r: Result<User, Failure>)
      modifies this
      ensures (State(), r) == LoginOutcome(old(State()), email, password, now)
    {
      var found := FirstByEmail(users, email);
      if found.None? {
        return Err(Raised(AppError(BAD_CREDENTIALS, UNAUTHORIZED)));
      }
      var user := new UserDocument.Load(users[found.value]);
      if IsLocked(user.Value(), now) {
        return Err(Raised(AppError(LOCKED, FORBIDDEN)));
      }
      if !CorrectPassword(password, user.password) {
        user.failedAttempts := user.failedAttempts + 1;
        if user.failedAttempts >= MAX_ATTEMPTS {
          user.lockUntil := Some(now + LOCK_TIME);
        }
        var saved := user.Save(false, now, userRoleId);
        if saved.Err? {
          return Err(saved.error);
        }
        users := users[found.value := saved.value];
        return Err(Raised(AppError(BAD_CREDENTIALS, UNAUTHORIZED)));
      }
      user.failedAttempts := 0;
      user.lockUntil := None;
      var saved := user.Save(false, now, userRoleId);
      if saved.Err? {
        return Err(saved.error);
      }
      users := users[found.value := saved.value];
      return Ok(saved.value);
    }

    method ForgotPassword(email: string, randomHex: string, now: int, clientUrl: string, emailSent: bool)
      returns (emailed: Option<string>, r: Result<(), Failure>)
      modifies this
      ensures (State(), emailed, r) == ForgotOutcome(old(State()), email, randomHex, now, clientUrl, emailSent)
    {
      emailed := None;
      var found := FirstByEmail(users, email);
      if found.None? {
        return emailed, Err(Raised(AppError("There is no user with email address", NOT_FOUND)));
      }
      var user := new UserDocument.Load(users[found.value]);
      var resetToken := user.CreatePasswordResetToken(randomHex, now);
      var resetUrl := ResetUrl(clientUrl, resetToken);
      var saved := user.Save(false, now, userRoleId);
      if saved.Err? {
        return emailed, Err(saved.error);
      }
      users := users[found.value := saved.value];
      emailed := Some(resetUrl);
      if !emailSent {
        user.passwordResetToken := None;
        user.passwordResetExpires := None;
        assert user.Value() == saved.value.(passwordResetToken := None, passwordResetExpires := None);
        var cleared := user.Save(false, now, userRoleId);
        users := users[found.value := cleared.value];
        assert users == old(users)[found.value := cleared.value];
        return emailed, Err(Raised(AppError(EMAIL_FAILED, SERVER_ERROR)));
      }
      return emailed, Ok(());
    }

    method ResetPassword(token: string, password: Option<string>, passwordConfirm: Option<string>, now: int)
      returns (r: Result<User, Failure>)
      modifies this
      ensures (State(), r) == ResetOutcome(old(State()), token, password, passwordConfirm, now)
    {
      var hashedToken := HashToken(token);
      var found := FirstWithLiveToken(users, hashedToken, now);
      if found.None? {
        return Err(Raised(AppError("Token invalid or has expired", BAD_REQUEST)));
      }
      var user := new UserDocument.Load(users[found.value]);
      AssignNewPassword(user, password, passwordConfirm);
      var saved := user.Save(true, now, userRoleId);
      if saved.Err? {
        return Err(saved.error);
      }
      users := users[found.value := saved.value];
      return Ok(saved.value);
    }

    /** The assignments `resetPassword` makes before saving. */
    static method AssignNewPassword(user: UserDocument, password: Option<string>, passwordConfirm: Option<string>)
      modifies user
      ensures user.Value() == WithNewPassword(old(user.Value()), password, passwordConfirm)
      ensures user.isNew == old(user.isNew)
    {
      user.password := AssignedPassword(password);
      user.passwordConfirm := passwordConfirm;
      user.passwordResetToken := None;
      user.passwordResetExpires := None;
      user.failedAttempts := 0;
      user.lockUntil := None;
    }

    method UpdatePassword(userId: string, currentPassword: string, newPassword: Option<string>,
                          passwordConfirm: Option<string>, now: int) returns (r: Result<User, Failure>)
      modifies this
      ensures (State(), r) == UpdatePasswordOutcome(old(State()), userId, currentPassword, newPassword, passwordConfirm, now)
    {
      var found := IndexOfUser(users, userId);
      if found.None? {
        return Err(TypeErrorThrown(NULL_CORRECT_PASSWORD));
      }
      var user := new UserDocument.Load(users[found.value]);
      if !CorrectPassword(currentPassword, user.password) {
        return Err(Raised(AppError("Your current password is wrong", UNAUTHORIZED)));
      }
      user.password := AssignedPassword(newPassword);
      user.passwordConfirm := passwordConfirm;
      var saved := user.Save(true, now, userRoleId);
      if saved.Err? {
        return Err(saved.error);
      }
      users := users[found.value := saved.value];
      return Ok(saved.value);
    }

    method RefreshToken(oldRefreshToken: string, verify: string -> Result<Claims, JwtError>,
                        keyWritten: string -> string, generate: string -> TokenPair) returns (r: Result<TokenPair, Failure>)
      modifies this
      ensures (State(), r) == RefreshOutcome(old(State()), oldRefreshToken, verify, keyWritten, generate)
    {
      var decoded := verify(oldRefreshToken);
      if decoded.Err? {
        return Err(JwtFailed(decoded.error));
      }
      var isBlacklisted := BlacklistKey(decoded.value) in blacklist;
      if isBlacklisted {
        return Err(Raised(AppError("Token revoked", UNAUTHORIZED)));
      }
      blacklist := blacklist + {keyWritten(oldRefreshToken)};
      var tokens := generate(decoded.value.id);
      return Ok(tokens);
    }
  }
}
