/**
 * Properties of the authentication outcomes: the lockout state machine,
 * the single-use and ten-minute limits on reset tokens, password change,
 * refresh-token rotation, and that no operation leaves a plain-text
 * password in the users collection.
 */
module AuthProperties {
  import opened Wrappers
  import opened Strings
  import opened Constants
  import opened AppErrors
  import opened Failures
  import opened Helpers
  import opened UserModel
  import opened AuthService

  /** A user as the collection holds it: the password, if selected at all, is a digest. */
  predicate AtRest(u: User) {
    u.password.None? || u.password.value.BcryptDigest?
  }

  predicate StoreAtRest(s: AuthState) {
    forall j :: 0 <= j < |s.users| ==> AtRest(s.users[j])
  }

  /** Whatever a save succeeds with holds no plain-text password. */
  lemma SaveLeavesDigest(u: User, isNew: bool, validate: bool, now: int, userRoleId: Option<string>)
    ensures SaveOutcome(u, isNew, validate, now, userRoleId).Ok? ==> AtRest(SaveOutcome(u, isNew, validate, now, userRoleId).value)
  {
  }

  lemma {:induction false} AtRestAfterWrite(s: AuthState, k: nat, x: User)
    requires StoreAtRest(s) && k < |s.users| && AtRest(x)
    ensures StoreAtRest(s.(users := s.users[k := x]))
  {
    var us := s.users[k := x];
    forall j | 0 <= j < |us| ensures AtRest(us[j]) {
      if j != k {
        assert us[j] == s.users[j];
      }
    }
  }

  /** Login keeps the collection free of plain-text passwords. */
  lemma LoginKeepsPasswordsHashed(s: AuthState, email: string, password: string, now: int)
    requires StoreAtRest(s)
    ensures StoreAtRest(LoginOutcome(s, email, password, now).0)
  {
    var rid := s.userRoleId;
    match FirstByEmail(s.users, email) {
      case None =>
      case Some(k) =>
        var u := s.users[k];
        var w := if !CorrectPassword(password, u.password) then AfterFailure(u, now) else u.(failedAttempts := 0, lockUntil := None);
        SaveLeavesDigest(w, false, false, now, rid);
        var r := SaveOutcome(w, false, false, now, rid);
        if r.Ok? { AtRestAfterWrite(s, k, r.value); }
    }
  }

  /** So does forgotPassword, on both the sent and the unsent path. */
  lemma ForgotKeepsPasswordsHashed(s: AuthState, email: string, randomHex: string, now: int, clientUrl: string, emailSent: bool)
    requires StoreAtRest(s)
    ensures StoreAtRest(ForgotOutcome(s, email, randomHex, now, clientUrl, emailSent).0)
  {
    var rid := s.userRoleId;
    match FirstByEmail(s.users, email) {
      case None =>
      case Some(k) =>
        var t := s.users[k].(passwordResetToken := Some(HashToken(randomHex)), passwordResetExpires := Some(now + RESET_TOKEN_TTL));
        SaveLeavesDigest(t, false, false, now, rid);
        var r := SaveOutcome(t, false, false, now, rid);
        if r.Ok? {
          AtRestAfterWrite(s, k, r.value);
          var c := r.value.(passwordResetToken := None, passwordResetExpires := None);
          SaveLeavesDigest(c, false, false, now, rid);
          if !emailSent { AtRestAfterWrite(s, k, SaveOutcome(c, false, false, now, rid).value); }
        }
    }
  }

  /** A reset stores the new password hashed. */
  lemma ResetKeepsPasswordsHashed(s: AuthState, token: string, newPassword: Option<string>, confirm: Option<string>, now: int)
    requires StoreAtRest(s)
    ensures StoreAtRest(ResetOutcome(s, token, newPassword, confirm, now).0)
  {
    match FirstWithLiveToken(s.users, HashToken(token), now) {
      case None =>
      case Some(k) =>
        var w := WithNewPassword(s.users[k], newPassword, confirm);
        SaveLeavesDigest(w, false, true, now, s.userRoleId);
        var r := SaveOutcome(w, false, true, now, s.userRoleId);
        if r.Ok? { AtRestAfterWrite(s, k, r.value); }
    }
  }

  /** A password change stores the new password hashed. */
  lemma UpdatePasswordKeepsPasswordsHashed(s: AuthState, userId: string, currentPassword: string,
                                           newPassword: Option<string>, confirm: Option<string>, now: int)
    requires StoreAtRest(s)
    ensures StoreAtRest(UpdatePasswordOutcome(s, userId, currentPassword, newPassword, confirm, now).0)
  {
    match IndexOfUser(s.users, userId) {
      case None =>
      case Some(k) =>
        var w := s.users[k].(password := AssignedPassword(newPassword), passwordConfirm := confirm);
        SaveLeavesDigest(w, false, true, now, s.userRoleId);
        var r := SaveOutcome(w, false, true, now, s.userRoleId);
        if r.Ok? { AtRestAfterWrite(s, k, r.value); }
    }
  }

  /** Rewriting a user without changing the email does not change who `findOne({ email })` finds. */
  lemma {:induction false} FirstByEmailAfterWrite(us: seq<User>, k: nat, x: User, email: string)
    requires k < |us| && x.email == us[k].email
    ensures FirstByEmail(us[k := x], email) == FirstByEmail(us, email)
    decreases |us|
  {
    var us' := us[k := x];
    if k == 0 {
      assert us'[1..] == us[1..];
    } else {
      assert us'[0] == us[0];
      assert us'[1..] == us[1..][k - 1 := x];
      FirstByEmailAfterWrite(us[1..], k - 1, x, email);
    }
  }

  /** An unknown email gets 401; a locked account gets 403 whatever the password, and nothing is written. */
  lemma LoginRejections(s: AuthState, email: string, password: string, now: int)
    ensures FirstByEmail(s.users, email).None? ==>
      LoginOutcome(s, email, password, now) == (s, Err(Raised(AppError(BAD_CREDENTIALS, UNAUTHORIZED))))
    ensures FirstByEmail(s.users, email).Some? && IsLocked(s.users[FirstByEmail(s.users, email).value], now) ==>
      LoginOutcome(s, email, password, now) == (s, Err(Raised(AppError(LOCKED, FORBIDDEN))))
  {
  }

  /**
   * A wrong password on an unlocked account adds one failed attempt and
   * answers 401; from the third failure on, the lock runs to ten minutes
   * after this attempt. Only that user's counters (and, if it had none, its
   * role) change.
   */
  lemma WrongPasswordCounted(s: AuthState, email: string, password: string, now: int, k: nat)
    requires FirstByEmail(s.users, email) == Some(k)
    requires !IsLocked(s.users[k], now) && !CorrectPassword(password, s.users[k].password) && AtRest(s.users[k])
    requires s.users[k].role.Some? || s.userRoleId.Some?
    ensures var (s', r) := LoginOutcome(s, email, password, now);
      && r == Err(Raised(AppError(BAD_CREDENTIALS, UNAUTHORIZED)))
      && s' == s.(users := s.users[k := s'.users[k]])
      && s'.users[k].failedAttempts == s.users[k].failedAttempts + 1
      && s'.users[k].lockUntil == (if s.users[k].failedAttempts + 1 >= MAX_ATTEMPTS then Some(now + LOCK_TIME) else s.users[k].lockUntil)
      && s'.users[k].role.Some?
      && s'.users[k].(failedAttempts := s.users[k].failedAttempts, lockUntil := s.users[k].lockUntil, role := s.users[k].role) == s.users[k]
  {
  }

  /** A correct password on an unlocked account clears the counter and the lock and returns the saved user. */
  lemma CorrectPasswordResetsCounter(s: AuthState, email: string, password: string, now: int, k: nat)
    requires FirstByEmail(s.users, email) == Some(k)
    requires !IsLocked(s.users[k], now) && CorrectPassword(password, s.users[k].password)
    requires s.users[k].role.Some? || s.userRoleId.Some?
    ensures var (s', r) := LoginOutcome(s, email, password, now);
      && r == Ok(s'.users[k])
      && s' == s.(users := s.users[k := s'.users[k]])
      && s'.users[k].failedAttempts == 0 && s'.users[k].lockUntil == None
      && CorrectPassword(password, s'.users[k].password)
  {
  }

  /** Once set by a failure, the lock holds exactly until LOCK_TIME after that failure. */
  lemma LockLastsLockTime(u: User, now: int, t: int)
    requires u.failedAttempts + 1 >= MAX_ATTEMPTS
    ensures IsLocked(AfterFailure(u, now), t) <==> t < now + LOCK_TIME
  {
  }

  /**
   * An expired lock does not reset the counter, so the first wrong password
   * after it locks the account again for a full LOCK_TIME.
   */
  lemma ExpiredLockRelocksOnNextFailure(s: AuthState, email: string, password: string, now: int, k: nat)
    requires FirstByEmail(s.users, email) == Some(k)
    requires s.users[k].failedAttempts >= MAX_ATTEMPTS
    requires !IsLocked(s.users[k], now) && !CorrectPassword(password, s.users[k].password) && AtRest(s.users[k])
    requires s.users[k].role.Some? || s.userRoleId.Some?
    ensures var (s', r) := LoginOutcome(s, email, password, now);
      r.Err? && s'.users[k].lockUntil == Some(now + LOCK_TIME)
      && forall t :: now <= t < now + LOCK_TIME ==> IsLocked(s'.users[k], t)
  {
    WrongPasswordCounted(s, email, password, now, k);
  }

  /**
   * Three wrong passwords in a row on a fresh account lock it: the third
   * answer is still 401, and any login (even with the right password)
   * before the lock runs out gets 403 without touching the account.
   */
  lemma {:induction false} ThreeWrongPasswordsLock(s: AuthState, email: string, password: string, k: nat,
                                                   t1: int, t2: int, t3: int, t4: int, anyPassword: string)
    requires FirstByEmail(s.users, email) == Some(k)
    requires s.users[k].failedAttempts == 0 && !IsLocked(s.users[k], t1)
    requires !CorrectPassword(password, s.users[k].password) && AtRest(s.users[k])
    requires s.users[k].role.Some? || s.userRoleId.Some?
    requires t1 <= t2 <= t3 <= t4 < t3 + LOCK_TIME
    ensures var s1 := LoginOutcome(s, email, password, t1).0;
      var s2 := LoginOutcome(s1, email, password, t2).0;
      var (s3, r3) := LoginOutcome(s2, email, password, t3);
      && r3 == Err(Raised(AppError(BAD_CREDENTIALS, UNAUTHORIZED)))
      && k < |s3.users|
      && s3.users[k].failedAttempts == MAX_ATTEMPTS
      && s3.users[k].lockUntil == Some(t3 + LOCK_TIME)
      && LoginOutcome(s3, email, anyPassword, t4) == (s3, Err(Raised(AppError(LOCKED, FORBIDDEN))))
  {
    var s1 := LoginOutcome(s, email, password, t1).0;
    WrongPasswordCounted(s, email, password, t1, k);
    FirstByEmailAfterWrite(s.users, k, s1.users[k], email);
    assert !IsLocked(s1.users[k], t2);
    var s2 := LoginOutcome(s1, email, password, t2).0;
    WrongPasswordCounted(s1, email, password, t2, k);
    FirstByEmailAfterWrite(s1.users, k, s2.users[k], email);
    assert !IsLocked(s2.users[k], t3);
    var s3 := LoginOutcome(s2, email, password, t3).0;
    WrongPasswordCounted(s2, email, password, t3, k);
    FirstByEmailAfterWrite(s2.users, k, s3.users[k], email);
  }

  const INVALID_RESET: string := "Token invalid or has expired"

  /** The users other than `k` hold no live token with this digest (the random token is fresh). */
  predicate OnlyHolder(s: AuthState, k: nat, digest: Sha256Hex, now: int) {
    forall j :: 0 <= j < |s.users| && j != k ==> !HoldsLiveToken(s.users[j], digest, now)
  }

  /**
   * A reset within ten minutes of the forgot-password request succeeds: the
   * new password is the one that now verifies, the token, counter and lock
   * are cleared, the change is stamped one second back, and the same token
   * is refused the second time.
   */
  lemma {:induction false} ForgotThenReset(s: AuthState, email: string, randomHex: string, t0: int, clientUrl: string,
                                           t1: int, newPassword: string, k: nat)
    requires FirstByEmail(s.users, email) == Some(k)
    requires s.users[k].role.Some? || s.userRoleId.Some?
    requires s.users[k].name != "" && s.users[k].email != ""
    requires |newPassword| >= 8
    requires t0 <= t1 <= t0 + RESET_TOKEN_TTL
    requires OnlyHolder(s, k, HashToken(randomHex), t1)
    ensures var (s1, link, r1) := ForgotOutcome(s, email, randomHex, t0, clientUrl, true);
      && link == Some(ResetUrl(clientUrl, randomHex)) && r1 == Ok(())
      && var (s2, r2) := ResetOutcome(s1, randomHex, Some(newPassword), Some(newPassword), t1);
      && r2.Ok? && s2 == s.(users := s.users[k := r2.value])
      && CorrectPassword(newPassword, r2.value.password)
      && r2.value.passwordResetToken == None && r2.value.passwordResetExpires == None
      && r2.value.failedAttempts == 0 && r2.value.lockUntil == None
      && r2.value.passwordChangedAt == Some(t1 - 1000)
      && ResetOutcome(s2, randomHex, Some(newPassword), Some(newPassword), t1).1 == Err(Raised(AppError(INVALID_RESET, BAD_REQUEST)))
  {
    var digest := HashToken(randomHex);
    var s1 := ForgotOutcome(s, email, randomHex, t0, clientUrl, true).0;
    assert s1.users == s.users[k := s1.users[k]];
    assert HoldsLiveToken(s1.users[k], digest, t1);
    forall j | 0 <= j < |s1.users| && j != k ensures !HoldsLiveToken(s1.users[j], digest, t1) {
      assert s1.users[j] == s.users[j];
    }
    var f := FirstWithLiveToken(s1.users, digest, t1);
    assert f == Some(k);
    var w := WithNewPassword(s1.users[k], Some(newPassword), Some(newPassword));
    assert UserErrors(w) == [];
    var (s2, r2) := ResetOutcome(s1, randomHex, Some(newPassword), Some(newPassword), t1);
    assert s2.users == s.users[k := r2.value];
    assert forall j :: 0 <= j < |s2.users| ==> !HoldsLiveToken(s2.users[j], digest, t1) by {
      forall j | 0 <= j < |s2.users| ensures !HoldsLiveToken(s2.users[j], digest, t1) {
        if j != k {
          assert s2.users[j] == s.users[j];
        }
      }
    }
  }

  /** A reset token past its ten minutes is refused and nothing changes. */
  lemma {:induction false} ResetTokenExpires(s: AuthState, email: string, randomHex: string, t0: int, clientUrl: string,
                                             t1: int, password: Option<string>, confirm: Option<string>, k: nat)
    requires FirstByEmail(s.users, email) == Some(k)
    requires s.users[k].role.Some? || s.userRoleId.Some?
    requires t1 > t0 + RESET_TOKEN_TTL
    requires OnlyHolder(s, k, HashToken(randomHex), t1)
    ensures var s1 := ForgotOutcome(s, email, randomHex, t0, clientUrl, true).0;
      ResetOutcome(s1, randomHex, password, confirm, t1) == (s1, Err(Raised(AppError(INVALID_RESET, BAD_REQUEST))))
  {
    var digest := HashToken(randomHex);
    var s1 := ForgotOutcome(s, email, randomHex, t0, clientUrl, true).0;
    assert s1.users == s.users[k := s1.users[k]];
    forall j | 0 <= j < |s1.users| ensures !HoldsLiveToken(s1.users[j], digest, t1) {
      if j != k {
        assert s1.users[j] == s.users[j];
      }
    }
  }

  /**
   * When the reset email cannot be sent the token is cleared again and the
   * answer is 500, so the link that was handed to the mailer does not work.
   */
  lemma {:induction false} UnsentEmailLeavesNoToken(s: AuthState, email: string, randomHex: string, t0: int, clientUrl: string,
                                                    t1: int, password: Option<string>, confirm: Option<string>, k: nat)
    requires FirstByEmail(s.users, email) == Some(k)
    requires s.users[k].role.Some? || s.userRoleId.Some?
    requires OnlyHolder(s, k, HashToken(randomHex), t1)
    ensures var (s1, link, r1) := ForgotOutcome(s, email, randomHex, t0, clientUrl, false);
      && link == Some(ResetUrl(clientUrl, randomHex))
      && r1 == Err(Raised(AppError(EMAIL_FAILED, SERVER_ERROR)))
      && s1.users[k].passwordResetToken == None && s1.users[k].passwordResetExpires == None
      && ResetOutcome(s1, randomHex, password, confirm, t1) == (s1, Err(Raised(AppError(INVALID_RESET, BAD_REQUEST))))
  {
    var digest := HashToken(randomHex);
    var s1 := ForgotOutcome(s, email, randomHex, t0, clientUrl, false).0;
    assert s1.users == s.users[k := s1.users[k]];
    forall j | 0 <= j < |s1.users| ensures !HoldsLiveToken(s1.users[j], digest, t1) {
      if j != k {
        assert s1.users[j] == s.users[j];
      }
    }
  }

  /** An unknown email gets 404, no email and no change. */
  lemma ForgotUnknownEmail(s: AuthState, email: string, randomHex: string, now: int, clientUrl: string, emailSent: bool)
    requires FirstByEmail(s.users, email).None?
    ensures ForgotOutcome(s, email, randomHex, now, clientUrl, emailSent) ==
      (s, None, Err(Raised(AppError("There is no user with email address", NOT_FOUND))))
  {
  }

  /** A missing user throws before any check; a wrong current password gets 401; neither writes anything. */
  lemma UpdatePasswordRejections(s: AuthState, userId: string, currentPassword: string, newPassword: Option<string>,
                                 confirm: Option<string>, now: int)
    ensures IndexOfUser(s.users, userId).None? ==>
      UpdatePasswordOutcome(s, userId, currentPassword, newPassword, confirm, now) == (s, Err(TypeErrorThrown(NULL_CORRECT_PASSWORD)))
    ensures IndexOfUser(s.users, userId).Some? && !CorrectPassword(currentPassword, s.users[IndexOfUser(s.users, userId).value].password) ==>
      UpdatePasswordOutcome(s, userId, currentPassword, newPassword, confirm, now) ==
        (s, Err(Raised(AppError("Your current password is wrong", UNAUTHORIZED))))
  {
  }

  /**
   * With the right current password and a valid, confirmed new one, the new
   * password replaces the old one (which stops verifying), and the change is
   * stamped one second back.
   */
  lemma {:induction false} UpdatePasswordReplacesDigest(s: AuthState, userId: string, currentPassword: string,
                                                        newPassword: string, now: int, k: nat)
    requires IndexOfUser(s.users, userId) == Some(k)
    requires CorrectPassword(currentPassword, s.users[k].password)
    requires |newPassword| >= 8 && s.users[k].name != "" && s.users[k].email != ""
    requires s.users[k].role.Some? || s.userRoleId.Some?
    ensures var (s', r) := UpdatePasswordOutcome(s, userId, currentPassword, Some(newPassword), Some(newPassword), now);
      && r.Ok? && s' == s.(users := s.users[k := r.value])
      && CorrectPassword(newPassword, r.value.password)
      && (currentPassword != newPassword ==> !CorrectPassword(currentPassword, r.value.password))
      && r.value.passwordConfirm == None
      && r.value.passwordChangedAt == Some(now - 1000)
  {
    var w := s.users[k].(password := AssignedPassword(Some(newPassword)), passwordConfirm := Some(newPassword));
    assert UserErrors(w) == [];
  }

  /**
   * A token that fails verification, or whose (id, jti) pair is on the
   * blacklist, gets no tokens and writes nothing; otherwise the old token's
   * key is added to the blacklist and a pair for the token's user is issued.
   */
  lemma RefreshChecksBlacklist(s: AuthState, oldRefreshToken: string, verify: string -> Result<Claims, JwtError>,
                               keyWritten: string -> string, generate: string -> TokenPair)
    ensures verify(oldRefreshToken).Err? ==>
      RefreshOutcome(s, oldRefreshToken, verify, keyWritten, generate) == (s, Err(JwtFailed(verify(oldRefreshToken).error)))
    ensures verify(oldRefreshToken).Ok? && BlacklistKey(verify(oldRefreshToken).value) in s.blacklist ==>
      RefreshOutcome(s, oldRefreshToken, verify, keyWritten, generate) == (s, Err(Raised(AppError("Token revoked", UNAUTHORIZED))))
    ensures verify(oldRefreshToken).Ok? && BlacklistKey(verify(oldRefreshToken).value) !in s.blacklist ==>
      RefreshOutcome(s, oldRefreshToken, verify, keyWritten, generate) ==
        (s.(blacklist := s.blacklist + {keyWritten(oldRefreshToken)}), Ok(generate(verify(oldRefreshToken).value.id)))
  {
  }

  /**
   * When the key written for a token is the key read for it, a refresh token
   * works once: presenting it again is answered 'Token revoked'.
   */
  lemma RefreshTokenSingleUse(s: AuthState, oldRefreshToken: string, verify: string -> Result<Claims, JwtError>,
                              keyWritten: string -> string, generate: string -> TokenPair)
    requires verify(oldRefreshToken).Ok? && keyWritten(oldRefreshToken) == BlacklistKey(verify(oldRefreshToken).value)
    ensures var s1 := RefreshOutcome(s, oldRefreshToken, verify, keyWritten, generate).0;
      RefreshOutcome(s1, oldRefreshToken, verify, keyWritten, generate) == (s1, Err(Raised(AppError("Token revoked", UNAUTHORIZED))))
  {
  }
}
