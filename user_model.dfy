/**
 * The User document (models/userModel.js): fields and defaults, the
 * password validators, the three pre-save hooks (hash a changed password,
 * stamp `passwordChangedAt`, default the role), and the instance methods
 * `correctPassword`, `changedPasswordAfter`, `createPasswordResetToken` and
 * `isLocked`. Times are ms instants, JWT `iat` values are seconds.
 */
module UserModel {
  import opened Wrappers
  import opened Strings
  import opened Schema
  import opened Failures
  import opened Helpers

  /**
   * A password field as the document holds it: text assigned since the last
   * save, or a bcrypt digest, modelled as an ideal hash of the text. A
   * freshly assigned value is exactly what `isModified('password')` detects,
   * since a stored password is always a digest.
   */
  datatype Secret = Plain(text: string) | BcryptDigest(of: string)

  /** `bcrypt.compare(candidate, stored)`: true only for the digest of the candidate. */
  predicate CorrectPassword(candidate: string, stored: Option<Secret>) {
    stored == Some(BcryptDigest(candidate))
  }

  const RESET_TOKEN_TTL: int := 10 * 60 * 1000
  const DEFAULT_PHOTO: string := "default.jpg"

  datatype User = User(
    id: string,
    name: string,
    email: string,
    photo: string,
    password: Option<Secret>,
    passwordConfirm: Option<string>,
    role: Option<string>,
    passwordChangedAt: Option<int>,
    passwordResetToken: Option<Sha256Hex>,
    passwordResetExpires: Option<int>,
    active: bool,
    failedAttempts: int,
    lockUntil: Option<int>)

  predicate PasswordModified(u: User) {
    u.password.Some? && u.password.value.Plain?
  }

  /** `user.isLocked()`: a lock deadline is set and still in the future. */
  predicate IsLocked(u: User, now: int) {
    u.lockUntil.Some? && u.lockUntil.value > now
  }

  /** `parseInt(x / 1000, 10)`: division truncated toward zero. */
  function TruncDiv1000(x: int): int {
    if x >= 0 then x / 1000 else -((-x) / 1000)
  }

  /** `user.changedPasswordAfter(iat)` */
  predicate ChangedPasswordAfter(u: User, iat: int) {
    u.passwordChangedAt.Some? && TruncDiv1000(u.passwordChangedAt.value) > iat
  }

  /**
   * With no change recorded no token is stale. Otherwise the stamp is cut to
   * whole seconds toward zero: from 1970 on a token is stale exactly when it
   * was issued in an earlier whole second than the change; before 1970 the
   * cut rounds up, so a token is stale exactly when the change is after
   * `1000 * iat` ms.
   */
  lemma ChangedPasswordAfterMeaning(u: User, iat: int)
    ensures u.passwordChangedAt.None? ==> !ChangedPasswordAfter(u, iat)
    ensures u.passwordChangedAt.Some? && u.passwordChangedAt.value >= 0 ==>
      (ChangedPasswordAfter(u, iat) <==> u.passwordChangedAt.value >= 1000 * (iat + 1))
    ensures u.passwordChangedAt.Some? && u.passwordChangedAt.value < 0 ==>
      (ChangedPasswordAfter(u, iat) <==> u.passwordChangedAt.value > 1000 * iat)
  {
    if u.passwordChangedAt.Some? {
      var ms := u.passwordChangedAt.value;
      if ms >= 0 {
        if ms >= 1000 * (iat + 1) {
          assert ms / 1000 >= iat + 1;
        } else {
          assert ms / 1000 <= iat;
        }
      } else {
        var q := (-ms) / 1000;
        assert 1000 * q <= -ms < 1000 * q + 1000;
        if ms > 1000 * iat {
          assert -q > iat;
        } else {
          assert -q <= iat;
        }
      }
    }
  }

  /**
   * The one-second back-dating of `passwordChangedAt` means a token issued
   * at or after the save that changed the password is still accepted, while
   * one issued two seconds or more before it is refused.
   */
  lemma ChangeStampSeparatesTokens(saveAt: int, issuedAtMs: int)
    requires saveAt >= 1000 && issuedAtMs >= 0
    ensures var u := User("", "", "", "", None, None, None, Some(saveAt - 1000), None, None, true, 0, None);
      && (issuedAtMs >= saveAt ==> !ChangedPasswordAfter(u, issuedAtMs / 1000))
      && (issuedAtMs + 2000 <= saveAt ==> ChangedPasswordAfter(u, issuedAtMs / 1000))
  {
    var u := User("", "", "", "", None, None, None, Some(saveAt - 1000), None, None, true, 0, None);
    ChangedPasswordAfterMeaning(u, issuedAtMs / 1000);
  }

  /** The validators a full `save()` runs on a user, path by path, in schema order. */
  function UserErrors(u: User): seq<string> {
    RequiredString(Some(u.name), "Please enter your name")
      + RequiredString(Some(u.email), "Please enter tour email address")
      + (match u.password
         case None => ["Please enter a password"]
         case Some(Plain(t)) =>
           if t == "" then ["Please enter a password"]
           else if |t| < 8 then ["Password need at least 8 characters"] else []
         case Some(BcryptDigest(_)) => [])
      + (match u.passwordConfirm
         case None => ["Please enter confirm password"]
         case Some(c) =>
           if c == "" then ["Please enter confirm password"]
           else if u.password != Some(Plain(c)) then ["Password and confirm password does not match"] else [])
  }

  const NULL_ROLE_ID: string := "Cannot read properties of null (reading 'id')"

  /**
   * `user.save(...)` on a document whose 'user' role has id `userRoleId`
   * (None when the roles collection has no such role). Validation, when on,
   * runs before the hooks on the assigned plain text; then a changed
   * password is hashed and its confirmation cleared, an existing document
   * with a changed password is stamped one second in the past, and a
   * document without a role receives the 'user' role.
   */
  function SaveOutcome(u: User, isNew: bool, validate: bool, now: int, userRoleId: Option<string>): (r: Result<User, Failure>)
    ensures validate && UserErrors(u) != [] ==> r == Err(ValidationFailed(UserErrors(u)))
    ensures (!validate || UserErrors(u) == []) && u.role.None? && userRoleId.None? ==> r == Err(TypeErrorThrown(NULL_ROLE_ID))
    ensures r.Ok? <==> (!validate || UserErrors(u) == []) && (u.role.Some? || userRoleId.Some?)
    ensures r.Ok? && PasswordModified(u) ==>
      && r.value.password == Some(BcryptDigest(u.password.value.text))
      && CorrectPassword(u.password.value.text, r.value.password)
      && r.value.passwordConfirm == None
    ensures r.Ok? && !PasswordModified(u) ==> r.value.password == u.password && r.value.passwordConfirm == u.passwordConfirm
    ensures r.Ok? ==> r.value.passwordChangedAt == if PasswordModified(u) && !isNew then Some(now - 1000) else u.passwordChangedAt
    ensures r.Ok? ==> r.value.role == if u.role.None? then userRoleId else u.role
    ensures r.Ok? ==>
      r.value.(password := u.password, passwordConfirm := u.passwordConfirm, passwordChangedAt := u.passwordChangedAt, role := u.role) == u
  {
    if validate && UserErrors(u) != [] then Err(ValidationFailed(UserErrors(u)))
    else
      var hashed := if PasswordModified(u) then u.(password := Some(BcryptDigest(u.password.value.text)), passwordConfirm := None) else u;
      var stamped := if PasswordModified(u) && !isNew then hashed.(passwordChangedAt := Some(now - 1000)) else hashed;
      if stamped.role.Some? then Ok(stamped)
      else if userRoleId.None? then Err(TypeErrorThrown(NULL_ROLE_ID))
      else Ok(stamped.(role := userRoleId))
  }

  /** A validated save refuses a short password and a confirmation that differs. */
  lemma PasswordRulesEnforced(u: User, isNew: bool, now: int, userRoleId: Option<string>)
    requires u.password.Some? && u.password.value.Plain? && u.password.value.text != ""
    requires |u.password.value.text| < 8 || (u.passwordConfirm.Some? && u.passwordConfirm.value != "" && u.passwordConfirm.value != u.password.value.text)
    ensures SaveOutcome(u, isNew, true, now, userRoleId).Err?
    ensures var ms := SaveOutcome(u, isNew, true, now, userRoleId).error.messages;
      (|u.password.value.text| < 8 ==> "Password need at least 8 characters" in ms)
      && (u.passwordConfirm.Some? && u.passwordConfirm.value != "" && u.passwordConfirm.value != u.password.value.text ==>
            "Password and confirm password does not match" in ms)
  {
    var a := RequiredString(Some(u.name), "Please enter your name") + RequiredString(Some(u.email), "Please enter tour email address");
    var pw := if |u.password.value.text| < 8 then ["Password need at least 8 characters"] else [];
    var pc :=
      match u.passwordConfirm
      case None => ["Please enter confirm password"]
      case Some(c) =>
        if c == "" then ["Please enter confirm password"]
        else if u.password != Some(Plain(c)) then ["Password and confirm password does not match"] else [];
    assert UserErrors(u) == a + pw + pc;
    if |u.password.value.text| < 8 {
      assert (a + pw + pc)[|a|] == "Password need at least 8 characters";
    }
    if u.passwordConfirm.Some? && u.passwordConfirm.value != "" && u.passwordConfirm.value != u.password.value.text {
      assert (a + pw + pc)[|a| + |pw|] == "Password and confirm password does not match";
    }
  }

  /** The fields a new user is created with; None for a field left out. */
  datatype UserInput = UserInput(
    name: Option<string>,
    email: Option<string>,
    photo: Option<string>,
    password: Option<string>,
    passwordConfirm: Option<string>,
    role: Option<string>)

  /** A user document in memory, between loading (or creation) and `save()`. */
  class UserDocument {
    const id: string
    var name: string
    var email: string
    var photo: string
    var password: Option<Secret>
    var passwordConfirm: Option<string>
    var role: Option<string>
    var passwordChangedAt: Option<int>
    var passwordResetToken: Option<Sha256Hex>
    var passwordResetExpires: Option<int>
    var active: bool
    var failedAttempts: int
    var lockUntil: Option<int>
    var isNew: bool

    function Value(): User
      reads this
    {
      User(id, name, email, photo, password, passwordConfirm, role, passwordChangedAt,
           passwordResetToken, passwordResetExpires, active, failedAttempts, lockUntil)
    }

    /** A document loaded from the collection. */
    constructor Load(u: User)
      ensures Value() == u && !isNew
    {
      id := u.id;
      name := u.name;
      email := u.email;
      photo := u.photo;
      password := u.password;
      passwordConfirm := u.passwordConfirm;
      role := u.role;
      passwordChangedAt := u.passwordChangedAt;
      passwordResetToken := u.passwordResetToken;
      passwordResetExpires := u.passwordResetExpires;
      active := u.active;
      failedAttempts := u.failedAttempts;
      lockUntil := u.lockUntil;
      isNew := false;
    }

    /**
     * `new User(input)`: the defaults (photo 'default.jpg', active, no failed
     * attempts, no lock) and the lowercasing setter of `email`.
     */
    constructor Create(newId: string, input: UserInput)
      ensures Value() == User(newId, input.name.GetOr(""), Lower(input.email.GetOr("")), input.photo.GetOr(DEFAULT_PHOTO),
                              if input.password.Some? then Some(Plain(input.password.value)) else None,
                              input.passwordConfirm, input.role, None, None, None, true, 0, None)
      ensures isNew
    {
      id := newId;
      name := input.name.GetOr("");
      email := Lower(input.email.GetOr(""));
      photo := input.photo.GetOr(DEFAULT_PHOTO);
      password := if input.password.Some? then Some(Plain(input.password.value)) else None;
      passwordConfirm := input.passwordConfirm;
      role := input.role;
      passwordChangedAt := None;
      passwordResetToken := None;
      passwordResetExpires := None;
      active := true;
      failedAttempts := 0;
      lockUntil := None;
      isNew := true;
    }

    /**
     * `createPasswordResetToken()`, with the hex text of the random bytes as
     * input: only the token's digest is stored, it expires ten minutes from
     * `now`, and the plain token is returned.
     */
    method CreatePasswordResetToken(randomHex: string, now: int) returns (resetToken: string)
      modifies this
      ensures resetToken == randomHex
      ensures Value() == old(Value()).(passwordResetToken := Some(HashToken(randomHex)), passwordResetExpires := Some(now + RESET_TOKEN_TTL))
      ensures isNew == old(isNew)
    {
      resetToken := randomHex;
      passwordResetToken := Some(HashToken(resetToken));
      passwordResetExpires := Some(now + 10 * 60 * 1000);
    }

    /** `save({ validateBeforeSave: validate })`, running the hooks on this document. */
    method Save(validate: bool, now: int, userRoleId: Option<string>) returns (r: Result<User, Failure>)
      modifies this
      ensures r == SaveOutcome(old(Value()), old(isNew), validate, now, userRoleId)
      ensures r.Ok? ==> Value() == r.value && !isNew
      ensures r.Err? && r.error.ValidationFailed? ==> Value() == old(Value()) && isNew == old(isNew)
    {
      if validate {
        var errors := UserErrors(Value());
        if errors != [] {
          return Err(ValidationFailed(errors));
        }
      }
      var modified := PasswordModified(Value());
      if modified {
        password := Some(BcryptDigest(password.value.text));
        passwordConfirm := None;
      }
      if modified && !isNew {
        passwordChangedAt := Some(now - 1000);
      }
      if role.None? {
        if userRoleId.None? {
          return Err(TypeErrorThrown(NULL_ROLE_ID));
        }
        role := userRoleId;
      }
      isNew := false;
      return Ok(Value());
    }
  }
}
