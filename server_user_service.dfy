/**
 * Accounts (backend/src/services/user_service.py): password hashing with the
 * 72-byte bcrypt truncation, registration, look-ups, the partial update,
 * sign-in with token issue, and deactivation.
 */
module ServerUserService {
  import opened Wrappers
  import opened Uuids
  import opened Unicode
  import opened ServerHttp
  import opened ServerUserModels
  import opened ServerDb
  import opened ServerJwt
  import opened ServerAuthConfig

  const BcryptKeyBytes := 72

  const EmailExistsDetail := "A user with this email already exists"
  const PasswordsDifferDetail := "Passwords do not match"
  const InvalidUserIdDetail := "Invalid user ID format"
  const AccountDeactivatedDetail := "Account is deactivated"
  const BearerType := "bearer"

  /** `password.encode('utf-8')[:72]`. */
  function Truncate72(b: seq<byte>): (r: seq<byte>)
    ensures r <= b
    ensures |r| == if |b| < BcryptKeyBytes then |b| else BcryptKeyBytes
  {
    if |b| <= BcryptKeyBytes then b else b[..BcryptKeyBytes]
  }

  /** `get_password_hash`: bcrypt over at most the first 72 UTF-8 bytes, with a fresh salt. */
  function GetPasswordHash(password: string, salt: nat): (d: Digest)
    ensures d.salt == salt && |d.key| <= BcryptKeyBytes
  {
    Digest(salt, Truncate72(Encode(password)))
  }

  /** `verify_password`: `bcrypt.checkpw` over the truncated bytes. */
  function VerifyPassword(plain: string, hashed: Digest): bool {
    Truncate72(Encode(plain)) == hashed.key
  }

  /**
   * A hash accepts its own password, and exactly the passwords whose first
   * 72 bytes agree with it; the salt plays no part.
   */
  lemma VerifyHashed(password: string, candidate: string, salt: nat)
    ensures VerifyPassword(password, GetPasswordHash(password, salt))
    ensures VerifyPassword(candidate, GetPasswordHash(password, salt)) <==>
      Truncate72(Encode(candidate)) == Truncate72(Encode(password))
  {
  }

  /** Whatever follows the 72nd byte of a password is ignored: any extension of a long password signs in. */
  lemma LongPasswordExtensionsVerify(password: string, suffix: string, salt: nat)
    requires |Encode(password)| >= BcryptKeyBytes
    ensures VerifyPassword(password + suffix, GetPasswordHash(password, salt))
  {
    EncodeAppend(password, suffix);
    assert (Encode(password) + Encode(suffix))[..BcryptKeyBytes] == Encode(password)[..BcryptKeyBytes];
  }

  /** The row `create_user` adds. */
  function Registered(body: UserCreate, salt: nat, id: Uuid, now: Timestamp): User {
    NewUser(id, body.email, GetPasswordHash(body.password, salt), now)
  }

  /**
   * `create_user`: refuse a taken email, then a password confirmation that
   * differs, then insert the new row (the fields of `UserBase` in the body
   * are ignored); an id collision of the fresh uuid4 is an IntegrityError.
   */
  method CreateUser(db: Database, body: UserCreate, salt: nat, freshId: Uuid, now: Timestamp)
    returns (r: Outcome<UserPublic>)
    requires db.Valid()
    modifies db
    ensures db.Valid() && db.tasks == old(db.tasks)
    ensures old(EmailTaken(db.users, body.email)) ==>
      r == Fail(BadRequest, EmailExistsDetail) && db.users == old(db.users)
    ensures !old(EmailTaken(db.users, body.email)) && body.password != body.confirmPassword ==>
      r == Fail(BadRequest, PasswordsDifferDetail) && db.users == old(db.users)
    ensures !old(EmailTaken(db.users, body.email)) && body.password == body.confirmPassword ==>
      var u := Registered(body, salt, freshId, now);
      if old(UserIdTaken(db.users, freshId)) then r.Crash? && db.users == old(db.users)
      else r == Ok(Public(u)) && db.users == old(db.users) + [u]
  {
    var existing := UserIndexByEmail(db.users, body.email);
    if existing.Some? {
      return Fail(BadRequest, EmailExistsDetail);
    }
    if body.password != body.confirmPassword {
      return Fail(BadRequest, PasswordsDifferDetail);
    }
    var user := NewUser(freshId, body.email, GetPasswordHash(body.password, salt), now);
    var ok := db.InsertUser(user);
    if !ok {
      return Crash("IntegrityError");
    }
    r := Ok(Public(user));
  }

  /**
   * `get_user_by_id`: 400 for a string that is not a UUID, otherwise the
   * public view of the row with that id, if there is one.
   */
  function GetUserById(users: seq<User>, userId: string): (r: Outcome<Option<UserPublic>>)
    ensures Parse(userId).None? <==> r == Fail(BadRequest, InvalidUserIdDetail)
    ensures r.Ok? && r.value.Some? ==>
      exists j :: 0 <= j < |users| && users[j].id == Parse(userId).value && r.value.value == Public(users[j])
    ensures r.Ok? && r.value.None? ==> !UserIdTaken(users, Parse(userId).value)
    ensures Parse(userId).Some? ==> r.Ok?
  {
    var id := Parse(userId);
    if id.None? then Fail(BadRequest, InvalidUserIdDetail)
    else
      var i := UserIndexById(users, id.value);
      if i.None? then Ok(None) else Ok(Some(Public(users[i.value])))
  }

  /** A user is found again by the id the server writes out for it. */
  lemma GetUserByIdOfToString(users: seq<User>, j: nat)
    requires UsersWellFormed(users) && j < |users|
    ensures GetUserById(users, ToString(users[j].id)) == Ok(Some(Public(users[j])))
  {
    ParseToString(users[j].id);
    var i := UserIndexById(users, users[j].id);
    assert i.Some? by {
      assert users[j].id == users[j].id;
    }
    assert forall k :: 0 <= k < |users| && k != j ==> users[k].id != users[j].id;
  }

  /** `get_user_by_email`. */
  function GetUserByEmail(users: seq<User>, email: string): (r: Option<User>)
    ensures r.Some? ==> r.value in users && r.value.email == email
    ensures r.None? <==> !EmailTaken(users, email)
  {
    var i := UserIndexByEmail(users, email);
    if i.None? then None else Some(users[i.value])
  }

  /** No row other than `i` holds `email`: the unique index lets the update through. */
  predicate EmailFreeFor(users: seq<User>, i: nat, email: string) {
    forall j :: 0 <= j < |users| && j != i ==> users[j].email != email
  }

  /**
   * `update_user`: 400 for a malformed id, None for an unknown one;
   * otherwise every field the client sent is written with `setattr`, one
   * after the other, and the row committed. The commit fails (500) when a
   * field was sent as null (all three columns are NOT NULL) or the new
   * email belongs to someone else. `updated_at` is left as it was.
   */
  method UpdateUser(db: Database, userId: string, update: UserUpdate) returns (r: Outcome<Option<UserPublic>>)
    requires db.Valid()
    modifies db
    ensures db.Valid() && db.tasks == old(db.tasks)
    ensures Parse(userId).None? ==> r == Fail(BadRequest, InvalidUserIdDetail) && db.users == old(db.users)
    ensures Parse(userId).Some? && !old(UserIdTaken(db.users, Parse(userId).value)) ==>
      r == Ok(None) && db.users == old(db.users)
    ensures Parse(userId).Some? && old(UserIdTaken(db.users, Parse(userId).value)) ==>
      var i := old(UserIndexById(db.users, Parse(userId).value)).value;
      var before := old(db.users)[i];
      var after := WithUserColumns(before, PatchedUser(UserColumnsOf(before), update));
      if after.Some? && EmailFreeFor(old(db.users), i, after.value.email) then
        r == Ok(Some(Public(after.value))) && db.users == old(db.users)[i := after.value]
      else
        r.Crash? && db.users == old(db.users)
  {
    var id := Parse(userId);
    if id.None? {
      return Fail(BadRequest, InvalidUserIdDetail);
    }
    var found := UserIndexById(db.users, id.value);
    if found.None? {
      return Ok(None);
    }
    var i := found.value;
    var user := db.users[i];
    var data := UserUpdateData(update);
    var columns := UserColumnsOf(user);
    var k := 0;
    while k < |data|
      invariant 0 <= k <= |data|
      invariant columns == SetUserAll(UserColumnsOf(user), data[..k])
    {
      assert data[..k + 1][..k] == data[..k];
      columns := SetUserAttr(columns, data[k]);
      k := k + 1;
    }
    assert data[..k] == data;
    SetUserAllIsPatched(UserColumnsOf(user), update);
    var row := WithUserColumns(user, columns);
    if row.None? {
      return Crash("IntegrityError: NOT NULL constraint failed");
    }
    var ok := db.UpdateUser(i, row.value);
    if !ok {
      return Crash("IntegrityError: UNIQUE constraint failed: user.email");
    }
    r := Ok(Some(Public(row.value)));
  }

  /** What `authenticate_user` returns on success. */
  datatype LoginResult = LoginResult(user: UserPublic, accessToken: Token, refreshToken: Token, tokenType: string)

  /** `{"sub": str(user.id), "email": user.email}`. */
  function TokenData(u: User): (c: Claims)
    ensures c.Keys == {SubClaim, EmailClaim}
    ensures c[SubClaim] == Text(ToString(u.id)) && c[EmailClaim] == Text(u.email)
  {
    map[SubClaim := Text(ToString(u.id)), EmailClaim := Text(u.email)]
  }

  /** The tokens issued to `u` at `now`, both with their configured lifetimes. */
  function IssueTokens(u: User, cfg: AuthConfig, now: Timestamp): LoginResult {
    LoginResult(Public(u), CreateAccessToken(TokenData(u), None, cfg, now),
                CreateRefreshToken(TokenData(u), None, cfg, now), BearerType)
  }

  /**
   * `UserService.authenticate_user`: None for an unknown email or a wrong
   * password; a 401 with a bearer challenge for a deactivated account;
   * otherwise the public user and a fresh token pair.
   */
  function AuthenticateUser(users: seq<User>, email: string, password: string, cfg: AuthConfig, now: Timestamp)
    : (r: Outcome<Option<LoginResult>>)
    ensures !r.Crash?
    ensures r == Ok(None) <==>
      GetUserByEmail(users, email).None? || !VerifyPassword(password, GetUserByEmail(users, email).value.hashedPassword)
    ensures r.Raise? ==> r == Challenge(Unauthorized, AccountDeactivatedDetail)
    ensures r.Raise? <==>
      GetUserByEmail(users, email).Some? && VerifyPassword(password, GetUserByEmail(users, email).value.hashedPassword) &&
      !GetUserByEmail(users, email).value.isActive
    ensures r.Ok? && r.value.Some? ==>
      var u := GetUserByEmail(users, email).value;
      u.isActive && r.value.value == IssueTokens(u, cfg, now)
  {
    var user := GetUserByEmail(users, email);
    if user.None? || !VerifyPassword(password, user.value.hashedPassword) then Ok(None)
    else if !user.value.isActive then Challenge(Unauthorized, AccountDeactivatedDetail)
    else Ok(Some(IssueTokens(user.value, cfg, now)))
  }

  /**
   * Registration then sign-in: once `create_user` has added its row, the
   * same email and password sign in and are issued tokens for that row.
   */
  lemma SignupThenSignin(users: seq<User>, body: UserCreate, salt: nat, id: Uuid, now: Timestamp, cfg: AuthConfig, later: Timestamp)
    requires !EmailTaken(users, body.email)
    ensures var u := Registered(body, salt, id, now);
      AuthenticateUser(users + [u], body.email, body.password, cfg, later) == Ok(Some(IssueTokens(u, cfg, later)))
  {
    var u := Registered(body, salt, id, now);
    var all := users + [u];
    var i := UserIndexByEmail(all, body.email);
    assert all[|users|].email == body.email;
    assert i.Some?;
    assert forall k :: 0 <= k < |users| ==> all[k].email != body.email;
    VerifyHashed(body.password, body.password, salt);
  }

  /**
   * `deactivate_user`: 400 for a malformed id, False for an unknown one;
   * otherwise the row's `is_active` becomes False (nothing else changes,
   * `updated_at` included) and the answer is True.
   */
  method DeactivateUser(db: Database, userId: string) returns (r: Outcome<bool>)
    requires db.Valid()
    modifies db
    ensures db.Valid() && db.tasks == old(db.tasks)
    ensures Parse(userId).None? ==> r == Fail(BadRequest, InvalidUserIdDetail) && db.users == old(db.users)
    ensures Parse(userId).Some? ==>
      var found := old(UserIndexById(db.users, Parse(userId).value));
      (found.None? ==> r == Ok(false) && db.users == old(db.users)) &&
      (found.Some? ==>
        r == Ok(true) && db.users == old(db.users)[found.value := old(db.users)[found.value].(isActive := false)])
  {
    var id := Parse(userId);
    if id.None? {
      r := Fail(BadRequest, InvalidUserIdDetail);
    } else {
      var found := UserIndexById(db.users, id.value);
      if found.None? {
        r := Ok(false);
      } else {
        var user := db.users[found.value];
        assert forall j :: 0 <= j < |db.users| && j != found.value ==> db.users[j].email != user.email;
        var ok := db.UpdateUser(found.value, user.(isActive := false));
        r := Ok(ok);
      }
    }
  }

  /** A deactivated account can no longer sign in: it is answered with the 401 challenge, whatever the time. */
  lemma DeactivatedCannotSignIn(users: seq<User>, j: nat, password: string, cfg: AuthConfig, now: Timestamp)
    requires UsersWellFormed(users) && j < |users|
    requires VerifyPassword(password, users[j].hashedPassword)
    ensures var after := users[j := users[j].(isActive := false)];
      AuthenticateUser(after, users[j].email, password, cfg, now) == Challenge(Unauthorized, AccountDeactivatedDetail)
  {
    var after := users[j := users[j].(isActive := false)];
    var i := UserIndexByEmail(after, users[j].email);
    assert after[j].email == users[j].email;
    assert i.Some?;
    assert forall k :: 0 <= k < |after| && k != j ==> after[k].email != users[j].email;
  }
}
