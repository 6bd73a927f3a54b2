/**
 * The server's user models (backend/src/models/user.py): the role enum, the
 * stored row with its defaults, the request shapes and the public view, and
 * the partial update `UserService.update_user` applies field by field.
 */
module ServerUserModels {
  import opened Wrappers
  import opened Uuids
  import opened Unicode

  /** A point in time (a `datetime`), in seconds; the clock is a parameter everywhere. */
  type Timestamp = int

  datatype UserRole = RegularUser | Admin {
    /** The enum's string value. */
    function Value(): string {
      match this
      case RegularUser => "user"
      case Admin => "admin"
    }
  }

  /**
   * A bcrypt hash: the salt it was made with and the key bytes it commits to.
   * bcrypt is idealised as injective in the key.
   */
  datatype Digest = Digest(salt: nat, key: seq<byte>)

  /** A row of the `user` table. */
  datatype User = User(
    id: Uuid, email: string, hashedPassword: Digest, isActive: bool, emailVerified: bool,
    role: UserRole, createdAt: Timestamp, updatedAt: Timestamp)

  /**
   * A sign-up body: the fields of `UserBase` (which the service ignores) and
   * the password twice.
   */
  datatype UserCreate = UserCreate(
    email: string, isActive: bool, emailVerified: bool, role: UserRole,
    password: string, confirmPassword: string)

  datatype UserLogin = UserLogin(email: string, password: string)

  /** A partial update; `role` is not among the fields a client may send. */
  datatype UserUpdate = UserUpdate(email: Patch<Option<string>>, isActive: Patch<Option<bool>>, emailVerified: Patch<Option<bool>>)

  /** What the API shows of a user: no password hash. */
  datatype UserPublic = UserPublic(
    id: Uuid, email: string, isActive: bool, emailVerified: bool, role: UserRole, createdAt: Timestamp)

  /**
   * `User(email=..., hashed_password=...)`: a fresh row takes the model
   * defaults, active, unverified and an ordinary user, created and updated now.
   */
  function NewUser(id: Uuid, email: string, hash: Digest, now: Timestamp): (u: User)
    ensures u.id == id && u.email == email && u.hashedPassword == hash
    ensures u.isActive && !u.emailVerified && u.role == RegularUser
    ensures u.createdAt == now && u.updatedAt == now
  {
    User(id, email, hash, true, false, RegularUser, now, now)
  }

  function Public(u: User): UserPublic {
    UserPublic(u.id, u.email, u.isActive, u.emailVerified, u.role, u.createdAt)
  }

  /** The columns `update_user` may write, as Python attributes: each can be set to None. */
  datatype UserColumns = UserColumns(email: Option<string>, isActive: Option<bool>, emailVerified: Option<bool>)

  function UserColumnsOf(u: User): UserColumns {
    UserColumns(Some(u.email), Some(u.isActive), Some(u.emailVerified))
  }

  /**
   * The row after its columns were written; None when a NOT NULL column
   * (all three are) holds None, which the commit refuses.
   */
  function WithUserColumns(u: User, c: UserColumns): (r: Option<User>)
    ensures r.Some? <==> c.email.Some? && c.isActive.Some? && c.emailVerified.Some?
    ensures r.Some? ==>
      UserColumnsOf(r.value) == c && r.value.id == u.id &&
      r.value.hashedPassword == u.hashedPassword && r.value.role == u.role &&
      r.value.createdAt == u.createdAt && r.value.updatedAt == u.updatedAt
    ensures c == UserColumnsOf(u) ==> r == Some(u)
  {
    if c.email.Some? && c.isActive.Some? && c.emailVerified.Some? then
      Some(u.(email := c.email.value, isActive := c.isActive.value, emailVerified := c.emailVerified.value))
    else None
  }

  /** One entry of `user_update.model_dump(exclude_unset=True)`. */
  datatype UserFieldValue = EmailValue(email: Option<string>) | IsActiveValue(isActive: Option<bool>)
    | EmailVerifiedValue(emailVerified: Option<bool>)

  /** The fields the client sent, in declaration order. */
  function UserUpdateData(u: UserUpdate): seq<UserFieldValue> {
    (if u.email.Set? then [EmailValue(u.email.value)] else []) +
    (if u.isActive.Set? then [IsActiveValue(u.isActive.value)] else []) +
    (if u.emailVerified.Set? then [EmailVerifiedValue(u.emailVerified.value)] else [])
  }

  /** `setattr(user, field, value)`. */
  function SetUserAttr(c: UserColumns, f: UserFieldValue): UserColumns {
    match f
    case EmailValue(v) => c.(email := v)
    case IsActiveValue(v) => c.(isActive := v)
    case EmailVerifiedValue(v) => c.(emailVerified := v)
  }

  /** The `setattr` loop over a prefix of the update data. */
  function SetUserAll(c: UserColumns, data: seq<UserFieldValue>): UserColumns
    decreases |data|
  {
    if data == [] then c else SetUserAttr(SetUserAll(c, data[..|data| - 1]), data[|data| - 1])
  }

  /** The reference meaning of a partial update: a sent field replaces the column, the others stay. */
  function PatchedUser(c: UserColumns, u: UserUpdate): UserColumns {
    UserColumns(
      if u.email.Set? then u.email.value else c.email,
      if u.isActive.Set? then u.isActive.value else c.isActive,
      if u.emailVerified.Set? then u.emailVerified.value else c.emailVerified)
  }

  /** The `setattr` loop changes exactly the fields that were sent. */
  lemma SetUserAllIsPatched(c: UserColumns, u: UserUpdate)
    ensures SetUserAll(c, UserUpdateData(u)) == PatchedUser(c, u)
  {
    var a := if u.email.Set? then [EmailValue(u.email.value)] else [];
    var b := if u.isActive.Set? then [IsActiveValue(u.isActive.value)] else [];
    var d := if u.emailVerified.Set? then [EmailVerifiedValue(u.emailVerified.value)] else [];
    SetUserAllAppend(c, a, b);
    SetUserAllAppend(c, a + b, d);
    assert SetUserAll(c, a) == c.(email := if u.email.Set? then u.email.value else c.email);
  }

  lemma {:induction false} SetUserAllAppend(c: UserColumns, a: seq<UserFieldValue>, b: seq<UserFieldValue>)
    ensures SetUserAll(c, a + b) == SetUserAll(SetUserAll(c, a), b)
    decreases |b|
  {
    if b == [] {
      assert a + b == a;
    } else {
      assert (a + b)[..|a + b| - 1] == a + b[..|b| - 1];
      SetUserAllAppend(c, a, b[..|b| - 1]);
    }
  }
}
