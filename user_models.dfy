/** Users, roles and password-reset tokens (users/models.py): the user
    manager's provisioning rules, the model defaults and token expiry, over
    an in-memory store of user and token records. */
module UserModels {
  import opened Wrappers
  import Text

  type UserId = nat

  /** The closed role enumeration of `UserRoles`. */
  datatype Role = SuperAdmin | Admin | ExternalLawyer | InternalLawyer | Customer

  /** An authenticated request user: its primary key and its role. */
  datatype Principal = Principal(id: UserId, role: Role)

  /** `request.user`: the anonymous user carries no role at all. */
  datatype RequestUser = Anonymous | SignedIn(principal: Principal)

  /** A `CustomUser` row. The password hash is abstracted to the raw password
      it was set from; `None` is Django's unusable password (`set_password(None)`). */
  datatype User = User(
    email: string,
    password: Option<string>,
    role: Role,
    firstName: string,
    lastName: string,
    isActive: bool,
    isStaff: bool,
    isSuperuser: bool)

  /** `user.check_password(raw)`; an unusable password matches nothing. */
  predicate CheckPassword(u: User, raw: string) {
    u.password == Some(raw)
  }

  /** The keyword arguments `create_user` passes on to the model; `None`
      stands for a keyword that was not supplied. */
  datatype ExtraFields = ExtraFields(
    firstName: Option<string>,
    lastName: Option<string>,
    isActive: Option<bool>,
    isStaff: Option<bool>,
    isSuperuser: Option<bool>)

  const NoExtras := ExtraFields(None, None, None, None, None)

  /** Every way an operation on users, tokens or appellants can fail. */
  datatype Error =
    | EmailRequired       // ValueError "The Email field must be set" (users/models.py:17)
    | DuplicateEmail      // unique constraint on CustomUser.email
    | DuplicateToken      // unique constraint on PasswordResetToken.token
    | NoUserWithEmail     // "No user found with this email." (users/serializers.py:96)
    | InvalidToken        // "Invalid or expired token." (users/serializers.py:123)
    | TokenExpired        // "Token has expired." (users/serializers.py:127)
    | InvalidCredentials  // "Invalid email or password." (users/serializers.py:73)
    | AccountDisabled     // "User account is disabled." (users/serializers.py:75)
    | WrongOldPassword    // "Old password is incorrect." (users/serializers.py:85)
    | MissingKey(key: string)  // KeyError on a dict lookup

  /** The role `create_user` stores: a superuser is always a super admin,
      otherwise the requested role, which defaults to customer. */
  function StoredRole(requested: Option<Role>, extra: ExtraFields): (r: Role)
    ensures extra.isSuperuser == Some(true) ==> r == SuperAdmin
    ensures extra.isSuperuser != Some(true) && requested.Some? ==> r == requested.value
    ensures extra.isSuperuser != Some(true) && requested.None? ==> r == Customer
  {
    if extra.isSuperuser.GetOr(false) then SuperAdmin else requested.GetOr(Customer)
  }

  /** The row `self.model(email=..., role=..., **extra_fields)` builds, with
      the field defaults of `CustomUser` and `PermissionsMixin`. */
  function NewUser(email: string, password: Option<string>, role: Role, extra: ExtraFields): User {
    User(email, password, role,
         extra.firstName.GetOr(""), extra.lastName.GetOr(""),
         extra.isActive.GetOr(true), extra.isStaff.GetOr(false), extra.isSuperuser.GetOr(false))
  }

  /** A user created without extra fields is active, not staff, not a
      superuser, has empty names and, unless another role is asked for, is a
      customer. */
  lemma NewUserDefaults(email: string, password: Option<string>)
    ensures var u := NewUser(email, password, StoredRole(None, NoExtras), NoExtras);
      u.isActive && !u.isStaff && !u.isSuperuser && u.role == Customer
      && u.firstName == "" && u.lastName == "" && u.email == email
  {
  }

  /** The keyword arguments `create_superuser` hands to `create_user`:
      `is_staff` and `is_superuser` default to true, supplied values are kept. */
  function SuperuserExtras(extra: ExtraFields): (e: ExtraFields)
    ensures e.isStaff.Some? && e.isSuperuser.Some?
    ensures extra.isStaff.Some? ==> e.isStaff == extra.isStaff
    ensures extra.isSuperuser.Some? ==> e.isSuperuser == extra.isSuperuser
    ensures extra.isStaff.None? ==> e.isStaff == Some(true)
    ensures extra.isSuperuser.None? ==> e.isSuperuser == Some(true)
    ensures e.firstName == extra.firstName && e.lastName == extra.lastName && e.isActive == extra.isActive
  {
    extra.(isStaff := Some(extra.isStaff.GetOr(true)), isSuperuser := Some(extra.isSuperuser.GetOr(true)))
  }

  /** One hour, the lifetime of a reset token, in seconds. */
  const TokenLifetime: int := 3600

  /** A `PasswordResetToken` row; the store keys it by its unique token string. */
  datatype ResetToken = ResetToken(owner: UserId, createdAt: int)

  /** `is_expired`: created strictly before one hour ago. */
  function IsExpired(t: ResetToken, now: int): (expired: bool)
    ensures expired <==> now - t.createdAt > TokenLifetime
  {
    t.createdAt < now - TokenLifetime
  }

  /** A token exactly one hour old is still valid; one second later it is not. */
  lemma ExpiryBoundary(t: ResetToken)
    ensures !IsExpired(t, t.createdAt + TokenLifetime)
    ensures IsExpired(t, t.createdAt + TokenLifetime + 1)
  {
  }

  /** Once expired, a token stays expired. */
  lemma ExpiryIsPermanent(t: ResetToken, now: int, later: int)
    requires now <= later
    ensures IsExpired(t, now) ==> IsExpired(t, later)
  {
  }

  ghost predicate EmailTaken(users: map<UserId, User>, email: string) {
    exists id :: id in users && users[id].email == email
  }

  ghost predicate UniqueEmails(users: map<UserId, User>) {
    forall a, b :: a in users && b in users && users[a].email == users[b].email ==> a == b
  }

  /** The user and reset-token tables. `normalize` is `normalize_email`, a
      library function the model does not look into. */
  class UserStore {
    var users: map<UserId, User>
    var tokens: map<string, ResetToken>
    var nextUser: UserId
    const normalize: string -> string

    ghost predicate Valid()
      reads this
    {
      && (forall id :: id in users ==> id < nextUser)
      && (forall t :: t in tokens ==> tokens[t].owner in users)
      && UniqueEmails(users)
    }

    constructor (normalize: string -> string)
      ensures Valid() && this.normalize == normalize
      ensures users == map[] && tokens == map[]
    {
      this.normalize := normalize;
      users, tokens, nextUser := map[], map[], 0;
    }

    /** `CustomUserManager.create_user`. */
    method CreateUser(email: string, password: Option<string>, role: Option<Role>, extra: ExtraFields)
      returns (r: Result<UserId, Error>)
      requires Valid()
      modifies this
      ensures Valid() && tokens == old(tokens)
      ensures email == "" ==> r == Err(EmailRequired)
      ensures email != "" ==> (r.Ok? <==> !EmailTaken(old(users), normalize(email)))
      ensures r.Err? ==> users == old(users)
      ensures r.Ok? ==>
                r.value !in old(users)
                && users == old(users)[r.value := NewUser(normalize(email), password, StoredRole(role, extra), extra)]
    {
      if email == "" {
        return Err(EmailRequired);
      }
      var normalized := normalize(email);
      if exists id :: id in users && users[id].email == normalized {
        return Err(DuplicateEmail);
      }
      var id := nextUser;
      users := users[id := NewUser(normalized, password, StoredRole(role, extra), extra)];
      nextUser := nextUser + 1;
      r := Ok(id);
    }

    /** `CustomUserManager.create_superuser`. */
    method CreateSuperuser(email: string, password: Option<string>, extra: ExtraFields)
      returns (r: Result<UserId, Error>)
      requires Valid()
      modifies this
      ensures Valid() && tokens == old(tokens)
      ensures email == "" ==> r == Err(EmailRequired)
      ensures r.Ok? <==> email != "" && !EmailTaken(old(users), normalize(email))
      ensures r.Err? ==> users == old(users)
      ensures r.Ok? ==>
                r.value !in old(users)
                && users == old(users)[r.value := NewUser(normalize(email), password, SuperAdmin, SuperuserExtras(extra))]
      ensures r.Ok? ==> users[r.value].role == SuperAdmin
    {
      r := CreateUser(email, password, Some(SuperAdmin), SuperuserExtras(extra));
    }

    /** `user.set_password(raw); user.save()`. */
    method SetPassword(id: UserId, raw: Option<string>)
      requires Valid() && id in users
      modifies this
      ensures Valid() && tokens == old(tokens)
      ensures users == old(users)[id := old(users)[id].(password := raw)]
    {
      users := users[id := users[id].(password := raw)];
    }

    /** `PasswordResetToken.create_token`: `value` is the 64-character random
        string of letters and digits `get_random_string(length=64)` draws. */
    method CreateToken(owner: UserId, value: string, now: int) returns (r: Result<string, Error>)
      requires Valid() && owner in users
      requires |value| == 64 && Text.AllAlphanumeric(value)
      modifies this
      ensures Valid() && users == old(users)
      ensures value in old(tokens) ==> r == Err(DuplicateToken) && tokens == old(tokens)
      ensures value !in old(tokens) ==> r == Ok(value) && tokens == old(tokens)[value := ResetToken(owner, now)]
    {
      if value in tokens {
        return Err(DuplicateToken);
      }
      tokens := tokens[value := ResetToken(owner, now)];
      r := Ok(value);
    }

    /** `PasswordResetToken.objects.filter(user=owner).delete()`. */
    method DeleteTokensOf(owner: UserId)
      requires Valid()
      modifies this
      ensures Valid() && users == old(users)
      ensures tokens == TokensNotOwnedBy(old(tokens), owner)
    {
      tokens := TokensNotOwnedBy(tokens, owner);
    }

    /** `reset_token.delete()`. */
    method DeleteToken(value: string)
      requires Valid()
      modifies this
      ensures Valid() && users == old(users)
      ensures tokens == old(tokens) - {value}
    {
      tokens := tokens - {value};
    }
  }

  /** The tokens left after deleting every token of `owner`. */
  function TokensNotOwnedBy(tokens: map<string, ResetToken>, owner: UserId): (r: map<string, ResetToken>)
    ensures forall t :: t in r <==> t in tokens && tokens[t].owner != owner
    ensures forall t :: t in r ==> r[t] == tokens[t]
  {
    map t | t in tokens && tokens[t].owner != owner :: tokens[t]
  }
}
