/** The account workflows of users/serializers.py: admin provisioning with a
    generated password, login and change-password validation, and the
    forgot-password / reset-password token lifecycle. Sending e-mail is not
    part of the model. */
module UserSerializers {
  import opened Wrappers
  import opened UserModels
  import Text

  /** `UserCreateSerializer.create`: the user is created from the payload and
      its password is then overwritten with `generated`, the 10-character
      letters-and-digits string drawn by `random.choices`, whatever password
      the payload carried. A failing welcome e-mail does not change the
      outcome, so it is not modelled. */
  method AdminCreateUser(store: UserStore, email: string, firstName: Option<string>, lastName: Option<string>,
                         role: Option<Role>, password: Option<string>, generated: string)
    returns (r: Result<UserId, Error>)
    requires store.Valid()
    requires |generated| == 10 && Text.AllAlphanumeric(generated)
    modifies store
    ensures store.Valid() && store.tokens == old(store.tokens)
    ensures email == "" ==> r == Err(EmailRequired)
    ensures r.Ok? <==> email != "" && !EmailTaken(old(store.users), store.normalize(email))
    ensures r.Err? ==> store.users == old(store.users)
    ensures r.Ok? ==>
              var extra := ExtraFields(firstName, lastName, None, None, None);
              r.value !in old(store.users)
              && store.users == old(store.users)[r.value := NewUser(store.normalize(email), Some(generated), StoredRole(role, extra), extra)]
    ensures r.Ok? ==> CheckPassword(store.users[r.value], generated)
  {
    var extra := ExtraFields(firstName, lastName, None, None, None);
    r := store.CreateUser(email, password, role, extra);
    if r.Ok? {
      store.SetPassword(r.value, Some(generated));
    }
  }

  /** `LoginSerializer.validate`: `authenticated` is what `authenticate`
      returned. The missing user is reported before the inactive one. */
  function ValidateLogin(authenticated: Option<User>): (r: Result<User, Error>)
    ensures authenticated.None? ==> r == Err(InvalidCredentials)
    ensures authenticated.Some? && !authenticated.value.isActive ==> r == Err(AccountDisabled)
    ensures r.Ok? <==> authenticated.Some? && authenticated.value.isActive
    ensures r.Ok? ==> r.value == authenticated.value
  {
    match authenticated
    case None => Err(InvalidCredentials)
    case Some(u) => if !u.isActive then Err(AccountDisabled) else Ok(u)
  }

  /** `ChangePasswordSerializer.validate_old_password`. */
  function ValidateOldPassword(user: User, value: string): (r: Result<string, Error>)
    ensures r.Ok? <==> CheckPassword(user, value)
    ensures r.Ok? ==> r.value == value
    ensures r.Err? ==> r.error == WrongOldPassword
  {
    if user.password != Some(value) then Err(WrongOldPassword) else Ok(value)
  }

  /** `ForgotPasswordSerializer.validate_email`: an unknown address fails and
      creates nothing; a known one gets exactly one new token, `value`, and the
      validated address is returned. */
  method ForgotPassword(store: UserStore, email: string, value: string, now: int)
    returns (r: Result<string, Error>)
    requires store.Valid()
    requires |value| == 64 && Text.AllAlphanumeric(value)
    modifies store
    ensures store.Valid() && store.users == old(store.users)
    ensures !EmailTaken(old(store.users), email) ==> r == Err(NoUserWithEmail)
    ensures EmailTaken(old(store.users), email) && value !in old(store.tokens) ==> r.Ok?
    ensures value in old(store.tokens) ==> r.Err?
    ensures r.Err? ==> store.tokens == old(store.tokens)
    ensures r.Ok? ==>
              r.value == email && value !in old(store.tokens)
              && value in store.tokens
              && store.tokens == old(store.tokens)[value := ResetToken(store.tokens[value].owner, now)]
              && store.users[store.tokens[value].owner].email == email
  {
    if owner :| owner in store.users && store.users[owner].email == email {
      var created := store.CreateToken(owner, value, now);
      r := if created.Ok? then Ok(email) else Err(created.error);
    } else {
      r := Err(NoUserWithEmail);
    }
  }

  /** `ResetPasswordSerializer.validate`: an unknown token fails and changes
      nothing; an expired one is deleted and fails; a live one yields its
      owner and stays in place. */
  method ValidateReset(store: UserStore, token: string, now: int) returns (r: Result<UserId, Error>)
    requires store.Valid()
    modifies store
    ensures store.Valid() && store.users == old(store.users)
    ensures token !in old(store.tokens) ==> r == Err(InvalidToken) && store.tokens == old(store.tokens)
    ensures token in old(store.tokens) && IsExpired(old(store.tokens)[token], now) ==>
              r == Err(TokenExpired) && store.tokens == old(store.tokens) - {token}
    ensures token in old(store.tokens) && !IsExpired(old(store.tokens)[token], now) ==>
              r == Ok(old(store.tokens)[token].owner) && store.tokens == old(store.tokens)
    ensures r.Ok? ==> r.value in store.users
  {
    if token !in store.tokens {
      return Err(InvalidToken);
    }
    var t := store.tokens[token];
    if IsExpired(t, now) {
      store.DeleteToken(token);
      return Err(TokenExpired);
    }
    r := Ok(t.owner);
  }

  /** `ResetPasswordSerializer.save`: sets the owner's password and deletes
      every reset token of that user; other users' tokens stay. */
  method SaveReset(store: UserStore, owner: UserId, newPassword: string)
    requires store.Valid() && owner in store.users
    modifies store
    ensures store.Valid()
    ensures store.users == old(store.users)[owner := old(store.users)[owner].(password := Some(newPassword))]
    ensures store.tokens == TokensNotOwnedBy(old(store.tokens), owner)
  {
    store.SetPassword(owner, Some(newPassword));
    store.DeleteTokensOf(owner);
  }

  /** The reset-password request: validation, then save when it passed. */
  method ResetPassword(store: UserStore, token: string, newPassword: string, now: int)
    returns (r: Result<UserId, Error>)
    requires store.Valid()
    modifies store
    ensures store.Valid()
    ensures token !in old(store.tokens) ==>
              r == Err(InvalidToken) && store.tokens == old(store.tokens) && store.users == old(store.users)
    ensures token in old(store.tokens) && IsExpired(old(store.tokens)[token], now) ==>
              r == Err(TokenExpired) && store.tokens == old(store.tokens) - {token} && store.users == old(store.users)
    ensures token in old(store.tokens) && !IsExpired(old(store.tokens)[token], now) ==>
              var owner := old(store.tokens)[token].owner;
              r == Ok(owner)
              && store.users == old(store.users)[owner := old(store.users)[owner].(password := Some(newPassword))]
              && store.tokens == TokensNotOwnedBy(old(store.tokens), owner)
  {
    r := ValidateReset(store, token, now);
    if r.Ok? {
      SaveReset(store, r.value, newPassword);
    }
  }

  /** A successful reset leaves no token of that user behind, in particular
      not the one just used, so it cannot be replayed. */
  lemma ResetConsumesToken(tokens: map<string, ResetToken>, token: string)
    requires token in tokens
    ensures token !in TokensNotOwnedBy(tokens, tokens[token].owner)
    ensures forall t :: t in TokensNotOwnedBy(tokens, tokens[token].owner) ==> tokens[t].owner != tokens[token].owner
  {
  }
}
