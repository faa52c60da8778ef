/** AuthenticationService: registration, e-mail verification and password
    reset as transitions on the user table. Verification tokens live 24 hours,
    reset tokens one hour; a token expires only once its expiry is strictly
    before the current time. Fresh UUID tokens and the clock are inputs. */
module Authentication {
  import opened Common
  import opened Accounts

  const VERIFICATION_TOKEN_VALIDITY: int := 24 * SECONDS_PER_HOUR
  const RESET_TOKEN_VALIDITY: int := SECONDS_PER_HOUR

  datatype RegisterRequest = RegisterRequest(
    firstName: string,
    lastName: string,
    email: string,
    password: string)

  /** The registration response without its JWT. */
  datatype AuthResponse = AuthResponse(
    id: UserId,
    email: string,
    firstName: string,
    lastName: string,
    roles: set<string>,
    enabled: bool)

  /** `expiry.isBefore(now)` */
  predicate Expired(expiry: Time, now: Time)
  {
    expiry < now
  }

  /** The account `register` saves: disabled, holding `token` for 24 hours. */
  function NewAccount(request: RegisterRequest, encoded: string, roles: set<string>, token: string, now: Time): User
  {
    User(request.email, request.firstName, request.lastName, encoded, roles, false,
         Some(token), Some(now + VERIFICATION_TOKEN_VALIDITY), None, None, None)
  }

  /** A fresh verification token, valid for 24 hours from `now`. */
  function WithVerificationToken(u: User, token: string, now: Time): User
  {
    u.(verificationToken := Some(token), verificationTokenExpiry := Some(now + VERIFICATION_TOKEN_VALIDITY))
  }

  /** A verified account: enabled, verification token and expiry cleared. */
  function Verified(u: User): User
  {
    u.(enabled := true, verificationToken := None, verificationTokenExpiry := None)
  }

  /** A fresh reset token, valid for one hour from `now`. */
  function WithResetToken(u: User, token: string, now: Time): User
  {
    u.(resetPasswordToken := Some(token), resetPasswordTokenExpiry := Some(now + RESET_TOKEN_VALIDITY))
  }

  /** A reset account: the new encoded password, reset token and expiry cleared. */
  function PasswordReset(u: User, encoded: string): User
  {
    u.(password := encoded, resetPasswordToken := None, resetPasswordTokenExpiry := None)
  }

  /** A verification token is single-use: once the account holding it is
      verified, looking the token up again finds nobody, so a second
      `verifyEmail` with it fails as an invalid token. */
  lemma VerificationTokenSingleUse(users: seq<User>, token: string, i: UserId)
    requires FindByVerificationToken(users, token) == Some(i)
    requires forall j :: 0 <= j < |users| && j != i ==> users[j].verificationToken != Some(token)
    ensures FindByVerificationToken(users[i := Verified(users[i])], token) == None
  {
    var users' := users[i := Verified(users[i])];
    forall j | 0 <= j < |users'| ensures users'[j].verificationToken != Some(token) {
      if j != i {
        assert users'[j] == users[j];
      }
    }
  }

  /** A token reissued at `now` is found again and stays valid up to and
      including `now` + 24 h, provided no other account holds it. */
  lemma ReissuedTokenValidForADay(users: seq<User>, i: UserId, token: string, now: Time, later: Time)
    requires i < |users|
    requires forall j :: 0 <= j < |users| && j != i ==> users[j].verificationToken != Some(token)
    requires later <= now + VERIFICATION_TOKEN_VALIDITY
    ensures var users' := users[i := WithVerificationToken(users[i], token, now)];
      && FindByVerificationToken(users', token) == Some(i)
      && !Expired(users'[i].verificationTokenExpiry.value, later)
  {
    var users' := users[i := WithVerificationToken(users[i], token, now)];
    var r := FindByVerificationToken(users', token);
    assert users'[i].verificationToken == Some(token);
  }

  /** A reset token is single-use: after a successful reset nobody holds it. */
  lemma ResetTokenSingleUse(users: seq<User>, token: string, i: UserId, encoded: string)
    requires FindByResetPasswordToken(users, token) == Some(i)
    requires forall j :: 0 <= j < |users| && j != i ==> users[j].resetPasswordToken != Some(token)
    ensures FindByResetPasswordToken(users[i := PasswordReset(users[i], encoded)], token) == None
  {
    var users' := users[i := PasswordReset(users[i], encoded)];
    forall j | 0 <= j < |users'| ensures users'[j].resetPasswordToken != Some(token) {
      if j != i {
        assert users'[j] == users[j];
      }
    }
  }

  class AuthenticationService {
    const userRepository: UserRepository
    const passwordEncoder: PasswordEncoder
    /** The roles the `User` constructor gives a new account. */
    const newUserRoles: set<string>

    constructor (userRepository: UserRepository, passwordEncoder: PasswordEncoder, newUserRoles: set<string>)
      ensures this.userRepository == userRepository
      ensures this.passwordEncoder == passwordEncoder
      ensures this.newUserRoles == newUserRoles
    {
      this.userRepository := userRepository;
      this.passwordEncoder := passwordEncoder;
      this.newUserRoles := newUserRoles;
    }

    /** `register`: refused for an e-mail already registered; otherwise
        appends one disabled account holding `verificationToken` until
        `now` + 24 h. */
    method Register(request: RegisterRequest, verificationToken: string, now: Time) returns (r: Result<AuthResponse>)
      requires userRepository.Valid()
      modifies userRepository
      ensures userRepository.Valid()
      ensures ExistsByEmail(old(userRepository.users), request.email) ==>
        r == Err(EmailAlreadyRegistered) && userRepository.users == old(userRepository.users)
      ensures !ExistsByEmail(old(userRepository.users), request.email) ==>
        var id := |old(userRepository.users)|;
        var account := NewAccount(request, passwordEncoder.encode(request.password), newUserRoles, verificationToken, now);
        && userRepository.users == old(userRepository.users) + [account]
        && r == Ok(AuthResponse(id, request.email, request.firstName, request.lastName, newUserRoles, false))
    {
      if ExistsByEmail(userRepository.users, request.email) {
        return Err(EmailAlreadyRegistered);
      }
      var user := User(request.email, request.firstName, request.lastName,
                       passwordEncoder.encode(request.password), newUserRoles, true,
                       None, None, None, None, None);
      user := user.(verificationToken := Some(verificationToken));
      user := user.(verificationTokenExpiry := Some(now + VERIFICATION_TOKEN_VALIDITY));
      user := user.(enabled := false);
      InsertKeepsEmailsUnique(userRepository.users, user);
      var id := userRepository.Insert(user);
      r := Ok(AuthResponse(id, user.email, user.firstName, user.lastName, user.roles, user.enabled));
    }

    /** `verifyEmail`: an unknown token fails with no change; an expired one
        is replaced by `freshToken` for another 24 h, which is saved, and the
        call still fails; a valid one (expiry not before `now`) enables the
        account and clears the token. */
    method VerifyEmail(token: string, freshToken: string, now: Time) returns (r: Result<()>)
      requires userRepository.Valid()
      modifies userRepository
      ensures userRepository.Valid()
      ensures FindByVerificationToken(old(userRepository.users), token).None? ==>
        r == Err(InvalidVerificationToken) && userRepository.users == old(userRepository.users)
      ensures FindByVerificationToken(old(userRepository.users), token).Some? ==>
        var i := FindByVerificationToken(old(userRepository.users), token).value;
        var u := old(userRepository.users)[i];
        && u.verificationTokenExpiry.Some?
        && (Expired(u.verificationTokenExpiry.value, now) ==>
              && r == Err(VerificationTokenExpired)
              && userRepository.users == old(userRepository.users)[i := WithVerificationToken(u, freshToken, now)])
        && (!Expired(u.verificationTokenExpiry.value, now) ==>
              && r == Ok(())
              && userRepository.users == old(userRepository.users)[i := Verified(u)])
    {
      var found := FindByVerificationToken(userRepository.users, token);
      if found.None? {
        return Err(InvalidVerificationToken);
      }
      var id := found.value;
      var user := userRepository.users[id];
      assert TokensPaired(user);
      if Expired(user.verificationTokenExpiry.value, now) {
        user := user.(verificationToken := Some(freshToken));
        user := user.(verificationTokenExpiry := Some(now + VERIFICATION_TOKEN_VALIDITY));
        UpdateKeepsEmailsUnique(userRepository.users, id, user);
        userRepository.Update(id, user);
        return Err(VerificationTokenExpired);
      }
      user := user.(enabled := true);
      user := user.(verificationToken := None);
      user := user.(verificationTokenExpiry := None);
      UpdateKeepsEmailsUnique(userRepository.users, id, user);
      userRepository.Update(id, user);
      r := Ok(());
    }

    /** `resendVerificationEmail`: fails for an unknown e-mail or an enabled
        account; otherwise replaces the token, valid for 24 h from `now`. */
    method ResendVerificationEmail(email: string, freshToken: string, now: Time) returns (r: Result<()>)
      requires userRepository.Valid()
      modifies userRepository
      ensures userRepository.Valid()
      ensures !ExistsByEmail(old(userRepository.users), email) ==>
        r == Err(UserNotFound) && userRepository.users == old(userRepository.users)
      ensures ExistsByEmail(old(userRepository.users), email) ==>
        var i := FindByEmail(old(userRepository.users), email).value;
        var u := old(userRepository.users)[i];
        && (u.enabled ==>
              r == Err(EmailAlreadyVerified) && userRepository.users == old(userRepository.users))
        && (!u.enabled ==>
              r == Ok(()) && userRepository.users == old(userRepository.users)[i := WithVerificationToken(u, freshToken, now)])
    {
      var found := FindByEmail(userRepository.users, email);
      if found.None? {
        return Err(UserNotFound);
      }
      var id := found.value;
      var user := userRepository.users[id];
      if user.enabled {
        return Err(EmailAlreadyVerified);
      }
      user := user.(verificationToken := Some(freshToken));
      user := user.(verificationTokenExpiry := Some(now + VERIFICATION_TOKEN_VALIDITY));
      UpdateKeepsEmailsUnique(userRepository.users, id, user);
      userRepository.Update(id, user);
      r := Ok(());
    }

    /** `forgotPassword`: fails for an unknown e-mail; otherwise stores
        `resetToken`, valid for one hour from `now`. */
    method ForgotPassword(email: string, resetToken: string, now: Time) returns (r: Result<()>)
      requires userRepository.Valid()
      modifies userRepository
      ensures userRepository.Valid()
      ensures !ExistsByEmail(old(userRepository.users), email) ==>
        r == Err(UserNotFound) && userRepository.users == old(userRepository.users)
      ensures ExistsByEmail(old(userRepository.users), email) ==>
        var i := FindByEmail(old(userRepository.users), email).value;
        && r == Ok(())
        && userRepository.users == old(userRepository.users)[i := WithResetToken(old(userRepository.users)[i], resetToken, now)]
    {
      var found := FindByEmail(userRepository.users, email);
      if found.None? {
        return Err(UserNotFound);
      }
      var id := found.value;
      var user := userRepository.users[id];
      user := user.(resetPasswordToken := Some(resetToken));
      user := user.(resetPasswordTokenExpiry := Some(now + RESET_TOKEN_VALIDITY));
      UpdateKeepsEmailsUnique(userRepository.users, id, user);
      userRepository.Update(id, user);
      r := Ok(());
    }

    /** `resetPassword`: fails for an unknown token, and for an expired one
        with the password unchanged; otherwise stores the encoded new password
        and clears the reset token and expiry. */
    method ResetPassword(token: string, newPassword: string, now: Time) returns (r: Result<()>)
      requires userRepository.Valid()
      modifies userRepository
      ensures userRepository.Valid()
      ensures FindByResetPasswordToken(old(userRepository.users), token).None? ==>
        r == Err(InvalidResetToken) && userRepository.users == old(userRepository.users)
      ensures FindByResetPasswordToken(old(userRepository.users), token).Some? ==>
        var i := FindByResetPasswordToken(old(userRepository.users), token).value;
        var u := old(userRepository.users)[i];
        && u.resetPasswordTokenExpiry.Some?
        && (Expired(u.resetPasswordTokenExpiry.value, now) ==>
              r == Err(ResetTokenExpired) && userRepository.users == old(userRepository.users))
        && (!Expired(u.resetPasswordTokenExpiry.value, now) ==>
              && r == Ok(())
              && userRepository.users == old(userRepository.users)[i := PasswordReset(u, passwordEncoder.encode(newPassword))])
    {
      var found := FindByResetPasswordToken(userRepository.users, token);
      if found.None? {
        return Err(InvalidResetToken);
      }
      var id := found.value;
      var user := userRepository.users[id];
      assert TokensPaired(user);
      if Expired(user.resetPasswordTokenExpiry.value, now) {
        return Err(ResetTokenExpired);
      }
      user := user.(password := passwordEncoder.encode(newPassword));
      user := user.(resetPasswordToken := None);
      user := user.(resetPasswordTokenExpiry := None);
      UpdateKeepsEmailsUnique(userRepository.users, id, user);
      userRepository.Update(id, user);
      r := Ok(());
    }
  }
}
