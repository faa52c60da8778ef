/** UserProfileService: who may read or change which account. The current
    user (the security principal) is an explicit parameter: the identifier of
    an existing account, whose row is read from the user table. */
module Profiles {
  import opened Common
  import opened Accounts

  datatype UpdateProfileRequest = UpdateProfileRequest(firstName: string, lastName: string, email: string)

  datatype UpdatePasswordRequest = UpdatePasswordRequest(
    currentPassword: string,
    newPassword: string,
    confirmPassword: string)

  /** The profile fields `updateProfile` replaces; every other field is kept. */
  function WithProfile(u: User, request: UpdateProfileRequest): User
  {
    u.(firstName := request.firstName, lastName := request.lastName, email := request.email)
  }

  class UserProfileService {
    const userRepository: UserRepository
    const passwordEncoder: PasswordEncoder

    constructor (userRepository: UserRepository, passwordEncoder: PasswordEncoder)
      ensures this.userRepository == userRepository && this.passwordEncoder == passwordEncoder
    {
      this.userRepository := userRepository;
      this.passwordEncoder := passwordEncoder;
    }

    /** `updateProfile`: only one's own profile; a new e-mail must not be
        registered yet, while keeping one's own e-mail is allowed; success
        replaces first name, last name and e-mail and nothing else. */
    method UpdateProfile(currentUser: UserId, userId: UserId, request: UpdateProfileRequest) returns (r: Result<User>)
      requires userRepository.Valid() && currentUser < |userRepository.users|
      modifies userRepository
      ensures userRepository.Valid()
      ensures var u := old(userRepository.users)[currentUser];
        if currentUser != userId then
          r == Err(NotOwnProfile) && userRepository.users == old(userRepository.users)
        else if u.email != request.email && ExistsByEmail(old(userRepository.users), request.email) then
          r == Err(EmailTaken) && userRepository.users == old(userRepository.users)
        else
          && r == Ok(WithProfile(u, request))
          && userRepository.users == old(userRepository.users)[currentUser := WithProfile(u, request)]
    {
      var user := userRepository.users[currentUser];
      if currentUser != userId {
        return Err(NotOwnProfile);
      }
      if user.email != request.email && ExistsByEmail(userRepository.users, request.email) {
        return Err(EmailTaken);
      }
      user := user.(firstName := request.firstName);
      user := user.(lastName := request.lastName);
      user := user.(email := request.email);
      UpdateKeepsEmailsUnique(userRepository.users, currentUser, user);
      userRepository.Update(currentUser, user);
      r := Ok(user);
    }

    /** `updatePassword`: checks, in order, that the account is one's own, that
        the current password matches, and that the new password equals its
        confirmation; only then stores the encoded new password. */
    method UpdatePassword(currentUser: UserId, userId: UserId, request: UpdatePasswordRequest) returns (r: Result<()>)
      requires userRepository.Valid() && currentUser < |userRepository.users|
      modifies userRepository
      ensures userRepository.Valid()
      ensures var u := old(userRepository.users)[currentUser];
        if currentUser != userId then
          r == Err(NotOwnPassword) && userRepository.users == old(userRepository.users)
        else if !passwordEncoder.matches(request.currentPassword, u.password) then
          r == Err(CurrentPasswordIncorrect) && userRepository.users == old(userRepository.users)
        else if request.newPassword != request.confirmPassword then
          r == Err(PasswordConfirmationMismatch) && userRepository.users == old(userRepository.users)
        else
          && r == Ok(())
          && userRepository.users == old(userRepository.users)[currentUser := u.(password := passwordEncoder.encode(request.newPassword))]
    {
      var user := userRepository.users[currentUser];
      if currentUser != userId {
        return Err(NotOwnPassword);
      }
      if !passwordEncoder.matches(request.currentPassword, user.password) {
        return Err(CurrentPasswordIncorrect);
      }
      if request.newPassword != request.confirmPassword {
        return Err(PasswordConfirmationMismatch);
      }
      user := user.(password := passwordEncoder.encode(request.newPassword));
      UpdateKeepsEmailsUnique(userRepository.users, currentUser, user);
      userRepository.Update(currentUser, user);
      r := Ok(());
    }

    /** `getUserDetails`: permitted exactly when the caller asks for their own
        account or holds ROLE_ADMIN; a denial is decided before any lookup,
        and a permitted but absent identifier fails as not found. */
    function GetUserDetails(currentUser: UserId, userId: UserId): (r: Result<User>)
      reads userRepository
      requires currentUser < |userRepository.users|
      ensures r == Err(NotPermittedToViewUser) <==>
        currentUser != userId && ROLE_ADMIN !in userRepository.users[currentUser].roles
      ensures r == Err(UserNotFound) <==>
        (currentUser == userId || ROLE_ADMIN in userRepository.users[currentUser].roles) && userId >= |userRepository.users|
      ensures r.Ok? ==> userId < |userRepository.users| && r.value == userRepository.users[userId]
      ensures (currentUser == userId || ROLE_ADMIN in userRepository.users[currentUser].roles) && userId < |userRepository.users| ==>
        r == Ok(userRepository.users[userId])
    {
      var caller := userRepository.users[currentUser];
      if currentUser != userId && ROLE_ADMIN !in caller.roles then Err(NotPermittedToViewUser)
      else if userId < |userRepository.users| then Ok(userRepository.users[userId])
      else Err(UserNotFound)
    }

    /** `getAllUsers`, without paging: every account, for ROLE_ADMIN only. */
    function GetAllUsers(currentUser: UserId): (r: Result<seq<User>>)
      reads userRepository
      requires currentUser < |userRepository.users|
      ensures r.Ok? <==> ROLE_ADMIN in userRepository.users[currentUser].roles
      ensures r.Err? ==> r.error == AdminOnly
      ensures r.Ok? ==> r.value == userRepository.users
    {
      if ROLE_ADMIN !in userRepository.users[currentUser].roles then Err(AdminOnly)
      else Ok(userRepository.users)
    }
  }

  /** After a successful profile update on a table with unique e-mails, the
      account is found again under its new e-mail. */
  lemma UpdatedProfileFoundByNewEmail(users: seq<User>, currentUser: UserId, request: UpdateProfileRequest)
    requires WellFormed(users) && currentUser < |users|
    requires users[currentUser].email == request.email || !ExistsByEmail(users, request.email)
    ensures FindByEmail(users[currentUser := WithProfile(users[currentUser], request)], request.email) == Some(currentUser)
  {
    UpdateKeepsEmailsUnique(users, currentUser, WithProfile(users[currentUser], request));
    FindByEmailUnique(users[currentUser := WithProfile(users[currentUser], request)], currentUser);
  }
}
