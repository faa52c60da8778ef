/** The user table shared by the authentication, profile and subscription
    services, and the user-repository queries they rely on. */
module Accounts {
  import opened Common
  import opened Queries

  type UserId = nat

  const ROLE_ADMIN: string := "ROLE_ADMIN"

  /** The persisted account. `password` holds the encoded password; a token
      and its expiry are set and cleared together. */
  datatype User = User(
    email: string,
    firstName: string,
    lastName: string,
    password: string,
    roles: set<string>,
    enabled: bool,
    verificationToken: Option<string>,
    verificationTokenExpiry: Option<Time>,
    resetPasswordToken: Option<string>,
    resetPasswordTokenExpiry: Option<Time>,
    stripeCustomerId: Option<string>)

  /** The password encoder, an outside collaborator: `encode` hashes a raw
      password, `matches(raw, encoded)` checks one. */
  datatype PasswordEncoder = PasswordEncoder(
    encode: string -> string,
    matches: (string, string) -> bool)

  /** `firstName + " " + lastName`, the name sent to the billing provider. */
  function FullName(u: User): string
  {
    u.firstName + " " + u.lastName
  }

  ghost predicate EmailsUnique(users: seq<User>)
  {
    forall i, j :: 0 <= i < j < |users| ==> users[i].email != users[j].email
  }

  ghost predicate TokensPaired(u: User)
  {
    && u.verificationToken.Some? == u.verificationTokenExpiry.Some?
    && u.resetPasswordToken.Some? == u.resetPasswordTokenExpiry.Some?
  }

  /** The invariant every service keeps on the user table. */
  ghost predicate WellFormed(users: seq<User>)
  {
    EmailsUnique(users) && forall i :: 0 <= i < |users| ==> TokensPaired(users[i])
  }

  /** `existsByEmail` */
  function ExistsByEmail(users: seq<User>, email: string): (b: bool)
    ensures b <==> exists i :: 0 <= i < |users| && users[i].email == email
  {
    FirstWhere(users, (u: User) => u.email == email).Some?
  }

  /** `findByEmail` */
  function FindByEmail(users: seq<User>, email: string): (r: Option<UserId>)
    ensures r.Some? ==> r.value < |users| && users[r.value].email == email
    ensures r.None? <==> !ExistsByEmail(users, email)
  {
    FirstWhere(users, (u: User) => u.email == email)
  }

  /** With unique e-mails, `findByEmail` finds the one account holding the address. */
  lemma FindByEmailUnique(users: seq<User>, i: UserId)
    requires EmailsUnique(users) && i < |users|
    ensures FindByEmail(users, users[i].email) == Some(i)
  {
  }

  /** `findByVerificationToken` (the first account holding the token). */
  function FindByVerificationToken(users: seq<User>, token: string): (r: Option<UserId>)
    ensures r.Some? ==> r.value < |users| && users[r.value].verificationToken == Some(token)
    ensures r.None? <==> forall j :: 0 <= j < |users| ==> users[j].verificationToken != Some(token)
  {
    FirstWhere(users, (u: User) => u.verificationToken == Some(token))
  }

  /** `findByResetPasswordToken` (the first account holding the token). */
  function FindByResetPasswordToken(users: seq<User>, token: string): (r: Option<UserId>)
    ensures r.Some? ==> r.value < |users| && users[r.value].resetPasswordToken == Some(token)
    ensures r.None? <==> forall j :: 0 <= j < |users| ==> users[j].resetPasswordToken != Some(token)
  {
    FirstWhere(users, (u: User) => u.resetPasswordToken == Some(token))
  }

  /** Writing back an account whose e-mail is unchanged or unused keeps the
      e-mails unique. */
  lemma UpdateKeepsEmailsUnique(users: seq<User>, i: UserId, u: User)
    requires EmailsUnique(users) && i < |users|
    requires u.email == users[i].email || !ExistsByEmail(users, u.email)
    ensures EmailsUnique(users[i := u])
  {
    var users' := users[i := u];
    forall j, k | 0 <= j < k < |users'| ensures users'[j].email != users'[k].email {
      if j == i {
        assert users[k].email != users[i].email;
      } else if k == i {
        assert users[j].email != users[i].email;
      }
    }
  }

  /** Appending an account whose e-mail is unused keeps the e-mails unique. */
  lemma InsertKeepsEmailsUnique(users: seq<User>, u: User)
    requires EmailsUnique(users) && !ExistsByEmail(users, u.email)
    ensures EmailsUnique(users + [u])
  {
    var users' := users + [u];
    forall j, k | 0 <= j < k < |users'| ensures users'[j].email != users'[k].email {
      if k == |users| {
        assert users[j].email != u.email;
      }
    }
  }

  /** The user repository: `save` of a new entity appends it, `save` of a
      loaded one writes it back in place. */
  class UserRepository {
    var users: seq<User>

    ghost predicate Valid()
      reads this
    {
      WellFormed(users)
    }

    constructor ()
      ensures users == [] && Valid()
    {
      users := [];
    }

    method Insert(u: User) returns (id: UserId)
      modifies this
      ensures id == |old(users)| && users == old(users) + [u]
    {
      id := |users|;
      users := users + [u];
    }

    method Update(id: UserId, u: User)
      requires id < |users|
      modifies this
      ensures users == old(users)[id := u]
    {
      users := users[id := u];
    }
  }
}
