/** Values shared by every service: optional values, results carrying the
    services' error conditions, time, and the ASCII upper-casing the services
    apply to provider currencies and UUID prefixes. */
module Common {

  datatype Option<+T> = None | Some(value: T)

  /** The exceptions the services throw, one constructor per message. */
  datatype Error =
    // SubscriptionService
    | AlreadySubscribed            // "User already has an active subscription"
    | SubscriptionNotFound         // "Subscription not found"
    | NotAuthorizedToCancel        // "Not authorized to cancel this subscription"
    | SubscriptionNotActive        // "Subscription is not active"
    | ProviderError                // a StripeException from a billing-provider call
    | MissingPrice                 // NullPointerException: a plan without a price id in `Map.of`
    // AuthenticationService
    | EmailAlreadyRegistered       // "Email already registered"
    | InvalidVerificationToken     // "Invalid verification token"
    | VerificationTokenExpired     // "Verification token has expired. ..."
    | UserNotFound                 // "User not found"
    | EmailAlreadyVerified         // "Email is already verified"
    | InvalidResetToken            // "Invalid reset token"
    | ResetTokenExpired            // "Reset token has expired"
    // UserProfileService
    | NotOwnProfile                // "You can only update your own profile"
    | EmailTaken                   // "Email is already taken"
    | NotOwnPassword               // "You can only update your own password"
    | CurrentPasswordIncorrect     // "Current password is incorrect"
    | PasswordConfirmationMismatch // "New password and confirmation do not match"
    | NotPermittedToViewUser       // AccessDeniedException on another user's details
    | AdminOnly                    // AccessDeniedException on listing all users
    // InvoiceService
    | InvoiceNotFound              // "Invoice not found"

  datatype Result<+T> = Ok(value: T) | Err(error: Error)

  /** A point in time, in whole seconds. */
  type Time = int

  const SECONDS_PER_HOUR: int := 3600
  const SECONDS_PER_DAY: int := 24 * SECONDS_PER_HOUR

  /** The text of a random UUID (`UUID.randomUUID().toString()`): 36 characters. */
  type Uuid = s: string | |s| == 36 witness "00000000-0000-0000-0000-000000000000"

  predicate IsLower(c: char) { 'a' <= c <= 'z' }

  function UpperChar(c: char): char
  {
    if IsLower(c) then (c as int - 32) as char else c
  }

  /** `String.toUpperCase()` restricted to ASCII letters. */
  function UpperCase(s: string): (r: string)
    ensures |r| == |s|
    ensures forall i :: 0 <= i < |s| ==> !IsLower(r[i])
    ensures forall i :: 0 <= i < |s| && !IsLower(s[i]) ==> r[i] == s[i]
    ensures forall i :: 0 <= i < |s| && IsLower(s[i]) ==> r[i] as int == s[i] as int - 32
  {
    if s == [] then [] else [UpperChar(s[0])] + UpperCase(s[1..])
  }

  predicate IsLowerHexDigit(c: char) { '0' <= c <= '9' || 'a' <= c <= 'f' }

  /** On lower-case hexadecimal text (what a UUID prints) upper-casing loses
      nothing: two such texts with the same upper-case form are equal. */
  lemma UpperCaseInjectiveOnHex(s: string, t: string)
    requires |s| == |t|
    requires forall i :: 0 <= i < |s| ==> IsLowerHexDigit(s[i]) && IsLowerHexDigit(t[i])
    requires UpperCase(s) == UpperCase(t)
    ensures s == t
  {
    forall i | 0 <= i < |s| ensures s[i] == t[i] {
      UpperCharInjectiveOnHex(s[i], t[i], UpperCase(s)[i], UpperCase(t)[i]);
    }
  }

  /** The character case of UpperCaseInjectiveOnHex, given the upper-cased forms. */
  lemma UpperCharInjectiveOnHex(c: char, d: char, uc: char, ud: char)
    requires IsLowerHexDigit(c) && IsLowerHexDigit(d)
    requires !IsLower(c) ==> uc == c
    requires IsLower(c) ==> uc as int == c as int - 32
    requires !IsLower(d) ==> ud == d
    requires IsLower(d) ==> ud as int == d as int - 32
    requires uc == ud
    ensures c == d
  {
  }
}
