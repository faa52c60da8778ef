# Starter-stripe-back service core in Dafny

This project models the four Spring services at the heart of the
Starter-stripe-back SaaS backend and proves properties of the model:

- **SubscriptionService**: creating a subscription at the billing provider
  (Stripe), cancelling it, listing a user's subscriptions, the lazy link between
  an account and its provider customer, the plan-to-price table, setup intents
  and checkout sessions;
- **AuthenticationService**: registration, e-mail verification (with
  re-issue of an expired token), resending the verification e-mail, and the
  forgot/reset password flow;
- **InvoiceService**: invoice lookup, creation from a payment, payment,
  sending, the daily overdue check, the monthly invoice run, and invoice
  numbering;
- **UserProfileService**: self-only profile and password updates, and
  self-or-admin reads.

## How the system is modelled

- **Tables.** Each JPA repository is a class holding a `seq` of entity values
  (`UserRepository.users`, `SubscriptionRepository.rows`,
  `InvoiceRepository.rows`, `PaymentRepository.rows`).
  - A row's identifier is its position, like the store's auto-increment id.
  - `save` of a new entity is `Insert` (append). `save` of a loaded entity is
    `Update` (write back in place).
- **Services.** Each service is a class whose `const` fields are the
  repositories it was built with. Every operation is a method (if it writes)
  or a function (if it only reads).
  - Each method's `ensures` gives the complete new table as a function of the
    old one, branch by branch, and states the error returned on every failure
    path.
- **Derived queries.** Spring Data's `findAllBy…`, `findBy…` and `existsBy…`
  are filters over a table: `Queries.Where` and `Queries.FirstWhere`.
  - A `findBy…` that would match several rows yields the first by identifier.
- **Invariants.**
  - `Accounts.WellFormed`: e-mails are unique, and every token is stored
    together with its expiry.
  - `Subscriptions.AtMostOneActive`: no user has two ACTIVE subscriptions.
  - `Invoices.InvoicesValid`: every invoice is `Consistent` and refers to a
    stored payment.
  - Every service method preserves its service's invariant.
- **Current user.** The security principal is an explicit `UserId` argument
  naming an existing account. Its row is read from the table.
- **Billing provider.** The Stripe API is an oracle: a `BillingProvider`
  value whose fields are functions. A result of `None` (or `false`) means
  that call threw a `StripeException`, which the model reports as
  `ProviderError`.
- **Inputs.** The clock (`now`, whole seconds) and random UUIDs (fresh
  tokens, the UUIDs behind invoice numbers) are parameters.
  - The password encoder is a pair of uninterpreted functions, `encode` and
    `matches`.
- **Errors.** Every exception message of the services is one constructor of
  `Common.Error`. Operations return `Result`.

## Model

| member | source | states |
|---|---|---|
| Common.UpperCase | src/main/java/com/example/springsaas/subscriptionmanagement/service/SubscriptionService.java:115 | `toUpperCase` keeps the length, leaves no lower-case letter, keeps every other character and maps each lower-case letter to its upper-case form |
| Common.UpperCaseInjectiveOnHex | src/main/java/com/example/springsaas/invoice/service/InvoiceService.java:116 | on lower-case hexadecimal text, as a UUID prints, upper-casing loses no information |
| Queries.Where | src/main/java/com/example/springsaas/subscriptionmanagement/repository/SubscriptionRepository.java:17 | a `findAllBy…` query returns the identifiers of exactly the matching rows, each once (listed in identifier order, one of the orders the unordered query may return) |
| Queries.WhereEmpty | src/main/java/com/example/springsaas/invoice/repository/InvoiceRepository.java:20 | a `findAllBy…` query is empty exactly when no row matches |
| Queries.FirstWhere | src/main/java/com/example/springsaas/authentication/repository/UserRepository.java:11-13 | a `findBy…` query finds a matching row, the first one, and finds none exactly when no row matches |
| Accounts.ExistsByEmail | src/main/java/com/example/springsaas/authentication/repository/UserRepository.java:14 | `existsByEmail` holds exactly when some account has the e-mail |
| Accounts.FindByEmail | src/main/java/com/example/springsaas/authentication/repository/UserRepository.java:11 | `findByEmail` returns an account with that e-mail, and is empty exactly when `existsByEmail` is false |
| Accounts.FindByEmailUnique | src/main/java/com/example/springsaas/authentication/repository/UserRepository.java:11 | with unique e-mails, `findByEmail` returns the one account holding the address |
| Accounts.FindByVerificationToken | src/main/java/com/example/springsaas/authentication/repository/UserRepository.java:13 | `findByVerificationToken` returns an account holding the token, and is empty exactly when none does |
| Accounts.FindByResetPasswordToken | src/main/java/com/example/springsaas/authentication/repository/UserRepository.java:12 | `findByResetPasswordToken` returns an account holding the token, and is empty exactly when none does |
| Accounts.UpdateKeepsEmailsUnique | src/main/java/com/example/springsaas/authentication/service/UserProfileService.java:32-42 | writing back an account whose e-mail is its own or unused keeps e-mails unique |
| Accounts.InsertKeepsEmailsUnique | src/main/java/com/example/springsaas/authentication/service/AuthenticationService.java:37-54 | registering an unused e-mail keeps e-mails unique |
| Authentication.AuthenticationService.Register | src/main/java/com/example/springsaas/authentication/service/AuthenticationService.java:36-71 | a registered e-mail is refused with no change; otherwise exactly one disabled account is appended, holding the encoded password and the token valid for 24 hours, and the response describes it |
| Authentication.AuthenticationService.VerifyEmail | src/main/java/com/example/springsaas/authentication/service/AuthenticationService.java:101-126 | an unknown token fails with no change; an expired one is replaced by a fresh 24-hour token, saved, and the call still fails as expired; otherwise the account is enabled and its token cleared, and nothing else changes |
| Authentication.AuthenticationService.ResendVerificationEmail | src/main/java/com/example/springsaas/authentication/service/AuthenticationService.java:129-146 | an unknown e-mail or an already verified account fails with no change; otherwise only that account's token is replaced by a fresh 24-hour one |
| Authentication.AuthenticationService.ForgotPassword | src/main/java/com/example/springsaas/authentication/service/AuthenticationService.java:149-161 | an unknown e-mail fails with no change; otherwise only that account gets a reset token valid for one hour |
| Authentication.AuthenticationService.ResetPassword | src/main/java/com/example/springsaas/authentication/service/AuthenticationService.java:164-176 | an unknown or expired token fails with no change; otherwise only that account gets the encoded new password and loses its reset token |
| Authentication.VerificationTokenSingleUse | src/main/java/com/example/springsaas/authentication/service/AuthenticationService.java:101-122 | after a successful verification the token is found no more, so reusing it fails as invalid |
| Authentication.ReissuedTokenValidForADay | src/main/java/com/example/springsaas/authentication/service/AuthenticationService.java:137-141 | a token reissued at `now` finds its account and is not expired at any time up to `now` + 24 h |
| Authentication.ResetTokenSingleUse | src/main/java/com/example/springsaas/authentication/service/AuthenticationService.java:164-175 | after a successful reset the token is found no more, so reusing it fails as invalid |
| Profiles.UserProfileService.UpdateProfile | src/main/java/com/example/springsaas/authentication/service/UserProfileService.java:24-43 | another user's profile is refused; a new e-mail already registered is refused, while keeping one's own is allowed; both refusals leave the table unchanged; success replaces first name, last name and e-mail and nothing else |
| Profiles.UserProfileService.UpdatePassword | src/main/java/com/example/springsaas/authentication/service/UserProfileService.java:46-67 | checks, in order, own account, current password matches, new password equals its confirmation; every failure leaves the table unchanged; success stores `encode(newPassword)` and nothing else |
| Profiles.UserProfileService.GetUserDetails | src/main/java/com/example/springsaas/authentication/service/UserProfileService.java:73-83 | denied exactly when the caller is neither the requested user nor ROLE_ADMIN, whatever the id; a permitted but absent id is not found; a permitted, present id yields the stored account |
| Profiles.UserProfileService.GetAllUsers | src/main/java/com/example/springsaas/authentication/service/UserProfileService.java:85-94 | succeeds exactly when the caller holds ROLE_ADMIN, and then returns every account |
| Profiles.UpdatedProfileFoundByNewEmail | src/main/java/com/example/springsaas/authentication/service/UserProfileService.java:33-42 | after a permitted profile update the account is found under its new e-mail |
| Subscriptions.PaidPlansArePriced | src/main/java/com/example/springsaas/subscriptionmanagement/service/SubscriptionService.java:42-46 | the price table has an entry for every plan except FREE |
| Subscriptions.PriceId | src/main/java/com/example/springsaas/subscriptionmanagement/service/SubscriptionService.java:87 | the price lookup yields no id exactly for FREE |
| Subscriptions.ResponseRoundTrip | src/main/java/com/example/springsaas/subscriptionmanagement/service/SubscriptionService.java:166-180 | `mapToResponse` keeps the identifier and every field but the customer id, so the subscription is recovered from the response and that id |
| Subscriptions.ExistsByUserAndStatus | src/main/java/com/example/springsaas/subscriptionmanagement/repository/SubscriptionRepository.java:19 | holds exactly when the user has a subscription in that status |
| Subscriptions.InsertKeepsAtMostOneActive | src/main/java/com/example/springsaas/subscriptionmanagement/service/SubscriptionService.java:58-60 | adding a subscription for a user with no ACTIVE one keeps at most one ACTIVE subscription per user |
| Subscriptions.CancelKeepsAtMostOneActive | src/main/java/com/example/springsaas/subscriptionmanagement/service/SubscriptionService.java:151-154 | cancelling keeps at most one ACTIVE subscription per user |
| Subscriptions.SecondCreateRefused | src/main/java/com/example/springsaas/subscriptionmanagement/service/SubscriptionService.java:58-60 | once a subscription is created ACTIVE, its owner's next `createSubscription` is refused |
| Subscriptions.CancelRefusal | src/main/java/com/example/springsaas/subscriptionmanagement/service/SubscriptionService.java:134-143 | the cancel checks run in order: not found, then not the owner, then not ACTIVE; none fires exactly for an existing ACTIVE subscription of the caller |
| Subscriptions.CancelTwiceRefused | src/main/java/com/example/springsaas/subscriptionmanagement/service/SubscriptionService.java:141-143 | a cancelled subscription cannot be cancelled again: the second attempt fails as not active |
| Subscriptions.Linked | src/main/java/com/example/springsaas/subscriptionmanagement/service/SubscriptionService.java:63-72 | a stored customer id is never overwritten; a missing one is replaced by the provider-created id, and a failed creation changes nothing |
| Subscriptions.NewSubscription | src/main/java/com/example/springsaas/subscriptionmanagement/service/SubscriptionService.java:110-127 | the saved record belongs to the caller, has the requested plan, is ACTIVE, carries the provider's subscription and customer ids and the provider currency upper-cased, and is not cancelled |
| Subscriptions.SubscriptionService.LinkCustomer | src/main/java/com/example/springsaas/subscriptionmanagement/service/SubscriptionService.java:63-72 | the linking block changes only the caller's account, as `Linked` says, and yields the customer id, or a provider error when creation fails |
| Subscriptions.SubscriptionService.CreateSubscription | src/main/java/com/example/springsaas/subscriptionmanagement/service/SubscriptionService.java:54-129 | a caller with an ACTIVE subscription is refused before any write; otherwise the customer is linked and, if every provider call succeeds, exactly one `NewSubscription` record is appended, keeping at most one ACTIVE per user, and the caller then has an ACTIVE subscription, so a second create is refused; a later provider failure, including the refusal of a FREE plan that has no price, appends nothing but keeps the link |
| Subscriptions.SubscriptionService.CancelSubscription | src/main/java/com/example/springsaas/subscriptionmanagement/service/SubscriptionService.java:132-156 | any refusal or provider failure leaves the table unchanged; success marks exactly that record CANCELED at `now` |
| Subscriptions.SubscriptionService.GetUserSubscriptions | src/main/java/com/example/springsaas/subscriptionmanagement/service/SubscriptionService.java:158-164 | exactly the caller's subscriptions, each once and each mapped by `mapToResponse` (listed in identifier order) |
| Subscriptions.SubscriptionService.CreateSetupIntent | src/main/java/com/example/springsaas/subscriptionmanagement/service/SubscriptionService.java:183-208 | links the customer and returns the provider's client secret with the customer id; subscriptions are untouched |
| Subscriptions.SubscriptionService.CreateCheckoutSession | src/main/java/com/example/springsaas/subscriptionmanagement/service/SubscriptionService.java:211-240 | no ACTIVE check and no subscription written; a failed customer creation changes nothing; for FREE, which has no price, the call fails and the account is left as it was (the link is rolled back); otherwise the customer stays linked and the provider's session, or its failure, is returned |
| Invoices.InvoiceNumber | src/main/java/com/example/springsaas/invoice/service/InvoiceService.java:115-117 | an invoice number is "INV-" and eight characters with no lower-case letter, twelve in all |
| Invoices.InvoiceNumbersDistinct | src/main/java/com/example/springsaas/invoice/service/InvoiceService.java:115-117 | UUIDs with different eight-character prefixes give different invoice numbers |
| Invoices.NewInvoice | src/main/java/com/example/springsaas/invoice/service/InvoiceService.java:34-45 | a new invoice is DRAFT, unsent, unpaid and consistent; it copies user, amount and currency from its payment and is due 30 days after creation |
| Invoices.TransitionsKeepConsistent | src/main/java/com/example/springsaas/invoice/service/InvoiceService.java:48-84 | paying, sending and the overdue check keep an invoice consistent |
| Invoices.OverdueAfterThirtyDays | src/main/java/com/example/springsaas/invoice/service/InvoiceService.java:42-80 | a created and sent invoice becomes OVERDUE exactly when checked more than 30 days after creation; a paid invoice never does |
| Invoices.OverdueChecked | src/main/java/com/example/springsaas/invoice/service/InvoiceService.java:75-84 | after the check no invoice is SENT and past due; every such invoice is OVERDUE with its other fields kept; every other invoice is unchanged |
| Invoices.OverdueIds | src/main/java/com/example/springsaas/invoice/repository/InvoiceRepository.java:20 | selects exactly the SENT invoices due strictly before `now` |
| Invoices.OverdueCheckIdempotent | src/main/java/com/example/springsaas/invoice/service/InvoiceService.java:76-81 | a second check at the same time selects nothing and changes nothing |
| Invoices.OverdueCheckKeepsValid | src/main/java/com/example/springsaas/invoice/service/InvoiceService.java:79-81 | the overdue check keeps the invoice table valid |
| Invoices.SucceededBetween | src/main/java/com/example/springsaas/payment/repository/PaymentRepository.java:20 | selects, each once, exactly the SUCCEEDED payments created within the window, both bounds included (listed in identifier order) |
| Invoices.MonthlyInvoices | src/main/java/com/example/springsaas/invoice/service/InvoiceService.java:103-112 | one invoice per SUCCEEDED payment in the window: each is SENT and consistent, no payment gets two, and every such payment gets one |
| Invoices.InvoiceService.GetInvoice | src/main/java/com/example/springsaas/invoice/service/InvoiceService.java:28-31 | the stored invoice, or "Invoice not found" exactly when the id is absent |
| Invoices.InvoiceService.CreateInvoice | src/main/java/com/example/springsaas/invoice/service/InvoiceService.java:34-45 | appends exactly one `NewInvoice` for the payment, numbered from the UUID, and keeps the table valid |
| Invoices.InvoiceService.MarkInvoiceAsPaid | src/main/java/com/example/springsaas/invoice/service/InvoiceService.java:48-52 | sets status PAID and paidAt to `now` on that invoice, whatever its status, and changes nothing else |
| Invoices.InvoiceService.SendInvoice | src/main/java/com/example/springsaas/invoice/service/InvoiceService.java:55-71 | sets status SENT, the e-mail flag and time, and the PDF location "invoices/" + number + ".pdf" on that invoice, and changes nothing else |
| Invoices.InvoiceService.CheckOverdueInvoices | src/main/java/com/example/springsaas/invoice/service/InvoiceService.java:75-84 | the loop leaves the table equal to `OverdueChecked` of the old one and keeps it valid |
| Invoices.InvoiceService.RaiseAndSend | src/main/java/com/example/springsaas/invoice/service/InvoiceService.java:110-111 | creating then sending the invoice for one payment appends exactly one SENT invoice for it |
| Invoices.InvoiceService.GenerateMonthlyInvoices | src/main/java/com/example/springsaas/invoice/service/InvoiceService.java:88-113 | for the given window the loop appends exactly `MonthlyInvoices` and keeps the table valid |

## Left out

- **Calendar window.** `generateMonthlyInvoices` computes last month's
  window with `minusMonths` and `withDayOfMonth`. The window is an input here
  (`start`, `end`), and there are no time zones: times are whole seconds.
- **Scheduling.** The `@Scheduled` triggers are not modelled: the overdue
  check and the monthly run are plain calls.
- **One clock reading per call.** A Java method that calls
  `LocalDateTime.now()` several times (create then send, or a token and its
  expiry) reads one `now` here.
- **E-mail and PDF.** E-mail delivery and PDF rendering (`EmailService`,
  `PdfService`) are not part of this model, and neither are the links the
  e-mails carry.
  - A failure of either service is not modelled; `sendInvoice` always records
    the send.
- **JWT and login.** JWT generation and `login` are left out:
  `AuthenticationManager.authenticate` is a framework call.
- **Password encoder.** Its internals are not modelled; `encode` and
  `matches` are uninterpreted.
- **Stripe.** Its internals and request parameters are reduced to the
  oracle's results. The payment-method attach and default-method update count
  as one call.
- **Webhooks and controllers.** The webhook controller, the controllers and
  the handlers they dispatch to are not part of this model.
  - That includes `handleCheckoutSessionCompleted`, `activateSubscription`,
    `changeSubscriptionPlan`, `getUserSubscriptionsByUserId` and
    `createCustomerPortalSession`, which controllers call but
    `SubscriptionService.java` does not define.
- **Checkout bookkeeping.** `createCheckoutSession` writes no subscription
  row (a new `Subscription` would default to PENDING), no
  `SubscriptionAudit` row, and does not check that the account is enabled;
  the model does the same. Audit rows are written by none of the modelled
  operations, so `SubscriptionAudit` is not part of this model.
- **Concurrency.** Each service call is modelled as one atomic step. The
  invariants (one ACTIVE subscription per user, unique e-mails) hold for
  calls that run one at a time: `createSubscription` and `register` check
  (`existsByUserAndStatus`, `existsByEmail`) and then save with no lock in
  between, and no unique constraint on (user, status) backs the first, so
  two concurrent calls could both pass the check.
- **Result order.** `findAllByUser`, `findAllByStatusAndCreatedAtBetween` and
  `findAllByStatusAndDueDateBefore` declare no ordering, so the source
  promises only which rows they return. The model lists them in identifier
  order; the order of `getUserSubscriptions`' list and of the invoices the
  monthly run appends follows from that choice.
- **Transactions.** `@Transactional` rollback is modelled only where an
  unchecked exception follows a save the model makes:
  - `createCheckoutSession` for FREE: `Map.of` refuses the missing price with
    a `NullPointerException` (the model's `MissingPrice`), and the model
    restores the account as the rollback does. The principal object in
    memory, which keeps the customer id, is not modelled.
  - `verifyEmail` saves the re-issued token and then throws. The model keeps
    that save. Whether Spring rolls it back depends on the type of
    `AuthenticationException`, which is not part of this model.
  - A `StripeException` is checked, so Spring does not roll back for it. The
    customer link saved before a failing provider call is therefore kept.
- **User constructor defaults.** `User.java` is not part of this model.
  `Register` takes the roles a new account receives as a service parameter.
- **Duplicate matches.** A `findBy…` lookup that matches several rows makes
  Spring throw; the model returns the first match by identifier. With the
  invariants the model keeps, e-mails never repeat.
- Common.UpperCase: models `toUpperCase` on ASCII letters only, because
  currencies and UUID prefixes are ASCII, and assumes a JVM default locale
  with the root locale's case mapping. Under a Turkish or Azerbaijani default
  locale `toUpperCase()` maps 'i' to 'İ', so a currency such as "inr" would be
  stored as "İNR"; invoice numbers are unaffected, since hexadecimal digits
  contain no 'i'.
- Subscriptions.ProviderCalls: for FREE, `createSubscription` sends an item
  whose price is null; the model takes the provider to refuse it (a
  `StripeException`, so the link is kept) rather than modelling the
  provider's parameter validation or a `Price.retrieve(null)`.
- Subscriptions.NewSubscription: the amount is `unitAmount / 100` as an exact
  rational, because the `double` division and `BigDecimal.valueOf` rounding
  are floating point.
- Profiles.UserProfileService.GetAllUsers: returns every account without
  paging; `Pageable` is framework plumbing.
- **Entity identity.** `markInvoiceAsPaid` and `sendInvoice` take the invoice
  entity itself; the model takes its identifier, and the entity's state is
  its stored row.
  - Likewise the security principal is read from the table rather than kept
    as a separately cached object.
- **Unused columns.** Payment columns that invoicing never reads
  (`stripeChargeId`, `paidAt`, `failureReason`, `receiptUrl`) and the
  entities' audit timestamps other than a payment's `createdAt` are not
  modelled.
