# Registration and payment core of linuxfestival/backend-v2

A Dafny model of the backend's reservation and checkout engine, with the
pieces it stands on.

- **Participate.** A user takes a PENDING seat in a presentation.
- **Payment.** The user's PENDING seats are priced, a coupon may be applied,
  and the result is one of two things:
  - a zero total completes the seats at once;
  - otherwise a Payment is created and sent to the PayPing gateway for a
    payment link.
- **Verify.** The gateway's callback is checked against PayPing. The
  Payment ends either COMPLETED, with the user's pending seats, or FAILED,
  with the coupon unit given back.

Around it:

- the records and validators of `shop/models.py`;
- the PayPing client of `shop/payping.py` and the ZarrinPal client of
  `tasks/payments.py`;
- the account rules of `accounts/models.py`: the phone pattern, the avatar
  limit, the user manager, full names, activation codes and email
  lower-casing;
- the receptor string of `accounts/sms.py`.

Modules:

| file | module | models |
|---|---|---|
| values.dfy | `Values` | Python values the core relies on: `None`, raised exceptions, decoded JSON scalars, truthiness, `str()`, `str.lower()` |
| accounts_models.dfy | `Accounts` | `validate_avatar`, the phone pattern, class `User`, `create_user` and `create_superuser` |
| accounts_sms.dfy | `Sms` | the receptor loop and the params of `send_sms` |
| tasks_payments.dfy | `ZarrinPal` | the requests of the ZarrinPal client and how it classifies the replies |
| shop_payping.dfy | `PayPing` | the PayPing link, headers, request bodies and status back-fill; class `PayPingRequest` |
| shop_models.dfy | `ShopModels` | payment states, `Presentation`, `Participation`, `Coupon`, `Payment` and their `clean` rules; remaining capacity |
| shop_views.dfy | `ShopViews` | class `Store` with `Participate`, `Pay` and `Verify`, and the functions that specify them |

The database is modelled as class `Store`:

- four maps keyed by primary key: presentations, participations, coupons
  and payments;
- two auto-increment counters.

Each view is a method of the store. Its `ensures` give the reply and the
whole new state for every path, including the paths that raise. A raising
path answers 500 and leaves the state Django leaves:

- An exception inside `transaction.atomic` rolls back the new Payment row.
  The coupon unit taken before that block stays taken.
- A `KeyError` in verify happens before anything is saved, so nothing
  changes.

Inputs from outside the model are parameters:

- the gateway's HTTP reply: its status code, and the decoded body. The body
  is `None` when the text is not a JSON object. It is also `None` when
  `requests.request` itself raises (shop/payping.py:46 and :54). Either way
  the client raises: payment answers 500 with the Payment rolled back, and
  verify answers 500 with nothing changed;
- the clock;
- the integer of the random UUID;
- the PayPing credential.

Money is exact `real`.

Where the design of the system and the code disagree, the model follows the
code:

- **Participate.**
  - It does not refuse a presentation that has already started.
  - It takes no lock.
- **Verify.**
  - It is not idempotent: it does not look at the payment's earlier state.
  - A second failing callback gives the coupon unit back a second time.
  - A successful callback does not decrement the coupon, because payment
    already did.
  - It attaches no accessories.
  - It completes every PENDING seat the user holds when the callback
    arrives, including seats taken after the payment was priced, because
    `Payment.participations` is never filled.
    `CompletesSeatTakenAfterPricing` states this.
- **Payment.**
  - When the gateway refuses, the Payment is deleted, not marked FAILED.
- **Capacity.**
  - Remaining capacity can go negative. Payment and verify count only
    COMPLETED seats, and verify completes seats without checking capacity.
    `CheckoutsCanOversell` shows two users ending at -1 seats.
- **Configuration.**
  - `shop/payping.py` imports a `PAYPING_AUTH` setting which
    `backend/settings.py` does not define. The credential is a parameter of
    the model.

## Model

The store methods implement the corrected behaviour of the four Findings
below (the 406 naming `en_title`, the link in `pay_link`, the reference and
card hash in `ref_id` and `card_pan`, the 201 after participate). The
outcomes of the code as written appear only in the `*AsWritten` members and
the discrepancy lemmas beside them.

| member | source | states |
|---|---|---|
| Values.NatToDecimal | accounts/models.py:80 | `str(n)` of a non-negative integer is a non-empty digit string, has no leading zero, and reads back as n |
| Values.DecimalLength | accounts/models.py:80 | `str(n)` has more than k digits exactly when n >= 10^k |
| Values.IntToDecimal | shop/payping.py:24-25 | `str(i)` of an integer: the digits of its magnitude, with "-" for a negative one |
| Values.Lower | accounts/models.py:86-89 | ASCII `lower()` keeps the length, maps each upper-case letter 32 code points up, keeps every other character, and leaves no upper-case letter |
| Values.LowerIdempotent | accounts/models.py:86-89 | lower-casing twice is lower-casing once |
| Accounts.ValidateAvatar | accounts/models.py:12-15 | raises "Avatar image must be up to 2MB." exactly for a present file over 2000000 bytes; otherwise returns the value unchanged |
| Accounts.MatchesPhonePattern | accounts/models.py:18-20 | the regex as the engine tries it: "+98", then "0", then no prefix; a matching string has 10 to 14 characters |
| Accounts.PhonePatternShape | accounts/models.py:18-20 | the phone validator accepts exactly: "+98", "0" or nothing, then "9" and nine digits, optionally one final newline that `$` lets through |
| Accounts.SignupTestNumberMatches | accounts/tests.py:10 | the number the signup test registers passes the phone pattern |
| Accounts.PatternAdmitsTrailingNewline | accounts/models.py:19 | a valid number followed by "\n" also passes |
| Accounts.PatternRejectsOtherShapes | accounts/models.py:19 | a "+98" before a leading 0, a twelfth digit, and a number not starting with 9 after its prefix are refused |
| Accounts.FullName | accounts/models.py:76-77 | the full name is the first name, one space, then the last name |
| Accounts.User.GetFullName | accounts/models.py:76-77 | the user's full name is their first name, one space, then their last name |
| Accounts.FullNameSplits | accounts/models.py:76-77 | a first name without a space, and the last name, are recovered by splitting the full name at its first space |
| Accounts.SavedEmail | accounts/models.py:86-89 | the stored email has the same length, each upper-case letter replaced by its lower-case letter (32 code points up), every other character kept, and no upper-case letter left |
| Accounts.SavedEmailIdempotent | accounts/models.py:86-89 | saving twice stores the same email as saving once |
| Accounts.ActivationCode | accounts/models.py:79-80 | the code is between 1 and 6 digits, is a prefix of the UUID integer's decimal text, and has 6 digits exactly when the integer is at least 100000; it is the whole decimal text when that is shorter than 6 digits |
| Accounts.User.constructor | accounts/models.py:38-39 | the unsaved user carries the given fields; flags missing from other_fields take the model defaults (False) |
| Accounts.User.Save | accounts/models.py:86-89 | save lower-cases a non-empty email and changes nothing else |
| Accounts.User.GenerateActivationCode | accounts/models.py:79-81 | stores the code cut from the UUID integer, then saves |
| Accounts.CreateUserError | accounts/models.py:24-35 | the first failing argument check, in the order email, phone, first name, last name; none exactly when all four are non-empty |
| Accounts.CreateUser | accounts/models.py:24-42 | raises that check's message, or returns a new saved user with the given fields and the lower-cased email |
| Accounts.SetDefaultTrue | accounts/models.py:45-47 | `setdefault(key, True)` keeps a given value and fills in True for a missing one |
| Accounts.SuperuserError | accounts/models.py:44-53 | the superuser checks pass exactly when is_staff and is_superuser are each missing or exactly True. A given is_staff that is not True fails with the staff message. Otherwise a given is_superuser that is not True fails with the superuser message |
| Accounts.CreateSuperuser | accounts/models.py:44-55 | when SuperuserError(other_fields) is Some, raises its message (the staff message or the superuser message). Otherwise it raises exactly when create_user's checks fail, with that check's message. A created superuser has the given phone number, names and lower-cased email; is_staff and is_superuser are True; is_active is True unless given |
| Sms.AccumulatedIsJoinPlusSeparator | accounts/sms.py:16-17 | after a non-empty list the loop's string is the mobiles joined by ", " plus one trailing ", " |
| Sms.AccumulateThenTrimIsJoin | accounts/sms.py:16-18 | trimming the last two characters gives the mobiles joined by ", ", for every list including the empty one |
| Sms.JoinLength | accounts/sms.py:16-18 | the receptor of n >= 1 mobiles is their total length plus 2(n-1) characters |
| Sms.JoinExtends | accounts/sms.py:16-18 | the mobiles appear in order: one more mobile appends ", " and that mobile |
| Sms.SendSms | accounts/sms.py:12-24 | the params hold the line number as sender, the joined mobiles as receptor (empty for no mobiles, the mobile itself for one) and the message text |
| ZarrinPal.GenerateLink | tasks/payments.py:13-24 | the link is START_PAY_URL's prefix followed by the authority's text |
| ZarrinPal.LinkRoundTrip | tasks/payments.py:22-24 | the authority can be read back from the link |
| ZarrinPal.DataFields | tasks/payments.py:45 | a missing "data" reads as an empty object, an object "data" as its own fields, and a non-object "data" makes `.get` raise |
| ZarrinPal.CreatePayment | tasks/payments.py:27-68 | posts to PAY_URL with the JSON headers. The request carries the amount times 10 (Toman to Rial) and the metadata. A network error gives "error" with its text. A code of 100 gives "success" with the authority and its link. Any other code gives "failed" with the message; a reply without "data" is "failed" with no message. A non-object "data" raises |
| ZarrinPal.VerifyPayment | tasks/payments.py:71-109 | posts to VERIFY_URL with the JSON headers. The request carries the amount times 10. A network error gives "unexpected". A code of 100 or 101 gives "success" with ref_id and card_pan. Any other code gives "failed" with the message; a reply without "data" is "failed" with no message. A non-object "data" raises |
| PayPing.GeneratePayPingLink | shop/payping.py:24-25 | the link is the gotoipg prefix followed by the code |
| PayPing.LinkRoundTrip | shop/payping.py:24-25 | the code is read back from its link, and only one code gives a link |
| PayPing.Headers | shop/payping.py:30-33 | exactly two headers: JSON content, and "Bearer " followed by the credential |
| PayPing.Backfilled | shop/payping.py:47-50 | the decoded body with every key kept, plus "status" set to the HTTP status code only when the body has none |
| PayPing.BackfillKeepsStatus | shop/payping.py:48-49 | a body that has its own status is returned unchanged |
| PayPing.PayerIdentity | shop/payping.py:36 | `phone or email`: the phone when it is non-empty, else the email |
| PayPing.PayPingRequest.constructor | shop/payping.py:29-33 | the headers are JSON content and "Bearer " plus the credential |
| PayPing.PayPingRequest.CreatePayment | shop/payping.py:35-50 | posts to the pay URL with the client's headers and a body of payer name, amount, payer identity, callback, description and client reference; returns the back-filled reply |
| PayPing.PayPingRequest.VerifyPayment | shop/payping.py:52-59 | posts exactly the reference id and the amount to the verify URL; returns the back-filled reply |
| PayPing.FillStatus | shop/payping.py:56-58 | filling the status in place gives the back-filled reply |
| ShopModels.StateValue | shop/models.py:9-13 | each state is stored as one of the three PAYMENT_STATES values and parses back to itself |
| ShopModels.ParseState | shop/models.py:9-13 | a stored value has a state exactly when it is one of the choices |
| ShopModels.CleanPresentation | shop/models.py:67-71 | passes exactly when cost >= 0 and start < end; the cost message comes first |
| ShopModels.NoTitleAttribute | shop/models.py:50-51 | a presentation has en_title and fa_title but no title |
| ShopModels.NewParticipation | shop/views.py:47-48 | a created participation is the user's, for that presentation, and PENDING, stored as the "PENDING" choice |
| ShopModels.RemainedCapacity | shop/models.py:73-74 | the capacity less the number of COMPLETED participations of that presentation; never above the capacity |
| ShopModels.CapacityIgnoresUncompleted | shop/models.py:73-74 | adding or changing a participation that is not COMPLETED, and was not, leaves every remaining capacity unchanged |
| ShopModels.CompletingTakesOneSeat | shop/models.py:73-74 | completing one uncompleted participation lowers its presentation's capacity by exactly one |
| ShopModels.CleanCoupon | shop/models.py:101-105 | passes exactly when 0 <= percentage <= 100 and count >= 0; the range message comes first |
| ShopModels.IsValidCoupon | shop/models.py:107-108 | a clean coupon is valid exactly when taking one unit leaves it clean |
| ShopModels.Discounted | shop/views.py:86-87 | total less total·percentage/100: between 0 and the total for a clean coupon, the total at 0%, zero at 100%, positive below 100% |
| ShopModels.NewPayment | shop/views.py:109-113 | a created Payment is PENDING (stored as the "PENDING" choice, the field's default), has the user, total, coupon and creation instant, and no authority, link, reference, card or verification date |
| ShopModels.SaveLinkAsWritten | shop/views.py:132-133 | as written the saved Payment is the record unchanged, so it keeps its old pay_link |
| ShopModels.LinkLostAsWritten | shop/views.py:132-133 | as written a new Payment never stores the link it was given |
| ShopModels.WithPayLink | shop/views.py:132-133 | the link is stored in pay_link and nothing else changes |
| ShopModels.CompleteAsWritten | shop/views.py:163-168 | as written only the state and the verification date are stored; ref_id and card_pan keep their old values |
| ShopModels.ReferenceLostAsWritten | shop/views.py:163-168 | as written a verified Payment stores neither the reference nor the card hash |
| ShopModels.CompletePayment | shop/views.py:163-168 | a verified Payment is COMPLETED with the reference in ref_id, the card hash in card_pan and the verification date; nothing else changes |
| ShopViews.ParticipateReply | shop/views.py:28-49 | 404 exactly when the id is missing or unknown. Otherwise, in order: 400 when the user already holds a seat in any state, 400 when registration is closed, 400 when remaining capacity <= 0. 201 with the new key exactly when every check passes |
| ShopViews.CreatedReplyAsWritten | shop/serializers.py:40-42 | as written the body of the 201 cannot be built and the answer is 500 |
| ShopViews.CreatedReplyDiscrepancy | shop/views.py:47-49 | every request that passes the checks stores the participation but is answered 500 as written, where 201 is meant |
| ShopViews.ParticipateKeepsCapacity | shop/views.py:47-48 | a new PENDING participation leaves every remaining capacity unchanged |
| ShopViews.ParticipateTwiceRejected | shop/views.py:35-37 | after a successful participate the same request is refused as already participating |
| ShopViews.ScanPending | shop/views.py:63-77 | the pricing loop stops at the first pending seat that is full (checked first) or closed; if none is, its total is the sum of the pending seats' costs |
| ShopViews.ScanStaysBlocked | shop/views.py:65-76 | once the loop has stopped, further keys do not change where or why |
| ShopViews.BlockedReply | shop/views.py:67-76 | a blocked checkout is answered 406, naming the presentation's en_title as full or closed |
| ShopViews.BlockedReplyAsWritten | shop/views.py:68-75 | as written the message reads the missing title attribute and the answer is 500 |
| ShopViews.BlockedReplyDiscrepancy | shop/views.py:67-76 | every blocked checkout gets 500 as written instead of the 406 meant |
| ShopViews.ConsumeUnit | shop/views.py:88-89 | taking a unit lowers that coupon's count by one and changes no other coupon or field |
| ShopViews.ReturnUnit | shop/views.py:126-128 | giving a unit back raises that coupon's count by one and changes nothing else |
| ShopViews.ReturnUndoesConsume | shop/views.py:85-128 | giving back the unit a checkout took restores the coupons exactly |
| ShopViews.CheckoutOf | shop/views.py:58-99 | refused exactly when there is no pending seat, a pending seat is blocked, or a sent coupon is unknown or out of stock; the checks run in that order. An unknown coupon is answered "Invalid coupon code." and one with no stock "Coupon is out of stock.". A pass carries the pending cost, discounted by the coupon when one is sent, and the coupon is then valid |
| ShopViews.CompletePending | shop/views.py:170-173 | exactly the user's PENDING participations become COMPLETED; no other participation changes; none of the user's stays pending |
| ShopViews.CompletePendingLeavesOthers | shop/views.py:170-173 | completing one user's seats leaves every other user's pending seats pending |
| ShopViews.CompletePendingKeepsKeys | shop/views.py:170-173 | every participation still refers to a stored presentation |
| ShopViews.CompletesSeatTakenAfterPricing | shop/views.py:170-173 | a seat taken after the checkout is PENDING at verify time, though it was not among the priced ones, and verify completes it |
| ShopViews.StatusIsOk | shop/views.py:124 | the reply's status is the integer 200 (the same test guards verify, shop/views.py:153); it has no contract of its own, see GatewayStatusOk |
| ShopViews.GatewayStatusOk | shop/payping.py:47-50 | a decoded reply passes the status test exactly when its own "status" is 200, or, when it has none, the HTTP status code is 200 |
| ShopViews.ReferencesGiven | shop/views.py:142 | holds exactly when refid and clientrefid are both present and truthy in Python's sense |
| ShopViews.CheckoutsCanOversell | shop/views.py:43-173 | two users holding PENDING seats in a one-seat presentation both pass checkout, and after both are verified the capacity is -1 |
| ShopViews.Store.constructor | shop/models.py:84-124 | an empty store with the given presentations and coupons satisfies the store invariant |
| ShopViews.Store.Participate | shop/views.py:27-49 | answers ParticipateReply. Only a 201 changes the store: it adds a PENDING participation under the next key and advances that counter |
| ShopViews.Store.PriceParticipations | shop/views.py:63-77 | the pricing loop over the pending seats, in key order, computes ScanPending |
| ShopViews.Store.Checkout | shop/views.py:58-99 | computes CheckoutOf. Only a pass that uses a coupon changes the store, by taking one unit of it |
| ShopViews.Store.OpenPayment | shop/views.py:105-135 | posts the payment request for the next Payment key. An undecodable body or a missing code gives 500 and no Payment. A status other than 200 gives 400, no Payment and the coupon unit back. Success stores the Payment with its link and answers 201 |
| ShopViews.Store.SettleLinkRequest | shop/views.py:124-135 | the gateway's answer for a Payment key. An undecodable body or a missing code gives 500 and no Payment. A status other than 200 gives 400, no Payment and the Payment's coupon unit back. Otherwise the Payment is stored with the link made from the code, and the answer is 201 |
| ShopViews.Store.Pay | shop/views.py:54-135 | a refused checkout changes nothing. A total <= 0 completes the user's pending seats and answers 200 without calling the gateway. Otherwise the gateway is called: a 400 leaves the coupons as before, a 500 keeps the unit taken, a 201 stores the Payment with its link |
| ShopViews.Store.CompleteEach | shop/views.py:170-173 | the loop of verify, saving one participation at a time, ends with exactly CompletePending: the user's PENDING seats COMPLETED, all else as before |
| ShopViews.Store.FailPayment | shop/views.py:153-161 | marks the Payment FAILED and gives back its coupon unit, if it has one; nothing else changes |
| ShopViews.Store.ConfirmPayment | shop/views.py:163-173 | completes the Payment with the reference, the card hash and the instant, then completes the user's pending seats; nothing else changes |
| ShopViews.Store.Verify | shop/views.py:137-175 | 400 without changes when a reference is missing or falsy; 404 for an unknown Payment. Otherwise posts the reference and the Payment's total. A failed status marks it FAILED and gives back its coupon unit. A success completes the Payment and the user's pending seats. A raising reply changes nothing |

## Left out

- Serializers, permissions and routing are not modelled. Exceptions: the one
  serializer failure in participate (`ShopViews.CreatedReplyAsWritten`), and the shape of request
  data as `Option` values. The views read `request.data.get(...)`; a value of
  the wrong type (a non-numeric id, say) would raise in the ORM, and the
  model takes ids as integers.
- HTTP, SMS and database I/O are left out. The replies, the clock, the random
  UUID integer and the PayPing credential are parameters.
  `KavenegarAPI.sms_send` and its exception handlers are not modelled;
  `Sms.SendSms` returns the params it would hand over.
- Concurrency and locking are left out: each request is one sequential step
  over the store.
- Floating point is left out: costs and totals are exact reals.
  `Coupon.percentage` is an integer, as its field declares.
- `ShopViews.Store.PriceParticipations` iterates in ascending key order. The
  queryset has no declared ordering. Only which 406 message a blocked
  checkout names depends on it.
- The `participations` and `accessories` relations of Payment, and
  `original_data`, are left out. The views assign `original_data`, but it is
  not a field, so it is never stored.
- `Values.Json` covers only scalar decoded values. A reply whose top level is
  not a JSON object is `None` (the client then raises). ZarrinPal's "data"
  may also be a non-object value.
- `normalize_email` and password hashing are left out. Django's
  `normalize_email` strips surrounding whitespace and lower-cases the domain
  part. `Accounts.CreateUser` and `Accounts.CreateSuperuser` therefore store
  `SavedEmail` of the raw argument, not of the normalized one; the two differ
  only for an email with surrounding whitespace.
- `Accounts.SavedEmail`: lower-cases ASCII letters only, not the full
  Unicode `str.lower()`.
- `Accounts.PhonePatternShape`: treats `\d` as the ASCII digits, where
  Python's `\d` also matches other Unicode decimal digits.
- The status constants of shop/payping.py and tasks/payments.py that no
  code path reads are not modelled: every PayPing code except 200, and
  ZarrinPal's 9, 10 and 51.
- The listing views (`all`, `cart`) and the account views are not part of
  this model.

## Findings

| source | as written | input that shows it | evidently intended | confidence | as-written member | corrected member |
|---|---|---|---|---|---|---|
| shop/views.py:69, shop/views.py:74 | the 406 messages read `presentation.title`, a field renamed to `en_title` (shop/models.py:50) | any payment whose pending participation is full or closed | answer 406 naming the presentation's `en_title` | high, not executed | ShopViews.BlockedReplyAsWritten, ShopViews.BlockedReplyDiscrepancy | ShopViews.BlockedReply |
| shop/views.py:132-133 | the link is assigned to `payment.payment_link`, which is not a Payment field | any payment the gateway accepts | store the link in `pay_link` (shop/models.py:118) | high, not executed | ShopModels.SaveLinkAsWritten, ShopModels.LinkLostAsWritten | ShopModels.WithPayLink |
| shop/views.py:164-166 | the reference and card hash are assigned to `paymentID`, `trackID` and `hashed_card_number`, none of which is a Payment field | any callback the gateway verifies | store them in `ref_id` and `card_pan` (shop/models.py:119-120) | high, not executed | ShopModels.CompleteAsWritten, ShopModels.ReferenceLostAsWritten | ShopModels.CompletePayment |
| shop/views.py:49 | the 201 body is built with ParticipationSerializer, whose required `has_accessories` (shop/serializers.py:41) a Participation does not have | any participate that passes every check | answer 201 with the new participation; the row is stored either way | medium, not executed | ShopViews.CreatedReplyAsWritten, ShopViews.CreatedReplyDiscrepancy | ShopViews.ParticipateReply |
