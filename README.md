# Tour-booking backend: checkout, payment settlement, authentication and authorization

A Dafny model of the behavioural core of a Node.js/Express/Mongoose tour-booking backend:

- **Checkout and payment.** `createCheckout` prices and creates a booking. The SePay payment webhook logs every notification as a transaction, runs its guard ladder and settles the booking. Settlement and booking edits move a per-date participant counter and recompute its sold-out flag.
- **The documents.** Tours, bookings, transactions and users, with their validators, defaults and hooks.
- **Authentication.** Login with a failed-attempt counter and a lock deadline, password reset by an emailed token, password change, and refresh-token rotation against a blacklist.
- **Authorization.** The `protect` and `restrictTo` middleware.
- **Small pieces.** The error mappers and global error handler, `AppError`, `filterObj`, the socket presence registry, and role permission `$addToSet` / `$pull`.

## How the model is organised

Each source file has one module. Its name follows the file: `BookingService`, `BookingModel`, `TourModel`, `TransactionModel`, `AuthService`, `UserModel`, `AuthMiddleware`, `Helpers`, `AppErrors`, `ErrorController`, `ErrorService`, `SocketService`, `RoleService`, `RoleController`. Shared pieces are `Wrappers` (Option and Result), `Strings`, `Schema` (the built-in Mongoose validators), `Constants`, `Failures` (what a service call throws) and `CapacityLedger` (one start-date entry of a tour).

Collections become fields of a class. The fields are `seq` or `map` values that the methods reassign:
- `BookingService.BookingStore` holds tours, bookings and the append-only transaction log.
- `AuthService.AuthStore` holds the users, the refresh blacklist and the id of the 'user' role.
- `SocketService.Registry` is the module-level `userSocketMap`.
- `RoleService.RoleStore` holds the roles collection.

Each state-changing method is proved equal to a pure outcome function of the old state. Examples are `CheckoutOutcome`, `WebhookOutcome`, `LoginOutcome` and `RefreshOutcome`. The properties the code promises are lemmas about those outcome functions, in `BookingProperties` and `AuthProperties`. A loaded user is a `UserModel.UserDocument` object. Its `Save` runs the three pre-save hooks as `UserModel.SaveOutcome` describes them.

Representation choices:
- Dates are integer millisecond instants. Calendar days are UTC days.
- JWT `iat` values are seconds.
- Role and tour references are ids.
- A Number that JavaScript arithmetic can turn into NaN is the datatype `TourModel.Count`.

Behaviour of the code, as written, that the model follows and proves:

- **Start-date records.** `startDates` is declared as a list of plain dates in models/tourModel.js:80. The booking service reads `.date`, `.participants` and `.soldOut` from each entry (services/bookingService.js:60-66). The model uses the service's record shape (`TourModel.StartDate`).
- **Checkout date check.** Checkout accepts the requested date when *any* visible tour has a start date on that calendar day. Settlement needs the *exact* instant on the booking's own tour. A checkout accepted only by day, or only through another tour, produces a booking its own payment cannot settle: the webhook logs the transaction, then a TypeError escapes (`BookingProperties.CheckoutDateMismatchBreaksSettlement`).
- **Participants.** `participants: 0` is priced as one person but stored as zero.
- **Non-fatal outcomes.** The webhook's non-fatal outcomes are AppErrors with code 200. They therefore carry status 'error'.
- **Webhook return value.** The webhook returns the transaction as created, without the mismatch note it writes afterwards.
- **Webhook validation.** The webhook validates its payload against the transaction schema. The transaction is created through the schema (services/bookingService.js:85-93), so a payload missing a required field is not logged.
- **Refund amount.** The `refundAmount` validator compares against `this.total`, which the booking schema does not declare, so every refund amount is rejected.
- **Tour difficulty.** The tour's `difficulty` is optional, because its schema spells the option `requiredd`.
- **Booking edit.** `updateBooking` writes the edit before it looks for the start date, so a 400 or a TypeError leaves the booking edited. The tour is looked up from the *edited* booking, so an edit that sends another `tour` adds the participant difference to that tour's entry and leaves the old tour's counter as it was. An edit that sends an `orderCode` changes which booking the webhook finds. An edit without `participants` turns the entry's counter into NaN. `booking.price` is not a schema path, so the amount is never recomputed.
- **Missing `accumulated`.** A transaction without `accumulated` is stored with 0 although the path is required.
- **Lock expiry.** A lock that has run out does not reset the failure counter, so one wrong password locks the account again.
- **`restrictTo`.** `req.user.role` is the role document that the User model's pre-find hook populates. `restrictTo` compares it with role-name strings, so it refuses every user that `protect` admitted.
- **Socket disconnect.** Connect keys the registry by `socket.user.id`, but disconnect deletes `socket.userId`. No modelled code sets `socket.userId`, so a disconnected user stays online.

## Model

| member | source | states |
|---|---|---|
| AppErrors.StatusOfHttpCode | utils/appError.js:3-7 | for a three-digit code, status is 'fail' exactly for 4xx and 'error' otherwise; every AppError is operational |
| AppErrors.NonFatalStatusIsError | utils/appError.js:6 | an AppError with code 200 has status 'error' |
| Schema.RequiredString | models/bookingModel.js:46-49 | a required String path fails exactly when absent or empty, with the schema's message |
| Schema.Required | models/bookingModel.js:5-18 | a required Number/Date/ObjectId path fails exactly when absent, with the schema's message |
| Helpers.FilterObj | utils/helpers.js:6-14 | the result holds exactly the allowed keys of the input, each with its original value, in input order, with distinct keys |
| Helpers.KeptKeys | utils/helpers.js:8-12 | the keys of the filtered object are the object's keys intersected with the allowed fields |
| Helpers.KeptValues | utils/helpers.js:10 | a key of the filtered object looks up the value it had in the input; any other key is absent |
| Helpers.KeptDistinct | utils/helpers.js:7-13 | filtering an object with distinct keys gives an object with distinct keys |
| Helpers.KeptIdempotent | utils/helpers.js:6-14 | filtering the result again with the same fields changes nothing |
| ErrorController.SendErrorProd | controllers/errorController.js:54-81 | on /api an operational error is sent with its own code and message, any other error as 500 with the generic text; elsewhere a page with the error's code, showing its message, or 'Please try again later.' when the URL is empty |
| ErrorController.GlobalErrorHandler | controllers/errorController.js:36-101 | development echoes the error with code and status defaulted, as JSON on /api and as the 'Something went wrong!' page elsewhere; production hands sendErrorProd the first matching mapper's AppError, else the defaulted error, on /api and on pages alike; other environments send nothing |
| ErrorController.AppErrorReplyInProduction | controllers/errorController.js:54-60 | an AppError matches no mapper and reaches a production /api client with its own code and message |
| ErrorController.ValidationFailureReply | controllers/errorController.js:21-25 | a ValidationError maps to 400 with "Invalid input value: " and the messages joined by ". " |
| ErrorController.ThrownErrorsClassified | controllers/errorController.js:92-97 | both token errors map to 401; a TypeError matches no mapper and is not operational |
| ErrorService.MappersAgreeWithController | services/errorService.js:11-38 | the service's five mappers give the same AppErrors as the controller's |
| ErrorService.HandleAxiosError | services/errorService.js:40-50 | the response data wins over the error message, which wins over the default text; the code is always 500 |
| ErrorService.AxiosMessageTellsCase | services/errorService.js:43-47 | the message prefix tells exactly which of the three cases produced it |
| ErrorService.SendErrorProd | services/errorService.js:73-91 | on /api an operational error echoes its code and message plus statusCode defaulted to 500; any other error gets 500 with the generic text |
| ErrorService.OperationalWithoutCodeReports500 | services/errorService.js:79 | an operational error without a code reports statusCode 500 in the body |
| TourModel.Count.Plus | services/bookingService.js:65 | a sum is a number exactly when both operands are, and then it is their sum (NaN otherwise) |
| TourModel.DurationWeeks | models/tourModel.js:123-125 | the result is the ceiling of duration / 7 |
| TourModel.NameErrors | models/tourModel.js:8-17 | name passes exactly when present with length 10 to 40 |
| TourModel.DifficultyErrors | models/tourModel.js:35-42 | difficulty passes exactly when absent or one of easy, medium, difficult |
| TourModel.DiscountErrors | models/tourModel.js:54-63 | priceDiscount passes exactly when absent or strictly between 0 and the price |
| TourModel.SummaryErrors | models/tourModel.js:64-69 | summary passes exactly when its trimmed text is non-empty and at most 1000 characters |
| TourModel.DescriptionErrors | models/tourModel.js:70-74 | description passes exactly when absent or at most 1000 characters once trimmed |
| TourModel.TourErrors | models/tourModel.js:8-80 | a tour input has no error exactly when the schema accepts it field by field |
| TourModel.NewTour | models/tourModel.js:8-80 | creation succeeds exactly for acceptable input, reports at least one message otherwise, sets secretTour false by default, stores summary and description trimmed, the parsed difficulty and the image cover, and copies the other fields |
| TourModel.InsertTour | models/tourModel.js:8-11 | insertion succeeds exactly when the id is new and no tour has the same name; a duplicate is error 11000 naming one key |
| TourModel.DuplicateNameReported | models/tourModel.js:11 | a duplicate name reaches the client as 400 naming the field name and the value |
| TourModel.TourQuery.PreFind | models/tourModel.js:154-158 | the hook adds the condition secretTour != true to the query's conditions |
| TourModel.SecretToursNeverFound | models/tourModel.js:154-158 | a tour matching a hooked query is not secret and meets the query's own conditions |
| TourModel.FindById | models/tourModel.js:154-158 | findById finds a tour exactly when the id exists and the tour is not secret |
| TourModel.Aggregation.PreAggregate | models/tourModel.js:174-178 | the hook puts a match on non-secret tours in front of the pipeline and keeps the rest |
| TourModel.AggregateSeesNoSecretTour | models/tourModel.js:174-178 | behind the hook's match, the rest of any pipeline sees exactly the non-secret tours |
| BookingModel.ParsePaymentStatus | models/bookingModel.js:23-27 | a status parses exactly when it is Unpaid, Paid, Cancelled or Refunded |
| BookingModel.PaymentStatusErrors | models/bookingModel.js:23-27 | paymentStatus passes exactly when absent or one of the four values |
| BookingModel.PaymentMethodErrors | models/bookingModel.js:28-33 | paymentMethod passes exactly when absent (defaulted) or 'sepay' |
| BookingModel.RefundErrors | models/bookingModel.js:35-44 | refundAmount passes exactly when absent, or non-negative and within the undeclared total |
| BookingModel.BookingErrors | models/bookingModel.js:3-59 | a booking input has no error exactly when the schema accepts it |
| BookingModel.NewBooking | models/bookingModel.js:19-33 | creation succeeds exactly for acceptable input; defaults are participants 1, Unpaid and 'sepay'; specialRequirements is trimmed |
| BookingModel.RefundAmountAlwaysRejected | models/bookingModel.js:35-44 | any booking given a refund amount is rejected, with the min message when negative and the total message otherwise |
| BookingModel.PatchErrors | services/bookingService.js:139-142 | an edit passes the update validators exactly when a sent paymentStatus is one of the four values, a sent paymentMethod is 'sepay', a sent orderCode is non-empty and no refund amount is sent |
| BookingModel.ApplyPatch | services/bookingService.js:139-142 | `$set` replaces exactly the given paths, including tour, user, amount and orderCode (specialRequirements trimmed), and keeps every other field |
| TransactionModel.TransactionErrors | models/transactionModel.js:5-37 | a transaction input has no error exactly when its five required fields are present |
| TransactionModel.NewTransaction | models/transactionModel.js:17-29 | creation succeeds exactly for acceptable input; missing amounts default to 0 |
| TransactionModel.WithNote | models/transactionModel.js:38 | writing the note changes the note and no other field |
| TransactionModel.MissingAccumulatedStoredAsZero | models/transactionModel.js:25-29 | a transaction without accumulated is accepted and stored with 0 |
| CapacityLedger.SameDayRange | services/bookingService.js:15-17 | an instant lies between the day bounds of t exactly when it falls on t's calendar day |
| CapacityLedger.FindEntry | services/bookingService.js:60-62 | the result is the first entry whose date equals the instant, and none exactly when no entry has it |
| CapacityLedger.Adjust | services/bookingService.js:64-67 | one entry's counter gains the delta and its soldOut becomes counter >= maxGroupSize; everything else is unchanged |
| CapacityLedger.NaNIsSticky | services/bookingService.js:150-157 | a NaN counter stays NaN whatever is added, and its date never sells out |
| BookingService.Settlement | services/bookingService.js:54-70 | settlement fails exactly when the tour is hidden or missing (code 200, 'null' in the message) or has no entry at the booked instant (TypeError) |
| BookingService.SettlementChanges | services/bookingService.js:60-69 | a successful settlement adds exactly the booking's participants to that one entry, recomputes soldOut and makes the booking Paid at now; nothing else changes |
| BookingService.FirstWithOrderCode | services/bookingService.js:105-111 | the result is the first booking with that order code, and none exactly when no booking has it |
| BookingService.IndexOfBooking | services/bookingService.js:135-136 | the result is the position of the booking with that id, and none exactly when there is none |
| BookingService.BookingStore.CreateCheckout | services/bookingService.js:10-52 | the new store and the reply are those of the checkout outcome function |
| BookingService.BookingStore.UpdateBookingPaid | services/bookingService.js:54-70 | the store becomes the settlement result, or stays as it was when settlement fails |
| BookingService.BookingStore.SepayWebhook | services/bookingService.js:72-131 | the new store and the reply are those of the webhook outcome function |
| BookingService.BookingStore.UpdateBooking | services/bookingService.js:133-165 | the new store and the reply are those of the edit outcome function |
| BookingProperties.DayOfferedMeansSameDay | services/bookingService.js:19-28 | the checkout query finds a tour exactly when some visible tour has a start date on the same calendar day |
| BookingProperties.CheckoutRejections | services/bookingService.js:12-31 | 404 exactly for an unknown or secret tour; then 400 exactly when no visible tour offers that day; rejections change nothing |
| BookingProperties.CheckoutCreatesOneBooking | services/bookingService.js:33-51 | success appends exactly one Unpaid booking with the reply's amount and order code; amount = price × (participants, or 1 when absent or 0); tours and log unchanged |
| BookingProperties.CheckoutValidation | services/bookingService.js:41-49 | checkout fails validation only when the order code is empty |
| BookingProperties.ZeroParticipantsPricedAsOne | services/bookingService.js:33 | with participants 0 the amount is the price of one person and the booking records 0 |
| BookingProperties.WebhookLogsFirst | services/bookingService.js:85-93 | a payload the schema accepts appends exactly one transaction whatever follows, built from transferAmount, code and content-or-description; one it rejects changes nothing |
| BookingProperties.WebhookGuards | services/bookingService.js:96-118 | no extracted code, then no booking with the raw code, then an already-paid booking: each answers code 200 and changes no tour and no booking |
| BookingProperties.SettlementIgnoresLog | services/bookingService.js:54-70 | settlement neither reads nor writes the transaction log |
| BookingProperties.WebhookSettles | services/bookingService.js:121-128 | past the guards a mismatch only writes a note, and tours and bookings end as settlement leaves them |
| BookingProperties.FirstWithOrderCodeUpdate | services/bookingService.js:105-111 | changing a booking without touching its order code keeps the order-code lookup in place |
| BookingProperties.WebhookReplayAddsCapacityOnce | services/bookingService.js:113-118 | a replayed notification is logged again but stops at the Paid guard: capacity is added once |
| BookingProperties.UnmatchedInstantFailsWebhook | services/bookingService.js:60-65 | a notification for an unpaid booking whose tour has no entry at its exact instant is logged, then a TypeError escapes with tours and bookings unchanged |
| BookingProperties.CheckoutBookingFoundByCode | services/bookingService.js:105-111 | with a fresh order code, the booking a checkout appends is the one the webhook's order-code lookup finds, Unpaid, on the requested tour and instant |
| BookingProperties.CheckoutDateMismatchBreaksSettlement | services/bookingService.js:15-31 | a booking whose instant is on no entry of its own tour cannot be settled: the payment is logged, a TypeError escapes, the booking stays Unpaid |
| BookingProperties.EditRejections | services/bookingService.js:133-152 | unknown id is 404 and a failed validator a ValidationError, both writing nothing; a missing tour is a TypeError and no matching entry a 400, both with the edit written and tours untouched |
| BookingProperties.EditAdjustsLedger | services/bookingService.js:145-164 | a successful edit moves the matching entry by new minus old participants and recomputes soldOut; nothing else in the tours changes and the amount is only what the edit sends |
| BookingProperties.EditToAnotherTourKeepsOldTour | services/bookingService.js:139-157 | an edit that sends another tour adds the participant difference to the new tour's entry and leaves the old tour unchanged |
| BookingProperties.EditWithoutParticipantsPoisonsCounter | services/bookingService.js:154-157 | an edit without participants turns the entry's counter into NaN and clears soldOut |
| UserModel.ChangedPasswordAfterMeaning | models/userModel.js:107-117 | with no change recorded the answer is false; for a change from 1970 on a token is stale exactly when issued in an earlier whole second; for an earlier change, exactly when the change is after 1000 × iat ms |
| UserModel.ChangeStampSeparatesTokens | models/userModel.js:78-83 | with the one-second back-dating, a token issued at or after the save is accepted, one issued two or more seconds earlier is refused |
| UserModel.SaveOutcome | models/userModel.js:68-91 | validation runs first when on; a changed password is hashed and its confirmation cleared; an existing document is stamped now − 1000; a missing role gets the 'user' role, a TypeError when there is none |
| UserModel.PasswordRulesEnforced | models/userModel.js:27-42 | a validated save refuses a new password shorter than 8 characters and a confirmation that differs |
| UserModel.UserDocument.Load | models/userModel.js:93-96 | the loaded document holds the stored user |
| UserModel.UserDocument.Create | models/userModel.js:14-64 | a new document gets photo 'default.jpg', active true, 0 failed attempts, no lock, and a lowercased email |
| UserModel.UserDocument.CreatePasswordResetToken | models/userModel.js:120-126 | only the token's digest is stored, it expires ten minutes after now, and the plain token is returned |
| UserModel.UserDocument.Save | models/userModel.js:68-91 | the document and the result become those of the save outcome |
| AuthService.FirstByEmail | services/authService.js:35-37 | the first user whose email is the lowercased query, none exactly when there is none |
| AuthService.FirstWithLiveToken | services/authService.js:94-97 | the first user holding the token digest with an expiry at or after now, none exactly when there is none |
| AuthService.IndexOfUser | services/authService.js:117 | the position of the user with that id, none exactly when there is none |
| AuthService.AuthStore.Login | services/authService.js:34-62 | the new state and the reply are those of the login outcome function |
| AuthService.AuthStore.ForgotPassword | services/authService.js:64-89 | the new state, the link handed to the mailer and the reply are those of the forgot-password outcome function |
| AuthService.AuthStore.ResetPassword | services/authService.js:91-113 | the new state and the reply are those of the reset outcome function |
| AuthService.AuthStore.AssignNewPassword | services/authService.js:102-107 | the document gets the new password and confirmation, and no token, counter or lock |
| AuthService.AuthStore.UpdatePassword | services/authService.js:115-130 | the new state and the reply are those of the password-change outcome function |
| AuthService.AuthStore.RefreshToken | services/authService.js:132-145 | the new state and the reply are those of the refresh outcome function |
| AuthProperties.SaveLeavesDigest | models/userModel.js:68-76 | whatever a save succeeds with holds no plain-text password |
| AuthProperties.LoginKeepsPasswordsHashed | services/authService.js:48-61 | login leaves every stored password a digest |
| AuthProperties.ForgotKeepsPasswordsHashed | services/authService.js:71-88 | forgotPassword leaves every stored password a digest, on the sent and the unsent path |
| AuthProperties.ResetKeepsPasswordsHashed | services/authService.js:102-110 | a reset stores the new password as a digest |
| AuthProperties.UpdatePasswordKeepsPasswordsHashed | services/authService.js:125-127 | a password change stores the new password as a digest |
| AuthProperties.LoginRejections | services/authService.js:34-46 | unknown email is 401; a locked account is 403 whatever the password; neither writes anything |
| AuthProperties.WrongPasswordCounted | services/authService.js:48-55 | a wrong password adds one failure and answers 401; from the third failure the lock is now + LOCK_TIME; only that user changes |
| AuthProperties.CorrectPasswordResetsCounter | services/authService.js:57-61 | a correct password on an unlocked account sets failures to 0, clears the lock, and returns the saved user |
| AuthProperties.LockLastsLockTime | models/userModel.js:128-130 | a lock set by a failure holds exactly until LOCK_TIME after that failure |
| AuthProperties.ExpiredLockRelocksOnNextFailure | services/authService.js:49-52 | after a lock runs out, the next wrong password locks again for a full LOCK_TIME |
| AuthProperties.ThreeWrongPasswordsLock | utils/constants.js:8-9 | three wrong passwords lock a fresh account; until the lock runs out any login gets 403 and changes nothing |
| AuthProperties.ForgotThenReset | services/authService.js:64-113 | a reset within ten minutes succeeds, the new password verifies, token, counter and lock are cleared, the change is stamped now − 1000, and the token is refused a second time |
| AuthProperties.ResetTokenExpires | services/authService.js:94-100 | a reset token past its ten minutes is refused with 400 and nothing changes |
| AuthProperties.UnsentEmailLeavesNoToken | services/authService.js:77-88 | when the email fails the token is cleared and the answer is 500, so the mailed link does not work |
| AuthProperties.ForgotUnknownEmail | services/authService.js:65-68 | an unknown email is 404 with no email and no change |
| AuthProperties.UpdatePasswordRejections | services/authService.js:117-122 | a missing user throws a TypeError, a wrong current password is 401; neither writes anything |
| AuthProperties.UpdatePasswordReplacesDigest | services/authService.js:124-129 | with the right current password, the new confirmed password replaces the old one, which stops verifying, stamped now − 1000 |
| AuthProperties.RefreshChecksBlacklist | services/authService.js:132-145 | a token failing verification or on the blacklist gets nothing and writes nothing; otherwise its key is blacklisted and a pair for its user is issued |
| AuthProperties.RefreshTokenSingleUse | services/authService.js:134-141 | when the key written equals the key read, a refresh token works once and is then answered 'Token revoked' |
| AuthMiddleware.RestrictToOutcome | middleware/authMiddleware.js:8-20 | passes exactly when the role is a name in the list; otherwise 403, and a TypeError without a user |
| AuthMiddleware.HeaderTakesPrecedence | middleware/authMiddleware.js:24-32 | with a 'Bearer' header the cookie does not matter |
| AuthMiddleware.CookieWithoutBearerHeader | middleware/authMiddleware.js:29-31 | without a 'Bearer' header a non-empty cookie token is used as it is |
| AuthMiddleware.BearerHeaderYieldsToken | middleware/authMiddleware.js:25-28 | 'Bearer ' followed by a non-empty token without spaces yields that token |
| AuthMiddleware.BareBearerYieldsNoToken | middleware/authMiddleware.js:25-41 | a header of exactly 'Bearer' yields no token even with a cookie, so the answer is 401 |
| AuthMiddleware.BearerSpaceYieldsNoToken | middleware/authMiddleware.js:25-41 | a header 'Bearer ' with nothing after the space yields no token even with a cookie |
| AuthMiddleware.ProtectChain | middleware/authMiddleware.js:34-67 | no token is 401 before verification and lookup; then a missing user is 401; then a password changed after iat is 401; a user is admitted exactly when all pass, and it is the token's user |
| AuthMiddleware.ProtectedUserAlwaysForbidden | middleware/authMiddleware.js:8-20 | a user admitted by protect is refused by restrictTo for any list of role names |
| AuthMiddleware.Request.Protect | middleware/authMiddleware.js:22-68 | the request passes exactly when the protect outcome admits a user, and req.user is set to that user only then |
| AuthMiddleware.Request.RestrictTo | middleware/authMiddleware.js:8-20 | the answer is restrictTo's decision on the request's user |
| SocketService.GetUserSocketId | services/socketService.js:9 | the stored socket id, none exactly when the user is absent |
| SocketService.OnlineUsers | services/socketService.js:15-18 | the broadcast list is the registry's keys in insertion order, each once |
| SocketService.GetOnlineUsersCount | services/socketService.js:13 | the count is the number of keys, which is the length of the broadcast list |
| SocketService.UpdatesKeepValid | services/socketService.js:23 | set and delete keep the key order and the map in step |
| SocketService.SetEntryEffect | services/socketService.js:20-24 | after a set the user maps to the new socket, replacing any earlier one; other users are unchanged |
| SocketService.DeleteEntryEffect | services/socketService.js:142 | a delete takes exactly that user offline; other users are unchanged |
| SocketService.DisconnectMatchesConnectOnlyByUserId | services/socketService.js:137-142 | a disconnect removes the connected user only when socket.userId names it; with socket.userId unset the user stays online |
| SocketService.Registry.Set | services/socketService.js:23 | the registry becomes the set outcome |
| SocketService.Registry.Delete | services/socketService.js:142 | the registry becomes the delete outcome |
| SocketService.Registry.HandleUserConnection | services/socketService.js:20-31 | the registry and the broadcast are those of the connection outcome |
| SocketService.Registry.HandleUserDisconnection | services/socketService.js:137-153 | the registry and the broadcast are those of the disconnection outcome |
| RoleService.AddToSet | services/roleService.js:7 | the value is an element afterwards, nothing else is added, the old list is a prefix, and no duplicates appear |
| RoleService.Pull | services/roleService.js:17 | no occurrence of the value remains and every other element is kept |
| RoleService.AddToSetIdempotent | services/roleService.js:7 | adding a present value changes nothing, so adding twice is adding once |
| RoleService.PullDistributes | services/roleService.js:17 | pull keeps the other elements in order: it distributes over concatenation |
| RoleService.PullAbsent | services/roleService.js:17 | pulling an absent value changes nothing |
| RoleService.AssignThenRemoveRestores | services/roleService.js:4-20 | removing a permission just added to a role that lacked it restores the list |
| RoleService.AssignEffect | services/roleService.js:4-12 | assign makes the permission an element, at most once, idempotently, touching only that role's list; an unknown id answers null |
| RoleService.RemoveEffect | services/roleService.js:14-20 | remove leaves no occurrence and keeps the others in order, touching only that role's list; an unknown id answers null |
| RoleService.RoleStore.FindByIdAndAddToSet | services/roleService.js:5-10 | the roles and the answer become those of the assign outcome |
| RoleService.RoleStore.FindByIdAndPull | services/roleService.js:15-18 | the roles and the answer become those of the remove outcome |
| RoleService.AssignPermissionToRole | services/roleService.js:4-12 | the roles and the answer become those of the assign outcome |
| RoleService.RemovePermissionFromRole | services/roleService.js:14-20 | the roles and the answer become those of the remove outcome |
| RoleController.AssignPermissionToRole | controllers/roleController.js:9-26 | the roles change as assign does, and the reply is 200 'success' with the updated role |
| RoleController.RemovePermissionFromRole | controllers/roleController.js:28-43 | the roles change as remove does, and the reply is 200 'success' with the updated role |
| RoleController.HandlersAlwaysSucceed | controllers/roleController.js:20-25 | both handlers answer 200 'success' whatever the outcome, also for an unknown role |

## Left out

- Persistence: MongoDB and Mongoose are replaced by in-memory sequences and maps. Queries are the lookups above. `save`, `create` and `findByIdAndUpdate` always succeed apart from the validators and hooks that are modelled.
- The aggregation methods of the booking and tour services (status, revenue, ratios, top tours, statistics, search), and the slug pre-save hook of tours. They are query plumbing and string formatting outside this core.
- Floating-point code: rating rounding and geo distance. Prices and amounts are integers.
- Time zones: the day bounds of checkout are taken in UTC, while the code uses the server's local time zone.
- Clock, ids and randomness are inputs: `Date.now()`, new document ids, `crypto.randomBytes`, and the order code from `generateOrderCode`.
- `extractOrderCode`, `generateOrderCode`, `generateTokens` and `setTokenBlacklist` are not defined in any file of this model. They are parameters that the model does not interpret. As a result, the model does not know which blacklist key `setTokenBlacklist` writes, and the tokens of utils/jwt.js carry no `jti`. `AuthProperties.RefreshTokenSingleUse` therefore assumes that the key written equals the key read. `checkPermission` and `checkIsUser` are not part of this model.
- bcrypt and SHA-256 are ideal hashes (the digest determines the text). JWT signing and verification are a parameter of the model. The Redis expiry of blacklist keys is left out.
- `BookingService.BookingStore.CreateCheckout`: requires a `startDate` in the body. The behaviour of `new Date(undefined)` (an Invalid Date that matches no tour) is not modelled.
- `Strings.Lower` folds ASCII letters only, while JavaScript's `toLowerCase` folds all of Unicode. This affects the email `lowercase` setter and the `FirstByEmail` lookup (services/authService.js:35-37) for non-ASCII addresses.
- String lengths count code points, while JavaScript's `.length` counts UTF-16 code units. For text outside the Basic Multilingual Plane the model's bounds differ: the tour name's 10 to 40 (models/tourModel.js:12-16), the password's minlength 8 and the summary's and description's maxlength 1000.
- `UserModel.SaveOutcome`: keeps any role id the document holds. The role-default hook tests `!this.role` on the role that the pre-find hook has populated (models/userModel.js:85-96). A loaded user whose role id no longer resolves has a null role, so the source gives them the 'user' role on save; the model does not.
- `ErrorController.ToRawError`: the messages it gives a ValidationError and a JsonWebTokenError are placeholders. Mongoose's "<Model> validation failed: <path>: <message>, …" and jsonwebtoken's several texts are not modelled. Only development mode echoes them; production replaces them by the mappers' fixed texts.
- Request bodies are typed values. JSON `null` is treated as an absent field. `validator.isEmail` and the ObjectId casts are not modelled, so there is no CastError path.
- An `updateBooking` edit covers every booking path the model stores. `refundDate` and `refundReason` are not stored by the model, so an edit of those paths is not modelled. Paths the schema does not declare are dropped by strict mode. Mongoose reports update-validator errors in the order of the update's keys; the model lists them in schema order.
- The permissions populate of the role model's pre-find hook is not modelled: a role's `permissions` are ids. The booking pre-find populate is modelled only as far as it hides a secret tour.
- Timestamps (`createdAt` and `updatedAt`) are left out.
- Concurrency is left out: the process is sequential, so there is no concurrent webhook delivery and no `Promise.all`.
- Email delivery is an input (`emailSent`). The logger, the socket room join, `updateUserStatus` and the chat and typing events are I/O and are not modelled. The broadcast is the list of online users only.
- Thin CRUD and signup, the passport `authenticateJWT` strategy, cookies and the Express response sending are left out, apart from the reply values the error handler chooses.
