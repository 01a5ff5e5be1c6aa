# Digital Liquidity Fund backend — a Dafny model

This project models the bookkeeping core of the Django backend of the Digital
Liquidity Fund platform. It has four parts.

- **Withdrawals** (`withdrawal_*.dfy`): the withdrawal record and its four statuses,
  with the 48-hour escalation rule. A user submits a request, and the amount is
  reserved by debiting a per-user wallet balance. An admin approves the request (the
  reserved funds are paid out) or rejects it (they are refunded). The two bulk
  actions on the admin screen change the status of the selected pending rows and
  refund nothing. The wallet is a map from user to balance, since no shown file
  defines it. Submit, approve and reject each keep every user's *total* constant:
  the balance plus the amounts of the user's pending, processing and paid requests.
  Processing requests count too, because escalation keeps their funds reserved.
- **M-Pesa payments** (`payment_*.dfy`, `mpesa.dfy`, `base64.dfy`, `utf8.dfy`).
  Starting an STK push finds the active product for the code and creates a payment
  row at the product's fixed price. The row then records the request ids from the
  Daraja response. The callback finds the single row with the checkout id and
  records the result with the receipt, and changes no other row. Also modelled: the
  phone-number and currency-code validation, the `%Y%m%d%H%M%S` timestamp, and the
  STK password. The password is the Base64 encoding (section 4 of RFC 4648) of the
  UTF-8 bytes of short code, passkey and timestamp. It is proved to decode back to
  exactly those bytes.
- **Rentals** (`rental_*.dfy`): the rental record and the pending-returns sum over a
  user's active rentals.
- **Users** (`users_*.dfy`): the user manager (`create_user`, `create_superuser`),
  sessions, the registration and login validators, and the register, login and
  Google-login endpoints over a user store.

The following are parameters of the operations that use them:

- clock readings;
- e-mail normalisation;
- `authenticate`;
- JWT signing;
- the Daraja and Google responses;
- `make_random_password`.

Money is integer cents (withdrawals, rentals) or whole shillings (M-Pesa amounts). A
row's id is its position in the table.

A state-changing operation is a method on a class holding the table. Three classes
hold tables:

- `WithdrawalDesk`: wallets and withdrawal objects;
- `PaymentBook`: products and payment objects;
- `UserStore`: accounts.

The record objects (`Withdrawal`, `MpesaPayment`, `UserSession`) are classes whose
methods assign their fields, as the Django model methods and views do. Each method
states its new state in terms of a function on values, such as `PaidAt`, `Escalated`,
`Settled`, `HandleCallback` or `BulkUpdate`. Lemmas prove what the code promises
about those functions.

## Model

| member | source | states |
|---|---|---|
| WithdrawalModels.CleanAmount | Backend/Liquidity/withdrawal/models.py:28-31 | an amount is refused exactly when it is zero or negative |
| WithdrawalModels.PaidAt | Backend/Liquidity/withdrawal/models.py:33-37 | after `mark_as_paid` the status is paid and `processed_at` is the clock reading; user, number, amount and creation time are unchanged |
| WithdrawalModels.RejectedAt | Backend/Liquidity/withdrawal/models.py:39-43 | after `reject` the status is rejected and `processed_at` is the clock reading; the request fields are unchanged |
| WithdrawalModels.Escalated | Backend/Liquidity/withdrawal/models.py:45-49 | a pending request at least 172800 seconds old becomes processing; any other request is returned unchanged; `processed_at` is never touched |
| WithdrawalModels.EscalationRule | Backend/Liquidity/withdrawal/models.py:45-49 | escalation changes a request if and only if it is pending and overdue; a request still pending afterwards is not overdue; escalating twice equals escalating once |
| WithdrawalModels.Withdrawal.constructor | Backend/Liquidity/withdrawal/models.py:18-23 | a new request is pending with no `processed_at` |
| WithdrawalModels.Withdrawal.Clean | Backend/Liquidity/withdrawal/models.py:28-31 | `clean` refuses exactly the non-positive amounts |
| WithdrawalModels.Withdrawal.MarkAsPaid | Backend/Liquidity/withdrawal/models.py:33-37 | the object's new state is `PaidAt` of its old state |
| WithdrawalModels.Withdrawal.Reject | Backend/Liquidity/withdrawal/models.py:39-43 | the object's new state is `RejectedAt` of its old state |
| WithdrawalModels.Withdrawal.MoveToProcessing | Backend/Liquidity/withdrawal/models.py:45-49 | the object's new state is `Escalated` of its old state |
| WithdrawalSerializers.ValidateAmount | Backend/Liquidity/withdrawal/serializers.py:15-19 | non-positive values are refused; any other value is returned unchanged |
| WithdrawalSerializers.ValidateAmountAgreesWithClean | Backend/Liquidity/withdrawal/serializers.py:15-19 | the serializer check and the model's `clean` refuse the same amounts |
| WithdrawalSerializers.ValidateFields | Backend/Liquidity/withdrawal/models.py:19-20 | the field checks pass exactly for a non-blank number of at most 15 characters and an amount of at most 12 digits with 2 decimals |
| WithdrawalSerializers.ValidateRequest | Backend/Liquidity/withdrawal/serializers.py:9-19 | a request validates exactly when both fields fit and the amount is positive, and then the data is the number and amount as given |
| WithdrawalSerializers.RequestInputCannotSetStatus | Backend/Liquidity/withdrawal/serializers.py:12-13 | from any client input only `mobile_number` and `amount` are kept, never the status |
| WithdrawalSerializers.AdminSerializerIsReadOnly | Backend/Liquidity/withdrawal/serializers.py:30-39 | the admin serializer keeps nothing of any input |
| Common.Accepted | Backend/Liquidity/withdrawal/serializers.py:12-13 | a serializer keeps exactly the input keys that are declared and not read-only, with their values |
| WithdrawalViews.SubmitCheck | Backend/Liquidity/withdrawal/views.py:29-60 | a submission passes all guards if and only if the fields fit, the amount is positive, the user has no pending request, a wallet exists and it covers the amount; each refusal names the guard that failed |
| WithdrawalViews.NewPendingKeepsOnePerUser | Backend/Liquidity/withdrawal/views.py:42-46 | adding a pending request for a user with none keeps at most one pending request per user |
| WithdrawalViews.ReservedAppend | Backend/Liquidity/withdrawal/views.py:63-67 | a new row adds its holding to the user's reserved sum |
| WithdrawalViews.ReservedUpdate | Backend/Liquidity/withdrawal/views.py:153-157 | replacing one row changes the reserved sum by the change in that row's holding |
| WithdrawalViews.WithdrawalDesk.Submit | Backend/Liquidity/withdrawal/views.py:28-77 | a refused submit changes nothing; a successful one debits exactly the amount and appends exactly one pending row for the user; every user's total is kept; non-negative balances stay non-negative; at most one pending request per user |
| WithdrawalViews.WithdrawalDesk.Approve | Backend/Liquidity/withdrawal/views.py:114-134 | not found unless the id is pending; a missing owner wallet is a 500 and a negative balance is refused; on success only that row becomes `PaidAt`; wallets are untouched and every total is kept |
| WithdrawalViews.WithdrawalDesk.RejectRequest | Backend/Liquidity/withdrawal/views.py:143-161 | not found unless the id is pending; on success the row becomes `RejectedAt`, the owner's balance rises by exactly the amount, the id is no longer pending (so a second reject is not found), and every total is kept |
| WithdrawalAdmin.BulkUpdate | Backend/Liquidity/withdrawal/admin.py:16 | the table after `queryset.filter(status="pending").update(status=s)` keeps its length; `BulkUpdateAt` states what happens to each row |
| WithdrawalAdmin.BulkUpdateAt | Backend/Liquidity/withdrawal/admin.py:16 | a selected pending row changes only its status; every other row is unchanged |
| WithdrawalAdmin.SecondRunUpdatesNothing | Backend/Liquidity/withdrawal/admin.py:16 | after one run no selected row is pending, so a second run counts 0 and changes nothing |
| WithdrawalAdmin.BulkUpdateKeepsOnePerUser | Backend/Liquidity/withdrawal/admin.py:16 | a bulk update keeps at most one pending request per user |
| WithdrawalAdmin.MarkPaidKeepsReserved | Backend/Liquidity/withdrawal/admin.py:15-16 | marking rows paid keeps each user's reserved sum |
| WithdrawalAdmin.MarkPaidKeepsReservedForAll | Backend/Liquidity/withdrawal/admin.py:15-16 | the same, for all users at once |
| WithdrawalAdmin.BulkRejectDropsReserved | Backend/Liquidity/withdrawal/admin.py:22-23 | bulk rejection lowers the user's reserved sum by the amounts it rejects and refunds nothing, so those funds leave the total |
| WithdrawalAdmin.BulkRejectDropsReservedForAll | Backend/Liquidity/withdrawal/admin.py:22-23 | the same, for all users at once |
| WithdrawalAdmin.BulkSetStatus | Backend/Liquidity/withdrawal/admin.py:16 | the table becomes `BulkUpdate` of the old one, and the count is the number of selected rows that were pending |
| WithdrawalAdmin.MarkAsPaid | Backend/Liquidity/withdrawal/admin.py:15-17 | the bulk update to paid: the count of selected pending rows; wallets are unchanged and every reserved sum is kept |
| WithdrawalAdmin.RejectWithdrawal | Backend/Liquidity/withdrawal/admin.py:22-24 | the bulk update to rejected: the count of selected pending rows; wallets are unchanged, with no refund, so each user's reserved sum drops by the amounts rejected |
| PaymentModels.NewProduct | Backend/Liquidity/payment/models.py:13-16 | a product is active by default |
| PaymentModels.MpesaPayment.constructor | Backend/Liquidity/payment/models.py:32-46 | a new payment is initiated, with empty ids, result fields and receipt, and `{}` as its raw body |
| PaymentModels.MpesaPayment.RecordPushResponse | Backend/Liquidity/payment/views.py:46-48 | the two ids become the response fields, or `""` when absent, and the raw body becomes the response; nothing else changes |
| PaymentModels.MpesaPayment.RecordCallback | Backend/Liquidity/payment/views.py:74-76 | result code, description and raw body are set; nothing else changes |
| PaymentModels.MpesaPayment.MarkSucceeded | Backend/Liquidity/payment/views.py:81-82 | the receipt is stored and the status is success |
| PaymentModels.MpesaPayment.MarkFailed | Backend/Liquidity/payment/views.py:84 | only the status changes, to failed |
| PaymentSerializers.ValidPhone | Backend/Liquidity/payment/serializers.py:60-63 | the field passes `max_length=12` and the pattern; an accepted number has exactly twelve characters |
| PaymentSerializers.ValidPhoneIff | Backend/Liquidity/payment/serializers.py:60-63 | a phone number is accepted if and only if it is `2547` followed by exactly eight digits; longer strings are refused |
| PaymentSerializers.TrailingNewlineOnlyStoppedByLength | Backend/Liquidity/payment/serializers.py:60-63 | the pattern alone accepts a number followed by a newline, and `max_length` refuses that string when it reaches the field untrimmed; this holds without the `CharField` trimming listed under "Left out", which in the program removes the newline first, so the number is accepted |
| PaymentSerializers.ValidatePush | Backend/Liquidity/payment/serializers.py:54-64 | the input is valid exactly when the phone passes and the code has 1 to 10 characters; otherwise the errors are non-empty and name each missing field |
| PaymentSerializers.PaymentSerializerWritesOnlyPhone | Backend/Liquidity/payment/serializers.py:23-51 | through the payment serializer a client can write the phone number and nothing else |
| MpesaClient.Timestamp | Backend/Liquidity/payment/mpesa.py:38 | the timestamp has 14 digits |
| MpesaClient.ParseDigitsOf | Backend/Liquidity/payment/mpesa.py:38 | a zero-padded field reads back as its number |
| MpesaClient.TimestampRoundTrip | Backend/Liquidity/payment/mpesa.py:38 | the `YYYYMMDDHHMMSS` string reads back as the clock reading it came from |
| MpesaClient.Password | Backend/Liquidity/payment/mpesa.py:39-40 | the password decodes back to exactly the UTF-8 bytes of short code, passkey and timestamp, and has four characters per three bytes or part of three |
| MpesaClient.StkPush | Backend/Liquidity/payment/mpesa.py:38-54 | the payload carries the timestamp of the clock reading, and its password is built from that same timestamp; `StkPushPayload` states every field |
| MpesaClient.StkPushPayload | Backend/Liquidity/payment/mpesa.py:38-54 | the password decodes to the UTF-8 bytes of short code, passkey and the timestamp sent in the payload; its length is 4·⌈n/3⌉; the short code is in `BusinessShortCode` and `PartyB` and the phone in `PartyA` and `PhoneNumber`; amount passed through; account reference defaults to `PAYMENT`; fixed type and description |
| Base64.Encode | Backend/Liquidity/payment/mpesa.py:40 | the encoding is whole four-character blocks, and is empty only for no bytes |
| Base64.DecodeEncode | Backend/Liquidity/payment/mpesa.py:40 | decoding the Base64 encoding of any bytes gives back those bytes |
| Base64.EncodeLength | Backend/Liquidity/payment/mpesa.py:40 | every three bytes, or part of three, become four characters |
| Utf8.Encode | Backend/Liquidity/payment/mpesa.py:40 | `str.encode()` gives one to four bytes per code point |
| Utf8.EncodeChar | Backend/Liquidity/payment/mpesa.py:40 | a code point becomes one to four bytes, one byte holding the code itself exactly for ASCII |
| Utf8.EncodeConcat | Backend/Liquidity/payment/mpesa.py:39-40 | encoding the concatenation is concatenating the encodings |
| Utf8.EncodeAscii | Backend/Liquidity/payment/mpesa.py:38-40 | an ASCII string such as the timestamp encodes to one byte per character |
| PaymentViews.FindActive | Backend/Liquidity/payment/views.py:30 | a product is found if and only if one with the code is active, and the one found has the code and is active |
| PaymentViews.FindActiveIsTheProduct | Backend/Liquidity/payment/views.py:30 | since codes are unique, the lookup returns the product with that code exactly when it is active |
| PaymentViews.PlanPush | Backend/Liquidity/payment/views.py:23-31 | invalid input is a 400 with the serializer's errors; no active product is a 404; otherwise the price is the product's `price_kes`, never a client value |
| PaymentViews.PaymentBook.StartStkPush | Backend/Liquidity/payment/views.py:22-56 | refused requests store nothing and post nothing; a failed token request posts nothing; otherwise the posted payload is `stk_push` of the phone, the price and the code; a failed request is a 500 and a response id longer than 64 characters is a 500 (the `DataError` of `save()`), each storing nothing (rollback); otherwise exactly one new row: the requester's, with the submitted phone, currency and price, initiated, holding the response ids |
| PaymentViews.PaymentBook.Append | Backend/Liquidity/payment/views.py:34-39 | the new payment row is added at the end of the table |
| PaymentViews.NatString | Backend/Liquidity/payment/views.py:70 | `str(n)` is decimal digits that read back as `n`, with a leading `0` only in `"0"`, and is one digit exactly for n < 10 |
| PaymentViews.IntString | Backend/Liquidity/payment/views.py:70 | `str(n)` of a non-negative integer reads back as `n`; of a negative one it is `-` followed by digits that read back as `-n` |
| PaymentViews.ResultString | Backend/Liquidity/payment/views.py:70 | `str(stk.get("ResultCode"))` is `"None"` for an absent code, `IntString` of an integer code, and a text code unchanged |
| PaymentViews.ResultIsZeroIff | Backend/Liquidity/payment/views.py:70 | the stringified code is `"0"` exactly for the integer 0 and the string `"0"`; a missing code gives `"None"` |
| PaymentViews.Receipt | Backend/Liquidity/payment/views.py:79-80 | the first item named `MpesaReceiptNumber` decides: its value, a `KeyError` when it has none, or not found when no item has the name |
| PaymentViews.Settled | Backend/Liquidity/payment/views.py:74-86 | result code, description and body are recorded; the status is success exactly on code 0, with the receipt or `""`, and failed otherwise; user, phone, currency, amount and ids are unchanged; nothing is saved when the receipt lookup raises |
| PaymentViews.SettledIdempotent | Backend/Liquidity/payment/views.py:74-86 | settling a settled payment with the same callback gives the same record |
| PaymentViews.LaterFailureOverridesSuccess | Backend/Liquidity/payment/views.py:78-84 | with no state guard, a later failing callback turns a success into a failure and keeps the old receipt |
| PaymentViews.Matches | Backend/Liquidity/payment/views.py:73 | the matched rows are exactly those with the checkout id |
| PaymentViews.HandleCallback | Backend/Liquidity/payment/views.py:66-87 | not found exactly when the id is absent or matches no row; several matches, a raising lookup, or a settled row with a value longer than its column (the `DataError` of `save()`) are a 500 with nothing changed; otherwise only the single matching row is settled; no row ever changes user, phone, currency, amount or checkout id |
| PaymentViews.HandleCallbackAt | Backend/Liquidity/payment/views.py:73-86 | with exactly one matching row, the callback settles that row when the settled row fits its columns, and is a 500 with nothing changed when the receipt lookup raises or a value does not fit |
| PaymentViews.CallbackReplayChangesNothing | Backend/Liquidity/payment/views.py:66-87 | delivering an acknowledged callback again leaves the table as the first delivery left it |
| PaymentViews.PaymentBook.Callback | Backend/Liquidity/payment/views.py:66-87 | the reply and the new table are those of `HandleCallback` on the old table; only payment objects are modified |
| PaymentViews.PaymentBook.SettleAt | Backend/Liquidity/payment/views.py:74-86 | the field assignments of the callback turn row `i` into its settled record and leave every other row alone |
| RentalModels.CurrencyCode | Backend/Liquidity/rentals/models.py:11-19 | each currency choice is stored as a three-letter code |
| RentalModels.ParseCurrency | Backend/Liquidity/rentals/models.py:28 | a stored code names the choice it is the code of |
| RentalModels.CurrencyCodeRoundTrip | Backend/Liquidity/rentals/models.py:11-19 | exactly the seven codes are accepted, each back as its own choice |
| RentalModels.NewRental | Backend/Liquidity/rentals/models.py:27-32 | a new rental is active, keeps the given amount and expected return (neither derived from the other), and fits the fields exactly when both are below 10^12 cents |
| RentalViews.ActiveOf | Backend/Liquidity/rentals/views.py:16-18 | the filter keeps every active rental of the requester as often as the table holds it, and no other rental |
| RentalViews.Aggregate | Backend/Liquidity/rentals/views.py:19 | the SQL sum is NULL exactly over no rows |
| RentalViews.PendingReturns | Backend/Liquidity/rentals/views.py:16-21 | the result is the sum of expected returns over the requester's active rentals, the empty aggregate giving 0 |
| RentalViews.PendingReturnsNone | Backend/Liquidity/rentals/views.py:19 | with no active rental of the requester the result is 0 |
| RentalViews.PendingReturnsIgnoresUncounted | Backend/Liquidity/rentals/views.py:16-18 | other users' rentals and completed or failed ones do not change the total |
| RentalViews.PendingReturnsAppend | Backend/Liquidity/rentals/views.py:16-19 | a new active rental of the requester raises the total by its expected return; any other rental leaves it alone |
| RentalViews.PendingReturnsConcat | Backend/Liquidity/rentals/views.py:16-19 | the total over two tables is the sum of the totals |
| RentalViews.SumReturnsConcat | Backend/Liquidity/rentals/views.py:19 | the sum over two sequences of rentals is the sum of their sums |
| RentalViews.SumReturnsPermutation | Backend/Liquidity/rentals/views.py:19 | the sum of expected returns does not depend on the order of the rentals |
| RentalViews.PendingReturnsPermutation | Backend/Liquidity/rentals/views.py:16-19 | the total does not depend on the order of the rentals |
| UsersModels.CredentialOf | Backend/Liquidity/Users/models.py:17 | no password gives the unusable marker, a password its hash |
| UsersModels.NewAccount | Backend/Liquidity/Users/models.py:15-18 | the stored user has the normalised email, the given name and the hashed password; it is active; staff and superuser only if the caller passed `True` |
| UsersModels.SuperuserCheck | Backend/Liquidity/Users/models.py:22-28 | both flags pass exactly when each is absent or `True`; a staff flag that is not `True` is reported first |
| UsersModels.UserStore.Lookup | Backend/Liquidity/Users/models.py:37 | the user with an exactly equal email, who is the only one |
| UsersModels.UserStore.CreateUser | Backend/Liquidity/Users/models.py:11-19 | an empty email raises; a name over 255 or a normalised email over 254 characters raises (`DataError`) before the unique check; a normalised email already stored raises; otherwise exactly one `NewAccount` row is appended; emails stay unique and every row fits its columns |
| UsersModels.UserStore.CreateSuperuser | Backend/Liquidity/Users/models.py:21-30 | a flag passed as anything but `True` raises with nothing stored; otherwise `create_user` with both flags true |
| UsersModels.UserStore.GetOrCreate | Backend/Liquidity/Users/views.py:181-187 | an existing email returns its user unchanged; a missing name, or a name, email or password text longer than its column, stores nothing; otherwise it appends exactly one active row with the raw email and the unhashed password text |
| UsersModels.Ended | Backend/Liquidity/Users/models.py:66-70 | an ended session is inactive with the logout time; user, key, login time, device and address kept |
| UsersModels.EndingKeepsKeysUnique | Backend/Liquidity/Users/models.py:59 | ending a session keeps session keys unique |
| UsersModels.UserSession.constructor | Backend/Liquidity/Users/models.py:57-64 | a new session is active, logged in now, with no logout time |
| UsersModels.UserSession.EndSession | Backend/Liquidity/Users/models.py:66-70 | the session's new state is `Ended` of its old state |
| UsersSerializers.Strip | Backend/Liquidity/Users/serializers.py:14 | `strip` is no longer than its input, and what it keeps begins and ends with a non-space character |
| UsersSerializers.StripIsSlice | Backend/Liquidity/Users/serializers.py:14-16 | `strip` keeps one contiguous slice of the input |
| UsersSerializers.StripEmptyIff | Backend/Liquidity/Users/serializers.py:14 | the stripped text is empty exactly when every character is whitespace |
| UsersSerializers.ValidateFullName | Backend/Liquidity/Users/serializers.py:13-18 | whitespace-only or empty names are required-errors; the name passes exactly when the stripped name has at least 3 characters; the accepted value is the unstripped input |
| UsersSerializers.ValidateEmail | Backend/Liquidity/Users/serializers.py:20-25 | empty emails and emails already stored are refused; any other email is returned as given |
| UsersSerializers.LoginValidate | Backend/Liquidity/Users/serializers.py:37-48 | failed authentication and inactive users are refused; on success `user` is added and `is_superuser` is 1 exactly for superusers and 0 otherwise |
| UsersViews.JwtPayload | Backend/Liquidity/Users/views.py:26 | the token claims are exactly `user_id` and `email` |
| UsersViews.RegisterCheck | Backend/Liquidity/Users/views.py:49-87 | a missing field is a 400; an email stored exactly as given is a 400; an email that only its normalised form makes a duplicate, or a name over 255 or a normalised email over 254 characters, is a 500; otherwise registration proceeds |
| UsersViews.NormalizedDuplicateIsServerError | Backend/Liquidity/Users/views.py:56-66 | for every user table, normalisation and input: an email not stored as given whose normalised form is stored gets 500, not 400 |
| UsersViews.NormalizedDuplicateExample | Backend/Liquidity/Users/views.py:56-66 | an instance: registering `ann@EXAMPLE.COM` beside the stored `ann@example.com` gets 500 |
| UsersViews.OverlongFieldIsServerError | Backend/Liquidity/Users/views.py:63-87 | a name over 255 or a normalised email over 254 characters passes the view's checks and gets 500 from the database |
| UsersViews.Register | Backend/Liquidity/Users/views.py:41-87 | a refusal stores nothing; every check of `RegisterCheck`, including the column lengths, decides the reply; on success exactly one `NewAccount` row is appended and the reply is 201 with the token of the new id and email and that user's id, name and normalised email |
| UsersViews.Login | Backend/Liquidity/Users/views.py:96-132 | a missing email or password is a 400; failed authentication is a 401; otherwise 200 with the token and card of the authenticated user |
| UsersViews.GoogleLogin | Backend/Liquidity/Users/views.py:147-213 | no token, an unverified token and no email are each a 400 with nothing stored; an existing email logs that user in and creates nobody; a new one creates exactly one user, or is a 500 with nothing stored when the name is missing or a value is longer than its column |
| UsersViews.GoogleLoginCreatesAtMostOnce | Backend/Liquidity/Users/views.py:181-187 | after the first Google sign-in creates the user, the email is taken and emails stay unique, so a second sign-in creates no one |

## Left out

- Network calls are inputs. The OAuth token fetch and the STK post (`payment/mpesa.py:22-29, 56-65`) become the `outcome` parameter of `StartStkPush`: a failed token request, a failed post, or the response body. The Google tokeninfo request (`Users/views.py:160-161`) becomes the `TokenInfo` parameter of `GoogleLogin`.
- `jwt.encode`, password hashing, `authenticate`, `normalize_email` and `make_random_password` are parameters or uninterpreted: `sign`, `HashOf`, `authenticated`, `normalize` and `passwordText`. No exception from them is modelled.
- Transactions and races (`dbtx.atomic`, check-then-insert in submit and register) are outside the model. Each request is one sequential step. The push's rollback on a raising Daraja call is modelled as "nothing stored".
- `float(...)` on the rental total (`rentals/views.py:21`): the model returns the integer-cent sum.
- The `created_at` and `updated_at` stamps of payments and rentals' `created_at` default are not tracked. Withdrawal creation time and `date_joined` are the `now` given to the operation.
- DRF input handling is not modelled: whitespace trimming of `CharField` input, blank-string rejection beyond the length rules stated, and email-format validation. `\d` in the phone pattern is read as ASCII `0`-`9`.
- Django auto-increment ids are modelled as table positions.
- `withdrawal/views.py` imports `WithdrawalCreateSerializer` and two other serializers that `withdrawal/serializers.py` does not define. The model validates submissions with the field limits a model serializer takes from the model (`max_length=15`, `max_digits=12`, `decimal_places=2`), and a non-positive amount is then refused by the view's own check (`InvalidAmount`). Were `validate_amount` part of that serializer, the refusal would come as the serializer's errors instead; both answers are 400.
- `Wallet` is not defined in any shown file. It is a map from user to balance, and a missing key is the missing wallet.
- JSON values of other types are left out. A result code stringified from a float, boolean or object, and non-string item values, are not represented. A body whose `Body` or `stkCallback` is not an object is also left out.
- `PaymentModels.MpesaPayment.RecordCallback`: the raw body saved is the parsed `stkCallback` part, not the whole request data.
- `PaymentViews.PaymentBook.StartStkPush`: the reply's message text is not modelled, only its fields.
- `UsersViews.Login`: the 500 answer for an exception raised by `authenticate` or `create_jwt` is not modelled, since both are parameters here.
- `create_jwt`'s logging, and all logging elsewhere, are effects with no state.
- `make_random_password` no longer exists in recent Django versions. The model takes its result as given.
- Column lengths are modelled where the views write user and payment rows: 254 for `email`, 255 for `full_name`, 128 for `password`; 20, 64, 64, 10 and 64 for the payment's phone, request ids, result code and receipt. PostgreSQL refuses a longer value on save (`DataError`), and the model answers as the view does. `email` is an `EmailField` (254 by default) and `password` comes from `AbstractBaseUser` (128).
- UsersModels.UserSession.constructor: the 255-character limits on `session_key` and `device` are not checked, since no modelled view creates sessions.
- Settings, URL routing, admin display options and the frontend are outside the model.
- `WithdrawalHistoryView`, `WithdrawalListView` and `ProfileView` only read and order rows for display, so they are not modelled.
