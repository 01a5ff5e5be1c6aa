/** Input validation for starting a push, and the fields a client may write on a
    payment (payment/serializers.py). */
module PaymentSerializers {
  import opened Common

  /** `2547` followed by exactly eight digits (`\d` read as the ASCII digits). */
  predicate IsKenyanMobile(s: string) {
    |s| == 12 && s[..4] == "2547" && forall i | 4 <= i < 12 :: IsDigit(s[i])
  }

  /** Whether `re.search(r"^2547\d{8}$", s)` matches. Python's `$` also matches just
      before a final newline, so the pattern alone admits one trailing `"\n"`. */
  predicate PhonePatternMatches(s: string) {
    IsKenyanMobile(s) || (|s| == 13 && s[12] == '\n' && IsKenyanMobile(s[..12]))
  }

  /** The `phone_number` field: `max_length=12` and the pattern must both pass, so an
      accepted number has exactly twelve characters. */
  predicate ValidPhone(s: string)
    ensures ValidPhone(s) ==> |s| == 12
  {
    |s| <= 12 && PhonePatternMatches(s)
  }

  /** The phone rule accepts exactly the twelve-character Kenyan mobile numbers. */
  lemma ValidPhoneIff(s: string)
    ensures ValidPhone(s) <==> IsKenyanMobile(s)
    ensures |s| > 12 ==> !ValidPhone(s)
  {
  }

  /** The pattern on its own lets a trailing newline through, and `max_length` stops it
      when it reaches the field untrimmed. With the `CharField` default `trim_whitespace`,
      the newline is removed before either check runs, so `"254712345678\n"` is accepted as
      the number without it. */
  lemma TrailingNewlineOnlyStoppedByLength()
    ensures PhonePatternMatches("254712345678\n")
    ensures !ValidPhone("254712345678\n")
  {
    assert IsKenyanMobile(("254712345678\n")[..12]) by {
      assert ("254712345678\n")[..12] == "254712345678";
      assert ("254712345678")[..4] == "2547";
    }
  }

  /** `currency_code`: a non-blank string of at most 10 characters. */
  predicate ValidCurrencyCode(s: string) {
    0 < |s| <= 10
  }

  datatype PushRequest = PushRequest(phoneNumber: string, currencyCode: string)

  datatype PushInputError = PhoneMissing | PhoneInvalid | CodeMissing | CodeInvalid

  datatype PushValidation = ValidPush(data: PushRequest) | InvalidPush(errors: set<PushInputError>)

  function PhoneErrors(phone: Option<string>): set<PushInputError> {
    match phone
    case None => {PhoneMissing}
    case Some(p) => if ValidPhone(p) then {} else {PhoneInvalid}
  }

  function CodeErrors(code: Option<string>): set<PushInputError> {
    match code
    case None => {CodeMissing}
    case Some(c) => if ValidCurrencyCode(c) then {} else {CodeInvalid}
  }

  /** `StartStkPushSerializer.is_valid`: both fields are required and checked, and every
      failing field is reported. */
  function ValidatePush(phone: Option<string>, code: Option<string>): (r: PushValidation)
    ensures r.ValidPush? <==>
      phone.Some? && ValidPhone(phone.value) && code.Some? && ValidCurrencyCode(code.value)
    ensures r.ValidPush? ==> r.data == PushRequest(phone.value, code.value)
    ensures r.InvalidPush? ==> r.errors != {}
    ensures r.InvalidPush? ==> (PhoneMissing in r.errors <==> phone.None?) && (CodeMissing in r.errors <==> code.None?)
  {
    var errors := PhoneErrors(phone) + CodeErrors(code);
    if errors == {} then ValidPush(PushRequest(phone.value, code.value)) else InvalidPush(errors)
  }

  const PaymentFields: set<string> := {
    "id", "user", "phone_number", "currency", "amount", "merchant_request_id",
    "checkout_request_id", "result_code", "result_desc", "receipt_number", "status",
    "raw_callback", "created_at", "updated_at"}

  /** The declared read-only fields, plus `id` (the automatic key) and `currency`
      (declared as a read-only nested serializer). */
  const PaymentReadOnly: set<string> := {
    "id", "currency", "user", "amount", "merchant_request_id", "checkout_request_id",
    "result_code", "result_desc", "receipt_number", "status", "raw_callback",
    "created_at", "updated_at"}

  /** Through `MpesaPaymentSerializer` a client can write the phone number and nothing
      else: not the amount, the status, the request ids, the result or the receipt. */
  lemma PaymentSerializerWritesOnlyPhone<V>(input: map<string, V>)
    ensures Writable(PaymentFields, PaymentReadOnly) == {"phone_number"}
    ensures Accepted(PaymentFields, PaymentReadOnly, input).Keys <= {"phone_number"}
  {
    assert Writable(PaymentFields, PaymentReadOnly) == {"phone_number"};
  }
}
