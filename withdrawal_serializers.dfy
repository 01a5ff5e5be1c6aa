/** Request validation and field exposure for withdrawals (withdrawal/serializers.py). */
module WithdrawalSerializers {
  import opened Common
  import WithdrawalModels

  datatype AmountCheck = AmountOk(value: int) | NotPositive

  /** `validate_amount`: a non-positive amount is refused, any other passes unchanged. */
  function ValidateAmount(value: int): (r: AmountCheck)
    ensures r.NotPositive? <==> value <= 0
    ensures r.AmountOk? ==> r.value == value
  {
    if value <= 0 then NotPositive else AmountOk(value)
  }

  /** The serializer and the model's `clean` refuse exactly the same amounts. */
  lemma ValidateAmountAgreesWithClean(value: int)
    ensures ValidateAmount(value).NotPositive?
        <==> WithdrawalModels.CleanAmount(value) == WithdrawalModels.AmountNotPositive
  {
  }

  /** `mobile_number` is a non-blank string of at most 15 characters. */
  predicate FitsMobileField(s: string) {
    0 < |s| <= 15
  }

  datatype FieldError = BadMobileNumber | AmountOutOfRange

  /** The checks a withdrawal model serializer derives from the model's field
      declarations (a number of at most 15 characters, a 12-digit decimal amount);
      `None` when both pass. */
  function ValidateFields(mobileNumber: string, amount: int): (r: Option<FieldError>)
    ensures r.None? <==> FitsMobileField(mobileNumber) && FitsDecimal12(amount)
    ensures r == Some(AmountOutOfRange) ==> FitsMobileField(mobileNumber)
  {
    if !FitsMobileField(mobileNumber) then Some(BadMobileNumber)
    else if !FitsDecimal12(amount) then Some(AmountOutOfRange)
    else None
  }

  datatype RequestError = FieldInvalid(field: FieldError) | AmountNotPositive

  /** The validated data of a user's request: the number and the amount in cents. */
  datatype Request = Request(mobileNumber: string, amount: int)

  datatype RequestCheck = Validated(data: Request) | Invalid(error: RequestError)

  /** `WithdrawalRequestSerializer.is_valid`: the field formats, then `validate_amount`. */
  function ValidateRequest(mobileNumber: string, amount: int): (r: RequestCheck)
    ensures r.Validated? <==> FitsMobileField(mobileNumber) && FitsDecimal12(amount) && amount > 0
    ensures r.Validated? ==> r.data == Request(mobileNumber, amount)
  {
    match ValidateFields(mobileNumber, amount)
    case Some(e) => Invalid(FieldInvalid(e))
    case None =>
      match ValidateAmount(amount)
      case NotPositive => Invalid(AmountNotPositive)
      case AmountOk(v) => Validated(Request(mobileNumber, v))
  }

  const RequestFields: set<string> := {"id", "mobile_number", "amount", "status", "created_at"}
  const RequestReadOnly: set<string> := {"id", "status", "created_at"}

  const AdminFields: set<string> :=
    {"id", "user_email", "mobile_number", "amount", "status", "created_at", "processed_at"}
  const AdminReadOnly: set<string> :=
    {"id", "user_email", "mobile_number", "amount", "created_at", "processed_at", "status"}

  /** Whatever a client sends, the request serializer keeps at most the number and the
      amount; in particular the client never chooses the status, id or creation time. */
  lemma RequestInputCannotSetStatus<V>(input: map<string, V>)
    ensures Accepted(RequestFields, RequestReadOnly, input).Keys <= {"mobile_number", "amount"}
    ensures "status" !in Accepted(RequestFields, RequestReadOnly, input)
    ensures Writable(RequestFields, RequestReadOnly) == {"mobile_number", "amount"}
  {
    assert Writable(RequestFields, RequestReadOnly) == {"mobile_number", "amount"};
  }

  /** The admin serializer keeps nothing of any input, so it cannot modify a withdrawal. */
  lemma AdminSerializerIsReadOnly<V>(input: map<string, V>)
    ensures Accepted(AdminFields, AdminReadOnly, input) == map[]
    ensures Writable(AdminFields, AdminReadOnly) == {}
  {
    assert Writable(AdminFields, AdminReadOnly) == {};
  }
}
