/** The records of the payment app (payment/models.py): fixed-price currency products
    and the lifecycle of one M-Pesa STK push payment. */
module PaymentModels {
  import opened Common

  /** A purchasable currency with its fixed price in whole Kenyan shillings. */
  datatype CurrencyProduct = CurrencyProduct(code: string, name: string, priceKes: nat, active: bool)

  /** A product as created when `active` is not given: active by default. */
  function NewProduct(code: string, name: string, priceKes: nat): (p: CurrencyProduct)
    ensures p.active && p.code == code && p.name == name && p.priceKes == priceKes
  {
    CurrencyProduct(code, name, priceKes, true)
  }

  /** `code` is declared unique: no two products share one. */
  predicate UniqueCodes(products: seq<CurrencyProduct>) {
    forall i, j | 0 <= i < j < |products| :: products[i].code != products[j].code
  }

  datatype PaymentStatus = Initiated | Success | Failed

  /** `str(stk.get("ResultCode"))` starts from one of these: absent (or JSON null), an
      integer, or a string. */
  datatype ResultCode = NoCode | IntCode(n: int) | TextCode(s: string)

  /** One `{Name, Value}` entry of `CallbackMetadata.Item`; either key may be absent. */
  datatype Item = Item(name: Option<string>, value: Option<string>)

  /** The parts of `Body.stkCallback` the callback reads; absent keys are `None`,
      and an absent `CallbackMetadata` or `Item` list is the empty list. */
  datatype StkCallback = StkCallback(
    checkoutRequestId: Option<string>,
    resultCode: ResultCode,
    resultDesc: Option<string>,
    items: seq<Item>)

  /** What `raw_callback` holds: the push response dictionary (initially `{}`), or the
      last callback body. */
  datatype RawJson = PushResponse(fields: map<string, string>) | CallbackBody(body: StkCallback)

  /** A payment row's values; `currency` is the product's code. */
  datatype PaymentRecord = PaymentRecord(
    user: UserId,
    phoneNumber: string,
    currency: string,
    amount: nat,
    merchantRequestId: string,
    checkoutRequestId: string,
    resultCode: string,
    resultDesc: string,
    receiptNumber: string,
    status: PaymentStatus,
    rawCallback: RawJson)

  /** Whether PostgreSQL saves the row rather than raising `DataError`: every varchar
      value within its column's `max_length` (the status is always one of the choices,
      which fit, and `result_desc` is unbounded text). */
  predicate FitsColumns(p: PaymentRecord) {
    && |p.phoneNumber| <= 20
    && |p.merchantRequestId| <= 64 && |p.checkoutRequestId| <= 64
    && |p.resultCode| <= 10 && |p.receiptNumber| <= 64
  }

  /** A payment row as the views update it, field by field, before saving. */
  class MpesaPayment {
    var user: UserId
    var phoneNumber: string
    var currency: string
    var amount: nat
    var merchantRequestId: string
    var checkoutRequestId: string
    var resultCode: string
    var resultDesc: string
    var receiptNumber: string
    var status: PaymentStatus
    var rawCallback: RawJson

    function Data(): PaymentRecord
      reads this
    {
      PaymentRecord(user, phoneNumber, currency, amount, merchantRequestId, checkoutRequestId,
                    resultCode, resultDesc, receiptNumber, status, rawCallback)
    }

    /** `MpesaPayment.objects.create(user=, phone_number=, currency=, amount=)`: the
        request ids, result fields and receipt default to `""`, the status to initiated
        and `raw_callback` to `{}`. */
    constructor (user: UserId, phoneNumber: string, currency: string, amount: nat)
      ensures Data() == PaymentRecord(user, phoneNumber, currency, amount, "", "", "", "", "",
                                      Initiated, PushResponse(map[]))
    {
      this.user := user;
      this.phoneNumber := phoneNumber;
      this.currency := currency;
      this.amount := amount;
      this.merchantRequestId := "";
      this.checkoutRequestId := "";
      this.resultCode := "";
      this.resultDesc := "";
      this.receiptNumber := "";
      this.status := Initiated;
      this.rawCallback := PushResponse(map[]);
    }

    /** What the push view saves from the Daraja response: the two request ids, `""`
        when absent, and the whole response as `raw_callback`. */
    method RecordPushResponse(response: map<string, string>)
      modifies this
      ensures Data() == old(Data()).(
        merchantRequestId := Get(response, "MerchantRequestID", ""),
        checkoutRequestId := Get(response, "CheckoutRequestID", ""),
        rawCallback := PushResponse(response))
    {
      merchantRequestId := Get(response, "MerchantRequestID", "");
      checkoutRequestId := Get(response, "CheckoutRequestID", "");
      rawCallback := PushResponse(response);
    }

    /** What the callback view records before looking at the result: the stringified
        code, the description and the body itself. */
    method RecordCallback(code: string, desc: string, body: StkCallback)
      modifies this
      ensures Data() == old(Data()).(resultCode := code, resultDesc := desc, rawCallback := CallbackBody(body))
    {
      resultCode := code;
      resultDesc := desc;
      rawCallback := CallbackBody(body);
    }

    /** A successful result: the receipt is stored and the status becomes success. */
    method MarkSucceeded(receipt: string)
      modifies this
      ensures Data() == old(Data()).(receiptNumber := receipt, status := Success)
    {
      receiptNumber := receipt;
      status := Success;
    }

    /** Any other result: the status becomes failed and nothing else changes. */
    method MarkFailed()
      modifies this
      ensures Data() == old(Data()).(status := Failed)
    {
      status := Failed;
    }
  }
}
