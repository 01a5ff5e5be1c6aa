/** The two payment endpoints (payment/views.py): starting an STK push for a fixed-price
    product, and the callback that settles the payment it created. */
module PaymentViews {
  import opened Common
  import opened PaymentModels
  import PaymentSerializers
  import MpesaClient

  /** The lookup `get_object_or_404(CurrencyProduct, code=code, active=True)`. */
  function FindActive(products: seq<CurrencyProduct>, code: string): (r: Option<CurrencyProduct>)
    ensures r.Some? <==> exists i | 0 <= i < |products| :: products[i].code == code && products[i].active
    ensures r.Some? ==> r.value in products && r.value.code == code && r.value.active
    decreases |products|
  {
    if products == [] then None
    else if products[0].code == code && products[0].active then Some(products[0])
    else
      var rest := FindActive(products[1..], code);
      assert forall i | 1 <= i < |products| :: products[i] == products[1..][i - 1];
      rest
  }

  /** Codes are unique, so the product found is the one product with that code. */
  lemma FindActiveIsTheProduct(products: seq<CurrencyProduct>, code: string, i: nat)
    requires UniqueCodes(products)
    requires i < |products| && products[i].code == code
    ensures FindActive(products, code) == if products[i].active then Some(products[i]) else None
  {
    var r := FindActive(products, code);
    if r.Some? {
      var j :| 0 <= j < |products| && products[j] == r.value;
      assert i == j;
    }
  }

  /** `str(n)` for a non-negative integer: the decimal digits of `n`, with no leading
      zero except in `"0"` itself. */
  function NatString(n: nat): (s: string)
    ensures 1 <= |s| && AllDigits(s) && ParseDigits(s) == n
    ensures s[0] == '0' <==> n == 0
    ensures |s| == 1 <==> n < 10
  {
    if n < 10 then [('0' as int + n) as char]
    else
      var init := NatString(n / 10);
      var s := init + [('0' as int + n % 10) as char];
      assert s[..|s| - 1] == init;
      s
  }

  /** `str(n)` for any integer: a minus sign before the digits of a negative number. */
  function IntString(n: int): (s: string)
    ensures n >= 0 ==> AllDigits(s) && ParseDigits(s) == n
    ensures n < 0 ==> 2 <= |s| && s[0] == '-' && AllDigits(s[1..]) && ParseDigits(s[1..]) == -n
  {
    if n < 0 then
      var s := "-" + NatString(-n);
      assert s[1..] == NatString(-n);
      s
    else NatString(n)
  }

  /** `str(stk.get("ResultCode"))`: `"None"` for an absent code, the decimal text of an
      integer code, and a text code unchanged. */
  function ResultString(rc: ResultCode): (s: string)
    ensures rc.NoCode? ==> s == "None"
    ensures rc.IntCode? ==> s == IntString(rc.n)
    ensures rc.TextCode? ==> s == rc.s
  {
    match rc
    case NoCode => "None"
    case IntCode(n) => IntString(n)
    case TextCode(s) => s
  }

  /** The only codes the callback counts as a success are the integer 0 and the string "0";
      in particular an absent code becomes "None" and fails. */
  lemma {:induction false} ResultIsZeroIff(rc: ResultCode)
    ensures ResultString(rc) == "0" <==> rc == IntCode(0) || rc == TextCode("0")
    ensures rc == NoCode ==> ResultString(rc) == "None"
  {
    if rc.IntCode? {
      var n := rc.n;
      if n < 0 {
        assert |IntString(n)| >= 2;
      } else if n >= 10 {
        assert |NatString(n)| >= 2;
      } else if n != 0 {
        assert NatString(n)[0] != '0';
      }
    }
  }

  const ReceiptName: string := "MpesaReceiptNumber"

  /** The outcome of `next((i["Value"] for i in items if i.get("Name") == ...), "")`. */
  datatype ReceiptLookup = Found(receipt: string) | NoneFound | MissingValue

  /** The receipt search: the first item named `MpesaReceiptNumber` decides; if it has no
      `Value` the lookup raises `KeyError`. */
  function Receipt(items: seq<Item>): (r: ReceiptLookup)
    ensures r.NoneFound? <==> forall i | 0 <= i < |items| :: items[i].name != Some(ReceiptName)
    ensures !r.NoneFound? ==> exists i | 0 <= i < |items| ::
      && items[i].name == Some(ReceiptName)
      && (forall j | 0 <= j < i :: items[j].name != Some(ReceiptName))
      && (if r.Found? then items[i].value == Some(r.receipt) else items[i].value.None?)
    decreases |items|
  {
    if items == [] then NoneFound
    else if items[0].name == Some(ReceiptName) then
      if items[0].value.Some? then Found(items[0].value.value) else MissingValue
    else
      var r := Receipt(items[1..]);
      assert forall i | 1 <= i < |items| :: items[i] == items[1..][i - 1];
      r
  }

  /** A stored payment after a callback: the result code and description, the raw body,
      and on code "0" the receipt and success, otherwise failure. `None` when the
      receipt lookup raises, in which case nothing is saved. */
  function Settled(p: PaymentRecord, cb: StkCallback): (r: Option<PaymentRecord>)
    ensures var ok := cb.resultCode == IntCode(0) || cb.resultCode == TextCode("0");
      && (r.None? <==> ok && Receipt(cb.items).MissingValue?)
      && (r.Some? ==>
        && r.value.user == p.user && r.value.phoneNumber == p.phoneNumber
        && r.value.currency == p.currency && r.value.amount == p.amount
        && r.value.merchantRequestId == p.merchantRequestId
        && r.value.checkoutRequestId == p.checkoutRequestId
        && r.value.resultCode == ResultString(cb.resultCode)
        && r.value.resultDesc == cb.resultDesc.GetOr("")
        && r.value.rawCallback == CallbackBody(cb)
        && (r.value.status == Success <==> ok)
        && (r.value.status == Failed <==> !ok)
        && r.value.receiptNumber == (if !ok then p.receiptNumber
                                      else if Receipt(cb.items).Found? then Receipt(cb.items).receipt
                                      else ""))
  {
    ResultIsZeroIff(cb.resultCode);
    var code := ResultString(cb.resultCode);
    var base := p.(resultCode := code, resultDesc := cb.resultDesc.GetOr(""), rawCallback := CallbackBody(cb));
    if code == "0" then
      match Receipt(cb.items)
      case MissingValue => None
      case NoneFound => Some(base.(receiptNumber := "", status := Success))
      case Found(v) => Some(base.(receiptNumber := v, status := Success))
    else Some(base.(status := Failed))
  }

  /** Replaying a callback on the payment it settled gives the same record. */
  lemma SettledIdempotent(p: PaymentRecord, cb: StkCallback)
    requires Settled(p, cb).Some?
    ensures Settled(Settled(p, cb).value, cb) == Settled(p, cb)
  {
  }

  /** There is no state guard: a later failing callback turns a success into a failure,
      and the receipt of the success stays on the record. */
  lemma LaterFailureOverridesSuccess(p: PaymentRecord, cb: StkCallback)
    requires p.status == Success
    requires cb.resultCode != IntCode(0) && cb.resultCode != TextCode("0")
    ensures Settled(p, cb).Some? && Settled(p, cb).value.status == Failed
    ensures Settled(p, cb).value.receiptNumber == p.receiptNumber
  {
  }

  /** The rows `get_object_or_404(MpesaPayment, checkout_request_id=id)` matches. */
  function Matches(t: seq<PaymentRecord>, id: string): (m: set<nat>)
    ensures forall i: int :: i in m <==> 0 <= i < |t| && t[i].checkoutRequestId == id
  {
    set i: nat | i < |t| && t[i].checkoutRequestId == id
  }

  datatype CallbackOutcome = CallbackOutcome(reply: CallbackReply, table: seq<PaymentRecord>)

  /** What the callback does to the payment table: the one row whose checkout id the
      callback names is settled, and nothing else changes. A callback with no id, or one
      matching no row, is not found; several matching rows, or a receipt lookup that
      raises, are a server error. */
  ghost function HandleCallback(t: seq<PaymentRecord>, cb: StkCallback): (o: CallbackOutcome)
    ensures o.reply != Acknowledged ==> o.table == t
    ensures o.reply == PaymentNotFound <==>
      cb.checkoutRequestId.None? || Matches(t, cb.checkoutRequestId.value) == {}
    ensures o.reply == Acknowledged ==> exists i | 0 <= i < |t| ::
      && Matches(t, cb.checkoutRequestId.value) == {i}
      && Settled(t[i], cb).Some? && FitsColumns(Settled(t[i], cb).value)
      && o.table == t[i := Settled(t[i], cb).value]
    ensures |o.table| == |t| && forall k | 0 <= k < |t| ::
      && o.table[k].user == t[k].user && o.table[k].phoneNumber == t[k].phoneNumber
      && o.table[k].currency == t[k].currency && o.table[k].amount == t[k].amount
      && o.table[k].checkoutRequestId == t[k].checkoutRequestId
  {
    if cb.checkoutRequestId.None? then CallbackOutcome(PaymentNotFound, t)
    else
      var m := Matches(t, cb.checkoutRequestId.value);
      if |m| == 0 then CallbackOutcome(PaymentNotFound, t)
      else if |m| > 1 then CallbackOutcome(ServerError, t)
      else
        var i :| i in m;
        assert m == {i} by {
          assert |m - {i}| == 0;
        }
        match Settled(t[i], cb)
        case None => CallbackOutcome(ServerError, t)
        case Some(p) =>
          // `DataError` from `save()`: the row is not updated
          if FitsColumns(p) then CallbackOutcome(Acknowledged, t[i := p]) else CallbackOutcome(ServerError, t)
  }

  /** When exactly row `i` matches, the callback settles row `i`. */
  lemma HandleCallbackAt(t: seq<PaymentRecord>, cb: StkCallback, i: nat)
    requires cb.checkoutRequestId.Some? && i < |t| && Matches(t, cb.checkoutRequestId.value) == {i}
    ensures Settled(t[i], cb).None? ==> HandleCallback(t, cb) == CallbackOutcome(ServerError, t)
    ensures Settled(t[i], cb).Some? && !FitsColumns(Settled(t[i], cb).value) ==>
      HandleCallback(t, cb) == CallbackOutcome(ServerError, t)
    ensures Settled(t[i], cb).Some? && FitsColumns(Settled(t[i], cb).value) ==>
      HandleCallback(t, cb) == CallbackOutcome(Acknowledged, t[i := Settled(t[i], cb).value])
  {
  }

  /** A settled payment still carries the checkout id, so replaying the callback finds it
      again and leaves the table as the first delivery left it. */
  lemma CallbackReplayChangesNothing(t: seq<PaymentRecord>, cb: StkCallback)
    requires HandleCallback(t, cb).reply == Acknowledged
    ensures HandleCallback(HandleCallback(t, cb).table, cb) == HandleCallback(t, cb)
  {
    var o := HandleCallback(t, cb);
    var id := cb.checkoutRequestId.value;
    var i :| 0 <= i < |t| && Matches(t, id) == {i} && Settled(t[i], cb).Some? && FitsColumns(Settled(t[i], cb).value)
      && o.table == t[i := Settled(t[i], cb).value];
    assert Matches(o.table, id) == Matches(t, id);
    SettledIdempotent(t[i], cb);
    assert o.table[i := Settled(o.table[i], cb).value] == o.table;
  }

  datatype PushReply =
    | PushStarted(checkoutRequestId: string, amount: nat, currency: string)  // 201
    | PushInvalid(errors: set<PaymentSerializers.PushInputError>)            // 400
    | ProductNotFound                                                        // 404
    | UpstreamError                                                          // the push raised: 500
    | NotSaved                                          // a response id too long for its column: 500
  {
    function HttpStatus(): int {
      match this
      case PushStarted(_, _, _) => 201
      case PushInvalid(_) => 400
      case ProductNotFound => 404
      case UpstreamError => 500
      case NotSaved => 500
    }
  }

  datatype CallbackReply =
    | Acknowledged      // 200 with `{"ResultCode": 0, ...}`
    | PaymentNotFound   // 404
    | ServerError       // 500: several payments share the id, the receipt item has no value,
                        // or a value is too long for its column
  {
    function HttpStatus(): int {
      match this
      case Acknowledged => 200
      case PaymentNotFound => 404
      case ServerError => 500
    }
  }

  /** How a push request is decided before anything is stored: refused (invalid input,
      or no active product with that code), or charged at the product's fixed price. */
  datatype PushPlan = Refuse(reply: PushReply) | Charge(request: PaymentSerializers.PushRequest, price: nat)

  function PlanPush(products: seq<CurrencyProduct>, phone: Option<string>, code: Option<string>): (r: PushPlan)
    ensures var v := PaymentSerializers.ValidatePush(phone, code);
      && (v.InvalidPush? ==> r == Refuse(PushInvalid(v.errors)))
      && (v.ValidPush? ==>
            && (r == Refuse(ProductNotFound) <==>
                  forall i | 0 <= i < |products| :: !(products[i].code == v.data.currencyCode && products[i].active))
            && (r.Charge? ==> r.request == v.data))
    ensures r.Charge? ==> exists i | 0 <= i < |products| ::
      && products[i].code == r.request.currencyCode && products[i].active && products[i].priceKes == r.price
    ensures r.Refuse? ==> r.reply.PushInvalid? || r.reply.ProductNotFound?
  {
    var v := PaymentSerializers.ValidatePush(phone, code);
    if v.InvalidPush? then Refuse(PushInvalid(v.errors))
    else match FindActive(products, v.data.currencyCode)
      case None => Refuse(ProductNotFound)
      case Some(product) => Charge(v.data, product.priceKes)
  }

  /** The row the push view saves for a charged request: the requester's, with the
      submitted phone and code and the product's price, initiated, holding the request
      ids of the Daraja response (`""` when absent) and the response itself. */
  function PushedRow(user: UserId, plan: PushPlan, body: map<string, string>): PaymentRecord
    requires plan.Charge?
  {
    PaymentRecord(user, plan.request.phoneNumber, plan.request.currencyCode, plan.price,
                  Get(body, "MerchantRequestID", ""), Get(body, "CheckoutRequestID", ""),
                  "", "", "", Initiated, PushResponse(body))
  }

  /** The products and the payment table; a payment's id is its position. */
  class PaymentBook {
    var products: seq<CurrencyProduct>
    var payments: seq<MpesaPayment>

    function Table(): (t: seq<PaymentRecord>)
      reads this, payments
      ensures |t| == |payments|
      ensures forall i | 0 <= i < |payments| :: t[i] == payments[i].Data()
    {
      seq(|payments|, i reads this, payments requires 0 <= i < |payments| => payments[i].Data())
    }

    ghost predicate Valid()
      reads this
    {
      && UniqueCodes(products)
      && forall i, j | 0 <= i < j < |payments| :: payments[i] != payments[j]
    }

    constructor (products: seq<CurrencyProduct>)
      requires UniqueCodes(products)
      ensures Valid() && this.products == products && payments == []
    {
      this.products := products;
      this.payments := [];
    }

    /** `StartStkPushView.post` at clock reading `now`. `outcome` is what the two Daraja
        requests came to; `sent` is the body posted, `None` when nothing was posted. */
    method StartStkPush(user: UserId, phone: Option<string>, code: Option<string>,
                        cfg: MpesaClient.Config, now: MpesaClient.DateTime,
                        outcome: MpesaClient.PushOutcome)
      returns (reply: PushReply, sent: Option<MpesaClient.StkPayload>)
      requires Valid() && now.Valid()
      modifies this
      ensures Valid() && products == old(products)
      ensures var plan := PlanPush(old(products), phone, code);
        && (plan.Refuse? ==> reply == plan.reply && sent.None?)
        && (plan.Charge? ==>
              && sent == (if outcome.TokenFailed? then None
                          else Some(MpesaClient.StkPush(cfg, plan.request.phoneNumber, plan.price,
                                                        Some(plan.request.currencyCode), now)))
              && (!outcome.Responded? ==> reply == UpstreamError)
              && (outcome.Responded? ==>
                    reply == (if FitsColumns(PushedRow(user, plan, outcome.body))
                              then PushStarted(Get(outcome.body, "CheckoutRequestID", ""), plan.price, plan.request.currencyCode)
                              else NotSaved)))
      ensures !reply.PushStarted? ==> payments == old(payments)
      ensures reply.PushStarted? ==>
        && |payments| == old(|payments|) + 1 && payments[..old(|payments|)] == old(payments)
        && fresh(payments[old(|payments|)])
        && Table() == old(Table()) + [PushedRow(user, PlanPush(old(products), phone, code), outcome.body)]
    {
      var plan := PlanPush(products, phone, code);
      if plan.Refuse? {
        return plan.reply, None;
      }
      var amount := plan.price;
      var payment := new MpesaPayment(user, plan.request.phoneNumber, plan.request.currencyCode, amount);
      if outcome.TokenFailed? {
        // `_get_token()` raised before the post: the atomic block drops the new row
        return UpstreamError, None;
      }
      sent := Some(MpesaClient.StkPush(cfg, plan.request.phoneNumber, amount, Some(plan.request.currencyCode), now));
      if outcome.PostFailed? {
        return UpstreamError, sent;
      }
      payment.RecordPushResponse(outcome.body);
      assert payment.Data() == PushedRow(user, plan, outcome.body);
      if !FitsColumns(payment.Data()) {
        // `DataError` from `save()`: the atomic block drops the new row
        return NotSaved, sent;
      }
      Append(payment);
      reply := PushStarted(payment.checkoutRequestId, amount, plan.request.currencyCode);
    }

    /** The `INSERT` of a new payment row. */
    method Append(payment: MpesaPayment)
      requires Valid() && payment !in payments
      modifies this
      ensures Valid() && products == old(products)
      ensures payments == old(payments) + [payment]
      ensures Table() == old(Table()) + [payment.Data()]
    {
      var t := Table();
      payments := payments + [payment];
      assert Table() == t + [payment.Data()];
    }

    /** `MpesaCallbackView.post`: only the matched payment row changes, and no wallet,
        product or other row is touched. */
    method Callback(cb: StkCallback) returns (reply: CallbackReply)
      requires Valid()
      modifies payments
      ensures Valid()
      ensures reply == HandleCallback(old(Table()), cb).reply
      ensures Table() == HandleCallback(old(Table()), cb).table
    {
      var t := Table();
      if cb.checkoutRequestId.None? {
        // filtering a non-null column on NULL matches nothing
        return PaymentNotFound;
      }
      var m := Matches(t, cb.checkoutRequestId.value);
      if |m| == 0 {
        return PaymentNotFound;
      }
      if |m| > 1 {
        // `MultipleObjectsReturned`
        return ServerError;
      }
      var i :| i in m;
      assert m == {i} by {
        assert |m - {i}| == 0;
      }
      HandleCallbackAt(t, cb, i);
      var next := Settled(t[i], cb);
      if next.None? {
        // `KeyError` before `save()`: the stored row is unchanged
        return ServerError;
      }
      if !FitsColumns(next.value) {
        // `DataError` from `save()`: the atomic block rolls the update back
        return ServerError;
      }
      SettleAt(i, cb);
      reply := Acknowledged;
    }

    /** The `save()` of the callback: the result, and then the receipt or the failure, are
        written on row `i` and on no other. */
    method SettleAt(i: nat, cb: StkCallback)
      requires Valid() && i < |payments| && Settled(Table()[i], cb).Some?
      modifies payments[i]
      ensures Valid()
      ensures Table() == old(Table())[i := Settled(old(Table())[i], cb).value]
    {
      var t := Table();
      var payment := payments[i];
      var code := ResultString(cb.resultCode);
      payment.RecordCallback(code, cb.resultDesc.GetOr(""), cb);
      if code == "0" {
        var receipt := Receipt(cb.items);
        payment.MarkSucceeded(if receipt.Found? then receipt.receipt else "");
      } else {
        payment.MarkFailed();
      }
      assert payment.Data() == Settled(t[i], cb).value;
      assert forall k | 0 <= k < |t| && k != i :: payments[k].Data() == t[k];
      assert Table() == t[i := Settled(t[i], cb).value];
    }
  }
}
