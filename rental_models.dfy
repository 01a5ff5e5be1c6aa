/** The rental record (rentals/models.py): a currency rental with the amount paid and
    the return expected from it, both decimals with two places kept here as cents. */
module RentalModels {
  import opened Common

  datatype Currency = KES | CAD | AUD | GBP | JPY | EUR | USD

  /** The stored three-letter code of a currency choice. */
  function CurrencyCode(c: Currency): (s: string)
    ensures |s| == 3
  {
    match c
    case KES => "KES"
    case CAD => "CAD"
    case AUD => "AUD"
    case GBP => "GBP"
    case JPY => "JPY"
    case EUR => "EUR"
    case USD => "USD"
  }

  /** The choice a stored code names; `None` for any code outside the seven choices. */
  function ParseCurrency(s: string): (r: Option<Currency>)
    ensures r.Some? ==> CurrencyCode(r.value) == s
  {
    if s == "KES" then Some(KES)
    else if s == "CAD" then Some(CAD)
    else if s == "AUD" then Some(AUD)
    else if s == "GBP" then Some(GBP)
    else if s == "JPY" then Some(JPY)
    else if s == "EUR" then Some(EUR)
    else if s == "USD" then Some(USD)
    else None
  }

  /** Every choice's code is accepted back as that choice, and nothing else is. */
  lemma CurrencyCodeRoundTrip(c: Currency, s: string)
    ensures ParseCurrency(CurrencyCode(c)) == Some(c)
    ensures ParseCurrency(s).Some? <==> s in {"KES", "CAD", "AUD", "GBP", "JPY", "EUR", "USD"}
  {
  }

  datatype RentalStatus = Active | Completed | Failed

  datatype Rental = Rental(
    user: UserId,
    currency: Currency,
    amount: int,
    expectedReturn: int,
    status: RentalStatus,
    createdAt: int)
  {
    predicate Valid() {
      FitsDecimal12(amount) && FitsDecimal12(expectedReturn)
    }
  }

  /** A rental created at clock reading `now` without a status: it starts active, and the
      expected return is whatever the creator gives, not derived from the amount. */
  function NewRental(user: UserId, currency: Currency, amount: int, expectedReturn: int, now: int): (r: Rental)
    ensures r.status == Active && r.createdAt == now
    ensures r.user == user && r.currency == currency
    ensures r.amount == amount && r.expectedReturn == expectedReturn
    ensures r.Valid() <==> FitsDecimal12(amount) && FitsDecimal12(expectedReturn)
  {
    Rental(user, currency, amount, expectedReturn, Active, now)
  }
}
