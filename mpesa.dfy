/** The request body `MpesaClient.stk_push` builds for the Daraja STK push endpoint
    (payment/mpesa.py): the `%Y%m%d%H%M%S` timestamp, the password (Base64 of the
    UTF-8 bytes of short code, passkey and timestamp) and the payload fields. */
module MpesaClient {
  import opened Common
  import Base64
  import Utf8

  /** A clock reading, as `datetime.datetime.now()` gives it. */
  datatype DateTime = DateTime(year: int, month: int, day: int, hour: int, minute: int, second: int) {
    predicate Valid() {
      1 <= year <= 9999 && 1 <= month <= 12 && 1 <= day <= 31
      && 0 <= hour <= 23 && 0 <= minute <= 59 && 0 <= second <= 59
    }
  }

  function Pow10(w: nat): (p: nat)
    ensures p >= 1
  {
    if w == 0 then 1 else 10 * Pow10(w - 1)
  }

  /** `n` in decimal, zero-padded to `width` digits. */
  function Digits(n: nat, width: nat): (s: string)
    requires n < Pow10(width)
    ensures |s| == width && AllDigits(s)
  {
    if width == 0 then []
    else Digits(n / 10, width - 1) + [('0' as int + n % 10) as char]
  }

  lemma {:induction false} ParseDigitsOf(n: nat, width: nat)
    requires n < Pow10(width)
    ensures ParseDigits(Digits(n, width)) == n
  {
    if width > 0 {
      var s := Digits(n, width);
      assert s[..|s| - 1] == Digits(n / 10, width - 1);
      ParseDigitsOf(n / 10, width - 1);
    }
  }

  /** `now.strftime("%Y%m%d%H%M%S")`. */
  function Timestamp(now: DateTime): (s: string)
    requires now.Valid()
    ensures |s| == 14 && AllDigits(s)
  {
    Digits(now.year, 4) + Digits(now.month, 2) + Digits(now.day, 2)
    + Digits(now.hour, 2) + Digits(now.minute, 2) + Digits(now.second, 2)
  }

  /** Reads a `YYYYMMDDHHMMSS` string back into its clock fields. */
  function ParseTimestamp(s: string): DateTime
    requires |s| == 14 && AllDigits(s)
  {
    DateTime(ParseDigits(s[..4]), ParseDigits(s[4..6]), ParseDigits(s[6..8]),
             ParseDigits(s[8..10]), ParseDigits(s[10..12]), ParseDigits(s[12..]))
  }

  /** The timestamp holds exactly the clock reading it was made from. */
  lemma TimestampRoundTrip(now: DateTime)
    requires now.Valid()
    ensures ParseTimestamp(Timestamp(now)) == now
  {
    var y, mo, d := Digits(now.year, 4), Digits(now.month, 2), Digits(now.day, 2);
    var h, mi, se := Digits(now.hour, 2), Digits(now.minute, 2), Digits(now.second, 2);
    var s := Timestamp(now);
    assert s == y + mo + d + h + mi + se;
    assert s[..4] == y && s[4..6] == mo && s[6..8] == d;
    assert s[8..10] == h && s[10..12] == mi && s[12..] == se;
    ParseDigitsOf(now.year, 4);
    ParseDigitsOf(now.month, 2);
    ParseDigitsOf(now.day, 2);
    ParseDigitsOf(now.hour, 2);
    ParseDigitsOf(now.minute, 2);
    ParseDigitsOf(now.second, 2);
  }

  /** The settings the client reads that enter the payload. */
  datatype Config = Config(shortCode: string, passkey: string, callbackUrl: string)

  const TransactionType: string := "CustomerPayBillOnline"
  const TransactionDesc: string := "Payment via STK"
  const DefaultAccountRef: string := "PAYMENT"

  /** `password_str`: short code, passkey and timestamp, concatenated. */
  function PasswordSource(cfg: Config, timestamp: string): string {
    cfg.shortCode + cfg.passkey + timestamp
  }

  /** `base64.b64encode(password_str.encode()).decode()`: a text that decodes back to
      exactly the UTF-8 bytes of `password_str`, four characters per three bytes or part
      thereof. */
  function Password(cfg: Config, timestamp: string): (s: string)
    ensures Base64.Decode(s) == Some(Utf8.Encode(PasswordSource(cfg, timestamp)))
    ensures |s| == 4 * ((|Utf8.Encode(PasswordSource(cfg, timestamp))| + 2) / 3)
  {
    var bytes := Utf8.Encode(PasswordSource(cfg, timestamp));
    Base64.DecodeEncode(bytes);
    Base64.EncodeLength(bytes);
    Base64.Encode(bytes)
  }

  datatype StkPayload = StkPayload(
    businessShortCode: string,
    password: string,
    timestamp: string,
    transactionType: string,
    amount: int,
    partyA: string,
    partyB: string,
    phoneNumber: string,
    callBackUrl: string,
    accountReference: string,
    transactionDesc: string)

  /** The JSON body `stk_push(phone, amount, account_ref)` posts at clock reading `now`;
      `accountRef` is `None` when the caller leaves the default. The password is built
      from the very timestamp the payload carries. */
  function StkPush(cfg: Config, phone: string, amount: int, accountRef: Option<string>, now: DateTime): (p: StkPayload)
    requires now.Valid()
    ensures p.timestamp == Timestamp(now) && p.password == Password(cfg, p.timestamp)
  {
    var timestamp := Timestamp(now);
    StkPayload(
      cfg.shortCode, Password(cfg, timestamp), timestamp, TransactionType, amount,
      phone, cfg.shortCode, phone, cfg.callbackUrl, accountRef.GetOr(DefaultAccountRef), TransactionDesc)
  }

  /** What the two requests of `stk_push` came to: the token request raised, so nothing
      was posted; the post raised or answered with an error status; or the decoded
      response body. */
  datatype PushOutcome = TokenFailed | PostFailed | Responded(body: map<string, string>)

  /** What the payload promises: the password decodes to the UTF-8 bytes of short code,
      passkey and the very timestamp sent alongside it; its length is four characters per
      three bytes or part thereof; the timestamp is 14 digits that read back as the clock;
      the remaining fields are the configuration and the caller's arguments. */
  lemma StkPushPayload(cfg: Config, phone: string, amount: int, accountRef: Option<string>, now: DateTime)
    requires now.Valid()
    ensures var p := StkPush(cfg, phone, amount, accountRef, now);
      && |p.timestamp| == 14 && AllDigits(p.timestamp) && ParseTimestamp(p.timestamp) == now
      && Base64.Decode(p.password) == Some(Utf8.Encode(cfg.shortCode + cfg.passkey + p.timestamp))
      && |p.password| == 4 * ((|Utf8.Encode(cfg.shortCode + cfg.passkey)| + 14 + 2) / 3)
      && p.businessShortCode == cfg.shortCode && p.partyB == cfg.shortCode
      && p.partyA == phone && p.phoneNumber == phone
      && p.amount == amount && p.callBackUrl == cfg.callbackUrl
      && p.accountReference == (if accountRef.Some? then accountRef.value else "PAYMENT")
      && p.transactionType == "CustomerPayBillOnline" && p.transactionDesc == "Payment via STK"
  {
    var p := StkPush(cfg, phone, amount, accountRef, now);
    var ts := p.timestamp;
    var prefix := cfg.shortCode + cfg.passkey;
    TimestampRoundTrip(now);
    assert Utf8.IsAscii(ts);
    Utf8.EncodeConcat(prefix, ts);
    Utf8.EncodeAscii(ts);
    assert PasswordSource(cfg, ts) == prefix + ts;
    assert |Utf8.Encode(PasswordSource(cfg, ts))| == |Utf8.Encode(prefix)| + 14;
  }
}
