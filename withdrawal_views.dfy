/** The withdrawal endpoints (withdrawal/views.py) over the wallet balances and the
    withdrawal table. Submitting reserves the amount by debiting the wallet, approving
    pays the reserved amount out, rejecting refunds it. Each of the three keeps, for
    every user, the wallet balance plus the amounts of the user's pending, processing
    and paid withdrawals constant. */
module WithdrawalViews {
  import opened Common
  import opened WithdrawalModels
  import WithdrawalSerializers

  /** The amount of `u`'s money a withdrawal row keeps out of the wallet: its amount
      while it is pending, processing or paid, nothing once rejected or for another user. */
  function Holds(w: Snapshot, u: UserId): int {
    if w.user == u && w.status != Rejected then w.amount else 0
  }

  /** The sum of `Holds` over a table. */
  function Reserved(t: seq<Snapshot>, u: UserId): int
    decreases |t|
  {
    if t == [] then 0 else Reserved(t[..|t| - 1], u) + Holds(t[|t| - 1], u)
  }

  lemma ReservedAppend(t: seq<Snapshot>, w: Snapshot, u: UserId)
    ensures Reserved(t + [w], u) == Reserved(t, u) + Holds(w, u)
  {
    assert (t + [w])[..|t|] == t;
  }

  /** Replacing one row changes the reserved sum by exactly the change in that row's holding. */
  lemma {:induction false} ReservedUpdate(t: seq<Snapshot>, i: nat, w: Snapshot, u: UserId)
    requires i < |t|
    ensures Reserved(t[i := w], u) == Reserved(t, u) - Holds(t[i], u) + Holds(w, u)
    decreases |t|
  {
    var n := |t| - 1;
    if i < n {
      assert t[i := w][..n] == t[..n][i := w];
      ReservedUpdate(t[..n], i, w, u);
    } else {
      assert t[i := w][..n] == t[..n];
    }
  }

  /** Tables agreeing on every row of `u` reserve the same sum for `u`. */
  lemma {:induction false} ReservedOnlyOwnRows(t: seq<Snapshot>, s: seq<Snapshot>, u: UserId)
    requires |t| == |s|
    requires forall i | 0 <= i < |t| :: Holds(t[i], u) == Holds(s[i], u)
    ensures Reserved(t, u) == Reserved(s, u)
    decreases |t|
  {
    if t != [] {
      ReservedOnlyOwnRows(t[..|t| - 1], s[..|s| - 1], u);
    }
  }

  /** Whether withdrawal `id` exists and is pending, the lookup both admin views start with. */
  predicate IsPendingId(t: seq<Snapshot>, id: int) {
    0 <= id < |t| && t[id].status == Pending
  }

  predicate HasPending(t: seq<Snapshot>, u: UserId) {
    exists i | 0 <= i < |t| :: t[i].user == u && t[i].status == Pending
  }

  /** No user has two pending requests. */
  predicate AtMostOnePending(t: seq<Snapshot>) {
    forall i, j | 0 <= i < j < |t| :: !(t[i].status == Pending && t[j].status == Pending && t[i].user == t[j].user)
  }

  datatype SubmitError =
    | InvalidInput(reason: WithdrawalSerializers.FieldError)
    | InvalidAmount
    | PendingRequestExists
    | WalletNotFound
    | InsufficientBalance
  {
    function HttpStatus(): int {
      if WalletNotFound? then 404 else 400
    }
  }

  datatype SubmitReply = Submitted(id: nat, request: Snapshot) | Refused(error: SubmitError)

  /** The guards of a submission, in the order the view tries them; `None` when all pass. */
  function SubmitCheck(wallets: map<UserId, int>, t: seq<Snapshot>, user: UserId, mobileNumber: string, amount: int)
    : (r: Option<SubmitError>)
    ensures r.None? <==>
      && WithdrawalSerializers.ValidateFields(mobileNumber, amount).None?
      && amount > 0 && !HasPending(t, user)
      && user in wallets && wallets[user] >= amount
    ensures r == Some(PendingRequestExists) ==> HasPending(t, user)
    ensures r == Some(WalletNotFound) ==> user !in wallets && !HasPending(t, user)
    ensures r == Some(InsufficientBalance) ==> user in wallets && wallets[user] < amount
    ensures r == Some(InvalidAmount) ==> amount <= 0
  {
    var fields := WithdrawalSerializers.ValidateFields(mobileNumber, amount);
    if fields.Some? then Some(InvalidInput(fields.value))
    else if amount <= 0 then Some(InvalidAmount)
    else if HasPending(t, user) then Some(PendingRequestExists)
    else if user !in wallets then Some(WalletNotFound)
    else if wallets[user] < amount then Some(InsufficientBalance)
    else None
  }

  /** A user without a pending request may add one without breaking `AtMostOnePending`. */
  lemma NewPendingKeepsOnePerUser(t: seq<Snapshot>, w: Snapshot)
    requires AtMostOnePending(t) && !HasPending(t, w.user)
    ensures AtMostOnePending(t + [w])
  {
    forall i, j | 0 <= i < j < |t| + 1
      ensures !((t + [w])[i].status == Pending && (t + [w])[j].status == Pending && (t + [w])[i].user == (t + [w])[j].user)
    {
      if j == |t| {
        assert (t + [w])[i] == t[i];
      }
    }
  }

  datatype ReviewReply =
    | Done
    | NotFound            // 404: no such id, or no longer pending
    | BalanceMismatch     // 400: the owner's wallet is negative
    | WalletMissing       // the owner has no wallet: `Wallet.objects.get` raises, 500
  {
    function HttpStatus(): int {
      match this
      case Done => 200
      case NotFound => 404
      case BalanceMismatch => 400
      case WalletMissing => 500
    }
  }

  /** Wallet balances per user and the withdrawal table; a row's id is its position. */
  class WithdrawalDesk {
    var wallets: map<UserId, int>
    var rows: seq<Withdrawal>

    function Table(): (t: seq<Snapshot>)
      reads this, rows
      ensures |t| == |rows|
      ensures forall i | 0 <= i < |rows| :: t[i] == rows[i].Data()
    {
      seq(|rows|, i reads this, rows requires 0 <= i < |rows| => rows[i].Data())
    }

    /** Every row is its own object, and no user has two pending requests. */
    ghost predicate Valid()
      reads this, rows
    {
      && (forall i, j | 0 <= i < j < |rows| :: rows[i] != rows[j])
      && AtMostOnePending(Table())
    }

    function Balance(u: UserId): int
      reads this
    {
      if u in wallets then wallets[u] else 0
    }

    /** The conserved quantity: `u`'s wallet balance plus what `u`'s requests hold. */
    function Total(u: UserId): int
      reads this, rows
    {
      Balance(u) + Reserved(Table(), u)
    }

    constructor (wallets: map<UserId, int>)
      ensures Valid() && this.wallets == wallets && rows == []
    {
      this.wallets := wallets;
      this.rows := [];
    }

    /** `WithdrawalRequestView.post`. */
    method Submit(user: UserId, mobileNumber: string, amount: int, now: int) returns (reply: SubmitReply)
      requires Valid()
      modifies this
      ensures Valid()
      ensures var check := SubmitCheck(old(wallets), old(Table()), user, mobileNumber, amount);
        && (check.Some? ==> reply == Refused(check.value))
        && (check.None? ==> reply == Submitted(old(|rows|), Snapshot(user, mobileNumber, amount, now, Pending, None)))
      ensures reply.Refused? ==> wallets == old(wallets) && rows == old(rows)
      ensures reply.Submitted? ==>
        && wallets == old(wallets)[user := old(wallets)[user] - amount]
        && |rows| == old(|rows|) + 1 && rows[..old(|rows|)] == old(rows) && fresh(rows[old(|rows|)])
        && Table() == old(Table()) + [reply.request]
      ensures forall u :: Total(u) == old(Total(u))
      ensures forall u | u in old(wallets) && old(wallets)[u] >= 0 :: u in wallets && wallets[u] >= 0
    {
      var t := Table();
      var check := SubmitCheck(wallets, t, user, mobileNumber, amount);
      if check.Some? {
        return Refused(check.value);
      }
      var w := new Withdrawal(user, mobileNumber, amount, now);
      var request := w.Data();
      wallets := wallets[user := wallets[user] - amount];
      rows := rows + [w];
      reply := Submitted(|rows| - 1, request);
      assert Table() == t + [request];
      NewPendingKeepsOnePerUser(t, request);
      forall u ensures Total(u) == old(Total(u)) {
        ReservedAppend(t, request, u);
      }
    }

    /** `WithdrawalApproveView.post`: the reserved funds are paid out, the wallet is untouched. */
    method Approve(id: int, now: int) returns (reply: ReviewReply)
      requires Valid()
      modifies rows
      ensures Valid()
      ensures !IsPendingId(old(Table()), id) ==> reply == NotFound
      ensures IsPendingId(old(Table()), id) ==>
        var owner := old(Table())[id].user;
        reply == if owner !in wallets then WalletMissing
                 else if wallets[owner] < 0 then BalanceMismatch
                 else Done
      ensures reply != Done ==> Table() == old(Table())
      ensures reply == Done ==> Table() == old(Table())[id := PaidAt(old(Table())[id], now)]
      ensures forall u :: Total(u) == old(Total(u))
    {
      var t := Table();
      if !(0 <= id < |rows| && rows[id].status == Pending) {
        return NotFound;
      }
      var w := rows[id];
      if w.user !in wallets {
        return WalletMissing;
      }
      if wallets[w.user] < 0 {
        return BalanceMismatch;
      }
      w.MarkAsPaid(now);
      reply := Done;
      assert Table() == t[id := PaidAt(t[id], now)];
      forall u ensures Total(u) == old(Total(u)) {
        ReservedUpdate(t, id, PaidAt(t[id], now), u);
      }
      assert AtMostOnePending(Table());
    }

    /** `WithdrawalRejectView.post`: the reserved amount goes back to the owner's wallet. */
    method RejectRequest(id: int, now: int) returns (reply: ReviewReply)
      requires Valid()
      modifies this, rows
      ensures Valid() && rows == old(rows)
      ensures !IsPendingId(old(Table()), id) ==> reply == NotFound
      ensures IsPendingId(old(Table()), id) ==>
        reply == if old(Table())[id].user in old(wallets) then Done else WalletMissing
      ensures reply != Done ==> Table() == old(Table()) && wallets == old(wallets)
      ensures reply == Done ==>
        var w := old(Table())[id];
        && Table() == old(Table())[id := RejectedAt(w, now)]
        && wallets == old(wallets)[w.user := old(wallets)[w.user] + w.amount]
        && !IsPendingId(Table(), id)
      ensures forall u :: Total(u) == old(Total(u))
    {
      var t := Table();
      if !(0 <= id < |rows| && rows[id].status == Pending) {
        return NotFound;
      }
      var w := rows[id];
      if w.user !in wallets {
        return WalletMissing;
      }
      wallets := wallets[w.user := wallets[w.user] + w.amount];
      w.Reject(now);
      reply := Done;
      assert Table() == t[id := RejectedAt(t[id], now)];
      forall u ensures Total(u) == old(Total(u)) {
        ReservedUpdate(t, id, RejectedAt(t[id], now), u);
      }
      assert AtMostOnePending(Table());
    }
  }
}
