/** The withdrawal request record (withdrawal/models.py): its four statuses, the
    48-hour escalation rule and the admin transitions that stamp `processed_at`. */
module WithdrawalModels {
  import opened Common

  datatype Status = Pending | Processing | Paid | Rejected

  /** Seconds a request must wait as pending before it may move to processing (48 hours). */
  const EscalationSeconds: int := 172800

  /** A withdrawal row's values: owner, destination number, amount in cents,
      creation time and processing time in seconds, and status. */
  datatype Snapshot = Snapshot(
    user: UserId,
    mobileNumber: string,
    amount: int,
    createdAt: int,
    status: Status,
    processedAt: Option<int>)

  /** The fields a status change must never touch. */
  predicate SameRequest(a: Snapshot, b: Snapshot) {
    a.user == b.user && a.mobileNumber == b.mobileNumber
    && a.amount == b.amount && a.createdAt == b.createdAt
  }

  /** `clean`: the outcome of validating a withdrawal amount. */
  datatype Validation = Valid | AmountNotPositive

  function CleanAmount(amount: int): (r: Validation)
    ensures r == AmountNotPositive <==> amount <= 0
  {
    if amount <= 0 then AmountNotPositive else Valid
  }

  /** The row after `mark_as_paid` at time `now`. */
  function PaidAt(w: Snapshot, now: int): (r: Snapshot)
    ensures r.status == Paid && r.processedAt == Some(now)
    ensures SameRequest(r, w)
  {
    w.(status := Paid, processedAt := Some(now))
  }

  /** The row after `reject` at time `now`. */
  function RejectedAt(w: Snapshot, now: int): (r: Snapshot)
    ensures r.status == Rejected && r.processedAt == Some(now)
    ensures SameRequest(r, w)
  {
    w.(status := Rejected, processedAt := Some(now))
  }

  /** Whether a pending request created at `createdAt` is old enough to escalate. */
  predicate Overdue(createdAt: int, now: int) {
    now - createdAt >= EscalationSeconds
  }

  /** The row after `move_to_processing` at time `now`. */
  function Escalated(w: Snapshot, now: int): (r: Snapshot)
    ensures w.status == Pending && Overdue(w.createdAt, now) ==> r.status == Processing
    ensures !(w.status == Pending && Overdue(w.createdAt, now)) ==> r == w
    ensures SameRequest(r, w) && r.processedAt == w.processedAt
  {
    if w.status == Pending && Overdue(w.createdAt, now) then w.(status := Processing) else w
  }

  /** A pending request changes status under `move_to_processing` exactly when it is overdue,
      a non-pending one never does, and escalating twice is escalating once. */
  lemma EscalationRule(w: Snapshot, now: int)
    ensures Escalated(w, now) != w <==> w.status == Pending && Overdue(w.createdAt, now)
    ensures Escalated(w, now).status == Pending ==> !Overdue(w.createdAt, now)
    ensures Escalated(Escalated(w, now), now) == Escalated(w, now)
  {
  }

  /** A withdrawal request as the ORM object the admin views update in place. */
  class Withdrawal {
    var user: UserId
    var mobileNumber: string
    var amount: int
    var createdAt: int
    var status: Status
    var processedAt: Option<int>

    function Data(): (d: Snapshot)
      reads this
    {
      Snapshot(user, mobileNumber, amount, createdAt, status, processedAt)
    }

    /** A new request: status defaults to pending, `processed_at` to empty. */
    constructor (user: UserId, mobileNumber: string, amount: int, createdAt: int)
      ensures Data() == Snapshot(user, mobileNumber, amount, createdAt, Pending, None)
    {
      this.user := user;
      this.mobileNumber := mobileNumber;
      this.amount := amount;
      this.createdAt := createdAt;
      this.status := Pending;
      this.processedAt := None;
    }

    /** `clean`: raises when the amount is not positive. */
    function Clean(): (r: Validation)
      reads this
      ensures r == AmountNotPositive <==> amount <= 0
    {
      CleanAmount(amount)
    }

    method MarkAsPaid(now: int)
      modifies this
      ensures Data() == PaidAt(old(Data()), now)
    {
      status := Paid;
      processedAt := Some(now);
    }

    method Reject(now: int)
      modifies this
      ensures Data() == RejectedAt(old(Data()), now)
    {
      status := Rejected;
      processedAt := Some(now);
    }

    method MoveToProcessing(now: int)
      modifies this
      ensures Data() == Escalated(old(Data()), now)
    {
      if status == Pending && now - createdAt >= EscalationSeconds {
        status := Processing;
      }
    }
  }
}
