/** The two bulk actions of the withdrawal admin screen (withdrawal/admin.py). Each
    rewrites the status of the selected rows that are pending in one update, bypassing
    the record's own methods: no `processed_at` stamp, and no wallet refund. */
module WithdrawalAdmin {
  import opened Common
  import opened WithdrawalModels
  import opened WithdrawalViews

  /** Row `i` under `queryset.filter(status="pending").update(status=s)`. */
  function BulkRow(w: Snapshot, i: nat, selected: set<nat>, s: Status): Snapshot {
    if i in selected && w.status == Pending then w.(status := s) else w
  }

  /** The table after the bulk update. */
  function BulkUpdate(t: seq<Snapshot>, selected: set<nat>, s: Status): (r: seq<Snapshot>)
    ensures |r| == |t|
    decreases |t|
  {
    if t == [] then [] else BulkUpdate(t[..|t| - 1], selected, s) + [BulkRow(t[|t| - 1], |t| - 1, selected, s)]
  }

  /** Ids of the selected rows the update filter keeps. */
  function SelectedPending(t: seq<Snapshot>, selected: set<nat>): set<nat> {
    set i: nat | i < |t| && i in selected && t[i].status == Pending
  }

  /** Each row changes exactly when it is selected and pending, and then only in its status. */
  lemma {:induction false} BulkUpdateAt(t: seq<Snapshot>, selected: set<nat>, s: Status, i: nat)
    requires i < |t|
    ensures BulkUpdate(t, selected, s)[i] == BulkRow(t[i], i, selected, s)
    ensures i in SelectedPending(t, selected) ==> BulkUpdate(t, selected, s)[i] == t[i].(status := s)
    ensures i !in SelectedPending(t, selected) ==> BulkUpdate(t, selected, s)[i] == t[i]
    decreases |t|
  {
    if i < |t| - 1 {
      BulkUpdateAt(t[..|t| - 1], selected, s, i);
    }
  }

  /** A second run on the same selection finds no pending row, so it reports 0 and changes nothing. */
  lemma SecondRunUpdatesNothing(t: seq<Snapshot>, selected: set<nat>, s: Status)
    requires s != Pending
    ensures SelectedPending(BulkUpdate(t, selected, s), selected) == {}
    ensures BulkUpdate(BulkUpdate(t, selected, s), selected, s) == BulkUpdate(t, selected, s)
  {
    var r := BulkUpdate(t, selected, s);
    forall i: nat | i < |t| ensures r[i].status != Pending || i !in selected {
      BulkUpdateAt(t, selected, s, i);
    }
    forall i: nat | i < |t| ensures BulkUpdate(r, selected, s)[i] == r[i] {
      BulkUpdateAt(r, selected, s, i);
    }
  }

  /** A bulk update to a non-pending status keeps at most one pending request per user. */
  lemma BulkUpdateKeepsOnePerUser(t: seq<Snapshot>, selected: set<nat>, s: Status)
    requires s != Pending && AtMostOnePending(t)
    ensures AtMostOnePending(BulkUpdate(t, selected, s))
  {
    var r := BulkUpdate(t, selected, s);
    forall i | 0 <= i < |t| ensures r[i].status == Pending ==> t[i] == r[i] {
      BulkUpdateAt(t, selected, s, i);
    }
  }

  /** Marking rows paid keeps every user's reserved sum, so the wallet-plus-reserved total is kept. */
  lemma MarkPaidKeepsReserved(t: seq<Snapshot>, selected: set<nat>, u: UserId)
    ensures Reserved(BulkUpdate(t, selected, Paid), u) == Reserved(t, u)
  {
    forall i | 0 <= i < |t| ensures Holds(BulkUpdate(t, selected, Paid)[i], u) == Holds(t[i], u) {
      BulkUpdateAt(t, selected, Paid, i);
    }
    ReservedOnlyOwnRows(BulkUpdate(t, selected, Paid), t, u);
  }

  /** Every user's reserved sum is the same in both tables. */
  ghost predicate KeepsReserved(before: seq<Snapshot>, after: seq<Snapshot>) {
    forall u :: Reserved(after, u) == Reserved(before, u)
  }

  lemma MarkPaidKeepsReservedForAll(t: seq<Snapshot>, selected: set<nat>)
    ensures KeepsReserved(t, BulkUpdate(t, selected, Paid))
  {
    forall u ensures Reserved(BulkUpdate(t, selected, Paid), u) == Reserved(t, u) {
      MarkPaidKeepsReserved(t, selected, u);
    }
  }

  /** The amounts of `u`'s selected pending rows: what a refund would have returned. */
  function Unrefunded(t: seq<Snapshot>, selected: set<nat>, u: UserId): int
    decreases |t|
  {
    if t == [] then 0
    else
      var i := |t| - 1;
      Unrefunded(t[..i], selected, u) + (if i in selected && t[i].status == Pending && t[i].user == u then t[i].amount else 0)
  }

  /** Rejecting in bulk lowers `u`'s reserved sum by the amounts it rejects while the wallet
      stays as it was: those funds leave the conserved total. */
  lemma {:induction false} BulkRejectDropsReserved(t: seq<Snapshot>, selected: set<nat>, u: UserId)
    ensures Reserved(BulkUpdate(t, selected, Rejected), u) == Reserved(t, u) - Unrefunded(t, selected, u)
    decreases |t|
  {
    if t != [] {
      var i := |t| - 1;
      BulkRejectDropsReserved(t[..i], selected, u);
      var r := BulkUpdate(t, selected, Rejected);
      assert r[..i] == BulkUpdate(t[..i], selected, Rejected);
    }
  }

  /** Every user's reserved sum drops by the amounts of their selected pending rows. */
  ghost predicate DropsUnrefunded(before: seq<Snapshot>, after: seq<Snapshot>, selected: set<nat>) {
    forall u :: Reserved(after, u) == Reserved(before, u) - Unrefunded(before, selected, u)
  }

  lemma BulkRejectDropsReservedForAll(t: seq<Snapshot>, selected: set<nat>)
    ensures DropsUnrefunded(t, BulkUpdate(t, selected, Rejected), selected)
  {
    forall u ensures Reserved(BulkUpdate(t, selected, Rejected), u) == Reserved(t, u) - Unrefunded(t, selected, u) {
      BulkRejectDropsReserved(t, selected, u);
    }
  }

  /** The action body shared by both admin actions: one bulk update, returning the row count. */
  method BulkSetStatus(desk: WithdrawalDesk, selected: set<nat>, s: Status) returns (updated: nat)
    requires desk.Valid() && s != Pending
    modifies desk.rows
    ensures desk.Valid()
    ensures desk.Table() == BulkUpdate(old(desk.Table()), selected, s)
    ensures updated == |SelectedPending(old(desk.Table()), selected)|
  {
    var t := desk.Table();
    updated := |SelectedPending(t, selected)|;
    forall i | 0 <= i < |desk.rows| && i in selected && desk.rows[i].status == Pending {
      desk.rows[i].status := s;
    }
    ghost var r := desk.Table();
    forall i | 0 <= i < |t| ensures r[i] == BulkUpdate(t, selected, s)[i] {
      BulkUpdateAt(t, selected, s, i);
    }
    assert r == BulkUpdate(t, selected, s);
    BulkUpdateKeepsOnePerUser(t, selected, s);
  }

  /** `WithdrawalAdmin.mark_as_paid`. */
  method MarkAsPaid(desk: WithdrawalDesk, selected: set<nat>) returns (updated: nat)
    requires desk.Valid()
    modifies desk.rows
    ensures desk.Valid() && desk.wallets == old(desk.wallets)
    ensures desk.Table() == BulkUpdate(old(desk.Table()), selected, Paid)
    ensures updated == |SelectedPending(old(desk.Table()), selected)|
    ensures KeepsReserved(old(desk.Table()), desk.Table())
  {
    MarkPaidKeepsReservedForAll(desk.Table(), selected);
    updated := BulkSetStatus(desk, selected, Paid);
  }

  /** `WithdrawalAdmin.reject_withdrawal`. */
  method RejectWithdrawal(desk: WithdrawalDesk, selected: set<nat>) returns (updated: nat)
    requires desk.Valid()
    modifies desk.rows
    ensures desk.Valid() && desk.wallets == old(desk.wallets)
    ensures desk.Table() == BulkUpdate(old(desk.Table()), selected, Rejected)
    ensures updated == |SelectedPending(old(desk.Table()), selected)|
    ensures DropsUnrefunded(old(desk.Table()), desk.Table(), selected)
  {
    BulkRejectDropsReservedForAll(desk.Table(), selected);
    updated := BulkSetStatus(desk, selected, Rejected);
  }
}
