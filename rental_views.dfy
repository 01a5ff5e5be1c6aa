/** `PendingReturnsView.get` (rentals/views.py): the sum of the expected returns of the
    caller's active rentals, `0` when there are none. */
module RentalViews {
  import opened Common
  import opened RentalModels

  /** Whether a rental enters `u`'s pending returns. */
  predicate Counted(r: Rental, u: UserId) {
    r.user == u && r.status == Active
  }

  /** `Rental.objects.filter(user=u, status="active")`, in table order: every counted row
      as often as the table holds it, and no other row. */
  function ActiveOf(t: seq<Rental>, u: UserId): (s: seq<Rental>)
    ensures |s| <= |t|
    ensures forall x :: x in s <==> x in t && Counted(x, u)
    ensures forall x :: multiset(s)[x] == if Counted(x, u) then multiset(t)[x] else 0
    decreases |t|
  {
    if t == [] then []
    else
      var n := |t| - 1;
      var init := ActiveOf(t[..n], u);
      assert t == t[..n] + [t[n]];
      assert multiset(t) == multiset(t[..n]) + multiset{t[n]};
      if Counted(t[n], u) then
        assert multiset(init + [t[n]]) == multiset(init) + multiset{t[n]};
        init + [t[n]]
      else init
  }

  /** The sum of the expected returns of a sequence of rentals. */
  function SumReturns(s: seq<Rental>): int
    decreases |s|
  {
    if s == [] then 0 else SumReturns(s[..|s| - 1]) + s[|s| - 1].expectedReturn
  }

  /** `aggregate(total=Sum("expected_return"))["total"]`: SQL's `SUM` over no rows is NULL. */
  function Aggregate(s: seq<Rental>): (r: Option<int>)
    ensures r.None? <==> s == []
  {
    if s == [] then None else Some(SumReturns(s))
  }

  /** The view's result in cents, with `or 0` turning the empty aggregate into zero: the
      plain sum of the expected returns of `u`'s active rentals. */
  function PendingReturns(t: seq<Rental>, u: UserId): (r: int)
    ensures r == SumReturns(ActiveOf(t, u))
  {
    Aggregate(ActiveOf(t, u)).GetOr(0)
  }

  /** A new rental raises `u`'s total by its expected return when it is `u`'s and active,
      and leaves the total alone otherwise. */
  lemma PendingReturnsAppend(t: seq<Rental>, r: Rental, u: UserId)
    ensures PendingReturns(t + [r], u) == PendingReturns(t, u) + (if Counted(r, u) then r.expectedReturn else 0)
  {
    assert (t + [r])[..|t|] == t;
    var a := ActiveOf(t, u);
    if Counted(r, u) {
      assert ActiveOf(t + [r], u) == a + [r];
      assert (a + [r])[..|a|] == a;
    }
  }

  lemma {:induction false} PendingReturnsConcat(t: seq<Rental>, s: seq<Rental>, u: UserId)
    ensures PendingReturns(t + s, u) == PendingReturns(t, u) + PendingReturns(s, u)
    decreases |s|
  {
    if s == [] {
      assert t + s == t;
    } else {
      var n := |s| - 1;
      assert t + s == (t + s[..n]) + [s[n]];
      assert s == s[..n] + [s[n]];
      PendingReturnsConcat(t, s[..n], u);
      PendingReturnsAppend(t + s[..n], s[n], u);
      PendingReturnsAppend(s[..n], s[n], u);
    }
  }

  /** With no active rental of `u` in the table, the result is 0. */
  lemma {:induction false} PendingReturnsNone(t: seq<Rental>, u: UserId)
    requires forall i | 0 <= i < |t| :: !Counted(t[i], u)
    ensures ActiveOf(t, u) == [] && PendingReturns(t, u) == 0
    decreases |t|
  {
    if t != [] {
      PendingReturnsNone(t[..|t| - 1], u);
    }
  }

  /** Rentals of other users and rentals no longer active do not change the total. */
  lemma PendingReturnsIgnoresUncounted(t: seq<Rental>, s: seq<Rental>, u: UserId)
    requires forall i | 0 <= i < |s| :: !Counted(s[i], u)
    ensures PendingReturns(t + s, u) == PendingReturns(t, u)
  {
    PendingReturnsConcat(t, s, u);
    PendingReturnsNone(s, u);
  }

  /** The sum over two sequences concatenated is the sum of the two sums. */
  lemma {:induction false} SumReturnsConcat(a: seq<Rental>, b: seq<Rental>)
    ensures SumReturns(a + b) == SumReturns(a) + SumReturns(b)
    decreases |b|
  {
    if b == [] {
      assert a + b == a;
    } else {
      var n := |b| - 1;
      assert (a + b)[..|a + b| - 1] == a + b[..n];
      SumReturnsConcat(a, b[..n]);
    }
  }

  /** The sum does not depend on the order of its terms. */
  lemma {:induction false} SumReturnsPermutation(a: seq<Rental>, b: seq<Rental>)
    requires multiset(a) == multiset(b)
    ensures SumReturns(a) == SumReturns(b)
    decreases |a|
  {
    if a == [] {
      assert b == [] by {
        assert |multiset(b)| == 0;
      }
    } else {
      var n := |a| - 1;
      var x := a[n];
      assert a == a[..n] + [x];
      assert x in multiset(b);
      var j :| 0 <= j < |b| && b[j] == x;
      var rest := b[..j] + b[j + 1..];
      assert b == (b[..j] + [x]) + b[j + 1..];
      assert multiset(a) == multiset(a[..n]) + multiset{x};
      assert multiset(b) == multiset(b[..j]) + multiset{x} + multiset(b[j + 1..]);
      assert multiset(rest) == multiset(b[..j]) + multiset(b[j + 1..]);
      assert multiset(a[..n]) == multiset(rest) by {
        forall y ensures multiset(a[..n])[y] == multiset(rest)[y] {
          assert multiset(a)[y] == multiset(a[..n])[y] + multiset{x}[y];
        }
      }
      SumReturnsPermutation(a[..n], rest);
      assert (b[..j] + [x])[..j] == b[..j];
      SumReturnsConcat(b[..j] + [x], b[j + 1..]);
      SumReturnsConcat(b[..j], b[j + 1..]);
    }
  }

  /** The total does not depend on the order of the rentals: the two filters hold the
      same rows as often, and the sum of those is order-free. */
  lemma PendingReturnsPermutation(t: seq<Rental>, s: seq<Rental>, u: UserId)
    requires multiset(t) == multiset(s)
    ensures PendingReturns(t, u) == PendingReturns(s, u)
  {
    var a, b := ActiveOf(t, u), ActiveOf(s, u);
    assert multiset(a) == multiset(b) by {
      forall x ensures multiset(a)[x] == multiset(b)[x] {
      }
    }
    SumReturnsPermutation(a, b);
  }
}
