/** The rotation over target ports in `tx_tcp_connect_next`. */
module Targets {
  import opened Bytes

  class TargetList {
    const count: nat
    var cursor: nat

    ghost predicate Valid()
      reads this
    {
      cursor < count
    }

    constructor (count: nat)
      requires count >= 1
      ensures Valid() && this.count == count && cursor == 0
    {
      this.count := count;
      cursor := 0;
    }

    /** Picks the target under the cursor and moves the cursor on, wrapping around. */
    method ConnectNext() returns (chosen: nat)
      requires Valid()
      modifies this
      ensures Valid()
      ensures chosen == old(cursor)
      ensures cursor == if old(cursor) + 1 == count then 0 else old(cursor) + 1
    {
      chosen := cursor;
      cursor := (cursor + 1) % count;
      Wrap(chosen, count);
    }
  }

  lemma {:induction false} Wrap(i: nat, n: nat)
    requires i < n
    ensures (i + 1) % n == if i + 1 == n then 0 else i + 1
  {
  }

  /** How far target a is from the one the rotation started at. */
  function Distance(a: nat, start: nat, n: nat): nat
    requires a < n && start < n
  {
    if a >= start then a - start else a + n - start
  }

  /** Every target has had q attempts, and the first r from the start one more. */
  ghost predicate Spread(uses: seq<nat>, start: nat, q: nat, r: nat) {
    && start < |uses|
    && forall a :: 0 <= a < |uses| ==> uses[a] == q + (if Distance(a, start, |uses|) < r then 1 else 0)
  }

  /** Any number of attempts uses every target equally often, give or take one. */
  method Attempts(t: TargetList, m: nat) returns (uses: array<nat>)
    requires t.Valid()
    modifies t
    ensures t.Valid() && fresh(uses) && uses.Length == t.count
    ensures forall a, b :: 0 <= a < uses.Length && 0 <= b < uses.Length ==> uses[a] <= uses[b] + 1
    ensures Spread(uses[..], old(t.cursor), m / t.count, m % t.count)
  {
    var n := t.count;
    uses := new nat[n](_ => 0);
    ghost var start := t.cursor;
    ghost var q: nat, r: nat := 0, 0;
    var done := 0;
    while done < m
      invariant done <= m && t.Valid() && fresh(uses)
      invariant start < n && r < n && done == Counted(n, q, r)
      invariant Distance(t.cursor, start, n) == r
      invariant Spread(uses[..], start, q, r)
    {
      ghost var before := uses[..];
      var chosen := t.ConnectNext();
      uses[chosen] := uses[chosen] + 1;
      assert uses[..] == before[chosen := before[chosen] + 1];
      NextAttempt(before, start, q, r, chosen);
      NextCount(n, q, r);
      q, r := if r + 1 == n then q + 1 else q, if r + 1 == n then 0 else r + 1;
      done := done + 1;
    }
    Quotient(m, n, q, r);
    NearlyEqual(uses[..], start, q, r);
    assert forall a :: 0 <= a < n ==> uses[a] == uses[..][a];
  }

  /** The attempts in q full turns and r more. */
  function Counted(n: nat, q: nat, r: nat): nat {
    n * q + r
  }

  lemma {:induction false} NextCount(n: nat, q: nat, r: nat)
    ensures Counted(n, q, r) + 1 == if r + 1 == n then Counted(n, q + 1, 0) else Counted(n, q, r + 1)
  {
    assert n * (q + 1) == n * q + n;
  }

  lemma {:induction false} NearlyEqual(uses: seq<nat>, start: nat, q: nat, r: nat)
    requires Spread(uses, start, q, r)
    ensures forall a, b :: 0 <= a < |uses| && 0 <= b < |uses| ==> uses[a] <= uses[b] + 1
  {
  }

  lemma {:induction false} NextAttempt(uses: seq<nat>, start: nat, q: nat, r: nat, chosen: nat)
    requires Spread(uses, start, q, r) && r < |uses|
    requires chosen < |uses| && Distance(chosen, start, |uses|) == r
    ensures
      var uses' := uses[chosen := uses[chosen] + 1];
      if r + 1 == |uses| then Spread(uses', start, q + 1, 0) else Spread(uses', start, q, r + 1)
  {
  }
}
