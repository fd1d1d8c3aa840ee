/**
 * The round-robin question plan of the multi-team game: question index `i`
 * belongs to team `i % teamCount`, and every team's list is ascending.
 */
module QuestionAssignment {

  /** The question indices below `n` that team `t` of `p` teams receives, ascending. */
  function Owned(t: nat, p: nat, n: nat): seq<nat>
    requires p > 0
  {
    if n == 0 then [] else Owned(t, p, n - 1) + (if (n - 1) % p == t then [n - 1] else [])
  }

  /** The whole plan: one list per team. */
  function Plan(p: nat, n: nat): (r: seq<seq<nat>>)
    requires p > 0
    ensures |r| == p
  {
    seq(p, t requires 0 <= t < p => Owned(t, p, n))
  }

  /** Dealing question `n` extends exactly the list of team `n % p`. */
  lemma PlanStep(p: nat, n: nat)
    requires p > 0
    ensures Plan(p, n + 1) == Plan(p, n)[n % p := Plan(p, n)[n % p] + [n]]
  {
    var a, b := Plan(p, n + 1), Plan(p, n)[n % p := Plan(p, n)[n % p] + [n]];
    forall t | 0 <= t < p ensures a[t] == b[t] {
      assert a[t] == Owned(t, p, n + 1);
    }
  }

  /** Team `t` receives question `x` exactly when `x` is in range and `x % p == t`. */
  lemma {:induction false} OwnedMembership(t: nat, p: nat, n: nat, x: int)
    requires p > 0
    ensures x in Owned(t, p, n) <==> 0 <= x < n && x % p == t
  {
    if n > 0 {
      OwnedMembership(t, p, n - 1, x);
    }
  }

  /** Each team's list is strictly ascending. */
  lemma {:induction false} OwnedAscending(t: nat, p: nat, n: nat)
    requires p > 0
    ensures forall i, j :: 0 <= i < j < |Owned(t, p, n)| ==> Owned(t, p, n)[i] < Owned(t, p, n)[j]
  {
    if n > 0 {
      OwnedAscending(t, p, n - 1);
      var prev := Owned(t, p, n - 1);
      forall i | 0 <= i < |prev| ensures prev[i] < n - 1 {
        OwnedMembership(t, p, n - 1, prev[i]);
      }
    }
  }

  /** Partition: every index below `n` is in exactly one list, that of team `x % p`. */
  lemma PlanPartition(p: nat, n: nat, x: nat)
    requires p > 0 && x < n
    ensures x in Plan(p, n)[x % p]
    ensures forall t :: 0 <= t < p && t != x % p ==> x !in Plan(p, n)[t]
  {
    OwnedMembership(x % p, p, n, x);
    forall t | 0 <= t < p && t != x % p ensures x !in Plan(p, n)[t] {
      OwnedMembership(t, p, n, x);
    }
  }

  /** Nothing outside `[0, n)` is dealt to any team. */
  lemma PlanOnlyInRange(p: nat, n: nat, x: nat)
    requires p > 0 && n <= x
    ensures forall t :: 0 <= t < p ==> x !in Plan(p, n)[t]
  {
    forall t | 0 <= t < p ensures x !in Plan(p, n)[t] {
      OwnedMembership(t, p, n, x);
    }
  }

  /** `n == q * p + r` with `0 <= r < p` determines the quotient and remainder. */
  lemma DivModUnique(n: nat, p: nat, q: nat, r: nat)
    requires p > 0 && r < p && n == q * p + r
    ensures n / p == q && n % p == r
  {
    var q0, r0 := n / p, n % p;
    assert n == q0 * p + r0;
    if q0 < q {
      MulMonotone(q0 + 1, q, p);
    } else if q < q0 {
      MulMonotone(q + 1, q0, p);
    }
  }

  lemma {:induction false} MulMonotone(a: nat, b: nat, p: nat)
    requires a <= b
    ensures a * p <= b * p
  {
    if a < b {
      MulMonotone(a, b - 1, p);
      assert b * p == (b - 1) * p + p;
    }
  }

  /** Team `t` receives `n / p` questions, plus one more when `t < n % p`. */
  lemma {:induction false} OwnedCount(t: nat, p: nat, n: nat)
    requires t < p
    ensures |Owned(t, p, n)| == n / p + (if t < n % p then 1 else 0)
  {
    if n > 0 {
      var m := n - 1;
      OwnedCount(t, p, m);
      var q, r := m / p, m % p;
      if r + 1 < p {
        DivModUnique(n, p, q, r + 1);
      } else {
        assert n == (q + 1) * p + 0;
        DivModUnique(n, p, q + 1, 0);
      }
    }
  }

  /** Fairness: any two teams' question counts differ by at most one. */
  lemma PlanFair(p: nat, n: nat, t1: nat, t2: nat)
    requires t1 < p && t2 < p
    ensures |Plan(p, n)[t1]| <= |Plan(p, n)[t2]| + 1
  {
    OwnedCount(t1, p, n);
    OwnedCount(t2, p, n);
  }
}
