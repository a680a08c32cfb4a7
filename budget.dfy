/**
 * The proportional budget allocator of `updatePlatformBudgets`: when the
 * total budget changes, every platform card gets the new total times its
 * share of the current budgets, rounded half up, shown on the card and
 * saved under `<platform>Budget`.
 *
 * The source divides each budget by the historical total 3050 and then by
 * the sum of those quotients; the model keeps that computation on exact
 * reals (`Round`, `SumPercentages`, the loop of `UpdatePlatformBudgets`)
 * and proves it equal to the integer rounding `Share`, on which the share,
 * bound, symmetry and drift properties are stated.
 */
module Budget {

  import opened Storage

  /** The historical total every current budget is divided by. */
  const ORIGINAL_TOTAL: real := 3050.0

  /** Sum of the current budgets, accumulated from the front as the source does. */
  function Sum(b: seq<nat>): nat {
    if b == [] then 0 else Sum(b[..|b| - 1]) + b[|b| - 1]
  }

  /** `Math.round`: the nearest integer, halves rounded up. */
  function Round(x: real): (r: int)
    ensures x - 0.5 < r as real <= x + 0.5
  {
    (x + 0.5).Floor
  }

  /**
   * The new budget of a platform whose current budget is `current` when the
   * current budgets add up to `sum`: `total * current / sum`, rounded half up,
   * in integer arithmetic.
   */
  function Share(total: nat, current: nat, sum: nat): (r: nat)
    requires sum > 0
    ensures 2 * sum * r <= 2 * total * current + sum < 2 * sum * r + 2 * sum
  {
    (2 * total * current + sum) / (2 * sum)
  }

  /** The new budget of every platform, in card order. */
  function Allocate(total: nat, b: seq<nat>): seq<nat>
    requires Sum(b) > 0
  {
    seq(|b|, i requires 0 <= i < |b| => Share(total, b[i], Sum(b)))
  }

  /** The key a platform's budget is saved under. */
  function BudgetKey(platform: string): (key: string)
    ensures |key| == |platform| + 6 && key[..|platform|] == platform && key[|platform|..] == "Budget"
  {
    platform + "Budget"
  }

  /** Distinct platforms save under distinct keys. */
  lemma BudgetKeyInjective(p: string, q: string)
    ensures BudgetKey(p) == BudgetKey(q) <==> p == q
  {
    if BudgetKey(p) == BudgetKey(q) {
      assert |p| == |q|;
      assert p == BudgetKey(p)[..|p|];
    }
  }

  /** The storage after saving `amounts[i]` under `BudgetKey(platforms[i])`, in card order. */
  function SaveBudgets(items: map<string, Value>, failing: bool, platforms: seq<string>, amounts: seq<nat>): map<string, Value>
    requires |platforms| == |amounts|
  {
    if platforms == [] then items
    else
      var n := |platforms| - 1;
      Write(SaveBudgets(items, failing, platforms[..n], amounts[..n]), failing, BudgetKey(platforms[n]), Num(amounts[n]))
  }

  // ---------------------------------------------------------------------------
  // Properties of the allocation

  /** Every current budget is at most their sum. */
  lemma {:induction false} ElementAtMostSum(b: seq<nat>, i: nat)
    requires i < |b|
    ensures b[i] <= Sum(b)
  {
    var n := |b| - 1;
    if i < n {
      ElementAtMostSum(b[..n], i);
    }
  }

  /** Multiplying by a non-negative factor keeps an order. */
  lemma MulMonotone(a: int, x: int, y: int)
    requires a >= 0 && x <= y
    ensures a * x <= a * y
  {
  }

  /** A share of at most the whole is at most the total. */
  lemma ShareAtMostTotal(total: nat, current: nat, sum: nat)
    requires 0 < sum && current <= sum
    ensures Share(total, current, sum) <= total
  {
    var r := Share(total, current, sum);
    MulMonotone(2 * total, current, sum);
    if r > total {
      MulMonotone(2 * sum, total + 1, r);
    }
  }

  /** Every new budget lies between 0 and the new total, inclusive. */
  lemma AllocateWithinTotal(total: nat, b: seq<nat>, i: nat)
    requires Sum(b) > 0 && i < |b|
    ensures |Allocate(total, b)| == |b|
    ensures 0 <= Allocate(total, b)[i] <= total
  {
    ElementAtMostSum(b, i);
    ShareAtMostTotal(total, b[i], Sum(b));
  }

  /** Platforms with equal current budgets get equal new budgets; a platform at 0 stays at 0. */
  lemma AllocateSymmetric(total: nat, b: seq<nat>, i: nat, j: nat)
    requires Sum(b) > 0 && i < |b| && j < |b|
    ensures b[i] == b[j] ==> Allocate(total, b)[i] == Allocate(total, b)[j]
    ensures b[i] == 0 ==> Allocate(total, b)[i] == 0
  {
    if b[i] == 0 {
      var r := Share(total, 0, Sum(b));
      if r > 0 {
        MulMonotone(2 * Sum(b), 1, r);
      }
    }
  }

  /** Multiplication distributes over a sum. */
  lemma MulDistributes(a: int, x: int, y: int)
    ensures a * (x + y) == a * x + a * y
  {
  }

  /** A larger current budget never gets a smaller share. */
  lemma ShareMonotone(total: nat, c1: nat, c2: nat, sum: nat)
    requires 0 < sum && c1 <= c2
    ensures Share(total, c1, sum) <= Share(total, c2, sum)
  {
    var r1, r2 := Share(total, c1, sum), Share(total, c2, sum);
    var k := 2 * sum;
    assert k * r1 <= 2 * total * c1 + sum;
    assert 2 * total * c2 + sum < k * r2 + k;
    MulMonotone(2 * total, c1, c2);
    if r1 > r2 {
      MulMonotone(k, r2 + 1, r1);
      MulDistributes(k, r2, 1);
    }
  }

  /** A platform with a larger current budget never gets a smaller new budget. */
  lemma AllocateMonotone(total: nat, b: seq<nat>, i: nat, j: nat)
    requires Sum(b) > 0 && i < |b| && j < |b|
    requires b[i] <= b[j]
    ensures Allocate(total, b)[i] <= Allocate(total, b)[j]
  {
    ShareMonotone(total, b[i], b[j], Sum(b));
  }

  /** Sum of the shares of the first `|b|` entries when the budgets overall add up to `sum`. */
  function ShareSum(total: nat, b: seq<nat>, sum: nat): nat
    requires sum > 0
  {
    if b == [] then 0 else ShareSum(total, b[..|b| - 1], sum) + Share(total, b[|b| - 1], sum)
  }

  /** Adding one entry's rounding error to the accumulated one. */
  lemma DriftStep(sum: int, n: int, r0: int, s0: int, r: int, c: int, total: int)
    requires sum > 0 && n >= 0
    requires 2 * sum * r0 - 2 * total * s0 <= n * sum
    requires n > 0 ==> -(n * sum) < 2 * sum * r0 - 2 * total * s0
    requires n == 0 ==> r0 == 0 && s0 == 0
    requires -sum < 2 * sum * r - 2 * total * c <= sum
    ensures 2 * sum * (r0 + r) - 2 * total * (s0 + c) <= (n + 1) * sum
    ensures -((n + 1) * sum) < 2 * sum * (r0 + r) - 2 * total * (s0 + c)
  {
    MulDistributes(2 * sum, r0, r);
    MulDistributes(2 * total, s0, c);
    MulDistributes(sum, n, 1);
    assert (n + 1) * sum == sum * (n + 1);
  }

  /**
   * Each rounding is off by at most half a unit, so the drifts add up:
   * `-n * sum < 2 * sum * Σ shares - 2 * total * Σ budgets <= n * sum`.
   */
  lemma {:induction false} ShareSumDrift(total: nat, b: seq<nat>, sum: nat)
    requires sum > 0
    ensures 2 * sum * ShareSum(total, b, sum) - 2 * total * Sum(b) <= |b| * sum
    ensures b != [] ==> -(|b| * sum) < 2 * sum * ShareSum(total, b, sum) - 2 * total * Sum(b)
  {
    if b != [] {
      var n := |b| - 1;
      ShareSumDrift(total, b[..n], sum);
      var c := b[n];
      var r0, s0 := ShareSum(total, b[..n], sum), Sum(b[..n]);
      var r := Share(total, c, sum);
      assert ShareSum(total, b, sum) == r0 + r;
      assert Sum(b) == s0 + c;
      assert n == 0 ==> r0 == 0 && s0 == 0;
      DriftStep(sum, n, r0, s0, r, c, total);
    }
  }

  /** `ShareSum` over all budgets is the sum of the allocation. */
  lemma {:induction false} ShareSumIsAllocation(total: nat, b: seq<nat>, sum: nat, k: nat)
    requires sum > 0 && k <= |b|
    ensures ShareSum(total, b[..k], sum) == Sum(seq(k, i requires 0 <= i < k => Share(total, b[i], sum)))
  {
    if k > 0 {
      ShareSumIsAllocation(total, b, sum, k - 1);
      assert b[..k][..k - 1] == b[..k - 1];
      var all := seq(k, i requires 0 <= i < k => Share(total, b[i], sum));
      assert all[..k - 1] == seq(k - 1, i requires 0 <= i < k - 1 => Share(total, b[i], sum));
    }
  }

  /**
   * The new budgets need not add up to the new total, but rounding drifts
   * by at most half a unit per platform: `-n < 2 * (Σ new - total) <= n`.
   */
  lemma AllocateDrift(total: nat, b: seq<nat>)
    requires Sum(b) > 0
    ensures -|b| < 2 * (Sum(Allocate(total, b)) - total) <= |b|
  {
    var s, n := Sum(b), |b|;
    ShareSumDrift(total, b, s);
    AllocationIsShareSum(total, b);
    ScaledBound(s, n, Sum(Allocate(total, b)), total);
  }

  /** The sum of the new budgets is `ShareSum` over all of them. */
  lemma AllocationIsShareSum(total: nat, b: seq<nat>)
    requires Sum(b) > 0
    ensures Sum(Allocate(total, b)) == ShareSum(total, b, Sum(b))
  {
    var s, n := Sum(b), |b|;
    ShareSumIsAllocation(total, b, s, n);
    assert b[..n] == b;
    assert seq(n, i requires 0 <= i < n => Share(total, b[i], s)) == Allocate(total, b);
  }

  /** Dividing the scaled drift bound by `sum`. */
  lemma ScaledBound(sum: int, n: int, t: int, total: int)
    requires sum > 0
    requires -(n * sum) < 2 * sum * t - 2 * total * sum <= n * sum
    ensures -n < 2 * (t - total) <= n
  {
    var d := t - total;
    assert 2 * sum * t - 2 * total * sum == sum * (2 * d);
    if 2 * d > n {
      MulMonotone(sum, n + 1, 2 * d);
      MulDistributes(sum, n, 1);
    }
    if 2 * d <= -n {
      MulMonotone(sum, 2 * d, -n);
    }
  }

  /** An example: 1000/1000/1050 scaled to 6100 becomes 2000/2000/2100. */
  lemma DoublingExample()
    ensures Allocate(6100, [1000, 1000, 1050]) == [2000, 2000, 2100]
  {
    var b: seq<nat> := [1000, 1000, 1050];
    assert Sum(b) == 3050 by {
      assert b[..2] == [1000, 1000];
      assert b[..2][..1] == [1000];
      assert [1000][..0] == [];
    }
  }

  // ---------------------------------------------------------------------------
  // What the allocator saves

  /** Failing storage is left as it was. */
  lemma {:induction false} SaveBudgetsFailing(items: map<string, Value>, platforms: seq<string>, amounts: seq<nat>)
    requires |platforms| == |amounts|
    ensures SaveBudgets(items, true, platforms, amounts) == items
  {
    if platforms != [] {
      var n := |platforms| - 1;
      SaveBudgetsFailing(items, platforms[..n], amounts[..n]);
    }
  }

  /** With distinct platforms, each platform's key reads back its own new budget. */
  lemma {:induction false} SaveBudgetsReads(items: map<string, Value>, platforms: seq<string>, amounts: seq<nat>, i: nat)
    requires |platforms| == |amounts| && i < |platforms|
    requires forall j, k :: 0 <= j < k < |platforms| ==> platforms[j] != platforms[k]
    ensures Read(SaveBudgets(items, false, platforms, amounts), false, BudgetKey(platforms[i])) == Num(amounts[i])
  {
    var n := |platforms| - 1;
    var before := SaveBudgets(items, false, platforms[..n], amounts[..n]);
    if i == n {
      ReadAfterWrite(before, BudgetKey(platforms[n]), Num(amounts[n]));
    } else {
      SaveBudgetsReads(items, platforms[..n], amounts[..n], i);
      BudgetKeyInjective(platforms[n], platforms[i]);
      ReadOtherAfterWrite(before, false, BudgetKey(platforms[n]), BudgetKey(platforms[i]), Num(amounts[n]));
    }
  }

  /** No storage key other than the platforms' budget keys is written. */
  lemma {:induction false} SaveBudgetsOtherKeys(items: map<string, Value>, failing: bool, platforms: seq<string>, amounts: seq<nat>, k: string)
    requires |platforms| == |amounts|
    requires forall j :: 0 <= j < |platforms| ==> k != StorageKey(BudgetKey(platforms[j]))
    ensures k in SaveBudgets(items, failing, platforms, amounts) <==> k in items
    ensures k in items ==> SaveBudgets(items, failing, platforms, amounts)[k] == items[k]
  {
    if platforms != [] {
      var n := |platforms| - 1;
      SaveBudgetsOtherKeys(items, failing, platforms[..n], amounts[..n], k);
    }
  }

  // ---------------------------------------------------------------------------
  // The source's arithmetic

  /** `sumPercentages`: the first loop of the source, `Σ budget / 3050`. */
  method SumPercentages(budgets: array<nat>) returns (sum: real)
    ensures sum == Sum(budgets[..]) as real / ORIGINAL_TOTAL
  {
    sum := 0.0;
    for i := 0 to budgets.Length
      invariant sum == Sum(budgets[..i]) as real / ORIGINAL_TOTAL
    {
      assert budgets[..i + 1][..i] == budgets[..i];
      sum := sum + budgets[i] as real / ORIGINAL_TOTAL;
    }
    assert budgets[..budgets.Length] == budgets[..];
  }

  /** Cancelling a non-zero factor on reals. */
  lemma CancelFactor(a: real, b: real, k: real)
    requires k != 0.0 && a * k == b * k
    ensures a == b
  {
    assert a == (a * k) / k;
    assert b == (b * k) / k;
  }

  /** A proper fraction lies in [0, 1). */
  lemma ProperFraction(num: int, den: int)
    requires 0 <= num < den
    ensures 0.0 <= num as real / den as real < 1.0
  {
    var x := num as real / den as real;
    assert x * den as real == num as real;
  }

  /** `n / d + 1/2 == (2n + d) / 2d` on reals. */
  lemma AddHalf(n: int, d: int)
    requires d > 0
    ensures n as real / d as real + 0.5 == (2 * n + d) as real / (2 * d) as real
  {
    var dd := d as real;
    var k := 2.0 * dd;
    assert (2 * d) as real == k;
    assert (2 * n + d) as real == 2.0 * n as real + dd;
    var x := n as real / dd;
    var y := (2 * n + d) as real / k;
    assert x * dd == n as real;
    assert y * k == 2.0 * n as real + dd;
    assert x * k == 2.0 * (x * dd);
    assert (x + 0.5) * k == x * k + dd;
    CancelFactor(x + 0.5, y, k);
  }

  /** Integer division with remainder, read on reals: `m / k == q + rem / k`. */
  lemma QuotientAndFraction(m: int, k: int, q: int, rem: int)
    requires k > 0 && m == k * q + rem
    ensures m as real / k as real == q as real + rem as real / k as real
  {
    var kk := k as real;
    var y := m as real / kk;
    var f := rem as real / kk;
    assert y * kk == m as real;
    assert f * kk == rem as real;
    assert (k * q) as real == kk * q as real;
    assert (q as real + f) * kk == kk * q as real + f * kk;
    CancelFactor(y, q as real + f, kk);
  }

  /** `Math.round(n / d)` for integers equals the integer half-up quotient. */
  lemma RoundRatio(n: int, d: int)
    requires d > 0
    ensures Round(n as real / d as real) == (2 * n + d) / (2 * d)
  {
    var q := (2 * n + d) / (2 * d);
    var rem := (2 * n + d) % (2 * d);
    AddHalf(n, d);
    QuotientAndFraction(2 * n + d, 2 * d, q, rem);
    ProperFraction(rem, 2 * d);
  }

  /** `total * ((b / 3050) / (sum / 3050))` is `total * b / sum`. */
  lemma RatioOfQuotients(total: nat, current: nat, sum: nat)
    requires sum > 0
    ensures (sum as real / ORIGINAL_TOTAL) != 0.0
    ensures total as real * ((current as real / ORIGINAL_TOTAL) / (sum as real / ORIGINAL_TOTAL))
            == (total * current) as real / sum as real
  {
    var ss := sum as real;
    var s := ss / ORIGINAL_TOTAL;
    var c := current as real / ORIGINAL_TOTAL;
    assert s * ORIGINAL_TOTAL == ss;
    assert c * ORIGINAL_TOTAL == current as real;
    var lhs := total as real * (c / s);
    var rhs := (total * current) as real / ss;
    assert (c / s) * s == c;
    assert rhs * ss == (total * current) as real;
    assert (total * current) as real == total as real * current as real;
    assert lhs * ss == total as real * ((c / s) * s) * ORIGINAL_TOTAL;
    CancelFactor(lhs, rhs, ss);
  }

  /**
   * One card's new budget as the source computes it: its budget over 3050,
   * divided by the sum of those quotients, times the total, rounded.
   */
  function NewBudget(total: nat, current: nat, sumPercentages: real): int
    requires sumPercentages != 0.0
  {
    var percentage := (current as real / ORIGINAL_TOTAL) / sumPercentages;
    Round(total as real * percentage)
  }

  /**
   * The divisor 3050 cancels: the source's `Math.round(total * ((b / 3050) /
   * (sum / 3050)))` equals `Share(total, b, sum)`.
   */
  lemma DivisorCancels(total: nat, current: nat, sum: nat)
    requires sum > 0
    ensures (sum as real / ORIGINAL_TOTAL) != 0.0
    ensures NewBudget(total, current, sum as real / ORIGINAL_TOTAL) == Share(total, current, sum)
  {
    var n := total * current;
    RatioOfQuotients(total, current, sum);
    RoundRatio(n, sum);
    assert NewBudget(total, current, sum as real / ORIGINAL_TOTAL) == Round(n as real / sum as real);
    assert 2 * n == 2 * total * current;
  }

  /**
   * `updatePlatformBudgets(total)`: overwrites every card's budget with its
   * share of `total` and saves each under `<platform>Budget`.
   */
  method UpdatePlatformBudgets(total: nat, platforms: seq<string>, budgets: array<nat>, store: Store)
    requires budgets.Length == |platforms|
    requires budgets.Length == 0 || Sum(budgets[..]) > 0
    modifies budgets, store`items
    ensures budgets.Length > 0 ==> budgets[..] == Allocate(total, old(budgets[..]))
    ensures store.items == SaveBudgets(old(store.items), store.failing, platforms, budgets[..])
  {
    var sumPercentages := SumPercentages(budgets);
    ghost var before := budgets[..];
    ghost var sum := Sum(before);
    ghost var after: seq<nat> := if budgets.Length == 0 then [] else Allocate(total, before);
    var i := 0;
    while i < budgets.Length
      invariant 0 <= i <= budgets.Length
      invariant budgets[..i] == after[..i]
      invariant forall j :: i <= j < budgets.Length ==> budgets[j] == before[j]
      invariant store.items == SaveBudgets(old(store.items), store.failing, platforms[..i], after[..i])
    {
      var current := budgets[i];
      assert sum > 0 && after[i] == Share(total, current, sum);
      DivisorCancels(total, current, sum);
      var newBudget := NewBudget(total, current, sumPercentages);
      assert newBudget == after[i];
      budgets[i] := newBudget;
      store.Save(BudgetKey(platforms[i]), Num(newBudget));
      assert platforms[..i + 1][..i] == platforms[..i];
      assert after[..i + 1][..i] == after[..i];
      i := i + 1;
    }
    assert platforms[..i] == platforms;
    assert budgets[..] == budgets[..i] == after[..i] == after;
  }
}
