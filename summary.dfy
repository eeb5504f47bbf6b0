/** The summary figures of the dashboard: the cash balance and the spending
    rate, both derived from the three totals on every read. */
module Summary {
  import opened Entries

  /** `totalIncome - totalExpenses - totalSavings`; signed, never clamped. */
  function CashBalance(income: seq<Entry>, expenses: seq<Entry>, savings: seq<Entry>): int {
    Total(income) - Total(expenses) - Total(savings)
  }

  /** `p` is `x = num / den` rounded as `Math.round` rounds: to the nearest
      integer, halves upwards, that is `p - 1/2 <= x < p + 1/2`. */
  ghost predicate RoundsHalfUp(num: int, den: int, p: int)
    requires den > 0
  {
    2 * den * p - den <= 2 * num < 2 * den * p + den
  }

  /** `totalIncome > 0 ? Math.round((totalExpenses / totalIncome) * 100) : 0`,
      on exact amounts. */
  function SpendingPercentage(totalIncome: int, totalExpenses: int): (p: int)
    ensures totalIncome <= 0 ==> p == 0
    ensures totalIncome > 0 ==> RoundsHalfUp(100 * totalExpenses, totalIncome, p)
  {
    if totalIncome > 0 then
      var p := (200 * totalExpenses + totalIncome) / (2 * totalIncome);
      assert 2 * totalIncome * p <= 200 * totalExpenses + totalIncome < 2 * totalIncome * p + 2 * totalIncome;
      p
    else 0
  }

  /** Cancelling a positive factor from a strict inequality of products. */
  lemma CancelFactor(a: int, b: int, d: int)
    requires d > 0 && a * d < b * d
    ensures a < b
  {
  }

  /** At most one integer is the rounded value of a ratio, so the contract of
      SpendingPercentage determines its result. */
  lemma RoundingIsUnique(num: int, den: int, p: int, q: int)
    requires den > 0 && RoundsHalfUp(num, den, p) && RoundsHalfUp(num, den, q)
    ensures p == q
  {
    assert p * (2 * den) < (q + 1) * (2 * den);
    CancelFactor(p, q + 1, 2 * den);
    assert q * (2 * den) < (p + 1) * (2 * den);
    CancelFactor(q, p + 1, 2 * den);
  }

  /** A ratio between 0 and 1, scaled by 100, rounds to a value between 0
      and 100. */
  lemma RoundedPercentBounds(num: int, den: int, p: int)
    requires den > 0 && 0 <= num <= 100 * den && RoundsHalfUp(num, den, p)
    ensures 0 <= p <= 100
  {
    var m := 2 * den;
    assert (-1) * m < (p + 1) * m;
    CancelFactor(-1, p + 1, m);
    assert p * m < 101 * m;
    CancelFactor(p, 101, m);
  }

  /** Spending no more than the income gives a rate between 0 and 100. */
  lemma SpendingPercentageBounds(totalIncome: int, totalExpenses: int)
    requires 0 <= totalExpenses <= totalIncome
    ensures 0 <= SpendingPercentage(totalIncome, totalExpenses) <= 100
  {
    if totalIncome > 0 {
      RoundedPercentBounds(100 * totalExpenses, totalIncome, SpendingPercentage(totalIncome, totalExpenses));
    }
  }

  /** Each appended entry moves the balance by its amount: up for income,
      down for an expense or a saving. All-empty collections balance to 0. */
  lemma {:induction false} CashBalanceAfterAppend(income: seq<Entry>, expenses: seq<Entry>, savings: seq<Entry>, e: Entry)
    ensures CashBalance(income + [e], expenses, savings) == CashBalance(income, expenses, savings) + e.amount
    ensures CashBalance(income, expenses + [e], savings) == CashBalance(income, expenses, savings) - e.amount
    ensures CashBalance(income, expenses, savings + [e]) == CashBalance(income, expenses, savings) - e.amount
    ensures CashBalance([], [], []) == 0
  {
  }
}
