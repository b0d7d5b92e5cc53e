/**
 * The fact table FSI_MARGIN_BASE_MAT and the SQL aggregation the tools run
 * over it: filtering (WHERE), summing (SUM) and grouping (GROUP BY).
 */
module Facts {

  /**
   * One line of the fact table. Amounts are whole currency units; gross
   * profit is always derived from them, never stored.
   */
  datatype FactRow = FactRow(
    period: string,       // PERIOD_MONTH, "YYYY-MM"
    parent: string,       // PARENTNAME, the customer
    region: string,       // PRICE_BRANCH_REGION
    glCode: string,       // GL_CODE, the cost category
    isTfa: bool,          // IS_TFA
    isService: bool,      // IS_SERVICE
    isCrossover: bool,    // IS_PERIOD_CROSSOVER
    sales: int,           // SALES_AMT
    cogs: int)            // COGS_AMT

  function Sales(r: FactRow): int { r.sales }
  function Cogs(r: FactRow): int { r.cogs }

  /** SALES_AMT - COGS_AMT. */
  function GrossProfit(r: FactRow): int { r.sales - r.cogs }

  /** A core line: not TFA, not service, not a period crossover. */
  predicate IsCore(r: FactRow) { !r.isTfa && !r.isService && !r.isCrossover }

  predicate IsTfa(r: FactRow) { r.isTfa }

  /** The lines a WHERE condition keeps, in their original order. */
  function Filter(rows: seq<FactRow>, keep: FactRow -> bool): (kept: seq<FactRow>)
    ensures |kept| <= |rows|
    ensures forall r :: r in kept <==> r in rows && keep(r)
    ensures forall r :: multiset(kept)[r] == if keep(r) then multiset(rows)[r] else 0
  {
    if rows == [] then []
    else
      var head := if keep(rows[0]) then [rows[0]] else [];
      var tail := Filter(rows[1..], keep);
      assert rows == [rows[0]] + rows[1..];
      assert multiset(rows) == multiset([rows[0]]) + multiset(rows[1..]);
      assert multiset(head + tail) == multiset(head) + multiset(tail);
      head + tail
  }

  /** SUM(amount) over the given lines; 0 over none (the tools coalesce the empty sum to 0). */
  function Sum(rows: seq<FactRow>, amount: FactRow -> int): int
  {
    if rows == [] then 0 else amount(rows[0]) + Sum(rows[1..], amount)
  }

  /** `CASE WHEN keep THEN amount ELSE 0 END`. */
  function Masked(keep: FactRow -> bool, amount: FactRow -> int): FactRow -> int
  {
    r => if keep(r) then amount(r) else 0
  }

  lemma {:induction false} SumAppend(a: seq<FactRow>, b: seq<FactRow>, amount: FactRow -> int)
    ensures Sum(a + b, amount) == Sum(a, amount) + Sum(b, amount)
  {
    if a == [] {
      assert a + b == b;
    } else {
      assert (a + b)[1..] == a[1..] + b;
      SumAppend(a[1..], b, amount);
    }
  }

  /** SUM(SALES_AMT - COGS_AMT) = SUM(SALES_AMT) - SUM(COGS_AMT). */
  lemma {:induction false} GrossProfitSum(rows: seq<FactRow>)
    ensures Sum(rows, GrossProfit) == Sum(rows, Sales) - Sum(rows, Cogs)
  {
    if rows != [] {
      GrossProfitSum(rows[1..]);
    }
  }

  /** Summing a CASE-masked amount is summing the amount over the kept lines. */
  lemma {:induction false} MaskedSum(rows: seq<FactRow>, keep: FactRow -> bool, amount: FactRow -> int)
    ensures Sum(rows, Masked(keep, amount)) == Sum(Filter(rows, keep), amount)
  {
    if rows != [] {
      MaskedSum(rows[1..], keep, amount);
      var head := if keep(rows[0]) then [rows[0]] else [];
      SumAppend(head, Filter(rows[1..], keep), amount);
      if keep(rows[0]) {
        assert Sum(head, amount) == amount(rows[0]) + Sum([], amount);
      }
    }
  }

  function Negate(keep: FactRow -> bool): FactRow -> bool
  {
    r => !keep(r)
  }

  /** Every line is either kept or not: the two sums add up to the whole. */
  lemma {:induction false} SumSplit(rows: seq<FactRow>, keep: FactRow -> bool, amount: FactRow -> int)
    ensures Sum(rows, amount) == Sum(Filter(rows, keep), amount) + Sum(Filter(rows, Negate(keep)), amount)
  {
    if rows != [] {
      SumSplit(rows[1..], keep, amount);
      var r := rows[0];
      var one := [r];
      assert Sum(one, amount) == amount(r) + Sum([], amount);
      SumAppend(if keep(r) then one else [], Filter(rows[1..], keep), amount);
      SumAppend(if !keep(r) then one else [], Filter(rows[1..], Negate(keep)), amount);
    }
  }

  /** The lines of one group: kept by the WHERE condition and carrying key `k`. */
  function InGroup<K(==)>(keep: FactRow -> bool, key: FactRow -> K, k: K): FactRow -> bool
  {
    r => keep(r) && key(r) == k
  }

  /**
   * `SELECT key, SUM(amount) ... WHERE keep GROUP BY key`: one entry per key
   * that at least one kept line carries.
   */
  function GroupSum<K(==)>(rows: seq<FactRow>, keep: FactRow -> bool, key: FactRow -> K, amount: FactRow -> int)
    : map<K, int>
  {
    if rows == [] then map[]
    else
      var rest := GroupSum(rows[1..], keep, key, amount);
      var r := rows[0];
      if keep(r) then
        rest[key(r) := amount(r) + (if key(r) in rest then rest[key(r)] else 0)]
      else rest
  }

  /**
   * The grouped sums agree with summing each group directly: a key has an
   * entry exactly when some kept line carries it, and its entry is the sum
   * over those lines.
   */
  lemma {:induction false} GroupSumSpec<K>(
    rows: seq<FactRow>, keep: FactRow -> bool, key: FactRow -> K, amount: FactRow -> int, k: K)
    ensures k in GroupSum(rows, keep, key, amount) <==> Filter(rows, InGroup(keep, key, k)) != []
    ensures k in GroupSum(rows, keep, key, amount) ==>
              GroupSum(rows, keep, key, amount)[k] == Sum(Filter(rows, InGroup(keep, key, k)), amount)
  {
    if rows != [] {
      GroupSumSpec(rows[1..], keep, key, amount, k);
      var r := rows[0];
      var tail := Filter(rows[1..], InGroup(keep, key, k));
      if InGroup(keep, key, k)(r) {
        assert Filter(rows, InGroup(keep, key, k)) == [r] + tail;
        assert Sum([r] + tail, amount) == amount(r) + Sum(tail, amount);
      } else {
        assert Filter(rows, InGroup(keep, key, k)) == [] + tail == tail;
        assert k in GroupSum(rows, keep, key, amount) <==> k in GroupSum(rows[1..], keep, key, amount);
      }
    }
  }
}
