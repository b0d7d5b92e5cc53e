/**
 * The margin formula every tool uses: gross profit over revenue, times 100,
 * with `NULLIF(revenue, 0)` turning a zero denominator into NULL instead of
 * a division error. Percentages are exact reals; the engine's rounding to
 * two decimals is not modelled.
 */
module Margin {
  import opened Wrappers
  import opened Facts

  /** `gp / NULLIF(revenue, 0) * 100`: `None` stands for SQL NULL. */
  function MarginPct(revenue: int, grossProfit: int): (m: Option<real>)
    ensures m.None? <==> revenue == 0
    ensures m.Some? ==> m.value * revenue as real == 100.0 * grossProfit as real
  {
    if revenue == 0 then None else Some(grossProfit as real / revenue as real * 100.0)
  }

  /**
   * A positive revenue with a gross profit between zero and the revenue
   * (no negative cost, no loss) gives a margin between 0 and 100 percent.
   */
  lemma MarginBounds(revenue: int, grossProfit: int)
    requires revenue > 0 && 0 <= grossProfit <= revenue
    ensures MarginPct(revenue, grossProfit).Some?
    ensures 0.0 <= MarginPct(revenue, grossProfit).value <= 100.0
  {
    var m := MarginPct(revenue, grossProfit).value;
    assert m * revenue as real == 100.0 * grossProfit as real;
  }

  /** The margin has the sign of the gross profit when revenue is positive. */
  lemma MarginSign(revenue: int, grossProfit: int)
    requires revenue > 0
    ensures MarginPct(revenue, grossProfit).value < 0.0 <==> grossProfit < 0
  {
    var m := MarginPct(revenue, grossProfit).value;
    assert m * revenue as real == 100.0 * grossProfit as real;
  }

  /** Over one denominator, the margins of two parts of the gross profit add up. */
  lemma MarginAdditive(revenue: int, a: int, b: int)
    requires revenue != 0
    ensures MarginPct(revenue, a + b).value == MarginPct(revenue, a).value + MarginPct(revenue, b).value
  {
    var t := revenue as real;
    assert (a + b) as real / t == a as real / t + b as real / t;
  }

  /** A gross profit split in two parts: over one revenue, its margin is the sum of theirs. */
  lemma DragSplit(revenue: int, grossProfit: int, part: int, rest: int)
    requires grossProfit == part + rest
    ensures MarginPct(revenue, part).None? <==> revenue == 0
    ensures MarginPct(revenue, part).Some? ==>
              MarginPct(revenue, grossProfit).value == MarginPct(revenue, part).value + MarginPct(revenue, rest).value
  {
    if revenue != 0 {
      MarginAdditive(revenue, part, rest);
    }
  }

  /** BLENDED_MARGIN_PCT: all lines of the group. */
  function BlendedMarginPct(rows: seq<FactRow>): Option<real>
  {
    MarginPct(Sum(rows, Sales), Sum(rows, GrossProfit))
  }

  /** CORE_MARGIN_PCT: both sums masked to core lines with `CASE WHEN ... ELSE 0`. */
  function CoreMarginPct(rows: seq<FactRow>): Option<real>
  {
    MarginPct(Sum(rows, Masked(IsCore, Sales)), Sum(rows, Masked(IsCore, GrossProfit)))
  }

  /**
   * TFA_DRAG_PP: the TFA lines' gross profit over the revenue of ALL lines
   * of the group, the points of margin the tool placements cost.
   */
  function TfaDragPp(rows: seq<FactRow>): Option<real>
  {
    MarginPct(Sum(rows, Sales), Sum(rows, Masked(IsTfa, GrossProfit)))
  }

  /** The masked core margin is the plain margin of the core lines alone. */
  lemma CoreMarginOfCoreLines(rows: seq<FactRow>)
    ensures CoreMarginPct(rows) == BlendedMarginPct(Filter(rows, IsCore))
  {
    MaskedSum(rows, IsCore, Sales);
    MaskedSum(rows, IsCore, GrossProfit);
  }

  /**
   * The drag is measured against total revenue: it is NULL exactly when the
   * whole group has no revenue, whatever the TFA lines' own revenue, and it
   * is the TFA share of the blended margin: blended = drag + the margin the
   * remaining lines contribute over the same total.
   */
  lemma TfaDragDecomposition(rows: seq<FactRow>)
    ensures TfaDragPp(rows).None? <==> Sum(rows, Sales) == 0
    ensures TfaDragPp(rows).Some? ==>
              BlendedMarginPct(rows).value
              == TfaDragPp(rows).value + MarginPct(Sum(rows, Sales), Sum(Filter(rows, Negate(IsTfa)), GrossProfit)).value
  {
    var total := Sum(rows, Sales);
    var tfa := Sum(Filter(rows, IsTfa), GrossProfit);
    var rest := Sum(Filter(rows, Negate(IsTfa)), GrossProfit);
    MaskedSum(rows, IsTfa, GrossProfit);
    SumSplit(rows, IsTfa, GrossProfit);
    DragSplit(total, Sum(rows, GrossProfit), tfa, rest);
  }

  const ExampleCore := FactRow("2025-06", "ACME", "TX", "FASTENERS", false, false, false, 950, 700)
  const ExampleTfa := FactRow("2025-06", "ACME", "TX", "FASTENER TOOLS", true, false, false, 50, 100)

  /**
   * Revenue of 1000 in total, of which the TFA line brings 50 at a gross
   * profit of -50: the drag is -5 points (against the total, not -100
   * against the TFA revenue), the blended margin is 20 percent.
   */
  lemma TfaDragExample()
    ensures TfaDragPp([ExampleCore, ExampleTfa]) == Some(-5.0)
    ensures BlendedMarginPct([ExampleCore, ExampleTfa]) == Some(20.0)
  {
    var rows := [ExampleCore, ExampleTfa];
    assert rows[1..] == [ExampleTfa];
    assert Sum(rows, Sales) == 1000 by {
      assert Sum([ExampleTfa], Sales) == 50 + Sum([], Sales);
    }
    assert Sum(rows, GrossProfit) == 200 by {
      assert Sum([ExampleTfa], GrossProfit) == -50 + Sum([], GrossProfit);
    }
    assert Sum(rows, Masked(IsTfa, GrossProfit)) == -50 by {
      assert Sum([ExampleTfa], Masked(IsTfa, GrossProfit)) == -50 + Sum([], Masked(IsTfa, GrossProfit));
    }
  }
}
