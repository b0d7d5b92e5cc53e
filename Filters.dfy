/**
 * The WHERE-clause builders of `get_top_customers` and
 * `get_product_performance`: two lists grown side by side, the predicate
 * fragments and the positional parameters, then the fragments joined with
 * " AND " and one `LIMIT %s` with the clamped limit appended.
 */
module Filters {
  import opened Wrappers
  import opened Sql
  import opened Clamp

  // The fixed predicate fragments. Whitespace inside the source's multi-line
  // fragments is normalised to single spaces.
  const NotTfa: Template := [Text("NOT IS_TFA")]
  const NotService: Template := [Text("NOT IS_SERVICE")]
  const NotCrossover: Template := [Text("NOT IS_PERIOD_CROSSOVER")]
  const PositiveSales: Template := [Text("SALES_AMT > 0")]
  /** The explicit period, bound as a value. */
  const PeriodEquals: Template := [Text("PERIOD_MONTH = "), Slot]
  /** The default period: the current period of the REPORT_CONTROL singleton, looked up in the statement. */
  const CurrentPeriod: Template :=
    [Text("PERIOD_MONTH = ( SELECT CURRENT_PERIOD FROM NETSUITE.FINANCIALS.REPORT_CONTROL )")]
  const RegionEquals: Template := [Text("UPPER(PRICE_BRANCH_REGION) = UPPER("), Slot, Text(")")]
  const ChannelEquals: Template := [Text("UPPER(CUSTOMER_TYPE) = UPPER("), Slot, Text(")")]
  /** Case-insensitive containment in item code, item name or item group: three placeholders. */
  const ProductMatch: Template :=
    [Text("(UPPER(ITEM_SN2) LIKE UPPER("), Slot,
     Text(") OR UPPER(ITEM_NAME) LIKE UPPER("), Slot,
     Text(") OR UPPER(MASTER2) LIKE UPPER("), Slot, Text("))")]
  const Conjunction: Template := [Text(" AND ")]

  /** The three exclusions every core query applies, whatever the caller passes. */
  const CoreExclusions: seq<Template> := [NotTfa, NotService, NotCrossover]

  const TopCustomersSelect :=
    "SELECT PARENTNAME, CUSTOMER_TYPE, CUSTOMER_SUBTYPE, CUSTOMER_TIER, PRICE_BRANCH_REGION AS REGION, "
    + "SUM(SALES_AMT) AS REVENUE, SUM(COGS_AMT) AS COGS, SUM(SALES_AMT - COGS_AMT) AS GP, "
    + "ROUND(SUM(SALES_AMT - COGS_AMT) / NULLIF(SUM(SALES_AMT), 0) * 100, 2) AS MARGIN_PCT, "
    + "COUNT(DISTINCT ITEM_SN2) AS DISTINCT_PRODUCTS "
    + "FROM NETSUITE.FINANCIALS.FSI_MARGIN_BASE_MAT WHERE "
  const TopCustomersOrder := " GROUP BY 1, 2, 3, 4, 5 ORDER BY SUM(SALES_AMT) DESC LIMIT "

  const ProductSelect :=
    "SELECT ITEM_SN2, ITEM_NAME, MASTER2, GL_CODE, "
    + "SUM(SALES_AMT) AS REVENUE, SUM(COGS_AMT) AS COGS, SUM(SALES_AMT - COGS_AMT) AS GP, "
    + "ROUND(SUM(SALES_AMT - COGS_AMT) / NULLIF(SUM(SALES_AMT), 0) * 100, 2) AS MARGIN_PCT, "
    + "SUM(SALES_QTY) AS TOTAL_QTY, COUNT(DISTINCT PARENTNAME) AS CUSTOMER_COUNT "
    + "FROM NETSUITE.FINANCIALS.FSI_MARGIN_BASE_MAT WHERE "
  const ProductOrder := " GROUP BY 1, 2, 3, 4 ORDER BY SUM(SALES_AMT) DESC LIMIT "

  /** Python truthiness of an optional string argument: neither `None` nor empty. */
  predicate Truthy(o: Option<string>)
  {
    o.Some? && o.value != ""
  }

  /** The bound value for an optional equality filter: present only when the argument is truthy. */
  function OptionalArg(o: Option<string>): (vs: seq<Value>)
    ensures |vs| <= 1
    ensures vs != [] <==> Truthy(o)
    ensures vs != [] ==> vs[0] == Str(o.value)
  {
    if Truthy(o) then [Str(o.value)] else []
  }

  /** `f"%{text}%"`: the search text with a LIKE wildcard on each side. */
  function Wildcard(text: string): (w: string)
    ensures |w| == |text| + 2
    ensures w[0] == '%' && w[|w| - 1] == '%'
    ensures w[1..|w| - 1] == text
  {
    "%" + text + "%"
  }

  /** A statement whose filter is `whereSql`, ending in `LIMIT %s`. */
  function LimitedStatement(select: string, whereSql: Template, order: string): Template
  {
    [Text(select)] + (whereSql + [Text(order), Slot])
  }

  function Exclusions(): seq<Clause>
  {
    [Clause(NotTfa, []), Clause(NotService, []), Clause(NotCrossover, [])]
  }

  /** The period filter: the given period bound as a value, or the configured current period. */
  function PeriodClause(periodMonth: Option<string>): Clause
  {
    if Truthy(periodMonth) then Clause(PeriodEquals, [Str(periodMonth.value)])
    else Clause(CurrentPeriod, [])
  }

  function OptionalClause(o: Option<string>, fragment: Template): seq<Clause>
  {
    if Truthy(o) then [Clause(fragment, [Str(o.value)])] else []
  }

  /** The search pattern, bound once for each of the three searched columns. */
  function SearchArgs(productSearch: Option<string>): (vs: seq<Value>)
    ensures |vs| == if Truthy(productSearch) then 3 else 0
    ensures forall i :: 0 <= i < |vs| ==> vs[i] == Str(Wildcard(productSearch.value))
  {
    if Truthy(productSearch) then
      var pattern := Str(Wildcard(productSearch.value));
      [pattern, pattern, pattern]
    else []
  }

  function SearchClause(productSearch: Option<string>): seq<Clause>
  {
    if Truthy(productSearch) then [Clause(ProductMatch, SearchArgs(productSearch))] else []
  }

  /** The fragment/value pairs `get_top_customers` builds, in the order it appends them. */
  function TopCustomerClauses(periodMonth: Option<string>, region: Option<string>, channel: Option<string>): seq<Clause>
  {
    Exclusions() + [PeriodClause(periodMonth)]
      + OptionalClause(region, RegionEquals) + OptionalClause(channel, ChannelEquals)
  }

  /** The fragment/value pairs `get_product_performance` builds, in the order it appends them. */
  function ProductClauses(productSearch: Option<string>, periodMonth: Option<string>): seq<Clause>
  {
    Exclusions() + [Clause(PositiveSales, [])] + [PeriodClause(periodMonth)] + SearchClause(productSearch)
  }

  /** Placeholders of the fragment constants. */
  lemma FragmentPlaceholders()
    ensures Placeholders(PeriodEquals) == 1
    ensures Placeholders(RegionEquals) == 1
    ensures Placeholders(ChannelEquals) == 1
    ensures Placeholders(ProductMatch) == 3
  {
  }

  /** Every clause `get_top_customers` builds has exactly one value per placeholder. */
  lemma TopCustomerClausesPaired(periodMonth: Option<string>, region: Option<string>, channel: Option<string>)
    ensures forall i :: 0 <= i < |TopCustomerClauses(periodMonth, region, channel)| ==>
              Paired(TopCustomerClauses(periodMonth, region, channel)[i])
  {
    FragmentPlaceholders();
  }

  /** Every clause `get_product_performance` builds has exactly one value per placeholder. */
  lemma ProductClausesPaired(productSearch: Option<string>, periodMonth: Option<string>)
    ensures forall i :: 0 <= i < |ProductClauses(productSearch, periodMonth)| ==>
              Paired(ProductClauses(productSearch, periodMonth)[i])
  {
    FragmentPlaceholders();
  }

  /**
   * Binding a LIMIT statement built from paired clauses: every clause gets
   * its own values and the last value fills `LIMIT %s`.
   */
  lemma LimitedBinding(select: string, cs: seq<Clause>, order: string, limit: int)
    requires forall i :: 0 <= i < |cs| ==> Paired(cs[i])
    ensures Bind(LimitedStatement(select, Join(Fragments(cs), Conjunction), order), Args(cs) + [Int(limit)])
         == Combine(Combine(Some([Code(select)]), BindClauses(cs, Conjunction)), Some([Code(order), Bound(Int(limit))]))
    ensures BindClauses(cs, Conjunction).Some?
  {
    BindJoin(cs, Conjunction);
    WrapBinding(select, Join(Fragments(cs), Conjunction), order, Args(cs), limit);
  }

  lemma WrapBinding(select: string, w: Template, order: string, xs: seq<Value>, limit: int)
    requires Placeholders(w) == |xs|
    ensures Bind(LimitedStatement(select, w, order), xs + [Int(limit)])
         == Combine(Combine(Some([Code(select)]), Bind(w, xs)), Some([Code(order), Bound(Int(limit))]))
  {
    var tail: Template := [Text(order), Slot];
    var args := xs + [Int(limit)];
    var head := Some([Code(select)]);
    var last := Some([Code(order), Bound(Int(limit))]);
    BindAppend(w, tail, xs, [Int(limit)]);
    BindLimit(order, limit);
    assert Bind(w + tail, args) == Combine(Bind(w, xs), last);
    BindAppend([Text(select)], w + tail, [], args);
    BindText(select);
    assert [] + args == args;
    assert Bind([Text(select)] + (w + tail), args) == Combine(head, Combine(Bind(w, xs), last));
    CombineAssociative(head, Bind(w, xs), last);
  }

  lemma BindLimit(order: string, limit: int)
    ensures Bind([Text(order), Slot], [Int(limit)]) == Some([Code(order), Bound(Int(limit))])
  {
    var t: Template := [Text(order), Slot];
    var args := [Int(limit)];
    assert t[1..] == [Slot] && t[1..][1..] == [];
    assert args[1..] == [];
    assert Bind([], []) == Some([]);
    assert [Bound(Int(limit))] + [] == [Bound(Int(limit))];
    assert Bind([Slot], args) == Some([Bound(Int(limit))]);
    assert [Code(order)] + [Bound(Int(limit))] == [Code(order), Bound(Int(limit))];
  }

  lemma ExclusionsUnbound()
    ensures Fragments(Exclusions()) == CoreExclusions
    ensures Args(Exclusions()) == []
  {
    var e := Exclusions();
    assert Args(e[2..]) == [];
    assert Args(e[1..]) == [] + Args(e[2..]);
  }

  lemma PeriodShape(periodMonth: Option<string>)
    ensures Fragments([PeriodClause(periodMonth)]) == [if Truthy(periodMonth) then PeriodEquals else CurrentPeriod]
    ensures Args([PeriodClause(periodMonth)]) == OptionalArg(periodMonth)
  {
    Single(PeriodClause(periodMonth));
  }

  lemma OptionalShape(o: Option<string>, fragment: Template)
    ensures Fragments(OptionalClause(o, fragment)) == if Truthy(o) then [fragment] else []
    ensures Args(OptionalClause(o, fragment)) == OptionalArg(o)
  {
    if Truthy(o) {
      Single(Clause(fragment, [Str(o.value)]));
    }
  }

  /** The clause list of `get_top_customers`, split into its fragments and its values. */
  lemma TopCustomerShape(periodMonth: Option<string>, region: Option<string>, channel: Option<string>)
    ensures Fragments(TopCustomerClauses(periodMonth, region, channel))
         == CoreExclusions + [if Truthy(periodMonth) then PeriodEquals else CurrentPeriod]
            + (if Truthy(region) then [RegionEquals] else []) + (if Truthy(channel) then [ChannelEquals] else [])
    ensures Args(TopCustomerClauses(periodMonth, region, channel))
         == OptionalArg(periodMonth) + OptionalArg(region) + OptionalArg(channel)
  {
    var e := Exclusions();
    var p := [PeriodClause(periodMonth)];
    var r := OptionalClause(region, RegionEquals);
    var c := OptionalClause(channel, ChannelEquals);
    var pf := if Truthy(periodMonth) then PeriodEquals else CurrentPeriod;
    var rf := if Truthy(region) then [RegionEquals] else [];
    var cf := if Truthy(channel) then [ChannelEquals] else [];
    ExclusionsUnbound();
    PeriodShape(periodMonth);
    ClausesAppend(e, p);
    assert Fragments(e + p) == CoreExclusions + [pf];
    assert Args(e + p) == OptionalArg(periodMonth);
    OptionalShape(region, RegionEquals);
    ClausesAppend(e + p, r);
    assert Fragments(e + p + r) == CoreExclusions + [pf] + rf;
    assert Args(e + p + r) == OptionalArg(periodMonth) + OptionalArg(region);
    OptionalShape(channel, ChannelEquals);
    ClausesAppend(e + p + r, c);
  }

  lemma SearchShape(productSearch: Option<string>)
    ensures Fragments(SearchClause(productSearch)) == if Truthy(productSearch) then [ProductMatch] else []
    ensures Args(SearchClause(productSearch)) == SearchArgs(productSearch)
  {
    if Truthy(productSearch) {
      Single(SearchClause(productSearch)[0]);
    }
  }

  /** The clause list of `get_product_performance`, split into its fragments and its values. */
  lemma ProductShape(productSearch: Option<string>, periodMonth: Option<string>)
    ensures Fragments(ProductClauses(productSearch, periodMonth))
         == CoreExclusions + [PositiveSales] + [if Truthy(periodMonth) then PeriodEquals else CurrentPeriod]
            + (if Truthy(productSearch) then [ProductMatch] else [])
    ensures Args(ProductClauses(productSearch, periodMonth))
         == OptionalArg(periodMonth) + SearchArgs(productSearch)
  {
    var e := Exclusions();
    var z := [Clause(PositiveSales, [])];
    var p := [PeriodClause(periodMonth)];
    var s := SearchClause(productSearch);
    var pf := if Truthy(periodMonth) then PeriodEquals else CurrentPeriod;
    ExclusionsUnbound();
    Single(z[0]);
    ClausesAppend(e, z);
    assert Fragments(e + z) == CoreExclusions + [PositiveSales];
    assert Args(e + z) == [];
    PeriodShape(periodMonth);
    ClausesAppend(e + z, p);
    assert Fragments(e + z + p) == CoreExclusions + [PositiveSales] + [pf];
    assert Args(e + z + p) == OptionalArg(periodMonth);
    SearchShape(productSearch);
    ClausesAppend(e + z + p, s);
  }

  /** The statement `get_top_customers` sends for a given clause list. */
  function TopCustomersStatement(cs: seq<Clause>): Template
  {
    LimitedStatement(TopCustomersSelect, Join(Fragments(cs), Conjunction), TopCustomersOrder)
  }

  /** The statement `get_product_performance` sends for a given clause list. */
  function ProductStatement(cs: seq<Clause>): Template
  {
    LimitedStatement(ProductSelect, Join(Fragments(cs), Conjunction), ProductOrder)
  }

  /**
   * Placeholder parity and order for `get_top_customers`, for every
   * combination of optional arguments: the statement has one placeholder
   * per value, binding succeeds, each optional value lands in the
   * placeholder of its own fragment, and the clamped limit fills `LIMIT %s`.
   */
  lemma TopCustomersBinding(periodMonth: Option<string>, region: Option<string>, channel: Option<string>, limit: Option<int>)
    ensures
      var cs := TopCustomerClauses(periodMonth, region, channel);
      var n := ClampCustomerLimit(Given(limit, DefaultLimit));
      && Placeholders(TopCustomersStatement(cs)) == |Args(cs)| + 1
      && BindClauses(cs, Conjunction).Some?
      && Bind(TopCustomersStatement(cs), Args(cs) + [Int(n)])
         == Some([Code(TopCustomersSelect)] + BindClauses(cs, Conjunction).value
                 + [Code(TopCustomersOrder), Bound(Int(n))])
  {
    var cs := TopCustomerClauses(periodMonth, region, channel);
    TopCustomerClausesPaired(periodMonth, region, channel);
    LimitedBinding(TopCustomersSelect, cs, TopCustomersOrder, ClampCustomerLimit(Given(limit, DefaultLimit)));
  }

  /**
   * Placeholder parity and order for `get_product_performance`: the search
   * pattern fills the three placeholders of the search fragment, after the
   * period value if any, and the clamped limit fills `LIMIT %s`.
   */
  lemma ProductBinding(productSearch: Option<string>, periodMonth: Option<string>, limit: Option<int>)
    ensures
      var cs := ProductClauses(productSearch, periodMonth);
      var n := ClampProductLimit(Given(limit, DefaultLimit));
      && Placeholders(ProductStatement(cs)) == |Args(cs)| + 1
      && BindClauses(cs, Conjunction).Some?
      && Bind(ProductStatement(cs), Args(cs) + [Int(n)])
         == Some([Code(ProductSelect)] + BindClauses(cs, Conjunction).value
                 + [Code(ProductOrder), Bound(Int(n))])
  {
    var cs := ProductClauses(productSearch, periodMonth);
    ProductClausesPaired(productSearch, periodMonth);
    LimitedBinding(ProductSelect, cs, ProductOrder, ClampProductLimit(Given(limit, DefaultLimit)));
  }

  /**
   * `get_top_customers`: the three exclusions, then the period filter (the
   * given period bound as a value, or the configured current period), then
   * region and channel when given; the values follow the same order and the
   * clamped limit (20 when left out) is bound last.
   */
  method TopCustomersQuery(periodMonth: Option<string>, region: Option<string>, channel: Option<string>, limit: Option<int>)
    returns (whereClauses: seq<Template>, params: seq<Value>, statement: Template)
    ensures whereClauses == CoreExclusions + [if Truthy(periodMonth) then PeriodEquals else CurrentPeriod]
                            + (if Truthy(region) then [RegionEquals] else [])
                            + (if Truthy(channel) then [ChannelEquals] else [])
    ensures params == OptionalArg(periodMonth) + OptionalArg(region) + OptionalArg(channel)
                      + [Int(ClampCustomerLimit(Given(limit, DefaultLimit)))]
    ensures whereClauses == Fragments(TopCustomerClauses(periodMonth, region, channel))
    ensures params == Args(TopCustomerClauses(periodMonth, region, channel))
                      + [Int(ClampCustomerLimit(Given(limit, DefaultLimit)))]
    ensures statement == LimitedStatement(TopCustomersSelect, Join(whereClauses, Conjunction), TopCustomersOrder)
  {
    var n := ClampCustomerLimit(Given(limit, DefaultLimit));
    whereClauses := CoreExclusions;
    params := [];

    if Truthy(periodMonth) {
      whereClauses := whereClauses + [PeriodEquals];
      params := params + [Str(periodMonth.value)];
    } else {
      whereClauses := whereClauses + [CurrentPeriod];
    }


    if Truthy(region) {
      whereClauses := whereClauses + [RegionEquals];
      params := params + [Str(region.value)];
    }

    if Truthy(channel) {
      whereClauses := whereClauses + [ChannelEquals];
      params := params + [Str(channel.value)];
    }

    params := params + [Int(n)];
    var whereSql := Join(whereClauses, Conjunction);
    statement := LimitedStatement(TopCustomersSelect, whereSql, TopCustomersOrder);
    TopCustomerShape(periodMonth, region, channel);
  }

  /**
   * `get_product_performance`: the three exclusions and `SALES_AMT > 0`, then
   * the period filter, then the search fragment when a search text is given,
   * whose wildcarded pattern is bound three times; the clamped limit (20 when
   * left out) is bound last.
   */
  method ProductQuery(productSearch: Option<string>, periodMonth: Option<string>, limit: Option<int>)
    returns (whereClauses: seq<Template>, params: seq<Value>, statement: Template)
    ensures whereClauses == CoreExclusions + [PositiveSales]
                            + [if Truthy(periodMonth) then PeriodEquals else CurrentPeriod]
                            + (if Truthy(productSearch) then [ProductMatch] else [])
    ensures params == OptionalArg(periodMonth) + SearchArgs(productSearch)
                      + [Int(ClampProductLimit(Given(limit, DefaultLimit)))]
    ensures whereClauses == Fragments(ProductClauses(productSearch, periodMonth))
    ensures params == Args(ProductClauses(productSearch, periodMonth))
                      + [Int(ClampProductLimit(Given(limit, DefaultLimit)))]
    ensures statement == LimitedStatement(ProductSelect, Join(whereClauses, Conjunction), ProductOrder)
  {
    var n := ClampProductLimit(Given(limit, DefaultLimit));
    whereClauses := CoreExclusions;
    whereClauses := whereClauses + [PositiveSales];
    params := [];

    if Truthy(periodMonth) {
      whereClauses := whereClauses + [PeriodEquals];
      params := params + [Str(periodMonth.value)];
    } else {
      whereClauses := whereClauses + [CurrentPeriod];
    }

    if Truthy(productSearch) {
      whereClauses := whereClauses + [ProductMatch];
      var pattern := Wildcard(productSearch.value);
      params := params + [Str(pattern), Str(pattern), Str(pattern)];
    }

    params := params + [Int(n)];
    var whereSql := Join(whereClauses, Conjunction);
    statement := LimitedStatement(ProductSelect, whereSql, ProductOrder);
    ProductShape(productSearch, periodMonth);
  }
}
