/**
 * The tools whose statements are fixed text with a fixed set of
 * placeholders: the margin history, the account history and the subgroup
 * breakdown. Each is a statement plus the values the tool binds to it.
 */
module Catalog {
  import opened Wrappers
  import opened Sql
  import opened Clamp
  import opened Filters

  datatype Query = Query(statement: Template, params: seq<Value>)

  // Whitespace of the source's statements is normalised to single spaces.
  const MarginHistorySelect :=
    "SELECT PERIOD_MONTH, COUNT(*) AS ROW_COUNT, SUM(SALES_AMT) AS REVENUE, SUM(COGS_AMT) AS COGS, "
    + "SUM(SALES_AMT - COGS_AMT) AS GP, "
    + "ROUND(SUM(SALES_AMT - COGS_AMT) / NULLIF(SUM(SALES_AMT), 0) * 100, 2) AS BLENDED_MARGIN_PCT, "
    + "ROUND( SUM(CASE WHEN NOT IS_TFA AND NOT IS_SERVICE AND NOT IS_PERIOD_CROSSOVER THEN SALES_AMT - COGS_AMT ELSE 0 END) "
    + "/ NULLIF(SUM(CASE WHEN NOT IS_TFA AND NOT IS_SERVICE AND NOT IS_PERIOD_CROSSOVER THEN SALES_AMT ELSE 0 END), 0) * 100, 2) AS CORE_MARGIN_PCT, "
    + "ROUND( SUM(CASE WHEN IS_TFA THEN SALES_AMT - COGS_AMT ELSE 0 END) / NULLIF(SUM(SALES_AMT), 0) * 100, 2) AS TFA_DRAG_PP "
    + "FROM NETSUITE.FINANCIALS.FSI_MARGIN_BASE_MAT "
    + "WHERE PERIOD_MONTH >= TO_VARCHAR( DATEADD('month', -"
  const MarginHistoryRest :=
    ", DATE_TRUNC('month', CURRENT_DATE())), 'YYYY-MM' ) GROUP BY PERIOD_MONTH ORDER BY PERIOD_MONTH DESC"

  const AccountHistorySelect :=
    "SELECT PERIOD_MONTH, PARENTNAME, CUSTOMER_TYPE, CUSTOMER_SUBTYPE, CUSTOMER_TIER, PRICE_BRANCH_REGION AS REGION, "
    + "SUM(SALES_AMT) AS REVENUE, SUM(COGS_AMT) AS COGS, SUM(SALES_AMT - COGS_AMT) AS GP, "
    + "ROUND(SUM(SALES_AMT - COGS_AMT) / NULLIF(SUM(SALES_AMT), 0) * 100, 2) AS MARGIN_PCT, "
    + "SUM(CASE WHEN IS_TFA THEN SALES_AMT - COGS_AMT ELSE 0 END) AS TFA_GP, "
    + "COUNT(DISTINCT ITEM_SN2) AS DISTINCT_PRODUCTS, SUM(SALES_QTY) AS TOTAL_QTY "
    + "FROM NETSUITE.FINANCIALS.FSI_MARGIN_BASE_MAT WHERE UPPER(PARENTNAME) LIKE UPPER("
  const AccountHistoryWindow := ") AND PERIOD_MONTH >= TO_VARCHAR( DATEADD('month', -"
  const AccountHistoryRest :=
    ", DATE_TRUNC('month', CURRENT_DATE())), 'YYYY-MM' ) AND NOT IS_TFA AND NOT IS_SERVICE "
    + "GROUP BY 1, 2, 3, 4, 5, 6 ORDER BY PERIOD_MONTH DESC, SUM(SALES_AMT) DESC"

  const SubgroupSelect :=
    "SELECT PERIOD_LABEL, CUSTOMER_TYPE AS CHANNEL, CUSTOMER_SUBTYPE AS SUBGROUP, "
    + "ROUND(SUM(REVENUE), 0) AS REVENUE, ROUND(SUM(GROSS_PROFIT), 0) AS GP, "
    + "ROUND(SUM(GROSS_PROFIT)/NULLIF(SUM(REVENUE),0)*100, 2) AS MARGIN_PCT, "
    + "ROUND(SUM(GP_PER_DAY), 0) AS GP_PER_DAY FROM NETSUITE.FINANCIALS.V_CHANNEL_MARGIN"
  const SubgroupChannelFilter := " WHERE UPPER(CUSTOMER_TYPE) = UPPER("
  const SubgroupChannelRest := ") GROUP BY 1, 2, 3 ORDER BY PERIOD_LABEL, SUM(REVENUE) DESC"
  const SubgroupAllRest := " GROUP BY 1, 2, 3 ORDER BY PERIOD_LABEL, CUSTOMER_TYPE, SUM(REVENUE) DESC"

  lemma BindOne(a: string, v: Value, b: string)
    ensures Bind([Text(a), Slot, Text(b)], [v]) == Some([Code(a), Bound(v), Code(b)])
  {
    BindText(b);
    BindSlot([Text(b)], v, []);
    assert [v] + [] == [v];
    assert [Slot] + [Text(b)] == [Slot, Text(b)];
    assert [Bound(v)] + [Code(b)] == [Bound(v), Code(b)];
    BindCode(a, [Slot, Text(b)], [v]);
    assert [Text(a)] + [Slot, Text(b)] == [Text(a), Slot, Text(b)];
    assert [Code(a)] + [Bound(v), Code(b)] == [Code(a), Bound(v), Code(b)];
  }

  lemma BindTwo(a: string, v: Value, b: string, w: Value, c: string)
    ensures Bind([Text(a), Slot, Text(b), Slot, Text(c)], [v, w])
         == Some([Code(a), Bound(v), Code(b), Bound(w), Code(c)])
  {
    var rest: Template := [Text(b), Slot, Text(c)];
    BindOne(b, w, c);
    BindSlot(rest, v, [w]);
    assert [v] + [w] == [v, w];
    BindCode(a, [Slot] + rest, [v, w]);
    assert [Text(a)] + ([Slot] + rest) == [Text(a), Slot, Text(b), Slot, Text(c)];
    assert [Code(a)] + ([Bound(v)] + [Code(b), Bound(w), Code(c)]) == [Code(a), Bound(v), Code(b), Bound(w), Code(c)];
  }

  /**
   * `get_margin_history`: one placeholder, the month offset of the history
   * window, filled with the clamped month count (6 when left out).
   */
  function MarginHistoryQuery(months: Option<int>): (q: Query)
    ensures Bind(q.statement, q.params)
         == Some([Code(MarginHistorySelect), Bound(Int(ClampMonths(Given(months, DefaultMonths)))), Code(MarginHistoryRest)])
  {
    BindOne(MarginHistorySelect, Int(ClampMonths(Given(months, DefaultMonths))), MarginHistoryRest);
    Query([Text(MarginHistorySelect), Slot, Text(MarginHistoryRest)], [Int(ClampMonths(Given(months, DefaultMonths)))])
  }

  /**
   * `get_account_history`: the account name, wrapped in wildcards, fills
   * the LIKE placeholder and the clamped month count (6 when left out) the
   * window offset.
   */
  function AccountHistoryQuery(accountName: string, months: Option<int>): (q: Query)
    ensures Bind(q.statement, q.params)
         == Some([Code(AccountHistorySelect), Bound(Str(Wildcard(accountName))), Code(AccountHistoryWindow),
                  Bound(Int(ClampMonths(Given(months, DefaultMonths)))), Code(AccountHistoryRest)])
  {
    var v := Str(Wildcard(accountName));
    var w := Int(ClampMonths(Given(months, DefaultMonths)));
    BindTwo(AccountHistorySelect, v, AccountHistoryWindow, w, AccountHistoryRest);
    Query([Text(AccountHistorySelect), Slot, Text(AccountHistoryWindow), Slot, Text(AccountHistoryRest)], [v, w])
  }

  /**
   * `get_subgroup_performance`: a truthy channel selects the filtered
   * statement and is its only value; otherwise the unfiltered statement is
   * sent with no value.
   */
  function SubgroupQuery(channel: Option<string>): (q: Query)
    ensures Bind(q.statement, q.params)
         == if Truthy(channel)
            then Some([Code(SubgroupSelect + SubgroupChannelFilter), Bound(Str(channel.value)), Code(SubgroupChannelRest)])
            else Some([Code(SubgroupSelect + SubgroupAllRest)])
    ensures Bind(q.statement, q.params).Some?
    ensures BoundValues(Bind(q.statement, q.params).value) == OptionalArg(channel)
    ensures Placeholders(q.statement) == (if Truthy(channel) then 1 else 0)
  {
    if Truthy(channel) then
      BindOne(SubgroupSelect + SubgroupChannelFilter, Str(channel.value), SubgroupChannelRest);
      Query([Text(SubgroupSelect + SubgroupChannelFilter), Slot, Text(SubgroupChannelRest)], [Str(channel.value)])
    else
      BindText(SubgroupSelect + SubgroupAllRest);
      Query([Text(SubgroupSelect + SubgroupAllRest)], [])
  }
}
