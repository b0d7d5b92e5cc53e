# Margin analytics MCP server: a verified model

`mcp_server.py` is a FastMCP server. It answers margin questions about a
fastener distributor by sending fixed, parameterised SQL to Snowflake. Most
tools send a constant statement. The logic worth modelling is in four places:

- **Forgiving numeric arguments.** `months` and `limit` are clamped into a
  closed range and never rejected.
- **The WHERE-clause builders** of `get_top_customers` and
  `get_product_performance`. Each grows a list of predicate fragments and a
  positional parameter list side by side. It joins the fragments with
  `" AND "` and appends `LIMIT %s` and the clamped limit. The driver
  (pyformat style) then substitutes the parameters into the `%s`
  placeholders from left to right.
- **The margin formula.** Margin is gross profit over revenue, times 100,
  with `NULLIF` turning a zero revenue into NULL. Core margin is the same
  formula over core lines only. TFA drag is TFA gross profit over the
  *total* revenue.
- **The TFA conversion tracker** `get_tfa_conversion_status`. It aggregates
  the current period's FASTENER TOOLS placements per (customer, region) and
  keeps those whose net gross profit is below -500. It left-joins each
  customer's current and comparison-period core revenue, labels the
  customer with a first-match-wins CASE, and orders the result by net gross
  profit.

Modules (one file each):

| module | file | what it holds |
|---|---|---|
| `Wrappers` | Wrappers.dfy | `Option` |
| `Sql` | Sql.dfy | statement templates (`Text` chunks and `%s` slots), pyformat binding `Bind`, `" AND ".join` as `Join`, fragment/value clauses |
| `Clamp` | Clamp.dfy | `max(lo, min(hi, x))` and the three ranges |
| `Filters` | Filters.dfy | the fragment constants, the two builders as imperative methods, their clause lists and binding lemmas |
| `Catalog` | Catalog.dfy | the fixed-template tools that bind values: margin history, account history, subgroup breakdown |
| `Facts` | Facts.dfy | fact lines of FSI_MARGIN_BASE_MAT, WHERE/SUM/GROUP BY as `Filter`/`Sum`/`GroupSum` |
| `Margin` | Margin.dfy | the NULLIF margin, blended/core margin, TFA drag |
| `Conversion` | Conversion.dfy | the conversion tracker: aggregates as maps, CASE, HAVING, ORDER BY, and a line-level reference it is proved equal to |

Design decisions:

- SQL text is a sequence of tokens: literal text, or a `%s` placeholder
  (`Slot`). Whitespace in the multi-line SQL strings is collapsed to single
  spaces.
- Binding is `Bind(template, values)`. It gives `None` when the number of
  values differs from the number of placeholders. Python's driver raises a
  `TypeError` in that case.
- Python truthiness of an optional string is `Truthy`: `None` and `""` are
  both false. So an empty `period_month` also selects the default period.
- Amounts are whole numbers (`int`), and margins are exact `real`s.

The TFA aggregate (mcp_server.py:366-372) groups by customer and region,
while CUR and PRI (mcp_server.py:374-389) group by customer, so a customer
with placements in two regions yields two rows with the same revenue and
status (`Conversion.SameCustomerSameStatus`).

## Model

| member | source | states |
|---|---|---|
| Sql.Bind | mcp_server.py:27-33 | pyformat substitution succeeds exactly when the template has as many `%s` as there are values; on success, erasing the values gives the template back and the values appear in the order given |
| Sql.BindCode | mcp_server.py:32 | binding past a literal token leaves the values untouched |
| Sql.BindSlot | mcp_server.py:32 | binding past a placeholder consumes exactly the first value |
| Sql.PlaceholdersAppend | mcp_server.py:458 | the placeholders of a concatenation are the sum of the parts' placeholders |
| Sql.BindAppend | mcp_server.py:458-478 | when the first part of a statement takes exactly its own values, each part is bound to its own values and nothing shifts across the boundary |
| Sql.PrependCombine | mcp_server.py:32 | prefixing a piece commutes with concatenating two bound parts |
| Sql.CombineAssociative | mcp_server.py:32 | concatenating bound parts is associative, failure included |
| Sql.Fragments | mcp_server.py:434-455 | the fragment list has one entry per clause, in clause order |
| Sql.ClausesAppend | mcp_server.py:437-455 | appending clauses appends their fragments and their values in the same order |
| Sql.Single | mcp_server.py:440-441 | one clause contributes its fragment and its values |
| Sql.BindText | mcp_server.py:168-180 | a statement without placeholders binds to itself with no value |
| Sql.BindJoin | mcp_server.py:458 | joining paired fragments with a placeholder-free separator and binding the concatenated values always succeeds and puts every value into a placeholder of its own clause |
| Sql.BindJoinStep | mcp_server.py:458 | the first fragment, the separator and the rest bind separately when the first fragment takes exactly its own values and the separator none |
| Sql.JoinParity | mcp_server.py:458 | the joined fragments have exactly as many placeholders as the concatenated values |
| Clamp.DefaultsKept | mcp_server.py:77 | a left-out `months` is 6 and a left-out `limit` 20 (mcp_server.py:422, 490); all lie inside their ranges, so clamping keeps them |
| Clamp.ClampTo | mcp_server.py:83 | `max(lo, min(hi, x))` lies in `[lo, hi]`, is the value of the range nearest to `x`, is `x` itself in range and the crossed bound out of range |
| Clamp.ClampIdempotent | mcp_server.py:83 | clamping a clamped value changes nothing |
| Clamp.ClampMonotonic | mcp_server.py:83 | a larger request never yields a smaller clamped value |
| Clamp.ClampMonths | mcp_server.py:83 | history depth is in 1..24, unchanged in range, 1 below it and 24 above it |
| Clamp.ClampCustomerLimit | mcp_server.py:432 | top-customer limit is in 1..100, unchanged in range, nearest bound otherwise |
| Clamp.ClampProductLimit | mcp_server.py:499 | product limit is in 1..50, unchanged in range, nearest bound otherwise |
| Filters.OptionalArg | mcp_server.py:439-455 | an optional string binds one value, the unmodified string, exactly when it is truthy (not `None`, not empty) |
| Filters.Wildcard | mcp_server.py:520 | `f"%{text}%"` is the text with one `%` added at each end |
| Filters.SearchArgs | mcp_server.py:516-521 | a truthy search binds three values, each the wildcarded search text; otherwise none |
| Filters.FragmentPlaceholders | mcp_server.py:440-518 | the period, region and channel fragments hold one `%s` each, the product-search fragment three |
| Filters.TopCustomerClausesPaired | mcp_server.py:434-455 | every fragment `get_top_customers` appends comes with exactly as many values as it has placeholders |
| Filters.ProductClausesPaired | mcp_server.py:500-521 | every fragment `get_product_performance` appends comes with exactly as many values as it has placeholders |
| Filters.ExclusionsUnbound | mcp_server.py:434-436 | the three fixed exclusions are the first fragments and bind no value |
| Filters.PeriodShape | mcp_server.py:439-447 | a truthy period gives `PERIOD_MONTH = %s` with the period as its only value; otherwise the REPORT_CONTROL sub-select with no value |
| Filters.OptionalShape | mcp_server.py:449-455 | an optional region or channel adds its fragment and its value exactly when truthy |
| Filters.SearchShape | mcp_server.py:516-521 | a truthy search adds the three-column LIKE fragment and its three values; otherwise nothing |
| Filters.TopCustomerShape | mcp_server.py:434-455 | the top-customer fragments are the exclusions, the period fragment, then region and channel when given; the values are period?, region?, channel? in that order |
| Filters.ProductShape | mcp_server.py:500-521 | the product fragments are the exclusions, `SALES_AMT > 0`, the period fragment, then the search fragment when given; the values are period? then the pattern three times |
| Filters.WrapBinding | mcp_server.py:458-478 | wrapping a filter between the SELECT and `LIMIT %s` binds the filter to its values and the last value to the LIMIT |
| Filters.LimitedBinding | mcp_server.py:457-478 | a LIMIT statement over paired clauses binds every clause to its own values and the appended limit to `LIMIT %s` |
| Filters.BindLimit | mcp_server.py:477-478 | `LIMIT %s` binds the single limit value |
| Filters.TopCustomersBinding | mcp_server.py:418-478 | for every combination of optional arguments the top-customer statement has one placeholder per parameter, binding succeeds, each optional value lands in its own fragment and the clamped limit fills `LIMIT %s` |
| Filters.ProductBinding | mcp_server.py:487-544 | the same parity and order for the product statement: period value, then the search pattern in the three search placeholders, then the clamped limit |
| Filters.TopCustomersQuery | mcp_server.py:418-478 | the builder, with lists grown step by step: fragments are the exclusions, the period fragment, then region and channel when truthy; parameters are period?, region?, channel?, clamped limit (20 when left out); these are the fragments and values of the clause list that `TopCustomersBinding` is about, and the statement is the joined filter wrapped with `LIMIT %s` |
| Filters.ProductQuery | mcp_server.py:487-544 | the product builder: exclusions, `SALES_AMT > 0`, the period fragment, the search fragment when truthy; parameters are period?, the pattern three times, clamped limit (20 when left out); tied to the clause list of `ProductBinding` |
| Catalog.BindOne | mcp_server.py:152-166 | a statement with one placeholder binds its single value there |
| Catalog.BindTwo | mcp_server.py:335-344 | a statement with two placeholders binds two values in order |
| Catalog.MarginHistoryQuery | mcp_server.py:77-108 | the margin history statement is exactly the fixed text with the clamped month count (6 when left out) in its window offset |
| Catalog.AccountHistoryQuery | mcp_server.py:310-344 | the account statement binds `%name%` in the LIKE placeholder and then the clamped month count (6 when left out) in the window offset, in the exact statement text |
| Catalog.SubgroupQuery | mcp_server.py:145-180 | the exact bound statement: a truthy channel gives the SELECT, the `UPPER(CUSTOMER_TYPE) = UPPER(%s)` filter with the channel in it, and the grouping; otherwise the SELECT and the unfiltered grouping with no value; binding always succeeds |
| Facts.Filter | mcp_server.py:369-370 | a WHERE keeps exactly the lines that satisfy it, every copy of each (a kept line occurs as often as in the input, a dropped one not at all), and never more lines than it is given |
| Facts.SumAppend | mcp_server.py:367 | SUM over two line sets is the sum of their SUMs |
| Facts.GrossProfitSum | mcp_server.py:88-90 | `SUM(SALES_AMT - COGS_AMT)` equals `SUM(SALES_AMT) - SUM(COGS_AMT)`, so GP = REVENUE - COGS |
| Facts.MaskedSum | mcp_server.py:94-97 | summing `CASE WHEN keep THEN amount ELSE 0 END` is summing the amount over the kept lines |
| Facts.SumSplit | mcp_server.py:99 | a sum splits into the kept lines and the rest |
| Facts.GroupSumSpec | mcp_server.py:366-372 | `GROUP BY key` with SUM has an entry for a key exactly when some kept line carries it, and the entry is the sum over those lines |
| Margin.MarginPct | mcp_server.py:91-92 | margin is NULL exactly when revenue is 0, and otherwise margin × revenue = 100 × gross profit |
| Margin.MarginBounds | mcp_server.py:91-92 | positive revenue with a gross profit between 0 and the revenue gives a margin between 0 and 100 |
| Margin.MarginSign | mcp_server.py:91-92 | with positive revenue the margin is negative exactly when gross profit is |
| Margin.MarginAdditive | mcp_server.py:98-100 | over one denominator, the margins of two parts of a gross profit add up |
| Margin.CoreMarginOfCoreLines | mcp_server.py:93-97 | the CASE-masked core margin is the plain margin of the core lines alone |
| Margin.DragSplit | mcp_server.py:98-100 | when a gross profit is split in two parts, its margin over one revenue is NULL exactly when that revenue is 0 and otherwise the sum of the parts' margins |
| Margin.TfaDragDecomposition | mcp_server.py:98-100 | TFA drag is NULL exactly when the total revenue is 0, whatever the TFA revenue, and the blended margin is the drag plus the other lines' share over the same total |
| Margin.TfaDragExample | mcp_server.py:98-100 | total revenue 1000 with a TFA gross profit of -50 gives a drag of -5 points and a blended margin of 20 |
| Conversion.Classify | mcp_server.py:398-404 | exactly one label per input: New Account iff no comparison row; No Revenue Yet iff a comparison row and coalesced current revenue 0; Growing iff a comparison row and nonzero current above prior; Flat / Declining otherwise |
| Conversion.ClassifyExamples | mcp_server.py:398-404 | no prior row and zero current revenue is New Account, not No Revenue Yet; 150 after 100 is Growing; 100 after 100 is Flat / Declining |
| Conversion.DistinctKeys | mcp_server.py:366-371 | the (customer, region) keys of the placement lines, each once |
| Conversion.GroupNonEmpty | mcp_server.py:371 | a group has lines exactly when some kept line carries its key |
| Conversion.KeysAggregated | mcp_server.py:365-372 | every placement key has a TFA aggregate row |
| Conversion.PlacementsOf | mcp_server.py:366-367 | one TFA aggregate row per key, carrying that key's net gross profit |
| Conversion.Qualifying | mcp_server.py:372 | HAVING keeps exactly the placements with net gross profit below -500, and keeps keys distinct |
| Conversion.SortedCons | mcp_server.py:408 | a placement no larger than a sorted list can go in front of it |
| Conversion.Insert | mcp_server.py:408 | insertion keeps ascending net gross profit and adds exactly the new placement |
| Conversion.InsertKeysDistinct | mcp_server.py:408 | inserting a placement with a new key keeps keys distinct |
| Conversion.ConsKeysDistinct | mcp_server.py:371 | a placement with a new key can go in front of a list with distinct keys |
| Conversion.SortByNet | mcp_server.py:408 | `ORDER BY TFA_NET_GP ASC` yields a permutation in ascending order |
| Conversion.SortKeysDistinct | mcp_server.py:408 | sorting keeps keys distinct |
| Conversion.Reports | mcp_server.py:391-404 | one output row per placement, in order |
| Conversion.ReportMatchesReference | mcp_server.py:391-407 | joining the aggregate maps, with COALESCE and the CASE, gives exactly the row computed from the placement's lines and its customer's core lines |
| Conversion.CandidatesSpec | mcp_server.py:365-372 | the TFA aggregate rows carry their lines' net gross profit, keys are distinct, and every key losing more than 500 is among them |
| Conversion.RankedPlacementsSpec | mcp_server.py:365-408 | the placements behind the output are consistent with their lines, all qualify, every qualifying key is present once, and they are in ascending order of net gross profit |
| Conversion.OutputFollowsRanking | mcp_server.py:391-408 | output row i reports on placement i of the ranking |
| Conversion.ConversionRowsSpec | mcp_server.py:360-409 | every output row equals the row computed directly from the fact lines: placement cost, current revenue and margin (0 when NULL), prior revenue and status |
| Conversion.MembershipOf | mcp_server.py:365-372 | a (customer, region) appears iff its current-period FASTENER TOOLS lines net strictly below -500 |
| Conversion.ConversionMembership | mcp_server.py:365-372 | the same, for every (customer, region) |
| Conversion.ConversionDistinct | mcp_server.py:366-371 | no (customer, region) appears twice |
| Conversion.ConversionOrder | mcp_server.py:394-408 | every placement cost exceeds 500 and costs are non-increasing down the result |
| Conversion.SameCustomerSameStatus | mcp_server.py:374-407 | two rows of the same customer, whatever their regions, report the same revenue, margin, prior revenue and status |

## Left out

- Snowflake connection handling (`get_conn`, `run_query`), credentials and environment variables: I/O. The driver's substitution is modelled as `Sql.Bind`. The rows a statement returns are not.
- FastMCP registration, the HTTP transport and `json.dumps(..., default=str)`: framework and library plumbing.
- The tools that send a constant statement with no parameter (`get_margin_summary`, `get_channel_performance`, `get_regional_performance`, `get_tfa_analysis`, `get_price_realization`, `get_margin_bridge`, `get_report_config`): there is nothing to bind. Their computation lives in database views not shown.
- Executing SQL in general. Only the conversion tracker's statement and the margin expressions are given a semantics (`Facts`, `Margin`, `Conversion`). The other statements are modelled as text with placeholders and bound values.
- `ROUND(..., 2)` on percentages: margins are exact reals. `ROUND(ABS(x), 0)` is the absolute value because amounts are whole numbers.
- The `DATEADD`/`CURRENT_DATE()` history window: depends on the database clock. The model only fixes which value fills its placeholder.
- LIKE and UPPER semantics (case-insensitive matching): string matching inside the database.
- NULL amounts, NULL flags and NULL customer names in the fact table: amounts are `int`, flags `bool`, names `string`.
- The REPORT_CONTROL table is modelled as exactly one row (`Conversion.Config`). With several rows the CROSS JOIN would multiply the sums.
- Sql.Bind: literal SQL text is assumed free of `%`. The `%%` escape of pyformat is not modelled. No statement in the file contains a literal `%`.
- Filters.TopCustomersQuery: that omitting the period equals passing the current period from REPORT_CONTROL is a statement about query results. It is not proved. The model proves only which fragment and which value each choice produces.
- Conversion.SortByNet: ties in net gross profit are ordered by the model (insertion order). The database leaves them unspecified. The lemmas use only the ascending order.
